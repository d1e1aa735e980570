/** The pages of mount directories: what a reply must satisfy before anybody sees it. */
module MountRoots {
  import opened Common
  import opened Text

  datatype Error = DirectoryChanged | Contract | Expired | KeyRevoked | KeyExpired | OtherError

  datatype MountRoot = MountRoot(id: string, displayName: string, path: string)

  datatype MountRootPage = MountRootPage(schemaVersion: string, siteId: string, items: seq<MountRoot>,
                                         nextCursor: Option<string>)

  const SCHEMA: string := "ssh.mount-roots/v1"

  const PAGE_SIZE: nat := 20

  function Utf8Length(s: string): nat {
    if s == "" then 0
    else
      (if s[0] < '\U{80}' then 1 else if s[0] < '\U{800}' then 2 else if s[0] < '\U{10000}' then 3 else 4)
      + Utf8Length(s[1..])
  }

  predicate PlainText(value: string) {
    Trim(value) != "" && forall c <- value :: !Control(c)
  }

  predicate DisplayValue(value: string, limit: nat) {
    PlainText(value) && Utf8Length(value) <= limit
  }

  predicate ValidItem(item: MountRoot) {
    && DisplayValue(item.id, 255)
    && PlainText(item.displayName) && |item.displayName| <= 2048
    && PlainText(item.path) && |item.path| <= 4096
    && "/" <= item.path && item.path != "/"
    && "." !in Split(item.path, '/') && ".." !in Split(item.path, '/')
  }

  predicate ValidItems(items: seq<MountRoot>) {
    forall item <- items :: ValidItem(item)
  }

  predicate DistinctIds(items: seq<MountRoot>) {
    forall i, j :: 0 <= i < j < |items| ==> items[i].id != items[j].id
  }

  predicate ValidHead(page: MountRootPage, site: string, cursor: Option<string>) {
    && page.schemaVersion == SCHEMA && page.siteId == site && |page.items| <= PAGE_SIZE
    && (page.nextCursor.Some? ==> DisplayValue(page.nextCursor.value, 101) && page.nextCursor != cursor)
  }

  predicate ValidPage(page: MountRootPage, site: string, cursor: Option<string>) {
    ValidHead(page, site, cursor) && DistinctIds(page.items) && ValidItems(page.items)
  }

  method Validate(page: MountRootPage, site: string, cursor: Option<string>) returns (ok: bool)
    ensures ok <==> ValidPage(page, site, cursor)
  {
    if !ValidHead(page, site, cursor) { return false; }
    var ids: set<string> := {};
    for i := 0 to |page.items|
      invariant ids == set k | 0 <= k < i :: page.items[k].id
      invariant DistinctIds(page.items[..i]) && ValidItems(page.items[..i])
    {
      assert page.items[..i + 1] == page.items[..i] + [page.items[i]];
      if page.items[i].id in ids || !ValidItem(page.items[i]) { return false; }
      ids := ids + {page.items[i].id};
    }
    assert page.items[..|page.items|] == page.items;
    ok := true;
  }

  /** A fetched page as the setup receives it: one that does not validate is an error. */
  function Received(fetched: Result<MountRootPage, Error>, site: string, cursor: Option<string>)
    : Result<MountRootPage, Error>
  {
    if fetched.Ok? && !ValidPage(fetched.value, site, cursor) then Err(Contract) else fetched
  }
}
