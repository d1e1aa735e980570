/** The texts under which connections are compared. */
module ConnectionKeys {
  import opened Common
  import opened Process
  import opened Text
  import opened Mountpoints

  function LowerAll(s: string): string {
    seq(|s|, i requires 0 <= i < |s| => Lower(s[i]))
  }

  function DigitsValue(s: string): Option<nat> {
    if s == "" then Some(0)
    else
      var c := s[|s| - 1];
      match DigitsValue(s[..|s| - 1])
      case Some(n) => if '0' <= c <= '9' then Some(10 * n + (c as nat - '0' as nat)) else None
      case None => None
  }

  /** The number of a positive `u16` text, which may start with a plus sign. */
  function PortNumber(value: string): Option<string> {
    var text := Trim(value);
    var digits := if "+" <= text then text[1..] else text;
    match DigitsValue(digits)
    case Some(n) => if digits != "" && 0 < n < 65536 then Some(Decimal(n)) else None
    case None => None
  }

  function PortText(value: string): string {
    match PortNumber(value)
    case Some(number) => number
    case None => Trim(value)
  }

  /** Host, user and port. */
  function Login(host: string, user: string, port: string): (string, string, string) {
    (LowerAll(Trim(host)), Trim(user), PortText(port))
  }

  function TrimSlashes(s: string): string {
    TrimEnd(TrimStart(s, '/'), '/')
  }

  function RemotePathText(value: string): string {
    if value == "~" then ""
    else if "~/" <= value then TrimSlashes(value[2..])
    else if "/" <= value then "/" + TrimSlashes(value)
    else TrimSlashes(value)
  }

  function MountpointText(mountpoint: string): string {
    var value := Trim(mountpoint);
    if EqualsAuto(value) then ""
    else if value == HOME_MOUNTPOINT_VALUE || WindowsDrive(value).Some? then TrimSeparators(value)
    else value
  }

  function TrimSeparators(s: string): string {
    if s != "" && (s[|s| - 1] == '\\' || s[|s| - 1] == '/') then TrimSeparators(s[..|s| - 1]) else s
  }

  /** What tells connections apart: host, user, port and the texts of the primary paths. */
  function TargetKey(host: string, user: string, port: string, remotePath: string, mountpoint: string)
    : ((string, string, string), string, string)
  {
    (Login(host, user, port), RemotePathText(remotePath), MountpointText(mountpoint))
  }
}
