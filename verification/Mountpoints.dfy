/** Handing out mountpoints: automatic drives and folders, and custom paths, none of them twice. */
module Mountpoints {
  import opened Common
  import opened Process
  import opened Text

  const HOME_MOUNTPOINT_VALUE: string := "__home_mnt__"

  const WINDOWS_AUTO_DRIVES: string := "ZYXWVUTSRQPONMLKJIHGFED"

  datatype VolumeKind = Fixed | MissingVolume | OtherVolume

  datatype MountpointError =
    | OccupancyUnreadable | NoFreeDrive | NoUniqueFolder | DriveInUse | NotAbsolute | WindowsUncPath | AlreadyReserved
    | WindowsTargetExists | ParentMissing | VolumeMissing | VolumeUnsupported | NotDirectory

  /** What the host answers during one call. */
  datatype Probe = Probe(
    occupancy: Result<bv32, ()>, exists_: string -> bool, isDir: string -> bool, isMount: string -> bool,
    volume: string -> VolumeKind)

  function Upper(c: char): char {
    if 'a' <= c <= 'z' then c - 32 as char else c
  }

  predicate Letter(c: char) {
    'a' <= c <= 'z' || 'A' <= c <= 'Z'
  }

  function LetterIndex(drive: char): (i: nat)
    requires Letter(drive)
    ensures i < 26
  {
    Upper(drive) as nat - 'A' as nat
  }

  predicate DriveIsOccupied(mask: bv32, drive: char)
    requires Letter(drive)
  {
    mask & ((1 as bv32) << LetterIndex(drive)) != 0
  }

  function DrivePath(drive: char): string {
    [drive, ':']
  }

  function Key(path: string, windows: bool): string {
    PathKey(path, windows)
  }

  predicate AutoDrive(drive: char) {
    'D' <= drive <= 'Z'
  }

  const DRIVES: nat := 23

  /** The automatic letters are D to Z, the last one first. */
  function AutoLetter(i: nat): (drive: char)
    requires i < DRIVES
    ensures drive == WINDOWS_AUTO_DRIVES[i] && drive as int == 'Z' as int - i && AutoDrive(drive)
  {
    'Z' - i as char
  }

  predicate EqualsAuto(value: string) {
    |value| == 4 && Lower(value[0]) == 'a' && Lower(value[1]) == 'u' && Lower(value[2]) == 't' && Lower(value[3]) == 'o'
  }

  function WindowsDrive(value: string): (r: Option<char>)
    ensures r.Some? ==> 'A' <= r.value <= 'Z'
  {
    if (|value| == 2 || (|value| == 3 && (value[2] == '\\' || value[2] == '/'))) && value[1] == ':' && Letter(value[0])
    then Some(Upper(value[0])) else None
  }

  /** A path below another one; a rooted path stays what it is. */
  function JoinPath(base: string, rest: string): string {
    if "/" <= rest then rest
    else if base != "" && base[|base| - 1] == '/' then base + rest
    else base + "/" + rest
  }

  function ExpandHome(path: string, home: string): string {
    if path == "~" then home
    else if "~/" <= path || "~\\" <= path then JoinPath(home, path[2..])
    else path
  }

  predicate IsUnc(path: string) {
    "\\\\" <= path || "//" <= path
  }

  predicate IsAbsolute(path: string, windows: bool) {
    if !windows then "/" <= path
    else (|path| >= 3 && Letter(path[0]) && path[1] == ':' && (path[2] == '\\' || path[2] == '/')) || IsUnc(path)
  }

  function LastSeparator(path: string): Option<nat> {
    if path == "" then None
    else if path[|path| - 1] == '\\' || path[|path| - 1] == '/' then Some(|path| - 1)
    else LastSeparator(path[..|path| - 1])
  }

  function WindowsParent(path: string): string {
    match LastSeparator(path)
    case Some(i) => if i == 2 && |path| > 2 then path[..3] else if i <= |path| then path[..i] else ""
    case None => ""
  }

  function ValidateCustom(path: string, windows: bool, probe: Probe, reserved: set<string>): Option<MountpointError> {
    if !IsAbsolute(path, windows) then Some(NotAbsolute)
    else if windows && IsUnc(path) then Some(WindowsUncPath)
    else if Key(path, windows) in reserved then Some(AlreadyReserved)
    else if windows && probe.exists_(path) then Some(WindowsTargetExists)
    else if probe.isMount(path) then Some(AlreadyReserved)
    else if windows then
      if !probe.exists_(WindowsParent(path)) then Some(ParentMissing)
      else match probe.volume(WindowsParent(path))
        case Fixed => None
        case MissingVolume => Some(VolumeMissing)
        case OtherVolume => Some(VolumeUnsupported)
    else if probe.exists_(path) && !probe.isDir(path) then Some(NotDirectory)
    else None
  }

  function FolderCandidate(home: string, folder: string, index: nat): string {
    JoinPath(JoinPath(home, "mnt"), if index == 1 then folder else folder + "-" + Decimal(index))
  }

  predicate FolderFree(candidate: string, windows: bool, probe: Probe, reserved: set<string>) {
    && Key(candidate, windows) !in reserved
    && !(windows && probe.exists_(candidate)) && !probe.isMount(candidate)
    && !(!windows && probe.exists_(candidate) && !probe.isDir(candidate))
  }

  /** A letter that automatic allocation cannot use. */
  predicate Taken(mask: bv32, drive: char, reserved: set<string>)
    requires Letter(drive)
  {
    DriveIsOccupied(mask, drive) || Key(DrivePath(drive), true) in reserved
  }

  /** The highest free letter from D to Z; an error exactly when the letters in use are unknown
      or leave none. */
  ghost predicate DriveAllotted(probe: Probe, reserved: set<string>, r: Result<string, MountpointError>) {
    match r
    case Ok(path) => probe.occupancy.Ok? && exists d ::
      && AutoDrive(d) && path == DrivePath(d) && !Taken(probe.occupancy.value, d, reserved)
      && forall e | AutoDrive(e) && e > d :: Taken(probe.occupancy.value, e, reserved)
    case Err(error) =>
      if probe.occupancy.Err? then error == OccupancyUnreadable
      else error == NoFreeDrive && forall d | AutoDrive(d) :: Taken(probe.occupancy.value, d, reserved)
  }

  /** The first free one of the numbered folders below the home; an error exactly when none is free. */
  ghost predicate FolderAllotted(
    home: string, windows: bool, folder: string, probe: Probe, reserved: set<string>,
    r: Result<string, MountpointError>)
  {
    match r
    case Ok(path) => exists i: nat ::
      && 1 <= i < 1000 && path == FolderCandidate(home, folder, i) && FolderFree(path, windows, probe, reserved)
      && forall k: nat :: 1 <= k < i ==> !FolderFree(FolderCandidate(home, folder, k), windows, probe, reserved)
    case Err(error) =>
      && error == NoUniqueFolder
      && forall k: nat :: 1 <= k < 1000 ==> !FolderFree(FolderCandidate(home, folder, k), windows, probe, reserved)
  }

  /** The drive asked for, unless it is reserved or occupied, or nobody can tell. */
  predicate NamedDrive(drive: char, probe: Probe, reserved: set<string>, r: Result<string, MountpointError>)
    requires Letter(drive)
  {
    if r.Ok? then r.value == DrivePath(drive) && probe.occupancy.Ok? && !Taken(probe.occupancy.value, drive, reserved)
    else if Key(DrivePath(drive), true) in reserved then r.error == DriveInUse
    else if probe.occupancy.Err? then r.error == OccupancyUnreadable
    else r.error == DriveInUse && DriveIsOccupied(probe.occupancy.value, drive)
  }

  /** What each kind of configured value is answered with, errors included. */
  ghost predicate Allotted(
    home: string, windows: bool, configured: string, folder: string, probe: Probe, reserved: set<string>,
    r: Result<string, MountpointError>)
  {
    var automatic := configured == "" || EqualsAuto(configured);
    if automatic && windows then DriveAllotted(probe, reserved, r)
    else if automatic || configured == HOME_MOUNTPOINT_VALUE
    then FolderAllotted(home, windows, folder, probe, reserved, r)
    else if windows && WindowsDrive(configured).Some?
    then NamedDrive(WindowsDrive(configured).value, probe, reserved, r)
    else var path := ExpandHome(configured, home);
      match ValidateCustom(path, windows, probe, reserved)
      case Some(error) => r == Err(error)
      case None => r == Ok(path)
  }

  class MountpointAllocator {
    const home: string
    const windows: bool
    var reserved: set<string>
    ghost var returned: seq<string>

    /** Everything handed out is reserved, and no two of it are the same target. */
    ghost predicate Valid()
      reads this
    {
      && (forall i :: 0 <= i < |returned| ==> Key(returned[i], windows) in reserved)
      && forall i, j :: 0 <= i < j < |returned| ==> Key(returned[i], windows) != Key(returned[j], windows)
    }

    constructor (home: string, windows: bool)
      ensures Valid() && reserved == {} && returned == [] && this.home == home && this.windows == windows
    {
      this.home, this.windows, reserved, returned := home, windows, {}, [];
    }

    method Reserve(path: string)
      requires Valid()
      modifies this`reserved
      ensures Valid() && reserved == old(reserved) + {Key(path, windows)}
    {
      reserved := reserved + {Key(path, windows)};
    }

    /** The highest free letter; none exactly when every letter from D to Z is taken. */
    method AllocateWindowsDrive(probe: Probe) returns (r: Result<string, MountpointError>)
      ensures DriveAllotted(probe, reserved, r)
    {
      if probe.occupancy.Err? { return Err(OccupancyUnreadable); }
      var drive := FindDrive(probe.occupancy.value);
      if drive.None? { return Err(NoFreeDrive); }
      r := Ok(DrivePath(drive.value));
      assert Fresh(r.value, true, probe, reserved);
    }

    method FindDrive(mask: bv32) returns (r: Option<char>)
      ensures r.Some? ==> AutoDrive(r.value) && !Taken(mask, r.value, reserved)
      ensures forall e | AutoDrive(e) && (r.Some? ==> e > r.value) :: Taken(mask, e, reserved)
    {
      for i := 0 to DRIVES
        invariant forall e | AutoDrive(e) && e as int > 'Z' as int - i :: Taken(mask, e, reserved)
      {
        var drive := AutoLetter(i);
        if !DriveIsOccupied(mask, drive) && Key(DrivePath(drive), true) !in reserved { return Some(drive); }
      }
      r := None;
    }

    method AllocateHomeFolder(folder: string, probe: Probe) returns (r: Result<string, MountpointError>)
      ensures FolderAllotted(home, windows, folder, probe, reserved, r)
    {
      for index := 1 to 1000
        invariant forall i :: 1 <= i < index ==> !FolderFree(FolderCandidate(home, folder, i), windows, probe, reserved)
      {
        var candidate := FolderCandidate(home, folder, index);
        if || Key(candidate, windows) in reserved
           || (windows && probe.exists_(candidate))
           || probe.isMount(candidate) { continue; }
        if !windows && probe.exists_(candidate) && !probe.isDir(candidate) { continue; }
        return Ok(candidate);
      }
      r := Err(NoUniqueFolder);
    }

    method ResolveDrive(drive: char, probe: Probe) returns (r: Result<string, MountpointError>)
      requires 'A' <= drive <= 'Z' && windows
      ensures NamedDrive(drive, probe, reserved, r)
    {
      if Key(DrivePath(drive), windows) in reserved { return Err(DriveInUse); }
      if probe.occupancy.Err? { return Err(OccupancyUnreadable); }
      r := if DriveIsOccupied(probe.occupancy.value, drive) then Err(DriveInUse) else Ok(DrivePath(drive));
    }

    method Choose(mountpoint: string, folder: string, probe: Probe) returns (r: Result<string, MountpointError>)
      ensures r.Ok? ==> Fresh(r.value, windows, probe, reserved)
      ensures Allotted(home, windows, Trim(mountpoint), folder, probe, reserved, r)
    {
      var configured := Trim(mountpoint);
      if configured == "" || EqualsAuto(configured) {
        if windows { r := AllocateWindowsDrive(probe); } else { r := AllocateHomeFolder(folder, probe); }
      } else if configured == HOME_MOUNTPOINT_VALUE {
        r := AllocateHomeFolder(folder, probe);
      } else if windows && WindowsDrive(configured).Some? {
        r := ResolveDrive(WindowsDrive(configured).value, probe);
      } else {
        var path := ExpandHome(configured, home);
        var error := ValidateCustom(path, windows, probe, reserved);
        if error.None? { CustomFresh(path, windows, probe, reserved); }
        r := if error.Some? then Err(error.value) else Ok(path);
      }
    }

    /** The mountpoint for a configured value, which from then on is reserved. */
    method Resolve(mountpoint: string, folder: string, probe: Probe) returns (r: Result<string, MountpointError>)
      requires Valid()
      modifies this
      ensures Valid()
      ensures r.Err? ==> reserved == old(reserved) && returned == old(returned)
      ensures r.Ok? ==> Fresh(r.value, windows, probe, old(reserved))
      ensures r.Ok? ==> reserved == old(reserved) + {Key(r.value, windows)} && returned == old(returned) + [r.value]
      ensures Allotted(home, windows, Trim(mountpoint), folder, probe, old(reserved), r)
    {
      r := Choose(mountpoint, folder, probe);
      if r.Ok? {
        Reserve(r.value);
        returned := returned + [r.value];
      }
    }
  }

  predicate IsDrive(path: string) {
    |path| == 2 && Letter(path[0]) && path[1] == ':'
  }

  /** Not reserved, and if it is a drive then one whose occupancy bit is clear. */
  predicate Fresh(path: string, windows: bool, probe: Probe, reserved: set<string>) {
    && Key(path, windows) !in reserved
    && (windows && IsDrive(path) ==> probe.occupancy.Ok? && !DriveIsOccupied(probe.occupancy.value, path[0]))
  }

  /** A custom path that passes is never a bare drive. */
  lemma CustomFresh(path: string, windows: bool, probe: Probe, reserved: set<string>)
    requires ValidateCustom(path, windows, probe, reserved).None?
    ensures Fresh(path, windows, probe, reserved)
  {
  }
}
