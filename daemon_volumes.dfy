/** Parsing of the daemon's volume specifications: `-v source:destination[:mode]` bind mounts
    and `--volumes-from container[:mode]`, and the accepted mount modes. */
module DaemonVolumes {
  import opened Wrappers
  import opened GoStrings
  import opened FilePath

  datatype BindMount = BindMount(source: string, destination: string, rw: bool)

  datatype SpecError =
    | InvalidVolumeSpec(spec: string)        // not 2 or 3 colon-separated parts
    | NotAbsolute(source: string)            // a bind source must be an absolute path
    | MalformedVolumesFrom(spec: string)
    | InvalidVolumesFromMode(mode: string)

  /** The mode table of validMountMode. */
  const ValidModes: map<string, bool> := map["rw" := true, "ro" := true]

  /** validMountMode: a lookup in the table, where a missing key reads as false. */
  predicate ValidMountMode(mode: string)
    ensures ValidMountMode(mode) <==> mode == "rw" || mode == "ro"
  {
    mode in ValidModes && ValidModes[mode]
  }

  /** parseBindMount: split on every ':'. Two parts bind read-write; with three, the mount is
      read-write only for the mode "rw" (an unknown mode gives read-only, not an error). The
      source must be absolute; both paths come back cleaned. */
  function ParseBindMount(spec: string): (r: Result<BindMount, SpecError>)
    ensures var arr := Split(spec, ':');
      && (|arr| != 2 && |arr| != 3 ==> r == Failure(InvalidVolumeSpec(spec)))
      && ((|arr| == 2 || |arr| == 3) && !IsAbs(arr[0]) ==> r == Failure(NotAbsolute(arr[0])))
      && (r.Success? <==> (|arr| == 2 || |arr| == 3) && IsAbs(arr[0]))
      && (r.Success? ==>
            && r.value.source == Clean(arr[0]) && r.value.destination == Clean(arr[1])
            && IsAbs(r.value.source)
            && (r.value.rw <==> |arr| == 2 || arr[2] == "rw"))
  {
    var arr := Split(spec, ':');
    if |arr| != 2 && |arr| != 3 then Failure(InvalidVolumeSpec(spec))
    else
      var rw := if |arr| == 2 then true else ValidMountMode(arr[2]) && arr[2] == "rw";
      var bind := BindMount(arr[0], arr[1], rw);
      if !IsAbs(bind.source) then Failure(NotAbsolute(bind.source))
      else Success(bind.(source := Clean(bind.source), destination := Clean(bind.destination)))
  }

  /** A colon-free absolute source and colon-free destination join into a spec that parses
      back into them, read-write. */
  lemma ParseBindMountTwoParts(src: string, dst: string)
    requires ':' !in src && ':' !in dst && IsAbs(src)
    ensures ParseBindMount(src + ":" + dst) == Success(BindMount(Clean(src), Clean(dst), true))
  {
    SplitJoin([src, dst], ':');
    assert [src, dst][1..] == [dst];
    assert Join([src, dst], ":") == src + ":" + dst;
  }

  /** With a mode, the bind is read-write exactly for "rw"; "ro" and any unknown mode give a
      read-only bind and no error. */
  lemma ParseBindMountThreeParts(src: string, dst: string, mode: string)
    requires ':' !in src && ':' !in dst && ':' !in mode && IsAbs(src)
    ensures ParseBindMount(src + ":" + dst + ":" + mode) ==
      Success(BindMount(Clean(src), Clean(dst), mode == "rw"))
  {
    SplitJoin([src, dst, mode], ':');
    assert [src, dst, mode][1..] == [dst, mode] && [dst, mode][1..] == [mode];
    assert Join([dst, mode], ":") == dst + ":" + mode;
    assert Join([src, dst, mode], ":") == src + ":" + dst + ":" + mode;
  }

  /** parseVolumesFrom: the container id before the first ':', and the rest as the mode
      ("rw" when there is no ':'); a mode other than "rw" or "ro" is an error. */
  function ParseVolumesFrom(spec: string): (r: Result<(string, string), SpecError>)
    ensures ':' !in spec ==> r == Success((spec, "rw"))
    ensures ':' in spec ==> var parts := SplitN2(spec, ':');
      && (ValidMountMode(parts[1]) ==> r == Success((parts[0], parts[1])))
      && (!ValidMountMode(parts[1]) ==> r == Failure(InvalidVolumesFromMode(parts[1])))
    ensures r.Success? ==> ValidMountMode(r.value.1) && ':' !in r.value.0
  {
    var specParts := SplitN2(spec, ':');
    // strings.SplitN with a limit of 2 never returns zero parts, so this guard never fires
    if |specParts| == 0 then Failure(MalformedVolumesFrom(spec))
    else
      var id := specParts[0];
      if |specParts| == 2 then
        var mode := specParts[1];
        if !ValidMountMode(mode) then Failure(InvalidVolumesFromMode(mode))
        else Success((id, mode))
      else Success((id, "rw"))
  }

  /** A container id with a mode parses back into the two; the mode is everything after the
      first ':', so a mode holding another ':' is never valid. */
  lemma ParseVolumesFromJoin(id: string, mode: string)
    requires ':' !in id
    ensures ParseVolumesFrom(id + ":" + mode) ==
      if mode == "rw" || mode == "ro" then Success((id, mode)) else Failure(InvalidVolumesFromMode(mode))
  {
    SplitN2Join(id, ':', mode);
  }
}
