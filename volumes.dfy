/** Volume preparation of a container before it starts: the host binds it requests, the
    volumes it inherits from other containers (`volumes-from`), the volumes it declares, and the
    list of mounts handed to the execution driver.

    The file system (MkdirAll, Stat, EvalSymlinks, the volumes graph driver, the mount
    syscalls) is an oracle: its answers are parameters, keyed by the path they concern. */
module Volumes {
  import opened Wrappers
  import opened GoStrings
  import opened FilePath

  /** A requested host bind: host path, container path and mode text. */
  datatype BindMap = BindMap(srcPath: string, dstPath: string, mode: string)

  /** execdriver.Mount. */
  datatype Mount = Mount(source: string, destination: string, writable: bool)

  datatype VolumeError =
    | MalformedVolumesFrom(spec: string)
    | ContainerNotFound(id: string)          // carries the id of the container being prepared
    | InvalidBind(bind: string)
    | IllegalBindDestination(dst: string)
    | VolumeCreateFailed(path: string)       // the volumes graph could not create or get a volume
    | OsError(isExist: bool)                 // a failing file-system call; isExist: os.IsExist(err)

  /** What a container's volumes hold: container path to host path, and the writable flags. */
  datatype VolumeState = VolumeState(volumes: map<string, string>, volumesRW: map<string, bool>)

  /** Container paths a bind may not target, compared with the destination as written. */
  const IllegalDsts: seq<string> := ["/", "."]

  // ---- getBindMap ----

  /** One bind of getBindMap: `src:dst` (mode "rw") or `src:dst:mode`, any other number of
      ':'-separated parts an error, and a raw destination of "/" or "." refused. */
  function ParseBind(bind: string): (r: Result<BindMap, VolumeError>)
    ensures var arr := Split(bind, ':');
      && (|arr| != 2 && |arr| != 3 ==> r == Failure(InvalidBind(bind)))
      && ((|arr| == 2 || |arr| == 3) && (arr[1] == "/" || arr[1] == ".") ==>
            r == Failure(IllegalBindDestination(arr[1])))
      && (r.Success? <==> (|arr| == 2 || |arr| == 3) && arr[1] != "/" && arr[1] != ".")
      && (r.Success? ==>
            r.value.srcPath == arr[0] && r.value.dstPath == arr[1] &&
            r.value.mode == (if |arr| == 2 then "rw" else arr[2]))
  {
    var arr := Split(bind, ':');
    if |arr| != 2 && |arr| != 3 then Failure(InvalidBind(bind))
    else
      var mode := if |arr| == 2 then "rw" else arr[2];
      if arr[1] in IllegalDsts then Failure(IllegalBindDestination(arr[1]))
      else Success(BindMap(arr[0], arr[1], mode))
  }

  /** A parsed bind with the key it is stored under: its cleaned destination. */
  datatype Entry = Entry(key: string, bind: BindMap)

  function EntryOf(b: BindMap): (e: Entry)
    ensures e.key == Clean(b.dstPath) && e.bind == b
  {
    Entry(Clean(b.dstPath), b)
  }

  /** The parse of each bind of the list. */
  function Parses(binds: seq<string>): (rs: seq<Result<BindMap, VolumeError>>)
    ensures |rs| == |binds| && forall i :: 0 <= i < |binds| ==> rs[i] == ParseBind(binds[i])
  {
    seq(|binds|, i requires 0 <= i < |binds| => ParseBind(binds[i]))
  }

  /** The parses collected in order, keyed by cleaned destination, or the first error. */
  function Collect(rs: seq<Result<BindMap, VolumeError>>): Result<seq<Entry>, VolumeError>
  {
    if rs == [] then Success([])
    else
      var n := |rs| - 1;
      match Collect(rs[..n])
      case Failure(e) => Failure(e)
      case Success(es) =>
        match rs[n]
        case Failure(e) => Failure(e)
        case Success(b) => Success(es + [EntryOf(b)])
  }

  /** The parsed binds stored from the left: a later bind overwrites an earlier one with the
      same key. */
  function Fold(es: seq<Entry>): map<string, BindMap>
  {
    if es == [] then map[]
    else
      var n := |es| - 1;
      Fold(es[..n])[es[n].key := es[n].bind]
  }

  /** getBindMap as a function of the bind list. */
  function BindMapOf(binds: seq<string>): Result<map<string, BindMap>, VolumeError>
  {
    match Collect(Parses(binds))
    case Failure(e) => Failure(e)
    case Success(es) => Success(Fold(es))
  }

  /** One more parse: the collection of the longer prefix extends that of the shorter one. */
  lemma CollectNext(rs: seq<Result<BindMap, VolumeError>>, i: nat)
    requires i < |rs|
    ensures Collect(rs[..i + 1]) ==
      match Collect(rs[..i])
      case Failure(e) => Failure(e)
      case Success(es) => (match rs[i] case Failure(e) => Failure(e) case Success(b) => Success(es + [EntryOf(b)]))
  {
    assert rs[..i + 1][..i] == rs[..i];
  }

  /** Collecting succeeds exactly when every parse does. */
  lemma {:induction false} CollectErrors(rs: seq<Result<BindMap, VolumeError>>)
    ensures Collect(rs).Success? <==> forall i :: 0 <= i < |rs| ==> rs[i].Success?
  {
    if rs != [] {
      var n := |rs| - 1;
      var p := rs[..n];
      CollectErrors(p);
      assert forall i :: 0 <= i < n ==> p[i] == rs[i];
    }
  }

  /** A failing parse that every earlier parse passes gives the collection's error. */
  lemma {:induction false} CollectFirstError(rs: seq<Result<BindMap, VolumeError>>, i: nat)
    requires i < |rs| && rs[i].Failure? && forall j :: 0 <= j < i ==> rs[j].Success?
    ensures Collect(rs) == Failure(rs[i].error)
  {
    var p := rs[..i];
    assert forall j :: 0 <= j < i ==> p[j] == rs[j];
    CollectErrors(p);
    CollectNext(rs, i);
    CollectStops(rs, i + 1);
  }

  /** A successful collection holds each parse, keyed by its cleaned destination, in order. */
  lemma {:induction false} CollectEntries(rs: seq<Result<BindMap, VolumeError>>)
    requires Collect(rs).Success?
    ensures |Collect(rs).value| == |rs|
    ensures forall i :: 0 <= i < |rs| ==> rs[i].Success? && Collect(rs).value[i] == EntryOf(rs[i].value)
  {
    if rs != [] {
      var n := |rs| - 1;
      var p := rs[..n];
      CollectEntries(p);
      var es := Collect(p).value;
      assert Collect(rs).value == es + [EntryOf(rs[n].value)];
      assert forall i :: 0 <= i < n ==> p[i] == rs[i];
    }
  }

  /** A failing prefix is the failure of the whole sequence. */
  lemma {:induction false} CollectStops(rs: seq<Result<BindMap, VolumeError>>, i: nat)
    requires i <= |rs| && Collect(rs[..i]).Failure?
    ensures Collect(rs) == Collect(rs[..i])
    decreases |rs| - i
  {
    if i == |rs| {
      assert rs[..i] == rs;
    } else {
      var n := |rs| - 1;
      assert rs[..n][..i] == rs[..i];
      CollectStops(rs[..n], i);
    }
  }

  /** Storing one more entry. */
  lemma FoldNext(es: seq<Entry>, e: Entry)
    ensures Fold(es + [e]) == Fold(es)[e.key := e.bind]
  {
    assert (es + [e])[..|es|] == es;
  }

  /** The keys of the bind map are exactly the keys of the entries. */
  lemma {:induction false} FoldKeys(es: seq<Entry>)
    ensures Fold(es).Keys == set i | 0 <= i < |es| :: es[i].key
  {
    if es != [] {
      var n := |es| - 1;
      FoldKeys(es[..n]);
      assert forall i :: 0 <= i < n ==> es[..n][i] == es[i];
      assert (set i | 0 <= i < |es| :: es[i].key) ==
             (set i | 0 <= i < n :: es[..n][i].key) + {es[n].key};
    }
  }

  /** Each key of the bind map holds the LAST entry with that key. */
  lemma {:induction false} FoldLastWins(es: seq<Entry>)
    ensures forall i :: 0 <= i < |es| && (forall j :: i < j < |es| ==> es[j].key != es[i].key) ==>
      es[i].key in Fold(es) && Fold(es)[es[i].key] == es[i].bind
  {
    if es != [] {
      var n := |es| - 1;
      FoldLastWins(es[..n]);
      assert forall i :: 0 <= i < n ==> es[..n][i] == es[i];
    }
  }

  // ---- applyVolumesFrom ----

  /** The volumes of another container, as applyVolumesFrom reads them. */
  datatype VolumeSource = VolumeSource(volumes: map<string, string>, volumesRW: map<string, bool>)

  /** The writable flag a `volumes-from` entry asks for: no suffix or "rw" is writable, "ro"
      is read-only, anything else is malformed (None). */
  function MountMode(specParts: seq<string>): (r: Option<bool>)
    ensures |specParts| != 2 ==> r == Some(true)
    ensures |specParts| == 2 ==> (r == Some(true) <==> specParts[1] == "rw")
    ensures |specParts| == 2 ==> (r == Some(false) <==> specParts[1] == "ro")
  {
    if |specParts| == 2 then
      if specParts[1] == "ro" then Some(false)
      else if specParts[1] == "rw" then Some(true)
      else None
    else Some(true)
  }

  /** The merge of `src` into `s` over the source paths in `keys`: a path the container already
      has is kept; a new path takes the source's host path, and its writable flag becomes
      `source flag && mountRW`, set only when the source has a flag for it. */
  function Merge(s: VolumeState, src: VolumeSource, mountRW: bool, keys: set<string>): VolumeState
  {
    VolumeState(MergeVolumes(s.volumes, src.volumes, keys),
                MergeFlags(s.volumesRW, s.volumes, src.volumesRW, mountRW, keys))
  }

  function MergeVolumes(vols: map<string, string>, srcVols: map<string, string>, keys: set<string>): map<string, string>
  {
    var added := (keys * srcVols.Keys) - vols.Keys;
    map k | k in vols.Keys + added :: if k in added then srcVols[k] else vols[k]
  }

  function MergeFlags(flags: map<string, bool>, vols: map<string, string>, srcFlags: map<string, bool>,
                      mountRW: bool, keys: set<string>): map<string, bool>
  {
    var added := (keys * srcFlags.Keys) - vols.Keys;
    map k | k in flags.Keys + added :: if k in added then srcFlags[k] && mountRW else flags[k]
  }

  /** Some path of `src` that the container lacks has a directory that cannot be created. */
  predicate MkdirBlocked(src: VolumeSource, vols: map<string, string>, mkdirFails: set<string>)
  {
    exists k :: k in src.volumes && k !in vols && k in mkdirFails
  }

  /** One `volumes-from` entry applied to `s`; `mkdirFails` names the paths whose directory
      cannot be created under the container's base file system. */
  function ApplySpec(s: VolumeState, spec: string, runtime: map<string, VolumeSource>,
                     mkdirFails: set<string>, id: string): Result<VolumeState, VolumeError>
  {
    var specParts := SplitN2(spec, ':');
    var mode := MountMode(specParts);
    if mode.None? then Failure(MalformedVolumesFrom(spec))
    else if specParts[0] !in runtime then Failure(ContainerNotFound(id))
    else
      var src := runtime[specParts[0]];
      if MkdirBlocked(src, s.volumes, mkdirFails) then Failure(OsError(false))
      else Success(Merge(s, src, mode.value, src.volumes.Keys))
  }

  /** The entries applied in order; the first failing one stops the rest. */
  function ApplyAll(s: VolumeState, specs: seq<string>, runtime: map<string, VolumeSource>,
                    mkdirFails: set<string>, id: string): Result<VolumeState, VolumeError>
  {
    if specs == [] then Success(s)
    else
      var n := |specs| - 1;
      match ApplyAll(s, specs[..n], runtime, mkdirFails, id)
      case Failure(e) => Failure(e)
      case Success(s') => ApplySpec(s', specs[n], runtime, mkdirFails, id)
  }

  /** applyVolumesFrom as a function of the volume state: nothing for an empty setting,
      otherwise its ','-separated entries in order. */
  function Applied(s: VolumeState, volumesFrom: string, runtime: map<string, VolumeSource>,
                   mkdirFails: set<string>, id: string): Result<VolumeState, VolumeError>
  {
    if volumesFrom == "" then Success(s)
    else ApplyAll(s, Split(volumesFrom, ','), runtime, mkdirFails, id)
  }

  /** `t` keeps every volume of `s`, with its host path and writable flag. */
  predicate Keeps(s: VolumeState, t: VolumeState)
  {
    && (forall k :: k in s.volumes ==> k in t.volumes && t.volumes[k] == s.volumes[k])
    && (forall k :: k in s.volumes && k in s.volumesRW ==> k in t.volumesRW && t.volumesRW[k] == s.volumesRW[k])
  }

  /** What a failing entry leaves: nothing changed when its mode or its source container is
      wrong; otherwise the merge over the part of the source's paths handled before the
      directory that could not be created, which holds no new path whose directory fails. */
  ghost predicate SpecLeaves(s: VolumeState, spec: string, runtime: map<string, VolumeSource>,
                             mkdirFails: set<string>, t: VolumeState)
  {
    var specParts := SplitN2(spec, ':');
    var mode := MountMode(specParts);
    if mode.None? || specParts[0] !in runtime then t == s
    else
      var src := runtime[specParts[0]];
      exists done :: done <= src.volumes.Keys && Unblocked(done, s.volumes, mkdirFails) &&
                     t == Merge(s, src, mode.value, done)
  }

  /** Every path of `done` the container lacked had its directory created. */
  predicate Unblocked(done: set<string>, vols: map<string, string>, mkdirFails: set<string>)
  {
    forall k :: k in done && k !in vols ==> k !in mkdirFails
  }

  /** What a failing applyVolumesFrom leaves: the entries before the first failing one
      applied, then what that one leaves. */
  ghost predicate AllLeaves(s: VolumeState, specs: seq<string>, runtime: map<string, VolumeSource>,
                            mkdirFails: set<string>, id: string, t: VolumeState)
  {
    exists i :: 0 <= i < |specs| && ApplyAll(s, specs[..i], runtime, mkdirFails, id).Success? &&
      var before := ApplyAll(s, specs[..i], runtime, mkdirFails, id).value;
      ApplySpec(before, specs[i], runtime, mkdirFails, id).Failure? && SpecLeaves(before, specs[i], runtime, mkdirFails, t)
  }

  /** applyVolumesFrom never overwrites a volume the container already has. */
  lemma {:induction false} ApplyAllKeeps(s: VolumeState, specs: seq<string>, runtime: map<string, VolumeSource>,
                                         mkdirFails: set<string>, id: string)
    requires ApplyAll(s, specs, runtime, mkdirFails, id).Success?
    ensures Keeps(s, ApplyAll(s, specs, runtime, mkdirFails, id).value)
  {
    if specs != [] {
      var n := |specs| - 1;
      ApplyAllKeeps(s, specs[..n], runtime, mkdirFails, id);
      var s' := ApplyAll(s, specs[..n], runtime, mkdirFails, id).value;
      var t := ApplyAll(s, specs, runtime, mkdirFails, id).value;
      assert Keeps(s', t);
    }
  }

  /** Once an entry fails, the whole setting fails with that error. */
  lemma {:induction false} ApplyAllStops(s: VolumeState, specs: seq<string>, i: nat,
                                         runtime: map<string, VolumeSource>, mkdirFails: set<string>, id: string)
    requires i <= |specs| && ApplyAll(s, specs[..i], runtime, mkdirFails, id).Failure?
    ensures ApplyAll(s, specs, runtime, mkdirFails, id) == ApplyAll(s, specs[..i], runtime, mkdirFails, id)
    decreases |specs| - i
  {
    if i == |specs| {
      assert specs[..i] == specs;
    } else {
      var n := |specs| - 1;
      assert specs[..n][..i] == specs[..i];
      ApplyAllStops(s, specs[..n], i, runtime, mkdirFails, id);
    }
  }

  /** The writable flag of a path a `name:ro` entry adds is false, whatever the source's. */
  lemma ReadOnlyEntry(s: VolumeState, name: string, runtime: map<string, VolumeSource>,
                      mkdirFails: set<string>, id: string, k: string)
    requires ':' !in name && name in runtime
    requires ApplySpec(s, name + ":ro", runtime, mkdirFails, id).Success?
    requires k in runtime[name].volumes && k !in s.volumes && k in runtime[name].volumesRW
    ensures ApplySpec(s, name + ":ro", runtime, mkdirFails, id).value.volumesRW[k] == false
  {
    var spec := name + ":ro";
    assert spec == name + [':'] + "ro";
    SplitN2Join(name, ':', "ro");
    assert MountMode(SplitN2(spec, ':')) == Some(false);
    var src := runtime[name];
    var t := ApplySpec(s, spec, runtime, mkdirFails, id).value;
    assert t == Merge(s, src, false, src.volumes.Keys);
    assert t.volumesRW[k] == (src.volumesRW[k] && false);
  }

  /** An entry whose suffix is neither "rw" nor "ro" is malformed. */
  lemma MalformedEntry(s: VolumeState, name: string, suffix: string, runtime: map<string, VolumeSource>,
                       mkdirFails: set<string>, id: string)
    requires ':' !in name && suffix != "rw" && suffix != "ro"
    ensures ApplySpec(s, name + ":" + suffix, runtime, mkdirFails, id) ==
      Failure(MalformedVolumesFrom(name + ":" + suffix))
  {
    SplitN2Join(name, ':', suffix);
    assert name + ":" + suffix == name + [':'] + suffix;
  }

  /** An entry naming no known container fails with the id of the container being prepared. */
  lemma UnknownSource(s: VolumeState, name: string, runtime: map<string, VolumeSource>,
                      mkdirFails: set<string>, id: string)
    requires ':' !in name && name !in runtime
    ensures ApplySpec(s, name, runtime, mkdirFails, id) == Failure(ContainerNotFound(id))
  {
  }

  /** One step of the merge loop on the host paths. */
  lemma MergeVolumesStep(vols: map<string, string>, srcVols: map<string, string>, done: set<string>, k: string)
    requires k in srcVols && k !in done
    ensures k in MergeVolumes(vols, srcVols, done) <==> k in vols
    ensures k in vols ==> MergeVolumes(vols, srcVols, done + {k}) == MergeVolumes(vols, srcVols, done)
    ensures k !in vols ==>
      MergeVolumes(vols, srcVols, done + {k}) == MergeVolumes(vols, srcVols, done)[k := srcVols[k]]
  {
  }

  /** One step of the merge loop on the writable flags. */
  lemma MergeFlagsStep(flags: map<string, bool>, vols: map<string, string>, srcFlags: map<string, bool>,
                       mountRW: bool, done: set<string>, k: string)
    requires k !in done
    ensures k in vols || k !in srcFlags ==>
      MergeFlags(flags, vols, srcFlags, mountRW, done + {k}) == MergeFlags(flags, vols, srcFlags, mountRW, done)
    ensures k !in vols && k in srcFlags ==>
      MergeFlags(flags, vols, srcFlags, mountRW, done + {k}) ==
      MergeFlags(flags, vols, srcFlags, mountRW, done)[k := srcFlags[k] && mountRW]
  {
  }

  /** One step of the merge loop: a path already present is skipped, a new one is added
      with its host path and, if the source has one, its writable flag. */
  lemma MergeStep(s: VolumeState, src: VolumeSource, mountRW: bool, done: set<string>, k: string)
    requires k in src.volumes && k !in done
    ensures var t := Merge(s, src, mountRW, done);
      && (k in t.volumes <==> k in s.volumes)
      && var t' := Merge(s, src, mountRW, done + {k});
      && (k in s.volumes ==> t' == t)
      && (k !in s.volumes && k in src.volumesRW ==>
            t' == VolumeState(t.volumes[k := src.volumes[k]], t.volumesRW[k := src.volumesRW[k] && mountRW]))
      && (k !in s.volumes && k !in src.volumesRW ==>
            t' == VolumeState(t.volumes[k := src.volumes[k]], t.volumesRW))
  {
    MergeVolumesStep(s.volumes, src.volumes, done, k);
    MergeFlagsStep(s.volumesRW, s.volumes, src.volumesRW, mountRW, done, k);
  }

  /** Merging no path changes nothing. */
  lemma MergeNothing(s: VolumeState, src: VolumeSource, mountRW: bool)
    ensures Merge(s, src, mountRW, {}) == s
  {
    assert MergeVolumes(s.volumes, src.volumes, {}) == s.volumes;
    assert MergeFlags(s.volumesRW, s.volumes, src.volumesRW, mountRW, {}) == s.volumesRW;
  }

  /** A merge keeps every volume the container had. */
  lemma MergeKeeps(s: VolumeState, src: VolumeSource, mountRW: bool, keys: set<string>)
    ensures Keeps(s, Merge(s, src, mountRW, keys))
  {
  }

  /** The loop of applyVolumesFrom over one source container's volumes, in Go's unspecified
      map order: skip paths the container has, create the directory of each new one, copy its
      host path and (if the source has one) its writable flag. `failed` reports a directory
      that could not be created; the loop stops there, leaving the paths merged so far. */
  method MergeFrom(s: VolumeState, c: VolumeSource, mountRW: bool, mkdirFails: set<string>)
    returns (t: VolumeState, failed: bool)
    ensures failed <==> MkdirBlocked(c, s.volumes, mkdirFails)
    ensures !failed ==> t == Merge(s, c, mountRW, c.volumes.Keys)
    ensures failed ==>
      exists done :: done <= c.volumes.Keys && Unblocked(done, s.volumes, mkdirFails) &&
                     t == Merge(s, c, mountRW, done)
    ensures Keeps(s, t)
  {
    var vols, flags := s.volumes, s.volumesRW;
    var todo := c.volumes.Keys;
    ghost var done: set<string> := {};
    MergeNothing(s, c, mountRW);
    while todo != {}
      invariant todo + done == c.volumes.Keys && todo * done == {}
      invariant vols == MergeVolumes(s.volumes, c.volumes, done)
      invariant flags == MergeFlags(s.volumesRW, s.volumes, c.volumesRW, mountRW, done)
      invariant Unblocked(done, s.volumes, mkdirFails)
      decreases |todo|
    {
      var volPath :| volPath in todo;
      var blocked;
      ghost var before := done;
      vols, flags, blocked := MergeOne(s, c, mountRW, mkdirFails, done, vols, flags, volPath);
      if blocked {
        MergeKeeps(s, c, mountRW, before);
        assert VolumeState(vols, flags) == Merge(s, c, mountRW, before);
        return VolumeState(vols, flags), true;
      }
      todo := todo - {volPath};
      done := done + {volPath};
    }
    assert done == c.volumes.Keys;
    assert !MkdirBlocked(c, s.volumes, mkdirFails);
    MergeKeeps(s, c, mountRW, c.volumes.Keys);
    return VolumeState(vols, flags), false;
  }

  /** One path of that loop: `blocked` when the path is new and its directory cannot be
      created, the maps then unchanged; otherwise the merge grows by the path. */
  method MergeOne(s: VolumeState, c: VolumeSource, mountRW: bool, mkdirFails: set<string>, ghost done: set<string>,
                  vols: map<string, string>, flags: map<string, bool>, volPath: string)
    returns (vols': map<string, string>, flags': map<string, bool>, blocked: bool)
    requires volPath in c.volumes && volPath !in done
    requires vols == MergeVolumes(s.volumes, c.volumes, done)
    requires flags == MergeFlags(s.volumesRW, s.volumes, c.volumesRW, mountRW, done)
    ensures blocked <==> volPath !in s.volumes && volPath in mkdirFails
    ensures blocked ==> vols' == vols && flags' == flags
    ensures !blocked ==> vols' == MergeVolumes(s.volumes, c.volumes, done + {volPath})
    ensures !blocked ==> flags' == MergeFlags(s.volumesRW, s.volumes, c.volumesRW, mountRW, done + {volPath})
  {
    MergeVolumesStep(s.volumes, c.volumes, done, volPath);
    MergeFlagsStep(s.volumesRW, s.volumes, c.volumesRW, mountRW, done, volPath);
    vols', flags' := vols, flags;
    if volPath in vols {
      return vols', flags', false;
    }
    if volPath in mkdirFails {
      return vols', flags', true;
    }
    vols' := vols[volPath := c.volumes[volPath]];
    if volPath in c.volumesRW {
      flags' := flags[volPath := c.volumesRW[volPath] && mountRW];
    }
    blocked := false;
  }

  /** applyVolumesFrom: merge in the volumes of every container named in `volumesFrom`, in
      order, never replacing a volume the container already has; `runtime` resolves names to
      the other containers' volumes. On an error the volumes merged so far stay. */
  method ApplyFrom(s: VolumeState, volumesFrom: string, runtime: map<string, VolumeSource>,
                   mkdirFails: set<string>, id: string)
    returns (t: VolumeState, err: Option<VolumeError>)
    ensures var r := Applied(s, volumesFrom, runtime, mkdirFails, id);
      && (err.None? <==> r.Success?)
      && (r.Success? ==> t == r.value)
      && (r.Failure? ==> err == Some(r.error))
    ensures Applied(s, volumesFrom, runtime, mkdirFails, id).Failure? ==>
      AllLeaves(s, Split(volumesFrom, ','), runtime, mkdirFails, id, t)
    ensures Keeps(s, t)
  {
    t, err := s, None;
    if volumesFrom == "" {
      return;
    }
    var specs := Split(volumesFrom, ',');
    for i := 0 to |specs|
      invariant ApplyAll(s, specs[..i], runtime, mkdirFails, id) == Success(t)
      invariant Keeps(s, t) && err.None?
    {
      ApplyAllNext(s, specs, i, runtime, mkdirFails, id);
      var next;
      next, err := ApplyEntry(t, specs[i], runtime, mkdirFails, id);
      KeepsTrans(s, t, next);
      if err.Some? {
        ApplyAllStops(s, specs, i + 1, runtime, mkdirFails, id);
        FailsAt(s, specs, i, runtime, mkdirFails, id, t, next);
        return next, err;
      }
      t := next;
    }
    assert specs[..|specs|] == specs;
  }

  /** One entry of applyVolumesFrom: its mode, its source container and that container's
      volumes merged in; on an error the volumes merged so far stay. */
  method ApplyEntry(s: VolumeState, containerSpec: string, runtime: map<string, VolumeSource>,
                    mkdirFails: set<string>, id: string)
    returns (t: VolumeState, err: Option<VolumeError>)
    ensures var r := ApplySpec(s, containerSpec, runtime, mkdirFails, id);
      && (err.None? <==> r.Success?)
      && (r.Success? ==> t == r.value)
      && (r.Failure? ==> err == Some(r.error))
    ensures ApplySpec(s, containerSpec, runtime, mkdirFails, id).Failure? ==> SpecLeaves(s, containerSpec, runtime, mkdirFails, t)
    ensures Keeps(s, t)
  {
    var mountRW := true;
    var specParts := SplitN2(containerSpec, ':');
    // strings.SplitN with a limit of 2 never returns zero parts: no "case 0" path
    if |specParts| == 2 {
      if specParts[1] == "ro" {
        mountRW := false;
      } else if specParts[1] != "rw" {
        return s, Some(MalformedVolumesFrom(containerSpec));
      }
    }
    if specParts[0] !in runtime {
      return s, Some(ContainerNotFound(id));
    }
    var c := runtime[specParts[0]];
    assert MountMode(specParts) == Some(mountRW);
    var failed;
    t, failed := MergeFrom(s, c, mountRW, mkdirFails);
    err := if failed then Some(OsError(false)) else None;
  }

  /** The first i+1 entries are the first i followed by entry i. */
  lemma ApplyAllNext(s: VolumeState, specs: seq<string>, i: nat, runtime: map<string, VolumeSource>,
                     mkdirFails: set<string>, id: string)
    requires i < |specs| && ApplyAll(s, specs[..i], runtime, mkdirFails, id).Success?
    ensures ApplyAll(s, specs[..i + 1], runtime, mkdirFails, id) ==
      ApplySpec(ApplyAll(s, specs[..i], runtime, mkdirFails, id).value, specs[i], runtime, mkdirFails, id)
  {
    assert specs[..i + 1][..i] == specs[..i];
  }

  /** An entry failing after the earlier ones succeeded leaves what that entry leaves. */
  lemma FailsAt(s: VolumeState, specs: seq<string>, i: nat, runtime: map<string, VolumeSource>,
                mkdirFails: set<string>, id: string, before: VolumeState, t: VolumeState)
    requires i < |specs| && ApplyAll(s, specs[..i], runtime, mkdirFails, id) == Success(before)
    requires ApplySpec(before, specs[i], runtime, mkdirFails, id).Failure? && SpecLeaves(before, specs[i], runtime, mkdirFails, t)
    ensures AllLeaves(s, specs, runtime, mkdirFails, id, t)
  {
  }

  lemma KeepsTrans(s: VolumeState, t: VolumeState, u: VolumeState)
    requires Keeps(s, t) && Keeps(t, u)
    ensures Keeps(s, u)
  {
  }

  // ---- createVolumes ----

  /** The oracles createVolumes consults, keyed by the path each call concerns. */
  datatype FileSystem = FileSystem(
    statFails: set<string>,           // bind sources whose Stat fails
    created: map<string, string>,     // container path -> root of the volume created for it
    resolve: map<string, string>,     // EvalSymlinks (a missing path fails)
    mountpointFails: set<string>)     // container paths whose mount point cannot be prepared

  /** The host path and writable flag createVolumes gives the declared volume `volPath`: the
      bind for it if there is one (writable only for the mode "rw", in any case), otherwise a
      freshly created volume (writable); the host path with its symlinks resolved. */
  function VolumeFor(volPath: string, binds: map<string, BindMap>, fs: FileSystem): (r: Result<(string, bool), VolumeError>)
    ensures r.Success? && volPath in binds ==> r.value.1 == (ToLower(binds[volPath].mode) == "rw")
    ensures r.Success? && volPath !in binds ==> r.value.1
    ensures r.Success? ==> exists src :: src in fs.resolve && r.value.0 == fs.resolve[src]
  {
    if volPath in binds then
      var bindMap := binds[volPath];
      var srcRW := ToLower(bindMap.mode) == "rw";
      if bindMap.srcPath in fs.statFails then Failure(OsError(false))
      else if bindMap.srcPath !in fs.resolve then Failure(OsError(false))
      else Success((fs.resolve[bindMap.srcPath], srcRW))
    else if volPath !in fs.created then Failure(VolumeCreateFailed(volPath))
    else
      var srcPath := fs.created[volPath];
      if srcPath !in fs.resolve then Failure(OsError(false))
      else Success((fs.resolve[srcPath], true))
  }

  /** The error createVolumes reports for `volPath`, if any. */
  function KeyError(volPath: string, binds: map<string, BindMap>, fs: FileSystem): Option<VolumeError>
  {
    match VolumeFor(volPath, binds, fs)
    case Failure(e) => Some(e)
    case Success(_) => if volPath in fs.mountpointFails then Some(OsError(false)) else None
  }

  /** The declared volumes createVolumes has to create: the cleaned paths not yet present. */
  function NewPaths(declared: set<string>, s: VolumeState): set<string>
  {
    CleanPaths(declared) - s.volumes.Keys
  }

  /** The declared paths, cleaned; paths that clean alike become one. */
  function CleanPaths(declared: set<string>): set<string>
  {
    set raw | raw in declared :: Clean(raw)
  }

  /** createVolumes gets past every new path: each gets its volume and its mount point. */
  predicate CreateOk(s: VolumeState, declared: set<string>, bm: map<string, BindMap>, fs: FileSystem)
  {
    forall k :: k in NewPaths(declared, s) ==> KeyError(k, bm, fs).None?
  }

  /** `s` with the volumes of the paths in `added`, as VolumeFor gives them. */
  function AddAll(s: VolumeState, added: set<string>, bm: map<string, BindMap>, fs: FileSystem): (t: VolumeState)
    requires forall k :: k in added ==> VolumeFor(k, bm, fs).Success?
    ensures t.volumes.Keys == s.volumes.Keys + added
  {
    VolumeState(
      s.volumes + (map k | k in added :: VolumeFor(k, bm, fs).value.0),
      s.volumesRW + (map k | k in added :: VolumeFor(k, bm, fs).value.1))
  }

  /** The volume state after a successful createVolumes. */
  function CreateResult(s: VolumeState, declared: set<string>, bm: map<string, BindMap>, fs: FileSystem): VolumeState
    requires CreateOk(s, declared, bm, fs)
  {
    AddAll(s, NewPaths(declared, s), bm, fs)
  }

  /** The volumes AddAll adds, given as maps. */
  lemma AddAllIs(s: VolumeState, added: set<string>, bm: map<string, BindMap>, fs: FileSystem,
                 vols: map<string, string>, flags: map<string, bool>)
    requires vols.Keys == added && flags.Keys == added
    requires forall k :: k in added ==> VolumeFor(k, bm, fs) == Success((vols[k], flags[k]))
    ensures AddAll(s, added, bm, fs) == VolumeState(s.volumes + vols, s.volumesRW + flags)
  {
    assert (map k | k in added :: VolumeFor(k, bm, fs).value.0) == vols;
    assert (map k | k in added :: VolumeFor(k, bm, fs).value.1) == flags;
  }

  /** createVolumes skips existing volumes, and a path with a bind is writable exactly when
      the bind's mode, lower-cased, is "rw"; one without is writable. */
  lemma CreateRules(s: VolumeState, declared: set<string>, bm: map<string, BindMap>, fs: FileSystem)
    requires CreateOk(s, declared, bm, fs)
    ensures var t := CreateResult(s, declared, bm, fs);
      && Keeps(s, t)
      && (forall raw :: raw in declared ==> Clean(raw) in t.volumes)
      && (forall raw :: raw in declared && Clean(raw) !in s.volumes ==>
            Clean(raw) in t.volumesRW &&
            t.volumesRW[Clean(raw)] == (Clean(raw) !in bm || ToLower(bm[Clean(raw)].mode) == "rw"))
  {
    var t := CreateResult(s, declared, bm, fs);
    forall raw | raw in declared
      ensures Clean(raw) in t.volumes
    {
      assert Clean(raw) in s.volumes || Clean(raw) in NewPaths(declared, s);
    }
  }

  /** The paths the createVolumes loop added are exactly the new paths. */
  lemma AddedAreNew(s: VolumeState, paths: set<string>, added: set<string>)
    requires forall p :: p in paths ==> p in s.volumes || p in added
    requires forall k :: k in added ==> k in paths && k !in s.volumes
    ensures paths - s.volumes.Keys == added
  {
  }

  /** What a failing createVolumes leaves: `s` with the volumes of some new paths, each as
      VolumeFor gives it. All of them but `bad` also got their mount points, and `bad` is
      among them exactly when only its mount point failed. */
  ghost predicate PartialCreate(s: VolumeState, paths: set<string>, bm: map<string, BindMap>, fs: FileSystem,
                                bad: string, t: VolumeState)
  {
    exists added: set<string> :: Recorded(s, paths, bm, fs, bad, added) && t == AddAll(s, added, bm, fs)
  }

  /** The paths a failing createVolumes can have recorded. */
  predicate Recorded(s: VolumeState, paths: set<string>, bm: map<string, BindMap>, fs: FileSystem,
                     bad: string, added: set<string>)
  {
    && (forall k :: k in added ==> k in paths && k !in s.volumes && VolumeFor(k, bm, fs).Success?)
    && (forall k :: k in added && k != bad ==> k !in fs.mountpointFails)
    && (bad in added <==> VolumeFor(bad, bm, fs).Success?)
  }

  /** Adding new paths keeps the state. */
  lemma AddAllKeeps(s: VolumeState, added: set<string>, bm: map<string, BindMap>, fs: FileSystem)
    requires forall k :: k in added ==> k !in s.volumes && VolumeFor(k, bm, fs).Success?
    ensures Keeps(s, AddAll(s, added, bm, fs))
  {
  }

  lemma PartialKeeps(s: VolumeState, paths: set<string>, bm: map<string, BindMap>, fs: FileSystem,
                     bad: string, t: VolumeState)
    requires PartialCreate(s, paths, bm, fs, bad, t)
    ensures Keeps(s, t)
  {
    var added :| Recorded(s, paths, bm, fs, bad, added) && t == AddAll(s, added, bm, fs);
    AddAllKeeps(s, added, bm, fs);
  }

  /** A partial state over some of the paths is one over all of them. */
  lemma PartialWiden(s: VolumeState, done: set<string>, paths: set<string>, bm: map<string, BindMap>,
                     fs: FileSystem, bad: string, t: VolumeState)
    requires done <= paths && PartialCreate(s, done, bm, fs, bad, t)
    ensures PartialCreate(s, paths, bm, fs, bad, t)
  {
    var added :| Recorded(s, done, bm, fs, bad, added) && t == AddAll(s, added, bm, fs);
    assert Recorded(s, paths, bm, fs, bad, added);
  }

  /** createVolumes: for each declared path, cleaned and not yet present, take the bind's
      source (writable for the mode "rw") or a fresh volume (writable), resolve its symlinks,
      record it, then prepare the mount point. The first failing path stops the loop, keeping
      what was recorded, that path included when only its mount point failed. */
  method CreateFrom(s: VolumeState, declared: set<string>, bm: map<string, BindMap>, fs: FileSystem)
    returns (t: VolumeState, err: Option<VolumeError>)
    ensures err.None? <==> CreateOk(s, declared, bm, fs)
    ensures err.None? ==> t == CreateResult(s, declared, bm, fs)
    ensures err.Some? ==>
      exists k :: k in NewPaths(declared, s) && KeyError(k, bm, fs) == err &&
                  PartialCreate(s, CleanPaths(declared), bm, fs, k, t)
    ensures Keeps(s, t)
  {
    // the loop cleans each declared path and skips one already present, so two paths that
    // clean alike are one
    var paths := CleanPaths(declared);
    t, err := CreateLoop(s, paths, bm, fs);
    if err.None? {
      AddAllKeeps(s, NewPaths(declared, s), bm, fs);
    } else {
      ghost var bad :| bad in paths && bad !in s.volumes && err == KeyError(bad, bm, fs) &&
                 PartialCreate(s, paths, bm, fs, bad, t);
      PartialKeeps(s, paths, bm, fs, bad, t);
    }
  }

  /** The loop of createVolumes over the cleaned paths, in Go's unspecified map order. Without
      an error every new path has been added with its volume; with one, some new path `bad`
      failed and the loop stopped there. */
  method CreateLoop(s: VolumeState, paths: set<string>, bm: map<string, BindMap>, fs: FileSystem)
    returns (t: VolumeState, err: Option<VolumeError>)
    ensures err.None? ==> (forall k :: k in paths - s.volumes.Keys ==> KeyError(k, bm, fs).None?)
    ensures err.None? ==> t == AddAll(s, paths - s.volumes.Keys, bm, fs)
    ensures err.Some? ==>
      exists bad :: bad in paths && bad !in s.volumes && err == KeyError(bad, bm, fs) &&
                    PartialCreate(s, paths, bm, fs, bad, t)
  {
    t, err := s, None;
    var todo := paths;
    ghost var done: set<string> := {};
    ghost var vols: map<string, string>, flags: map<string, bool> := map[], map[];
    UnionEmpty(s.volumes);
    UnionEmpty(s.volumesRW);
    while todo != {}
      invariant todo + done == paths && todo * done == {} && err.None?
      invariant Progress(s, done, bm, fs, vols, flags, t)
      decreases |todo|
    {
      var volPath :| volPath in todo;
      todo := todo - {volPath};
      var last;
      last, err, vols, flags := CreateStep(s, done, bm, fs, t, vols, flags, volPath);
      if err.Some? {
        PartialWiden(s, done + {volPath}, paths, bm, fs, volPath, last);
        return last, err;
      }
      done := done + {volPath};
      t := last;
    }
    ProgressDone(s, paths, bm, fs, vols, flags, t);
  }

  /** After every path the loop has added exactly the new paths. */
  lemma ProgressDone(s: VolumeState, paths: set<string>, bm: map<string, BindMap>, fs: FileSystem,
                     vols: map<string, string>, flags: map<string, bool>, t: VolumeState)
    requires Progress(s, paths, bm, fs, vols, flags, t)
    ensures forall k :: k in paths - s.volumes.Keys ==> KeyError(k, bm, fs).None?
    ensures t == AddAll(s, paths - s.volumes.Keys, bm, fs)
  {
    AddedAreNew(s, paths, vols.Keys);
    AddAllIs(s, vols.Keys, bm, fs, vols, flags);
  }

  /** What the createVolumes loop has done after the paths in `done`: `t` is `s` with `vols`
      and `flags` added, one entry per path of `done` not in `s`, each as VolumeFor gives it
      and with its mount point prepared. */
  ghost predicate Progress(s: VolumeState, done: set<string>, bm: map<string, BindMap>, fs: FileSystem,
                           vols: map<string, string>, flags: map<string, bool>, t: VolumeState)
  {
    && flags.Keys == vols.Keys
    && (forall k :: k in vols ==>
          && k in done && k !in s.volumes && k !in fs.mountpointFails
          && VolumeFor(k, bm, fs) == Success((vols[k], flags[k])))
    && t == VolumeState(s.volumes + vols, s.volumesRW + flags)
    && (forall p :: p in done ==> p in s.volumes || p in vols)
  }

  /** One path of the createVolumes loop. */
  method CreateStep(s: VolumeState, ghost done: set<string>, bm: map<string, BindMap>, fs: FileSystem,
                    t: VolumeState, ghost vols: map<string, string>, ghost flags: map<string, bool>, volPath: string)
    returns (t': VolumeState, err: Option<VolumeError>, ghost vols': map<string, string>,
             ghost flags': map<string, bool>)
    requires Progress(s, done, bm, fs, vols, flags, t) && volPath !in done
    ensures err.None? ==> Progress(s, done + {volPath}, bm, fs, vols', flags', t')
    ensures err.Some? ==> volPath !in s.volumes && err == KeyError(volPath, bm, fs) && Keeps(s, t')
    ensures err.Some? ==> PartialCreate(s, done + {volPath}, bm, fs, volPath, t')
  {
    vols', flags' := vols, flags;
    if volPath in t.volumes {
      ProgressSkip(s, done, bm, fs, vols, flags, t, volPath);
      return t, None, vols', flags';
    }
    t', err := CreateOne(t, volPath, bm, fs);
    if err.Some? {
      KeepsUnion(s, vols, flags);
      KeepsTrans(s, t, t');
      if VolumeFor(volPath, bm, fs).Failure? {
        PartialNoVolume(s, done, bm, fs, vols, flags, t, volPath);
      } else {
        PartialMountFailed(s, done, bm, fs, vols, flags, t, volPath, VolumeFor(volPath, bm, fs).value);
      }
      return;
    }
    var v := VolumeFor(volPath, bm, fs).value;
    ProgressAdd(s, done, bm, fs, vols, flags, t, volPath, v);
    vols', flags' := vols[volPath := v.0], flags[volPath := v.1];
  }

  /** A path already present is passed over. */
  lemma ProgressSkip(s: VolumeState, done: set<string>, bm: map<string, BindMap>, fs: FileSystem,
                     vols: map<string, string>, flags: map<string, bool>, t: VolumeState, volPath: string)
    requires Progress(s, done, bm, fs, vols, flags, t) && volPath in t.volumes
    ensures Progress(s, done + {volPath}, bm, fs, vols, flags, t)
  {
  }

  /** A new path whose volume and mount point were obtained is added to the progress. */
  lemma ProgressAdd(s: VolumeState, done: set<string>, bm: map<string, BindMap>, fs: FileSystem,
                    vols: map<string, string>, flags: map<string, bool>, t: VolumeState, volPath: string,
                    v: (string, bool))
    requires Progress(s, done, bm, fs, vols, flags, t) && volPath !in t.volumes
    requires VolumeFor(volPath, bm, fs) == Success(v) && volPath !in fs.mountpointFails
    ensures Progress(s, done + {volPath}, bm, fs, vols[volPath := v.0], flags[volPath := v.1],
                     VolumeState(t.volumes[volPath := v.0], t.volumesRW[volPath := v.1]))
  {
    var vols', flags' := vols[volPath := v.0], flags[volPath := v.1];
    assert flags'.Keys == flags.Keys + {volPath} && vols'.Keys == vols.Keys + {volPath};
    var t' := VolumeState(t.volumes[volPath := v.0], t.volumesRW[volPath := v.1]);
    calc {
      t';
      VolumeState((s.volumes + vols)[volPath := v.0], (s.volumesRW + flags)[volPath := v.1]);
      { UpdateUnion(s.volumes, vols, volPath, v.0); UpdateUnion(s.volumesRW, flags, volPath, v.1); }
      VolumeState(s.volumes + vols', s.volumesRW + flags');
    }
    forall k | k in vols'
      ensures && k in done + {volPath} && k !in s.volumes && k !in fs.mountpointFails
              && VolumeFor(k, bm, fs) == Success((vols'[k], flags'[k]))
    {
      if k != volPath {
        assert k in vols && vols'[k] == vols[k] && flags'[k] == flags[k];
      }
    }
  }

  /** A new path without a volume leaves the progress so far. */
  lemma PartialNoVolume(s: VolumeState, done: set<string>, bm: map<string, BindMap>, fs: FileSystem,
                        vols: map<string, string>, flags: map<string, bool>, t: VolumeState, volPath: string)
    requires Progress(s, done, bm, fs, vols, flags, t) && volPath !in done
    requires VolumeFor(volPath, bm, fs).Failure?
    ensures PartialCreate(s, done + {volPath}, bm, fs, volPath, t)
  {
    AddAllIs(s, vols.Keys, bm, fs, vols, flags);
    assert Recorded(s, done + {volPath}, bm, fs, volPath, vols.Keys);
  }

  /** A new path whose mount point failed leaves the progress so far with that path recorded. */
  lemma PartialMountFailed(s: VolumeState, done: set<string>, bm: map<string, BindMap>, fs: FileSystem,
                           vols: map<string, string>, flags: map<string, bool>, t: VolumeState, volPath: string,
                           v: (string, bool))
    requires Progress(s, done, bm, fs, vols, flags, t) && volPath !in done && volPath !in t.volumes
    requires VolumeFor(volPath, bm, fs) == Success(v)
    ensures PartialCreate(s, done + {volPath}, bm, fs, volPath,
                          VolumeState(t.volumes[volPath := v.0], t.volumesRW[volPath := v.1]))
  {
    var vols', flags' := vols[volPath := v.0], flags[volPath := v.1];
    RecordedMountFailed(s, done, bm, fs, vols, flags, t, volPath, v);
    AddAllIs(s, vols'.Keys, bm, fs, vols', flags');
    calc {
      VolumeState(t.volumes[volPath := v.0], t.volumesRW[volPath := v.1]);
      VolumeState((s.volumes + vols)[volPath := v.0], (s.volumesRW + flags)[volPath := v.1]);
      { UpdateUnion(s.volumes, vols, volPath, v.0); UpdateUnion(s.volumesRW, flags, volPath, v.1); }
      VolumeState(s.volumes + vols', s.volumesRW + flags');
      AddAll(s, vols'.Keys, bm, fs);
    }
  }

  /** The paths recorded when a new path's mount point failed: the progress so far and that path. */
  lemma RecordedMountFailed(s: VolumeState, done: set<string>, bm: map<string, BindMap>, fs: FileSystem,
                            vols: map<string, string>, flags: map<string, bool>, t: VolumeState, volPath: string,
                            v: (string, bool))
    requires Progress(s, done, bm, fs, vols, flags, t) && volPath !in done && volPath !in t.volumes
    requires VolumeFor(volPath, bm, fs) == Success(v)
    ensures var vols', flags' := vols[volPath := v.0], flags[volPath := v.1];
      && vols'.Keys == flags'.Keys
      && (forall k :: k in vols'.Keys ==> VolumeFor(k, bm, fs) == Success((vols'[k], flags'[k])))
      && Recorded(s, done + {volPath}, bm, fs, volPath, vols'.Keys)
  {
    var vols', flags' := vols[volPath := v.0], flags[volPath := v.1];
    assert flags'.Keys == flags.Keys + {volPath} && vols'.Keys == vols.Keys + {volPath};
    forall k | k in vols'
      ensures VolumeFor(k, bm, fs) == Success((vols'[k], flags'[k]))
      ensures k != volPath ==> k in done && k !in s.volumes && k !in fs.mountpointFails
    {
      if k != volPath {
        assert k in vols && vols'[k] == vols[k] && flags'[k] == flags[k];
      }
    }
  }

  /** Adding paths the state lacks keeps the state. */
  lemma KeepsUnion(s: VolumeState, vols: map<string, string>, flags: map<string, bool>)
    requires flags.Keys == vols.Keys && forall k :: k in vols ==> k !in s.volumes
    ensures Keeps(s, VolumeState(s.volumes + vols, s.volumesRW + flags))
  {
  }

  /** One new path of that loop: its source, resolved, recorded with its writable flag, and
      its mount point prepared; `err` is the first failing step's error. */
  method CreateOne(s: VolumeState, volPath: string, bm: map<string, BindMap>, fs: FileSystem)
    returns (t: VolumeState, err: Option<VolumeError>)
    requires volPath !in s.volumes
    ensures Keeps(s, t)
    ensures err == KeyError(volPath, bm, fs)
    ensures VolumeFor(volPath, bm, fs).Failure? ==> t == s
    ensures VolumeFor(volPath, bm, fs).Success? ==> var v := VolumeFor(volPath, bm, fs).value;
      t == VolumeState(s.volumes[volPath := v.0], s.volumesRW[volPath := v.1])
  {
    var srcPath;
    var srcRW := false;
    if volPath in bm {
      var bindMap := bm[volPath];
      srcPath := bindMap.srcPath;
      if ToLower(bindMap.mode) == "rw" {
        srcRW := true;
      }
      if bindMap.srcPath in fs.statFails {
        return s, Some(OsError(false));
      }
    } else {
      if volPath !in fs.created {
        return s, Some(VolumeCreateFailed(volPath));
      }
      srcPath := fs.created[volPath];
      srcRW := true;
    }
    if srcPath !in fs.resolve {
      return s, Some(OsError(false));
    }
    srcPath := fs.resolve[srcPath];
    t := VolumeState(s.volumes[volPath := srcPath], s.volumesRW[volPath := srcRW]);
    if volPath in fs.mountpointFails {
      return t, Some(OsError(false));
    }
    err := None;
  }

  lemma UnionEmpty<K, V>(m: map<K, V>)
    ensures m + map[] == m
  {
  }

  lemma UpdateUnion<K, V>(m: map<K, V>, n: map<K, V>, k: K, v: V)
    ensures (m + n)[k := v] == m + n[k := v]
  {
  }

  // ---- mountVolumesForContainer ----

  /** Where the mount setup (root directory, bind of the base file system, private remount)
      leaves mountVolumesForContainer: go on to build the mount list, or return `err`. */
  datatype SetupOutcome = Proceed | Return(err: Option<VolumeError>)

  /** MkdirAll's error counts unless it says the directory exists. */
  predicate MkdirFailed(mkdir: Option<VolumeError>)
  {
    mkdir.Some? && !(mkdir.value.OsError? && mkdir.value.isExist)
  }

  /** The setup as the source writes it: a failing MkdirAll returns nil, so the caller goes
      on as if the mounts had been prepared, with no mount list set. */
  function MountSetupAsWritten(mkdir: Option<VolumeError>, bindMount: Option<VolumeError>,
                               forceMount: Option<VolumeError>): (r: SetupOutcome)
    ensures MkdirFailed(mkdir) ==> r == Return(None)
    ensures !MkdirFailed(mkdir) ==> r == MountSetup(mkdir, bindMount, forceMount)
  {
    if MkdirFailed(mkdir) then Return(None)
    else if bindMount.Some? then Return(bindMount)
    else if forceMount.Some? then Return(forceMount)
    else Proceed
  }

  /** The setup as intended: the first failing step's error. */
  function MountSetup(mkdir: Option<VolumeError>, bindMount: Option<VolumeError>,
                      forceMount: Option<VolumeError>): (r: SetupOutcome)
    ensures r.Proceed? <==> !MkdirFailed(mkdir) && bindMount.None? && forceMount.None?
    ensures r.Return? ==> r.err.Some?
    ensures MkdirFailed(mkdir) ==> r == Return(mkdir)
  {
    if MkdirFailed(mkdir) then Return(mkdir)
    else if bindMount.Some? then Return(bindMount)
    else if forceMount.Some? then Return(forceMount)
    else Proceed
  }

  /** The input that shows it: a root directory that cannot be created ends the setup without
      a mount list and without an error. */
  lemma MkdirErrorDropped()
    ensures MountSetupAsWritten(Some(OsError(false)), None, None) == Return(None)
    ensures MountSetup(Some(OsError(false)), None, None) == Return(Some(OsError(false)))
  {
  }

  /** The mounts every container gets, in this order. */
  function FixedMounts(sysInitPath: string, envPath: string, resolvConfPath: string): seq<Mount>
  {
    [Mount(sysInitPath, "/.dockerinit", false),
     Mount(envPath, "/.dockerenv", false),
     Mount(resolvConfPath, "/etc/resolv.conf", false)]
  }

  /** The hostname and hosts files, only when both paths are set. */
  function HostMounts(hostnamePath: string, hostsPath: string): seq<Mount>
  {
    if hostnamePath != "" && hostsPath != "" then
      [Mount(hostnamePath, "/etc/hostname", false), Mount(hostsPath, "/etc/hosts", false)]
    else []
  }

  /** The mount of volume `r`: a missing writable flag reads as false. */
  function VolumeMount(s: VolumeState, r: string): Mount
    requires r in s.volumes
  {
    Mount(s.volumes[r], r, r in s.volumesRW && s.volumesRW[r])
  }

  /** `tail` is one mount per volume, in some order. */
  predicate VolumeMounts(tail: seq<Mount>, s: VolumeState)
  {
    && |tail| == |s.volumes|
    && (forall i :: 0 <= i < |tail| ==> tail[i].destination in s.volumes && tail[i] == VolumeMount(s, tail[i].destination))
    && (forall i, j :: 0 <= i < j < |tail| ==> tail[i].destination != tail[j].destination)
    && (forall r :: r in s.volumes ==> exists i :: 0 <= i < |tail| && tail[i].destination == r)
  }

  /** The loop of mountVolumesForContainer over the volumes, in Go's unspecified map order:
      one mount per volume. */
  method VolumeMountList(s: VolumeState) returns (tail: seq<Mount>)
    ensures VolumeMounts(tail, s)
  {
    tail := [];
    var todo := s.volumes.Keys;
    while todo != {}
      invariant todo <= s.volumes.Keys
      invariant |tail| + |todo| == |s.volumes.Keys|
      invariant forall i :: 0 <= i < |tail| ==>
        tail[i].destination in s.volumes && tail[i].destination !in todo && tail[i] == VolumeMount(s, tail[i].destination)
      invariant forall i, j :: 0 <= i < j < |tail| ==> tail[i].destination != tail[j].destination
      invariant forall r :: r in s.volumes && r !in todo ==> exists i :: 0 <= i < |tail| && tail[i].destination == r
      decreases |todo|
    {
      var r :| r in todo;
      var rw := if r in s.volumesRW then s.volumesRW[r] else false;
      ghost var prev := tail;
      tail := tail + [Mount(s.volumes[r], r, rw)];
      todo := todo - {r};
      forall r' | r' in s.volumes && r' !in todo
        ensures exists i :: 0 <= i < |tail| && tail[i].destination == r'
      {
        if r' == r {
          assert tail[|prev|].destination == r';
        } else {
          var i :| 0 <= i < |prev| && prev[i].destination == r';
          assert tail[i] == prev[i];
        }
      }
    }
    assert |s.volumes.Keys| == |s.volumes|;
  }

  /** prepareVolumesForContainer's start: a container without volumes gets empty maps, its
      writable flags dropped as well. */
  function Reset(s: VolumeState): (r: VolumeState)
    ensures |s.volumes| == 0 ==> r == VolumeState(map[], map[])
    ensures |s.volumes| != 0 ==> r == s
  {
    if |s.volumes| == 0 then VolumeState(map[], map[]) else s
  }

  // ---- the container ----

  class Container {
    const id: string
    /** Config.VolumesFrom: ','-separated `container[:mode]` entries. */
    const volumesFrom: string
    /** Config.Volumes: the container paths the image or the user declares. */
    const declaredVolumes: set<string>
    /** hostConfig.Binds. */
    const binds: seq<string>
    const hostnamePath: string
    const hostsPath: string
    const resolvConfPath: string

    var volumes: map<string, string>
    var volumesRW: map<string, bool>
    /** command.Mounts. */
    var mounts: seq<Mount>

    constructor (id: string, volumesFrom: string, declaredVolumes: set<string>, binds: seq<string>,
                 hostnamePath: string, hostsPath: string, resolvConfPath: string,
                 volumes: map<string, string>, volumesRW: map<string, bool>)
      ensures this.id == id && this.volumesFrom == volumesFrom && this.declaredVolumes == declaredVolumes
      ensures this.binds == binds && this.hostnamePath == hostnamePath && this.hostsPath == hostsPath
      ensures this.resolvConfPath == resolvConfPath
      ensures this.volumes == volumes && this.volumesRW == volumesRW && mounts == []
    {
      this.id := id;
      this.volumesFrom := volumesFrom;
      this.declaredVolumes := declaredVolumes;
      this.binds := binds;
      this.hostnamePath := hostnamePath;
      this.hostsPath := hostsPath;
      this.resolvConfPath := resolvConfPath;
      this.volumes := volumes;
      this.volumesRW := volumesRW;
      mounts := [];
    }

    function State(): VolumeState
      reads this
    {
      VolumeState(volumes, volumesRW)
    }

    /** applyVolumesFrom on the container's own maps. */
    method ApplyVolumesFrom(runtime: map<string, VolumeSource>, mkdirFails: set<string>)
      returns (err: Option<VolumeError>)
      modifies this
      ensures var r := Applied(old(State()), volumesFrom, runtime, mkdirFails, id);
        && (err.None? <==> r.Success?)
        && (r.Success? ==> State() == r.value)
        && (r.Failure? ==> err == Some(r.error))
        && (r.Failure? ==> AllLeaves(old(State()), Split(volumesFrom, ','), runtime, mkdirFails, id, State()))
      ensures Keeps(old(State()), State())
      ensures mounts == old(mounts)
    {
      var t;
      t, err := ApplyFrom(State(), volumesFrom, runtime, mkdirFails, id);
      volumes, volumesRW := t.volumes, t.volumesRW;
    }

    /** createVolumes: the bind map first (its error ends it with nothing changed), then the
        declared volumes. */
    method CreateVolumes(fs: FileSystem) returns (err: Option<VolumeError>)
      modifies this
      ensures BindMapOf(binds).Failure? ==> err == Some(BindMapOf(binds).error) && State() == old(State())
      ensures BindMapOf(binds).Success? ==> var bm := BindMapOf(binds).value;
        && (err.None? <==> CreateOk(old(State()), declaredVolumes, bm, fs))
        && (err.None? ==> State() == CreateResult(old(State()), declaredVolumes, bm, fs))
        && (err.Some? ==>
              exists k :: k in NewPaths(declaredVolumes, old(State())) && KeyError(k, bm, fs) == err &&
                          PartialCreate(old(State()), CleanPaths(declaredVolumes), bm, fs, k, State()))
      ensures Keeps(old(State()), State())
      ensures mounts == old(mounts)
    {
      var binds := GetBindMap();
      if binds.Failure? {
        return Some(binds.error);
      }
      var t;
      t, err := CreateFrom(State(), declaredVolumes, binds.value, fs);
      volumes, volumesRW := t.volumes, t.volumesRW;
    }

    /** prepareVolumesForContainer: start from empty maps when there are no volumes, then
        applyVolumesFrom, then createVolumes; the first error is returned. */
    method PrepareVolumesForContainer(runtime: map<string, VolumeSource>, mkdirFails: set<string>, fs: FileSystem)
      returns (err: Option<VolumeError>)
      modifies this
      ensures var r := Applied(Reset(old(State())), volumesFrom, runtime, mkdirFails, id);
        && (r.Failure? ==> err == Some(r.error))
        && (r.Failure? ==> AllLeaves(Reset(old(State())), Split(volumesFrom, ','), runtime, mkdirFails, id, State()))
        && (r.Success? && BindMapOf(binds).Failure? ==> err == Some(BindMapOf(binds).error) && State() == r.value)
        && (r.Success? && BindMapOf(binds).Success? ==> var bm := BindMapOf(binds).value;
              && (err.None? <==> CreateOk(r.value, declaredVolumes, bm, fs))
              && (err.None? ==> State() == CreateResult(r.value, declaredVolumes, bm, fs))
              && (err.Some? ==>
                    exists k :: k in NewPaths(declaredVolumes, r.value) && KeyError(k, bm, fs) == err &&
                                PartialCreate(r.value, CleanPaths(declaredVolumes), bm, fs, k, State())))
      ensures Keeps(Reset(old(State())), State())
      ensures mounts == old(mounts)
    {
      if |volumes| == 0 {
        volumes, volumesRW := map[], map[];
      }
      ghost var s0 := State();
      err := ApplyVolumesFrom(runtime, mkdirFails);
      if err.Some? {
        return;
      }
      ghost var s1 := State();
      err := CreateVolumes(fs);
      KeepsTrans(s0, s1, State());
    }

    /** mountVolumesForContainer with the setup's errors returned: the fixed mounts, the host
        files when both are set, then one mount per volume; mounts are untouched on an error.
        `mkdir`, `bindMount` and `forceMount` are the answers of the three setup calls. */
    method MountVolumesForContainer(sysInitPath: string, envPath: string, mkdir: Option<VolumeError>,
                                    bindMount: Option<VolumeError>, forceMount: Option<VolumeError>)
      returns (err: Option<VolumeError>)
      modifies this`mounts
      ensures var setup := MountSetup(mkdir, bindMount, forceMount);
        && (setup.Return? ==> err == setup.err && mounts == old(mounts))
        && (setup.Proceed? ==>
              var head := FixedMounts(sysInitPath, envPath, resolvConfPath) + HostMounts(hostnamePath, hostsPath);
              && err.None? && |mounts| >= |head| && mounts[..|head|] == head
              && VolumeMounts(mounts[|head|..], State()))
    {
      if MkdirFailed(mkdir) {
        return mkdir;
      }
      if bindMount.Some? {
        return bindMount;
      }
      if forceMount.Some? {
        return forceMount;
      }
      var ms := [Mount(sysInitPath, "/.dockerinit", false),
                 Mount(envPath, "/.dockerenv", false),
                 Mount(resolvConfPath, "/etc/resolv.conf", false)];
      if hostnamePath != "" && hostsPath != "" {
        ms := ms + [Mount(hostnamePath, "/etc/hostname", false)];
        ms := ms + [Mount(hostsPath, "/etc/hosts", false)];
      }
      var tail := VolumeMountList(State());
      mounts := ms + tail;
      assert mounts[..|ms|] == ms && mounts[|ms|..] == tail;
      err := None;
    }

    /** getBindMap: the requested binds keyed by cleaned destination. */
    method GetBindMap() returns (r: Result<map<string, BindMap>, VolumeError>)
      ensures r == BindMapOf(binds)
    {
      var m := map[];
      ghost var rs := Parses(binds);
      ghost var es := [];
      for i := 0 to |binds|
        invariant Collect(rs[..i]) == Success(es) && m == Fold(es)
      {
        CollectNext(rs, i);
        // the split, the part count and the illegal destinations, as ParseBind states them
        var bind := ParseBind(binds[i]);
        if bind.Failure? {
          CollectStops(rs, i + 1);
          return Failure(bind.error);
        }
        var bindMap := bind.value;
        m := m[Clean(bindMap.dstPath) := bindMap];
        FoldNext(es, EntryOf(bindMap));
        es := es + [EntryOf(bindMap)];
      }
      assert rs[..|binds|] == rs;
      r := Success(m);
    }
  }
}
