/** The daemon's `containers` job (`docker ps`): one pass over the containers in the daemon's
    order, in which the `writeCont` step skips, writes or stops according to the all, limit,
    since, before and exited settings; containers that belong to a group are set aside and
    each group is listed once with its member count. */
module DaemonList {
  import opened Wrappers
  import opened GoStrings

  datatype Container = Container(
    id: string,
    running: bool,
    exitCode: int,
    group: string,         // "" when the container belongs to no group
    path: string,
    args: seq<string>,
    status: string)        // State.String(), taken as given

  datatype Group = Group(name: string)

  /** The job's environment: all, since, before and limit. */
  datatype Options = Options(all: bool, since: string, before: string, limit: int)

  datatype ListError =
    | BadExitCode(err: NumError)     // an `exited` filter value Atoi rejects
    | NoSuchContainer(name: string)  // since or before names no container
    | GroupsFailed                   // daemon.Groups() failed

  /** One row of the output table (Image, Created, Ports and sizes are not modelled). */
  datatype Entry =
    | ContainerEntry(id: string, names: seq<string>, command: string, status: string)
    | GroupEntry(names: seq<string>, status: string)

  // ---- the exited filter ----

  /** The exit codes of the `exited` filter values, in order; the first value Atoi rejects
      is the error. */
  function ParseCodes(values: seq<string>): Result<seq<int>, NumError>
  {
    if values == [] then Success([])
    else
      var n := |values| - 1;
      match ParseCodes(values[..n])
      case Failure(e) => Failure(e)
      case Success(codes) =>
        match Atoi(values[n])
        case Failure(e) => Failure(e)
        case Success(code) => Success(codes + [code])
  }

  /** The codes parse exactly when every value does. */
  lemma ParseCodesMeaning(values: seq<string>)
    ensures ParseCodes(values).Success? <==> forall i :: 0 <= i < |values| ==> Atoi(values[i]).Success?
  {
    if ParseCodes(values).Success? {
      ParseCodesValues(values);
    } else if forall i :: 0 <= i < |values| ==> Atoi(values[i]).Success? {
      ParseCodesAllNumbers(values);
    }
  }

  /** Values that are all numbers parse. */
  lemma {:induction false} ParseCodesAllNumbers(values: seq<string>)
    requires forall i :: 0 <= i < |values| ==> Atoi(values[i]).Success?
    ensures ParseCodes(values).Success?
  {
    if values != [] {
      var n := |values| - 1;
      var p := values[..n];
      assert forall i :: 0 <= i < n ==> p[i] == values[i];
      ParseCodesAllNumbers(p);
    }
  }

  /** Parsed codes are the values' Atoi results, one per value, in order. */
  lemma {:induction false} ParseCodesValues(values: seq<string>)
    requires ParseCodes(values).Success?
    ensures |ParseCodes(values).value| == |values|
    ensures forall i :: 0 <= i < |values| ==> Atoi(values[i]) == Success(ParseCodes(values).value[i])
  {
    if values != [] {
      var n := |values| - 1;
      var p := values[..n];
      ParseCodesValues(p);
      var codes := ParseCodes(p).value;
      assert Atoi(values[n]).Success? && ParseCodes(values).value == codes + [Atoi(values[n]).value];
      assert forall i :: 0 <= i < n ==> p[i] == values[i];
    }
  }

  /** A value that is not a number fails the whole job. */
  lemma NonNumericExitCode(values: seq<string>, i: nat)
    requires i < |values| && Atoi(values[i]).Failure?
    ensures ParseCodes(values).Failure?
  {
    ParseCodesMeaning(values);
  }

  /** The loop that collects filt_exited. */
  method ParseExited(values: seq<string>) returns (r: Result<seq<int>, NumError>)
    ensures r == ParseCodes(values)
  {
    var codes := [];
    for i := 0 to |values|
      invariant ParseCodes(values[..i]) == Success(codes)
    {
      assert values[..i + 1][..i] == values[..i];
      var code := Atoi(values[i]);
      if code.Failure? {
        ParseCodesStops(values, i + 1);
        return Failure(code.error);
      }
      codes := codes + [code.value];
    }
    assert values[..|values|] == values;
    r := Success(codes);
  }

  lemma {:induction false} ParseCodesStops(values: seq<string>, i: nat)
    requires i <= |values| && ParseCodes(values[..i]).Failure?
    ensures ParseCodes(values) == ParseCodes(values[..i])
    decreases |values| - i
  {
    if i == |values| {
      assert values[..i] == values;
    } else {
      var n := |values| - 1;
      assert values[..n][..i] == values[..i];
      ParseCodesStops(values[..n], i);
    }
  }

  // ---- writeCont ----

  /** The settings writeCont consults, with before and since resolved to container ids. */
  datatype Filter = Filter(all: bool, limit: int, exited: seq<int>, before: Option<string>, since: Option<string>)

  /** What writeCont does with one container. */
  datatype Decision = Skip | SkipFoundBefore | Last | Write

  function WriteCont(f: Filter, foundBefore: bool, displayed: int, c: Container): Decision
  {
    if !c.running && !f.all && f.limit <= 0 && f.since.None? && f.before.None? then Skip
    else if f.before.Some? && !foundBefore then
      (if c.id == f.before.value then SkipFoundBefore else Skip)
    else if f.limit > 0 && displayed == f.limit then Last
    else if f.since.Some? && c.id == f.since.value then Last
    else if |f.exited| > 0 && !c.running && c.exitCode !in f.exited then Skip
    else Write
  }

  /** The state of the pass: writeCont's foundBefore, whether it has stopped, the containers
      written so far (their count is `displayed`) and the members seen of each group. */
  datatype Scan = Scan(foundBefore: bool, stopped: bool, emitted: seq<Container>, members: map<string, nat>)

  const Start := Scan(false, false, [], map[])

  /** The members of group `g` counted so far (zero for a group with none). */
  function Members(m: map<string, nat>, g: string): nat
  {
    if g in m then m[g] else 0
  }

  /** One container of the pass: after a stop nothing happens; a grouped container is counted
      for its group; any other goes through writeCont. */
  function Next(f: Filter, st: Scan, c: Container): Scan
  {
    if st.stopped then st
    else if c.group != "" then st.(members := st.members[c.group := Members(st.members, c.group) + 1])
    else match WriteCont(f, st.foundBefore, |st.emitted|, c)
      case Skip => st
      case SkipFoundBefore => st.(foundBefore := true)
      case Last => st.(stopped := true)
      case Write => st.(emitted := st.emitted + [c])
  }

  /** The pass over `cs` from `st`. */
  function ScanFrom(f: Filter, st: Scan, cs: seq<Container>): Scan
  {
    if cs == [] then st else Next(f, ScanFrom(f, st, cs[..|cs| - 1]), cs[|cs| - 1])
  }

  /** The pass over `a + b` is the pass over `b` from where the pass over `a` ended. */
  lemma {:induction false} ScanAppend(f: Filter, st: Scan, a: seq<Container>, b: seq<Container>)
    ensures ScanFrom(f, st, a + b) == ScanFrom(f, ScanFrom(f, st, a), b)
    decreases |b|
  {
    if b == [] {
      assert a + b == a;
    } else {
      var n := |b| - 1;
      assert (a + b)[..|a + b| - 1] == a + b[..n];
      ScanAppend(f, st, a, b[..n]);
    }
  }

  /** Once the pass has stopped, the remaining containers change nothing. */
  lemma {:induction false} ScanStopped(f: Filter, st: Scan, cs: seq<Container>)
    requires st.stopped
    ensures ScanFrom(f, st, cs) == st
  {
    if cs != [] {
      ScanStopped(f, st, cs[..|cs| - 1]);
    }
  }

  /** Every container written is ungrouped, one of the input, passed the exited filter when
      it is not running, and is not the since container. */
  predicate WrittenOk(f: Filter, cs: seq<Container>, emitted: seq<Container>)
  {
    forall k :: 0 <= k < |emitted| ==>
      && emitted[k] in cs && emitted[k].group == ""
      && (emitted[k].running || |f.exited| == 0 || emitted[k].exitCode in f.exited)
      && (f.since.Some? ==> emitted[k].id != f.since.value)
  }

  lemma {:induction false} ScanWrittenOk(f: Filter, cs: seq<Container>)
    ensures WrittenOk(f, cs, ScanFrom(f, Start, cs).emitted)
  {
    if cs != [] {
      var n := |cs| - 1;
      ScanWrittenOk(f, cs[..n]);
      var st := ScanFrom(f, Start, cs[..n]);
      forall k | 0 <= k < |st.emitted|
        ensures st.emitted[k] in cs
      {
        assert st.emitted[k] in cs[..n];
      }
    }
  }

  /** With a positive limit, at most that many containers are written. */
  lemma {:induction false} LimitBound(f: Filter, cs: seq<Container>)
    requires f.limit > 0
    ensures |ScanFrom(f, Start, cs).emitted| <= f.limit
  {
    if cs != [] {
      LimitBound(f, cs[..|cs| - 1]);
    }
  }

  /** Once `limit` containers are written, the next ungrouped container that gets past the
      before setting ends the pass: nothing after the limit is written. */
  lemma LimitStops(f: Filter, pre: seq<Container>, c: Container, post: seq<Container>)
    requires f.limit > 0 && c.group == ""
    requires var st := ScanFrom(f, Start, pre);
      !st.stopped && |st.emitted| == f.limit && (f.before.None? || st.foundBefore)
    ensures ScanFrom(f, Start, pre + [c] + post).emitted == ScanFrom(f, Start, pre).emitted
  {
    ScanAppend(f, Start, pre, [c]);
    ScanAppend(f, Start, pre + [c], post);
    assert [c][..0] == [];
    ScanStopped(f, ScanFrom(f, Start, pre + [c]), post);
  }

  /** The since container, once reached past the before setting, ends the pass unwritten. */
  lemma SinceStops(f: Filter, pre: seq<Container>, c: Container, post: seq<Container>)
    requires f.since.Some? && c.id == f.since.value && c.group == ""
    requires var st := ScanFrom(f, Start, pre); !st.stopped && (f.before.None? || st.foundBefore)
    ensures ScanFrom(f, Start, pre + [c] + post).emitted == ScanFrom(f, Start, pre).emitted
  {
    ScanAppend(f, Start, pre, [c]);
    ScanAppend(f, Start, pre + [c], post);
    assert [c][..0] == [];
    ScanStopped(f, ScanFrom(f, Start, pre + [c]), post);
  }

  /** With before set, nothing is written until the before container has been passed: up to
      and including it, every container is skipped. */
  lemma {:induction false} BeforePending(f: Filter, cs: seq<Container>)
    requires f.before.Some?
    requires forall k :: 0 <= k < |cs| ==> cs[k].group != "" || cs[k].id != f.before.value
    ensures var st := ScanFrom(f, Start, cs); st.emitted == [] && !st.foundBefore && !st.stopped
  {
    if cs != [] {
      var n := |cs| - 1;
      assert forall k :: 0 <= k < n ==> cs[..n][k] == cs[k];
      BeforePending(f, cs[..n]);
    }
  }

  lemma BeforeFound(f: Filter, pre: seq<Container>, c: Container)
    requires f.before.Some? && c.id == f.before.value && c.group == ""
    requires forall k :: 0 <= k < |pre| ==> pre[k].group != "" || pre[k].id != f.before.value
    ensures var st := ScanFrom(f, Start, pre + [c]); st.emitted == [] && st.foundBefore && !st.stopped
  {
    BeforePending(f, pre);
    ScanAppend(f, Start, pre, [c]);
    assert [c][..0] == [];
  }

  /** The running ungrouped containers, in order. */
  function RunningUngrouped(cs: seq<Container>): seq<Container>
  {
    if cs == [] then []
    else
      var n := |cs| - 1;
      RunningUngrouped(cs[..n]) + (if cs[n].running && cs[n].group == "" then [cs[n]] else [])
  }

  /** Without all, limit, since and before, exactly the running ungrouped containers are
      written, in order. */
  lemma {:induction false} DefaultListsRunning(f: Filter, cs: seq<Container>)
    requires !f.all && f.limit <= 0 && f.since.None? && f.before.None?
    ensures ScanFrom(f, Start, cs).emitted == RunningUngrouped(cs)
    ensures !ScanFrom(f, Start, cs).stopped
  {
    if cs != [] {
      DefaultListsRunning(f, cs[..|cs| - 1]);
    }
  }

  /** The members of group `g` among `cs`. */
  function GroupCount(cs: seq<Container>, g: string): nat
  {
    if cs == [] then 0
    else
      var n := |cs| - 1;
      GroupCount(cs[..n], g) + (if cs[n].group == g then 1 else 0)
  }

  /** A pass that does not stop counts every member of every group. */
  lemma {:induction false} MembersCounted(f: Filter, cs: seq<Container>, g: string)
    requires g != "" && !ScanFrom(f, Start, cs).stopped
    ensures Members(ScanFrom(f, Start, cs).members, g) == GroupCount(cs, g)
  {
    if cs != [] {
      var n := |cs| - 1;
      MembersCounted(f, cs[..n], g);
    }
  }

  /** A pass that stops does not count the members after the stop: with a limit of 1, a group
      whose only member follows two ungrouped containers is listed with no members. */
  lemma MembersAfterStopUncounted()
    ensures var f := Filter(false, 1, [], None, None);
      var a := Container("a", true, 0, "", "/bin/sh", [], "Up");
      var b := Container("b", true, 0, "", "/bin/sh", [], "Up");
      var m := Container("m", true, 0, "g", "/bin/sh", [], "Up");
      && Members(ScanFrom(f, Start, [a, b, m]).members, "g") == 0
      && GroupCount([a, b, m], "g") == 1
  {
    var f := Filter(false, 1, [], None, None);
    var a := Container("a", true, 0, "", "/bin/sh", [], "Up");
    var b := Container("b", true, 0, "", "/bin/sh", [], "Up");
    var m := Container("m", true, 0, "g", "/bin/sh", [], "Up");
    assert [a, b, m][..2] == [a, b] && [a, b][..1] == [a] && [a][..0] == [];
    assert ScanFrom(f, Start, [a]) == Scan(false, false, [a], map[]);
    assert ScanFrom(f, Start, [a, b]).stopped;
    assert GroupCount([a], "g") == 0;
    assert GroupCount([a, b], "g") == 0;
  }

  // ---- the Command column ----

  /** An argument holding a space is wrapped in single quotes. */
  function QuoteArg(arg: string): (r: string)
    ensures ' ' in arg ==> r == "'" + arg + "'"
    ensures ' ' !in arg ==> r == arg
  {
    if Contains(arg, ' ') then "'" + arg + "'" else arg
  }

  function QuoteArgs(args: seq<string>): (r: seq<string>)
    ensures |r| == |args| && forall i :: 0 <= i < |args| ==> r[i] == QuoteArg(args[i])
  {
    if args == [] then [] else QuoteArgs(args[..|args| - 1]) + [QuoteArg(args[|args| - 1])]
  }

  /** The Command column: the path and the quoted arguments, space-separated, in double
      quotes. */
  function CommandString(path: string, args: seq<string>): string
  {
    if |args| > 0 then "\"" + path + " " + Join(QuoteArgs(args), " ") + "\"" else "\"" + path + "\""
  }

  /** Command with no arguments is the quoted path alone; with arguments none of which holds a
      space, it is the path and the arguments joined by spaces, quoted. */
  lemma CommandForms(path: string, args: seq<string>)
    ensures args == [] ==> CommandString(path, args) == "\"" + path + "\""
    ensures (forall i :: 0 <= i < |args| ==> ' ' !in args[i]) && args != [] ==>
      CommandString(path, args) == "\"" + Join([path] + args, " ") + "\""
  {
    if args != [] && forall i :: 0 <= i < |args| ==> ' ' !in args[i] {
      PlainArgs(args);
      CommandPlain(path, args);
    }
  }

  lemma PlainArgs(args: seq<string>)
    requires forall i :: 0 <= i < |args| ==> ' ' !in args[i]
    ensures QuoteArgs(args) == args
  {
    var q := QuoteArgs(args);
    assert forall i :: 0 <= i < |args| ==> q[i] == args[i];
  }

  lemma CommandPlain(path: string, args: seq<string>)
    requires args != [] && QuoteArgs(args) == args
    ensures CommandString(path, args) == "\"" + Join([path] + args, " ") + "\""
  {
    var l := [path] + args;
    assert l[1..] == args;
  }

  /** The Command column as writeCont builds it. */
  method FormatCommand(path: string, args: seq<string>) returns (s: string)
    ensures s == CommandString(path, args)
  {
    if |args| > 0 {
      var quoted := [];
      for i := 0 to |args|
        invariant quoted == QuoteArgs(args[..i])
      {
        assert args[..i + 1][..i] == args[..i];
        if Contains(args[i], ' ') {
          quoted := quoted + ["'" + args[i] + "'"];
        } else {
          quoted := quoted + [args[i]];
        }
      }
      assert args[..|args|] == args;
      s := "\"" + path + " " + Join(quoted, " ") + "\"";
    } else {
      s := "\"" + path + "\"";
    }
  }

  // ---- the whole job ----

  function NamesOf(names: map<string, seq<string>>, id: string): seq<string>
  {
    if id in names then names[id] else []
  }

  function ContainerRow(c: Container, names: map<string, seq<string>>): Entry
  {
    ContainerEntry(c.id, NamesOf(names, c.id), CommandString(c.path, c.args), c.status)
  }

  function ContainerRows(cs: seq<Container>, names: map<string, seq<string>>): (r: seq<Entry>)
    ensures |r| == |cs| && forall i :: 0 <= i < |cs| ==> r[i] == ContainerRow(cs[i], names)
  {
    if cs == [] then []
    else
      var n := |cs| - 1;
      var prev := ContainerRows(cs[..n], names);
      assert forall i :: 0 <= i < n ==> cs[..n][i] == cs[i];
      prev + [ContainerRow(cs[n], names)]
  }

  /** One more listed container adds its row. */
  lemma RowsNext(cs: seq<Container>, c: Container, names: map<string, seq<string>>)
    ensures ContainerRows(cs + [c], names) == ContainerRows(cs, names) + [ContainerRow(c, names)]
  {
    assert (cs + [c])[..|cs|] == cs;
  }

  /** A group's row: its name between slashes and "<k> containers". */
  function GroupRow(g: Group, members: map<string, nat>): Entry
  {
    GroupEntry(["/" + g.name + "/"], FormatInt(Members(members, g.name)) + " containers")
  }

  function GroupRows(gs: seq<Group>, members: map<string, nat>): (r: seq<Entry>)
    ensures |r| == |gs| && forall i :: 0 <= i < |gs| ==> r[i] == GroupRow(gs[i], members)
  {
    if gs == [] then []
    else
      var n := |gs| - 1;
      var prev := GroupRows(gs[..n], members);
      assert forall i :: 0 <= i < n ==> gs[..n][i] == gs[i];
      prev + [GroupRow(gs[n], members)]
  }

  /** Since and before resolved through `lookup` (daemon.Get); an unknown name is an error. */
  function Resolve(name: string, lookup: map<string, string>): Result<Option<string>, ListError>
  {
    if name == "" then Success(None)
    else if name !in lookup then Failure(NoSuchContainer(name))
    else Success(Some(lookup[name]))
  }

  /** The rows of the job, before the table's reverse sort by creation time. */
  function Listing(cs: seq<Container>, opts: Options, filters: map<string, seq<string>>,
                   lookup: map<string, string>, names: map<string, seq<string>>,
                   groups: Option<seq<Group>>): Result<seq<Entry>, ListError>
  {
    var codes := if "exited" in filters then ParseCodes(filters["exited"]) else Success([]);
    if codes.Failure? then Failure(BadExitCode(codes.error))
    else
      var before := Resolve(opts.before, lookup);
      var since := Resolve(opts.since, lookup);
      if before.Failure? then Failure(before.error)
      else if since.Failure? then Failure(since.error)
      else
        var f := Filter(opts.all, opts.limit, codes.value, before.value, since.value);
        var st := ScanFrom(f, Start, cs);
        if groups.None? then Failure(GroupsFailed)
        else Success(ContainerRows(st.emitted, names) + GroupRows(groups.value, st.members))
  }

  /** The job's errors: a bad exit code, an unknown before or since name, or a failing group
      lookup, in that order; otherwise one row per written container, then one per group. */
  lemma ListingErrors(cs: seq<Container>, opts: Options, filters: map<string, seq<string>>,
                      lookup: map<string, string>, names: map<string, seq<string>>,
                      groups: Option<seq<Group>>)
    ensures var r := Listing(cs, opts, filters, lookup, names, groups);
      && ("exited" in filters && ParseCodes(filters["exited"]).Failure? ==>
            r == Failure(BadExitCode(ParseCodes(filters["exited"]).error)))
      && ((("exited" !in filters || ParseCodes(filters["exited"]).Success?) &&
             opts.before != "" && opts.before !in lookup) ==>
            r == Failure(NoSuchContainer(opts.before)))
      && (r.Success? <==>
            && ("exited" !in filters || ParseCodes(filters["exited"]).Success?)
            && (opts.before == "" || opts.before in lookup)
            && (opts.since == "" || opts.since in lookup)
            && groups.Some?)
      && (r.Success? ==> forall i :: 0 <= i < |r.value| ==>
            (r.value[i].GroupEntry? <==> i >= |r.value| - |groups.value|))
  {
  }

  /** writeCont's decision for one ungrouped container, as its branches test the settings. */
  method WriteContStep(f: Filter, foundBefore: bool, displayed: int, c: Container) returns (d: Decision)
    ensures d == WriteCont(f, foundBefore, displayed, c)
  {
    if !c.running && !f.all && f.limit <= 0 && f.since.None? && f.before.None? {
      return Skip;
    }
    if f.before.Some? && !foundBefore {
      if c.id == f.before.value {
        return SkipFoundBefore;
      }
      return Skip;
    }
    if f.limit > 0 && displayed == f.limit {
      return Last;
    }
    if f.since.Some? && c.id == f.since.value {
      return Last;
    }
    if |f.exited| > 0 && !c.running {
      var shouldSkip := true;
      for j := 0 to |f.exited|
        invariant shouldSkip <==> c.exitCode !in f.exited[..j]
      {
        if f.exited[j] == c.exitCode {
          shouldSkip := false;
          break;
        }
      }
      assert f.exited[..|f.exited|] == f.exited;
      if shouldSkip {
        return Skip;
      }
    }
    return Write;
  }

  /** The loop's variables hold the pass state `st`, which has not stopped. */
  ghost predicate Mirrors(st: Scan, names: map<string, seq<string>>, foundBefore: bool, displayed: int,
                          outs: seq<Entry>, groupContainers: map<string, nat>)
  {
    && st == Scan(foundBefore, false, st.emitted, groupContainers)
    && displayed == |st.emitted| && outs == ContainerRows(st.emitted, names)
  }

  /** One iteration of the loop over the containers. */
  method ScanOne(f: Filter, c: Container, names: map<string, seq<string>>, ghost st: Scan,
                 foundBefore: bool, displayed: int, outs: seq<Entry>, groupContainers: map<string, nat>)
    returns (foundBefore': bool, displayed': int, outs': seq<Entry>, groupContainers': map<string, nat>, last: bool)
    requires Mirrors(st, names, foundBefore, displayed, outs, groupContainers)
    ensures last <==> Next(f, st, c).stopped
    ensures last ==> Next(f, st, c) == st.(stopped := true) && outs' == outs && groupContainers' == groupContainers
    ensures !last ==> Mirrors(Next(f, st, c), names, foundBefore', displayed', outs', groupContainers')
  {
    foundBefore', displayed', outs', groupContainers', last := foundBefore, displayed, outs, groupContainers, false;
    if c.group != "" {
      var k := if c.group in groupContainers then groupContainers[c.group] else 0;
      groupContainers' := groupContainers[c.group := k + 1];
      MirrorsCounted(st, names, foundBefore, displayed, outs, groupContainers, c.group);
      assert Next(f, st, c) == st.(members := groupContainers');
    } else {
      var d := WriteContStep(f, foundBefore, displayed, c);
      NextUngrouped(f, st, c);
      if d == Last {
        last := true;
      } else if d == SkipFoundBefore {
        foundBefore' := true;
        MirrorsFoundBefore(st, names, foundBefore, displayed, outs, groupContainers);
      } else if d == Write {
        var command := FormatCommand(c.path, c.args);
        outs' := outs + [ContainerEntry(c.id, NamesOf(names, c.id), command, c.status)];
        displayed' := displayed + 1;
        assert outs' == outs + [ContainerRow(c, names)];
        MirrorsWritten(st, names, foundBefore, displayed, outs, groupContainers, c);
      }
    }
  }

  /** A grouped container counted: the loop's map follows the pass. */
  lemma MirrorsCounted(st: Scan, names: map<string, seq<string>>, foundBefore: bool, displayed: int,
                       outs: seq<Entry>, groupContainers: map<string, nat>, g: string)
    requires Mirrors(st, names, foundBefore, displayed, outs, groupContainers)
    ensures var m := groupContainers[g := Members(groupContainers, g) + 1];
      Mirrors(st.(members := m), names, foundBefore, displayed, outs, m)
  {
  }

  /** The before container reached: the loop's flag follows the pass. */
  lemma MirrorsFoundBefore(st: Scan, names: map<string, seq<string>>, foundBefore: bool, displayed: int,
                           outs: seq<Entry>, groupContainers: map<string, nat>)
    requires Mirrors(st, names, foundBefore, displayed, outs, groupContainers)
    ensures Mirrors(st.(foundBefore := true), names, true, displayed, outs, groupContainers)
  {
  }

  /** A container written: the loop's rows and count follow the pass. */
  lemma MirrorsWritten(st: Scan, names: map<string, seq<string>>, foundBefore: bool, displayed: int,
                       outs: seq<Entry>, groupContainers: map<string, nat>, c: Container)
    requires Mirrors(st, names, foundBefore, displayed, outs, groupContainers)
    ensures Mirrors(st.(emitted := st.emitted + [c]), names, foundBefore, displayed + 1,
                    outs + [ContainerRow(c, names)], groupContainers)
  {
    RowsNext(st.emitted, c, names);
  }

  /** An ungrouped container, before the pass stops, goes through writeCont. */
  lemma NextUngrouped(f: Filter, st: Scan, c: Container)
    requires !st.stopped && c.group == ""
    ensures var d := WriteCont(f, st.foundBefore, |st.emitted|, c);
      Next(f, st, c) == match d
        case Skip => st
        case SkipFoundBefore => st.(foundBefore := true)
        case Last => st.(stopped := true)
        case Write => st.(emitted := st.emitted + [c])
  {
  }

  /** The loop over the containers: grouped ones are counted, the others go through
      writeCont until it answers Last. */
  method ScanContainers(f: Filter, cs: seq<Container>, names: map<string, seq<string>>)
    returns (outs: seq<Entry>, groupContainers: map<string, nat>)
    ensures outs == ContainerRows(ScanFrom(f, Start, cs).emitted, names)
    ensures groupContainers == ScanFrom(f, Start, cs).members
  {
    var foundBefore := false;
    var displayed := 0;
    outs := [];
    groupContainers := map[];
    ghost var st := Start;
    var i := 0;
    while i < |cs|
      invariant 0 <= i <= |cs| && st == ScanFrom(f, Start, cs[..i])
      invariant Mirrors(st, names, foundBefore, displayed, outs, groupContainers)
      decreases |cs| - i
    {
      ScanNext(f, cs, i);
      var last;
      foundBefore, displayed, outs, groupContainers, last :=
        ScanOne(f, cs[i], names, st, foundBefore, displayed, outs, groupContainers);
      if last {
        ScanRest(f, cs, i + 1);
        return;
      }
      st := Next(f, st, cs[i]);
      i := i + 1;
    }
    assert cs[..i] == cs;
  }

  lemma ScanNext(f: Filter, cs: seq<Container>, i: nat)
    requires i < |cs|
    ensures ScanFrom(f, Start, cs[..i + 1]) == Next(f, ScanFrom(f, Start, cs[..i]), cs[i])
  {
    assert cs[..i + 1][..i] == cs[..i];
  }

  /** A pass stopped after the first `i` containers ends there. */
  lemma ScanRest(f: Filter, cs: seq<Container>, i: nat)
    requires i <= |cs| && ScanFrom(f, Start, cs[..i]).stopped
    ensures ScanFrom(f, Start, cs) == ScanFrom(f, Start, cs[..i])
  {
    ScanAppend(f, Start, cs[..i], cs[i..]);
    assert cs[..i] + cs[i..] == cs;
    ScanStopped(f, ScanFrom(f, Start, cs[..i]), cs[i..]);
  }

  /** The group rows, in the order of daemon.Groups(). */
  method GroupEntries(gs: seq<Group>, groupContainers: map<string, nat>) returns (outs: seq<Entry>)
    ensures outs == GroupRows(gs, groupContainers)
  {
    outs := [];
    for j := 0 to |gs|
      invariant outs == GroupRows(gs[..j], groupContainers)
    {
      assert gs[..j + 1] == gs[..j] + [gs[j]];
      GroupRowsNext(gs[..j], gs[j], groupContainers);
      var k := if gs[j].name in groupContainers then groupContainers[gs[j].name] else 0;
      outs := outs + [GroupEntry(["/" + gs[j].name + "/"], FormatInt(k) + " containers")];
    }
    assert gs[..|gs|] == gs;
  }

  /** One more group adds its row. */
  lemma GroupRowsNext(gs: seq<Group>, g: Group, members: map<string, nat>)
    ensures GroupRows(gs + [g], members) == GroupRows(gs, members) + [GroupRow(g, members)]
  {
    assert (gs + [g])[..|gs|] == gs;
  }

  /** The containers job. `filters` is the parsed filter argument, `lookup` resolves names
      and ids as daemon.Get does, `names` holds each container's names from the graph, and
      `groups` is the answer of daemon.Groups() (None for an error). */
  method Containers(cs: seq<Container>, opts: Options, filters: map<string, seq<string>>,
                    lookup: map<string, string>, names: map<string, seq<string>>,
                    groups: Option<seq<Group>>)
    returns (r: Result<seq<Entry>, ListError>)
    ensures r == Listing(cs, opts, filters, lookup, names, groups)
  {
    var filtExited := [];
    if "exited" in filters {
      var codes := ParseExited(filters["exited"]);
      if codes.Failure? {
        return Failure(BadExitCode(codes.error));
      }
      filtExited := codes.value;
    }
    var beforeId: Option<string> := None;
    if opts.before != "" {
      if opts.before !in lookup {
        return Failure(NoSuchContainer(opts.before));
      }
      beforeId := Some(lookup[opts.before]);
    }
    var sinceId: Option<string> := None;
    if opts.since != "" {
      if opts.since !in lookup {
        return Failure(NoSuchContainer(opts.since));
      }
      sinceId := Some(lookup[opts.since]);
    }
    var f := Filter(opts.all, opts.limit, filtExited, beforeId, sinceId);
    var outs, groupContainers := ScanContainers(f, cs, names);
    if groups.None? {
      return Failure(GroupsFailed);
    }
    var groupOuts := GroupEntries(groups.value, groupContainers);
    r := Success(outs + groupOuts);
  }
}
