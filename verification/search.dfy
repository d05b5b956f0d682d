/**
 * The search command over GRUB's global state: the pending error
 * (grub_errno and its message), the environment variables, the console, and
 * a ghost log of the devices the collaborators were asked to open.
 */
module Search {
  import opened Wrappers
  import opened Platform
  import opened DeviceNames
  import opened Matching

  /** What grub_printf (" %s", name) writes for each name, in order. */
  function Announce(names: seq<string>): seq<string> {
    seq(|names|, k requires 0 <= k < |names| => " " + names[k])
  }

  lemma AnnounceAppend(a: seq<string>, b: seq<string>)
    ensures Announce(a + b) == Announce(a) + Announce(b)
  {
  }

  /** The environment after grub_env_set (target, first match), when there is a target and a match. */
  function Bound(env: map<string, string>, target: Option<string>, hits: seq<string>): map<string, string> {
    if target.Some? && hits != [] then env[target.value := hits[0]] else env
  }

  /** A snapshot of the global state the search touches. */
  datatype Globals = Globals(
    errno: ErrCode,
    errmsg: string,
    env: map<string, string>,
    output: seq<string>,
    probed: seq<string>)

  /**
   * The state a whole search leaves, from the state g before it: the
   * enumeration's trace, followed by the mode's final error decision. The
   * console and the probe log are only appended to, only the variable named
   * by -s can change, and the error left is none, "not found", out of memory,
   * or the one pending before.
   */
  function Outcome(q: Query, target: Option<string>, devs: seq<Device>, g: Globals): (r: Globals)
    ensures |g.output| <= |r.output| && r.output[..|g.output|] == g.output
    ensures |g.probed| <= |r.probed| && r.probed[..|g.probed|] == g.probed
    ensures target.Some? ==> r.output == g.output
    ensures target.None? ==> r.env == g.env
    ensures forall v :: v in g.env && (target.None? || v != target.value) ==> v in r.env && r.env[v] == g.env[v]
    ensures r.env.Keys <= g.env.Keys + (if target.Some? then {target.value} else {})
    ensures r.errno in {ErrNone, ErrFileNotFound, ErrOutOfMemory, g.errno}
  {
    var t := Run(q, devs, target.Some?);
    Globals(
      FinalErrno(q, t, g.errno),
      FinalErrmsg(q, t, g.errno, g.errmsg),
      Bound(g.env, target, t.hits),
      g.output + (if target.Some? then [] else Announce(t.hits)),
      g.probed + t.tested)
  }

  /**
   * Print mode: the console gains " <name>" for exactly the matching devices
   * reached before any failed allocation, in enumeration order (idx lists
   * their positions), and no variable is set.
   */
  lemma PrintOutcome(q: Query, devs: seq<Device>, g: Globals) returns (idx: seq<nat>)
    ensures var g' := Outcome(q, None, devs, g);
      && g'.env == g.env
      && |g'.output| == |g.output| + |idx|
      && g'.output[..|g.output|] == g.output
      && forall k :: 0 <= k < |idx| ==>
           idx[k] < |devs| && g'.output[|g.output| + k] == " " + devs[idx[k]].name
    ensures Increasing(idx)
    ensures forall i :: 0 <= i < |devs| ==>
      (i in idx <==> Judge(q, devs[i]) == Hit && forall j :: 0 <= j < i ==> Judge(q, devs[j]) != AllocFail)
  {
    idx := PrintHitIndices(q, devs);
    ReachedIff(q, devs);
    AnnouncedNames(g.output, devs, Run(q, devs, false).hits, idx);
  }

  /** Announcing names that idx locates in devs prints, at each place, a space and that device's name. */
  lemma AnnouncedNames(pre: seq<string>, devs: seq<Device>, names: seq<string>, idx: seq<nat>)
    requires Indexes(devs, names, idx)
    ensures |pre + Announce(names)| == |pre| + |idx|
    ensures forall k :: 0 <= k < |idx| ==>
      idx[k] < |devs| && (pre + Announce(names))[|pre| + k] == " " + devs[idx[k]].name
  {
    forall k | 0 <= k < |idx|
      ensures idx[k] < |devs| && (pre + Announce(names))[|pre| + k] == " " + devs[idx[k]].name
    {
      assert (pre + Announce(names))[|pre| + k] == Announce(names)[k];
    }
  }

  /**
   * Binding mode: the console is untouched; the variable is set to the first
   * matching device, if one is reached, and is otherwise left alone; and the
   * devices probed are those print mode probes up to that first match.
   */
  lemma BindOutcome(q: Query, v: string, devs: seq<Device>, g: Globals)
    ensures Outcome(q, Some(v), devs, g).output == g.output
    ensures Outcome(q, Some(v), devs, g).env ==
      if FirstHit(q, devs).Some? then g.env[v := devs[FirstHit(q, devs).value].name] else g.env
    ensures FirstHit(q, devs).Some? ==>
      Outcome(q, Some(v), devs, g).probed ==
        g.probed + Run(q, devs[..FirstHit(q, devs).value + 1], false).tested
  {
    BindRecordsFirstHit(q, devs);
    if FirstHit(q, devs).Some? {
      BindIsPrintUpToFirstHit(q, devs);
    }
  }

  /**
   * When no device matches, nothing is printed or bound; label/UUID mode then
   * fails with "no such device", and so does file mode when no error was
   * pending and no allocation failed.
   */
  lemma NoMatchOutcome(q: Query, target: Option<string>, devs: seq<Device>, g: Globals)
    requires forall i :: 0 <= i < |devs| ==> Judge(q, devs[i]) != Hit
    ensures Outcome(q, target, devs, g).output == g.output
    ensures Outcome(q, target, devs, g).env == g.env
    ensures q.mode != ByFile || (g.errno == ErrNone && forall i :: 0 <= i < |devs| ==> !devs[i].allocFails) ==>
      Outcome(q, target, devs, g).errno == ErrFileNotFound &&
      Outcome(q, target, devs, g).errmsg == NotFoundMessage(q)
  {
    NoHitNoMatches(q, devs, target.Some?);
    OomMeansAllocFail(q, devs, target.Some?);
    assert Announce([]) == [];
  }

  /**
   * A failed allocation reached before the enumeration stops (in binding
   * mode: before any match) leaves out of memory pending in place of "no such
   * file", and no device after it is probed.
   */
  lemma AllocFailOutcome(q: Query, target: Option<string>, devs: seq<Device>, g: Globals)
    requires Reach(q, devs) < |devs| && (target.Some? ==> FirstHit(q, devs).None?)
    ensures Outcome(q, target, devs, g).errno == ErrOutOfMemory
    ensures Outcome(q, target, devs, g).errmsg == OutOfMemoryMessage
    ensures Outcome(q, target, devs, g).probed == g.probed + Run(q, devs[..Reach(q, devs)], false).tested
  {
    PrintStopsAtAllocFail(q, devs);
    if target.Some? {
      BindWithoutHitIsPrint(q, devs);
    }
  }

  /**
   * Repeating a search over the same devices binds the same variable to the
   * same device and prints the same lines again.
   */
  lemma RepeatOutcome(q: Query, target: Option<string>, devs: seq<Device>, g: Globals)
    ensures var g1 := Outcome(q, target, devs, g);
      var g2 := Outcome(q, target, devs, g1);
      && g2.env == g1.env
      && |g.output| <= |g1.output|
      && g2.output == g1.output + g1.output[|g.output|..]
  {
    var g1 := Outcome(q, target, devs, g);
    assert g1.output[|g.output|..] == (if target.Some? then [] else Announce(Run(q, devs, target.Some?).hits));
  }

  /**
   * The state after a stretch t of the enumeration, from the state g before
   * it: the pending error, the console, the environment and the probe log as
   * t records them.
   */
  ghost predicate Follows(g: Globals, t: Trace, target: Option<string>, g': Globals) {
    && g'.errno == LoopErrno(t, g.errno)
    && g'.errmsg == (if t.oom then OutOfMemoryMessage else g.errmsg)
    && g'.output == g.output + (if target.Some? then [] else Announce(t.hits))
    && g'.env == Bound(g.env, target, t.hits)
    && g'.probed == g.probed + t.tested
  }

  /** Two stretches of the enumeration, one after the other, leave the state their join records. */
  lemma FollowsJoin(g0: Globals, acc: Trace, g1: Globals, s: Trace, g2: Globals, target: Option<string>)
    requires !acc.oom
    requires target.Some? ==> acc.hits == []
    requires Follows(g0, acc, target, g1) && Follows(g1, s, target, g2)
    ensures Follows(g0, Join(acc, s), target, g2)
  {
    AnnounceAppend(acc.hits, s.hits);
  }

  /**
   * The enumeration's progress after the first i devices: acc is what it has
   * recorded; unless it was stopped, the rest of Run is what the remaining
   * devices will add, and when binding nothing has matched yet.
   */
  ghost predicate Progress(q: Query, devs: seq<Device>, bind: bool, i: nat, acc: Trace, stopped: bool)
    requires i <= |devs|
  {
    && (!stopped ==> !acc.oom && Run(q, devs, bind) == Join(acc, Run(q, devs[i..], bind)))
    && (!stopped && bind ==> acc.hits == [])
    && (stopped ==> Run(q, devs, bind) == acc)
  }

  /** Before the first callback nothing is recorded and all of Run is still to come. */
  lemma ProgressStart(q: Query, devs: seq<Device>, bind: bool)
    ensures Progress(q, devs, bind, 0, Empty, false)
  {
    assert devs[0..] == devs;
    var t := Run(q, devs, bind);
    assert Join(Empty, t) == t by {
      assert [] + t.hits == t.hits && [] + t.tested == t.tested;
    }
  }

  /** One more callback keeps the enumeration's progress. */
  lemma ProgressStep(q: Query, devs: seq<Device>, bind: bool, i: nat, acc: Trace)
    requires i < |devs|
    requires Progress(q, devs, bind, i, acc, false)
    ensures Progress(q, devs, bind, i + 1, Join(acc, StepTrace(q, devs[i])), Halts(q, devs[i], bind))
  {
    RunFrom(q, devs, i, bind);
    JoinAssoc(acc, StepTrace(q, devs[i]), Run(q, devs[i + 1..], bind));
  }

  /** When the enumeration ends, what it recorded is the whole Run. */
  lemma ProgressDone(q: Query, devs: seq<Device>, bind: bool, i: nat, acc: Trace, stopped: bool)
    requires i <= |devs|
    requires Progress(q, devs, bind, i, acc, stopped)
    requires i == |devs| || stopped
    ensures Run(q, devs, bind) == acc
  {
    if !stopped {
      assert devs[i..] == [];
    }
  }

  /** One turn of the enumeration loop keeps its invariants. */
  lemma LoopStep(q: Query, devs: seq<Device>, target: Option<string>, i: nat, acc: Trace,
                 count: nat, count': nat, abort: bool, g0: Globals, g1: Globals, g2: Globals)
    requires i < |devs|
    requires count == |acc.hits| && Progress(q, devs, target.Some?, i, acc, false)
    requires Follows(g0, acc, target, g1)
    requires count' == count + |StepTrace(q, devs[i]).hits| && abort == Halts(q, devs[i], target.Some?)
    requires Follows(g1, StepTrace(q, devs[i]), target, g2)
    ensures var acc' := Join(acc, StepTrace(q, devs[i]));
      && count' == |acc'.hits|
      && Progress(q, devs, target.Some?, i + 1, acc', abort)
      && Follows(g0, acc', target, g2)
  {
    ProgressStep(q, devs, target.Some?, i, acc);
    FollowsJoin(g0, acc, g1, StepTrace(q, devs[i]), g2, target);
  }

  /** The parsed options of the command line. */
  datatype Flags = Flags(
    byFile: bool,            // -f
    byLabel: bool,           // -l
    byUuid: bool,            // -u
    setVar: bool,            // -s
    setArg: Option<string>,  // the argument of -s, if one was given
    noFloppy: bool)          // -n

  /** A search to run: the query and the variable to bind, if any. */
  datatype Job = Job(query: Query, target: Option<string>)

  /**
   * The command's dispatch: no argument is refused first; -s names the
   * variable to bind, "root" when it has no argument; label takes precedence
   * over UUID and UUID over file; with none of the three the search type is
   * unspecified.
   */
  function Plan(flags: Flags, args: seq<string>): (r: Result<Job, string>)
    ensures |args| == 0 ==> r == Failure("no argument specified")
    ensures |args| > 0 ==> (r.Success? <==> flags.byFile || flags.byLabel || flags.byUuid)
    ensures |args| > 0 && !(flags.byFile || flags.byLabel || flags.byUuid) ==>
      r == Failure("unspecified search type")
    ensures r.Success? ==> r.value.query.key == args[0] && r.value.query.noFloppy == flags.noFloppy
    ensures r.Success? && flags.byLabel ==> r.value.query.mode == ByLabel
    ensures r.Success? && flags.byUuid && !flags.byLabel ==> r.value.query.mode == ByUuid
    ensures r.Success? ==> (r.value.query.mode == ByFile <==> !flags.byLabel && !flags.byUuid)
    ensures r.Success? ==> (r.value.target.Some? <==> flags.setVar)
    ensures r.Success? && flags.setVar && flags.setArg.None? ==> r.value.target == Some("root")
    ensures r.Success? && flags.setVar && flags.setArg.Some? ==> r.value.target == flags.setArg
  {
    if |args| == 0 then Failure("no argument specified")
    else
      var target := if flags.setVar then Some(flags.setArg.GetOr("root")) else None;
      if flags.byLabel then Success(Job(Query(args[0], ByLabel, flags.noFloppy), target))
      else if flags.byUuid then Success(Job(Query(args[0], ByUuid, flags.noFloppy), target))
      else if flags.byFile then Success(Job(Query(args[0], ByFile, flags.noFloppy), target))
      else Failure("unspecified search type")
  }

  class Grub {
    var errno: ErrCode
    var errmsg: string
    var env: map<string, string>
    var output: seq<string>
    /** The devices handed to grub_device_open or grub_file_open, in order. */
    ghost var probed: seq<string>

    constructor (env: map<string, string>)
      ensures errno == ErrNone && this.env == env && output == [] && probed == []
    {
      errno := ErrNone;
      errmsg := "";
      this.env := env;
      output := [];
      probed := [];
    }

    ghost function Snapshot(): Globals
      reads this
    {
      Globals(errno, errmsg, env, output, probed)
    }

    /**
     * A whole search over the enumerated devices: the console, the
     * environment and the probe log follow the enumeration's trace, and the
     * error is the final decision of the mode.
     */
    twostate predicate Searched(q: Query, target: Option<string>, devs: seq<Device>)
      reads this
    {
      Snapshot() == Outcome(q, target, devs, old(Snapshot()))
    }

    /** The callback of label/UUID mode. */
    method IterateDeviceFs(q: Query, target: Option<string>, d: Device, count: nat)
      returns (count': nat, abort: bool)
      requires q.mode != ByFile
      modifies this
      ensures count' == count + |StepTrace(q, d).hits|
      ensures abort == Halts(q, d, target.Some?)
      ensures Follows(old(Snapshot()), StepTrace(q, d), target, Snapshot())
    {
      count', abort := count, false;
      if q.noFloppy && IsFloppyName(d.name) {
        return;
      }
      probed := probed + [d.name];
      if d.opens {
        match d.fs {
          case Some(fs) =>
            match Quid(fs, q.mode) {
              case Some(call) =>
                errno := call.errno;
                if errno == ErrNone && call.quid.Some? {
                  if call.quid.value == q.key {
                    count' := count' + 1;
                    if target.Some? {
                      env := env[target.value := d.name];
                      abort := true;
                    } else {
                      output := output + [" " + d.name];
                    }
                  }
                }
              case None =>
            }
          case None =>
        }
      }
      errno := ErrNone;
    }

    /** The callback of file mode. */
    method IterateDeviceFile(q: Query, target: Option<string>, d: Device, count: nat)
      returns (count': nat, abort: bool)
      requires q.mode == ByFile
      modifies this
      ensures count' == count + |StepTrace(q, d).hits|
      ensures abort == Halts(q, d, target.Some?)
      ensures Follows(old(Snapshot()), StepTrace(q, d), target, Snapshot())
    {
      count', abort := count, false;
      if q.noFloppy && IsFloppyName(d.name) {
        return;
      }
      if d.allocFails {
        errno, errmsg := ErrOutOfMemory, OutOfMemoryMessage;
        abort := true;
        return;
      }
      var buf := FormatDevicePath(d.name, q.key);
      var path := buf[..buf.Length - 1];
      probed := probed + [d.name];
      if path in d.openable {
        count' := count' + 1;
        if target.Some? {
          env := env[target.value := d.name];
          abort := true;
        } else {
          output := output + [" " + d.name];
        }
      }
      errno := ErrNone;
    }

    /** The callback each search hands to the enumerator: the file callback in file mode, the label/UUID one otherwise. */
    method Hook(q: Query, target: Option<string>, d: Device, count: nat)
      returns (count': nat, abort: bool)
      modifies this
      ensures count' == count + |StepTrace(q, d).hits|
      ensures abort == Halts(q, d, target.Some?)
      ensures Follows(old(Snapshot()), StepTrace(q, d), target, Snapshot())
    {
      if q.mode == ByFile {
        count', abort := IterateDeviceFile(q, target, d, count);
      } else {
        count', abort := IterateDeviceFs(q, target, d, count);
      }
    }

    /**
     * grub_device_iterate with the callback of the query's mode: the devices
     * are visited in order until a callback returns 1, and count is the
     * callbacks' running match count.
     */
    method Iterate(q: Query, target: Option<string>, devs: seq<Device>) returns (count: nat)
      modifies this
      ensures count == |Run(q, devs, target.Some?).hits|
      ensures Follows(old(Snapshot()), Run(q, devs, target.Some?), target, Snapshot())
    {
      ghost var bind := target.Some?;
      ghost var g0 := Snapshot();
      count := 0;
      var abort := false;
      var i := 0;
      ghost var acc := Empty;
      ProgressStart(q, devs, bind);
      while i < |devs| && !abort
        invariant 0 <= i <= |devs|
        invariant count == |acc.hits|
        invariant Progress(q, devs, bind, i, acc, abort)
        invariant Follows(g0, acc, target, Snapshot())
      {
        var d := devs[i];
        ghost var g1 := Snapshot();
        var c, a := Hook(q, target, d, count);
        LoopStep(q, devs, target, i, acc, count, c, a, g0, g1, Snapshot());
        acc := Join(acc, StepTrace(q, d));
        count, abort := c, a;
        i := i + 1;
      }
      ProgressDone(q, devs, bind, i, acc, abort);
    }

    /** search_fs: enumerate with the label/UUID callback; nothing found is an error. */
    method SearchFs(q: Query, target: Option<string>, devs: seq<Device>)
      requires q.mode != ByFile
      modifies this
      ensures Searched(q, target, devs)
    {
      var count := Iterate(q, target, devs);
      if count == 0 {
        errno, errmsg := ErrFileNotFound, NotFoundMessage(q);
      }
    }

    /** search_file: enumerate with the file callback; nothing found is an error unless one is pending. */
    method SearchFile(q: Query, target: Option<string>, devs: seq<Device>)
      requires q.mode == ByFile
      modifies this
      ensures Searched(q, target, devs)
    {
      var count := Iterate(q, target, devs);
      if errno == ErrNone && count == 0 {
        errno, errmsg := ErrFileNotFound, NotFoundMessage(q);
      }
    }

    /** grub_cmd_search: dispatch on the options, run the search, return grub_errno. */
    method CmdSearch(flags: Flags, args: seq<string>, devs: seq<Device>) returns (r: ErrCode)
      modifies this
      ensures r == errno
      ensures Plan(flags, args).Failure? ==>
        && errno == ErrInvalidCommand && errmsg == Plan(flags, args).error
        && env == old(env) && output == old(output) && probed == old(probed)
      ensures Plan(flags, args).Success? ==>
        Searched(Plan(flags, args).value.query, Plan(flags, args).value.target, devs)
    {
      if |args| == 0 {
        errno, errmsg := ErrInvalidCommand, "no argument specified";
        return errno;
      }
      var target := None;
      if flags.setVar {
        target := Some(if flags.setArg.Some? then flags.setArg.value else "root");
      }
      if flags.byLabel {
        SearchFs(Query(args[0], ByLabel, flags.noFloppy), target, devs);
      } else if flags.byUuid {
        SearchFs(Query(args[0], ByUuid, flags.noFloppy), target, devs);
      } else if flags.byFile {
        SearchFile(Query(args[0], ByFile, flags.noFloppy), target, devs);
      } else {
        errno, errmsg := ErrInvalidCommand, "unspecified search type";
        return errno;
      }
      r := errno;
    }
  }
}
