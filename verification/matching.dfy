/**
 * The decision logic of the search, as specification functions: the verdict
 * each callback reaches on one device, the trace the enumeration leaves
 * (matches, devices probed, whether an allocation failure stopped it), and
 * the final error decision of both search modes.
 */
module Matching {
  import opened Wrappers
  import opened Platform
  import opened DeviceNames

  /** The three search strategies. */
  datatype Mode = ByFile | ByLabel | ByUuid

  /** What one search asks of every device. */
  datatype Query = Query(key: string, mode: Mode, noFloppy: bool)

  /**
   * What one callback decides about one device: skipped as a floppy, tested
   * without a match, matched, or stopped by a failed buffer allocation.
   */
  datatype Verdict = Skip | Miss | Hit | AllocFail

  /** QUID(fs): the UUID accessor in UUID mode, the label accessor otherwise. */
  function Quid(fs: FsInfo, mode: Mode): Option<AccessorCall> {
    if mode == ByUuid then fs.readUuid else fs.readLabel
  }

  /**
   * The per-device test of the two callbacks. A floppy is skipped before
   * anything is touched. In label/UUID mode a device matches when it opens,
   * its filesystem is recognised, the chosen accessor exists, leaves no error
   * and returns a string, and that string equals the key. In file mode a
   * failed buffer allocation ends the search; otherwise the device matches
   * when "(<name>)<key>" opens.
   */
  function Judge(q: Query, d: Device): (v: Verdict)
    ensures v == Skip <==> q.noFloppy && IsFloppyName(d.name)
    ensures v == AllocFail <==> q.mode == ByFile && v != Skip && d.allocFails
  {
    if q.noFloppy && IsFloppyName(d.name) then Skip
    else if q.mode == ByFile then
      if d.allocFails then AllocFail
      else if DevicePath(d.name, q.key) in d.openable then Hit
      else Miss
    else if !d.opens then Miss
    else match d.fs
      case None => Miss
      case Some(fs) =>
        match Quid(fs, q.mode)
        case None => Miss
        case Some(call) =>
          if call.errno == ErrNone && call.quid.Some? && call.quid.value == q.key then Hit
          else Miss
  }

  /**
   * The match rule of both callbacks, condition by condition; in label/UUID
   * mode the accessor consulted is the UUID one in UUID mode and the label
   * one otherwise.
   */
  lemma MatchRule(q: Query, d: Device)
    ensures q.mode != ByFile ==>
      (Judge(q, d) == Hit <==>
        && !(q.noFloppy && IsFloppyName(d.name))
        && d.opens && d.fs.Some?
        && var accessor := if q.mode == ByUuid then d.fs.value.readUuid else d.fs.value.readLabel;
           && accessor.Some?
           && accessor.value.errno == ErrNone
           && accessor.value.quid == Some(q.key))
    ensures q.mode == ByFile ==>
      (Judge(q, d) == Hit <==>
        && !(q.noFloppy && IsFloppyName(d.name))
        && !d.allocFails
        && DevicePath(d.name, q.key) in d.openable)
  {
  }

  /**
   * What the enumeration has produced so far: the names matched (in order),
   * the names of the devices opened or probed for a file (in order), and
   * whether a callback stopped it on a failed allocation.
   */
  datatype Trace = Trace(hits: seq<string>, tested: seq<string>, oom: bool)

  const Empty := Trace([], [], false)

  /** Two stretches of the enumeration one after the other. */
  function Join(a: Trace, b: Trace): Trace {
    Trace(a.hits + b.hits, a.tested + b.tested, b.oom)
  }

  /** The trace of one callback on one device. */
  function StepTrace(q: Query, d: Device): Trace {
    match Judge(q, d)
    case Skip => Empty
    case Miss => Trace([], [d.name], false)
    case Hit => Trace([d.name], [d.name], false)
    case AllocFail => Trace([], [], true)
  }

  /**
   * Whether the callback returns 1 and so stops the enumerator: a failed
   * allocation, or a match when a variable is to be bound.
   */
  predicate Halts(q: Query, d: Device, bind: bool) {
    Judge(q, d) == AllocFail || (bind && Judge(q, d) == Hit)
  }

  /**
   * The enumeration driving a callback over the devices in order until one
   * returns 1. At most one match is recorded when binding, no match is
   * recorded without its device being probed, and only file mode can stop
   * on a failed allocation.
   */
  function Run(q: Query, devs: seq<Device>, bind: bool): (t: Trace)
    ensures |t.hits| <= |t.tested| <= |devs|
    ensures bind ==> |t.hits| <= 1
    ensures t.oom ==> q.mode == ByFile
    decreases |devs|
  {
    if devs == [] then Empty
    else if Halts(q, devs[0], bind) then StepTrace(q, devs[0])
    else Join(StepTrace(q, devs[0]), Run(q, devs[1..], bind))
  }

  /** The value of grub_errno when the enumeration returns, given its value e0 before. */
  function LoopErrno(t: Trace, e0: ErrCode): ErrCode {
    if t.oom then ErrOutOfMemory else if t.tested != [] then ErrNone else e0
  }

  /**
   * Whether the search raises its "not found" error: in label/UUID mode when
   * nothing matched; in file mode when nothing matched and no error is pending.
   */
  predicate RaisesNotFound(q: Query, t: Trace, e0: ErrCode) {
    if q.mode == ByFile then LoopErrno(t, e0) == ErrNone && t.hits == []
    else t.hits == []
  }

  function NotFoundMessage(q: Query): string {
    (if q.mode == ByFile then "no such file: " else "no such device: ") + q.key
  }

  const OutOfMemoryMessage := "out of memory"

  /** grub_errno when the search returns. */
  function FinalErrno(q: Query, t: Trace, e0: ErrCode): ErrCode {
    if RaisesNotFound(q, t, e0) then ErrFileNotFound else LoopErrno(t, e0)
  }

  /** The error message when the search returns, given the message m0 before. */
  function FinalErrmsg(q: Query, t: Trace, e0: ErrCode, m0: string): string {
    if RaisesNotFound(q, t, e0) then NotFoundMessage(q)
    else if t.oom then OutOfMemoryMessage
    else m0
  }

  /** The index of the first device that matches before any allocation failure. */
  function FirstHit(q: Query, devs: seq<Device>): (r: Option<nat>)
    ensures r.Some? ==> r.value < |devs| && Judge(q, devs[r.value]) == Hit
    ensures r.Some? ==> forall j :: 0 <= j < r.value ==> Judge(q, devs[j]) in {Skip, Miss}
    ensures r.None? ==> forall i :: 0 <= i < |devs| && Judge(q, devs[i]) == Hit ==>
      exists j :: 0 <= j < i && Judge(q, devs[j]) == AllocFail
  {
    if devs == [] then None
    else match Judge(q, devs[0])
      case Hit => Some(0)
      case AllocFail => None
      case _ =>
        match FirstHit(q, devs[1..])
        case Some(i) => Some(i + 1)
        case None => None
  }

  /** Join is associative. */
  lemma JoinAssoc(a: Trace, b: Trace, c: Trace)
    ensures Join(Join(a, b), c) == Join(a, Join(b, c))
  {
    assert (a.hits + b.hits) + c.hits == a.hits + (b.hits + c.hits);
    assert (a.tested + b.tested) + c.tested == a.tested + (b.tested + c.tested);
  }

  /** Enumerating from index i: the callback on devs[i], then the rest unless it halted. */
  lemma RunFrom(q: Query, devs: seq<Device>, i: nat, bind: bool)
    requires i < |devs|
    ensures Halts(q, devs[i], bind) ==> Run(q, devs[i..], bind) == StepTrace(q, devs[i])
    ensures !Halts(q, devs[i], bind) ==>
      Run(q, devs[i..], bind) == Join(StepTrace(q, devs[i]), Run(q, devs[i + 1..], bind))
  {
    assert devs[i..][0] == devs[i];
    assert devs[i..][1..] == devs[i + 1..];
  }

  /** Run on a non-empty sequence: the first callback, then the rest unless it halted. */
  lemma RunCons(q: Query, devs: seq<Device>, bind: bool)
    requires devs != []
    ensures Run(q, devs, bind) ==
      if Halts(q, devs[0], bind) then StepTrace(q, devs[0])
      else Join(StepTrace(q, devs[0]), Run(q, devs[1..], bind))
  {
  }

  /**
   * Binding mode behaves as print mode on the devices up to and including
   * the first match, so no device after it is probed.
   */
  lemma {:induction false} BindIsPrintUpToFirstHit(q: Query, devs: seq<Device>)
    requires FirstHit(q, devs).Some?
    ensures Run(q, devs, true) == Run(q, devs[..FirstHit(q, devs).value + 1], false)
  {
    BindIsPrintUpTo(q, devs, FirstHit(q, devs).value);
  }

  /** BindIsPrintUpToFirstHit, with the first match's position i named. */
  lemma {:induction false} BindIsPrintUpTo(q: Query, devs: seq<Device>, i: nat)
    requires FirstHit(q, devs) == Some(i)
    ensures Run(q, devs, true) == Run(q, devs[..i + 1], false)
    decreases |devs|
  {
    var d := devs[0];
    var prefix := devs[..i + 1];
    assert prefix[0] == d;
    RunCons(q, prefix, false);
    if i == 0 {
      assert Halts(q, d, true);
      assert prefix[1..] == [];
      JoinEmpty(StepTrace(q, d));
    } else {
      var rest := devs[1..];
      FirstHitSkips(q, devs, i);
      BindIsPrintUpTo(q, rest, i - 1);
      assert prefix[1..] == rest[..i];
    }
  }

  /** Joining the empty trace after a trace changes nothing. */
  lemma JoinEmpty(t: Trace)
    requires !t.oom
    ensures Join(t, Empty) == t
  {
    assert t.hits + [] == t.hits;
    assert t.tested + [] == t.tested;
  }

  /** Before a first match at i > 0 the first device neither halts nor matches. */
  lemma FirstHitSkips(q: Query, devs: seq<Device>, i: nat)
    requires 0 < i && FirstHit(q, devs) == Some(i)
    ensures !Halts(q, devs[0], true) && !Halts(q, devs[0], false)
    ensures FirstHit(q, devs[1..]) == Some(i - 1)
    ensures Run(q, devs, true) == Join(StepTrace(q, devs[0]), Run(q, devs[1..], true))
  {
    assert Judge(q, devs[0]) in {Skip, Miss};
  }

  /** Binding mode records the first match, and only it. */
  lemma {:induction false} BindRecordsFirstHit(q: Query, devs: seq<Device>)
    ensures Run(q, devs, true).hits ==
      if FirstHit(q, devs).Some? then [devs[FirstHit(q, devs).value].name] else []
    decreases |devs|
  {
    if devs != [] {
      RunCons(q, devs, true);
      if Judge(q, devs[0]) !in {Hit, AllocFail} {
        BindRecordsFirstHit(q, devs[1..]);
        if FirstHit(q, devs[1..]).Some? {
          assert devs[1..][FirstHit(q, devs[1..]).value] == devs[FirstHit(q, devs).value];
        }
      }
    }
  }

  /** Without a match before the enumeration stops, binding and print mode visit the same devices. */
  lemma {:induction false} BindWithoutHitIsPrint(q: Query, devs: seq<Device>)
    requires FirstHit(q, devs).None?
    ensures Run(q, devs, true) == Run(q, devs, false)
    decreases |devs|
  {
    if devs != [] {
      RunCons(q, devs, true);
      RunCons(q, devs, false);
      if Judge(q, devs[0]) != AllocFail {
        BindWithoutHitIsPrint(q, devs[1..]);
      }
    }
  }

  /** How many devices print mode reaches: those before the first failed allocation. */
  function Reach(q: Query, devs: seq<Device>): (n: nat)
    ensures n <= |devs|
    ensures forall j :: 0 <= j < n ==> Judge(q, devs[j]) != AllocFail
    ensures n < |devs| ==> Judge(q, devs[n]) == AllocFail
    decreases |devs|
  {
    if devs == [] || Judge(q, devs[0]) == AllocFail then 0
    else 1 + Reach(q, devs[1..])
  }

  /** A device is reached exactly when neither it nor any device before it failed its allocation. */
  lemma ReachedIff(q: Query, devs: seq<Device>)
    ensures forall i :: 0 <= i < |devs| ==>
      (i < Reach(q, devs) <==>
        Judge(q, devs[i]) != AllocFail && forall j :: 0 <= j < i ==> Judge(q, devs[j]) != AllocFail)
  {
    if Reach(q, devs) < |devs| {
      assert Judge(q, devs[Reach(q, devs)]) == AllocFail;
    }
  }

  /** Strictly increasing positions. */
  predicate Increasing(idx: seq<nat>) {
    forall k, l :: 0 <= k < l < |idx| ==> idx[k] < idx[l]
  }

  /** idx gives, for each of names, the position of a device with that name. */
  ghost predicate Indexes(devs: seq<Device>, names: seq<string>, idx: seq<nat>) {
    && |idx| == |names|
    && forall k :: 0 <= k < |idx| ==> idx[k] < |devs| && names[k] == devs[idx[k]].name
  }

  /** The positions rest, moved one place right, after position 0 when hit. */
  function Shift(rest: seq<nat>, hit: bool): (idx: seq<nat>)
    ensures |idx| == |rest| + (if hit then 1 else 0)
    ensures hit ==> idx[0] == 0
    ensures forall k :: 0 <= k < |rest| ==> idx[k + (if hit then 1 else 0)] == rest[k] + 1
  {
    (if hit then [0] else []) + seq(|rest|, k requires 0 <= k < |rest| => rest[k] + 1)
  }

  /** Shifting keeps positions strictly increasing. */
  lemma ShiftIncreasing(rest: seq<nat>, hit: bool)
    requires Increasing(rest)
    ensures Increasing(Shift(rest, hit))
  {
  }

  /** Position 0 is in the shift exactly when hit, and any later position exactly when its predecessor is in rest. */
  lemma ShiftMembership(rest: seq<nat>, hit: bool)
    ensures 0 in Shift(rest, hit) <==> hit
    ensures forall i :: 1 <= i ==> (i in Shift(rest, hit) <==> i - 1 in rest)
  {
    var idx := Shift(rest, hit);
    var off := if hit then 1 else 0;
    forall i | 1 <= i ensures i in idx <==> i - 1 in rest {
      if i - 1 in rest {
        var k :| 0 <= k < |rest| && rest[k] == i - 1;
        assert idx[k + off] == i;
      }
    }
  }

  /** Shifted positions of devs[1..] index the same names in devs, and position 0 the first device. */
  lemma ShiftNames(devs: seq<Device>, names: seq<string>, rest: seq<nat>, hit: bool, idx: seq<nat>)
    requires devs != []
    requires Indexes(devs[1..], names, rest)
    requires |idx| == |rest| + (if hit then 1 else 0)
    requires hit ==> idx[0] == 0
    requires forall k :: 0 <= k < |rest| ==> idx[k + (if hit then 1 else 0)] == rest[k] + 1
    ensures Indexes(devs, (if hit then [devs[0].name] else []) + names, idx)
  {
    var off := if hit then 1 else 0;
    var all := (if hit then [devs[0].name] else []) + names;
    forall k | off <= k < |idx|
      ensures idx[k] < |devs| && all[k] == devs[idx[k]].name
    {
      assert idx[k] == rest[k - off] + 1;
      assert all[k] == names[k - off];
      assert devs[1..][rest[k - off]] == devs[idx[k]];
    }
  }

  /** Print mode past a first device that does not stop it. */
  lemma PrintCons(q: Query, devs: seq<Device>)
    requires devs != [] && Judge(q, devs[0]) != AllocFail
    ensures Run(q, devs, false).hits ==
      (if Judge(q, devs[0]) == Hit then [devs[0].name] else []) + Run(q, devs[1..], false).hits
    ensures Reach(q, devs) == 1 + Reach(q, devs[1..])
  {
    RunCons(q, devs, false);
  }

  /**
   * In print mode the recorded matches are exactly the matching devices the
   * enumeration reaches, in enumeration order: idx lists their positions,
   * strictly increasing.
   */
  lemma {:induction false} PrintHitIndices(q: Query, devs: seq<Device>) returns (idx: seq<nat>)
    ensures Indexes(devs, Run(q, devs, false).hits, idx)
    ensures Increasing(idx)
    ensures forall i :: 0 <= i < |devs| ==>
      (i in idx <==> i < Reach(q, devs) && Judge(q, devs[i]) == Hit)
    decreases |devs|
  {
    if devs == [] || Judge(q, devs[0]) == AllocFail {
      idx := [];
    } else {
      var rest := PrintHitIndices(q, devs[1..]);
      idx := PrintStep(q, devs, rest);
    }
  }

  /** The inductive step of PrintHitIndices: from the positions for devs[1..] to those for devs. */
  lemma PrintStep(q: Query, devs: seq<Device>, rest: seq<nat>) returns (idx: seq<nat>)
    requires devs != [] && Judge(q, devs[0]) != AllocFail
    requires Indexes(devs[1..], Run(q, devs[1..], false).hits, rest) && Increasing(rest)
    requires forall i :: 0 <= i < |devs[1..]| ==>
      (i in rest <==> i < Reach(q, devs[1..]) && Judge(q, devs[1..][i]) == Hit)
    ensures Indexes(devs, Run(q, devs, false).hits, idx)
    ensures Increasing(idx)
    ensures forall i :: 0 <= i < |devs| ==>
      (i in idx <==> i < Reach(q, devs) && Judge(q, devs[i]) == Hit)
  {
    var hit := Judge(q, devs[0]) == Hit;
    var names := Run(q, devs[1..], false).hits;
    PrintCons(q, devs);
    idx := Shift(rest, hit);
    ShiftIncreasing(rest, hit);
    ShiftMembership(rest, hit);
    ShiftNames(devs, names, rest, hit, idx);
    ShiftReached(q, devs, rest, idx);
  }

  /** Positions of reached matches in devs[1..], shifted, are those in devs. */
  lemma ShiftReached(q: Query, devs: seq<Device>, rest: seq<nat>, idx: seq<nat>)
    requires devs != [] && Reach(q, devs) == 1 + Reach(q, devs[1..])
    requires forall i :: 0 <= i < |devs[1..]| ==>
      (i in rest <==> i < Reach(q, devs[1..]) && Judge(q, devs[1..][i]) == Hit)
    requires 0 in idx <==> Judge(q, devs[0]) == Hit
    requires forall i :: 1 <= i ==> (i in idx <==> i - 1 in rest)
    ensures forall i :: 0 <= i < |devs| ==>
      (i in idx <==> i < Reach(q, devs) && Judge(q, devs[i]) == Hit)
  {
    forall i | 0 < i < |devs|
      ensures i in idx <==> i < Reach(q, devs) && Judge(q, devs[i]) == Hit
    {
      assert devs[1..][i - 1] == devs[i];
    }
  }

  /** Without a matching device, no match is recorded in either mode. */
  lemma NoHitNoMatches(q: Query, devs: seq<Device>, bind: bool)
    requires forall i :: 0 <= i < |devs| ==> Judge(q, devs[i]) != Hit
    ensures Run(q, devs, bind).hits == []
  {
    if bind {
      BindRecordsFirstHit(q, devs);
    } else {
      var idx := PrintHitIndices(q, devs);
    }
  }

  /** The enumeration stops on a failed allocation only if some device's allocation failed. */
  lemma {:induction false} OomMeansAllocFail(q: Query, devs: seq<Device>, bind: bool)
    ensures Run(q, devs, bind).oom ==> exists i :: 0 <= i < |devs| && Judge(q, devs[i]) == AllocFail
    decreases |devs|
  {
    if devs != [] && !Halts(q, devs[0], bind) {
      OomMeansAllocFail(q, devs[1..], bind);
      if Run(q, devs[1..], bind).oom {
        var i :| 0 <= i < |devs[1..]| && Judge(q, devs[1..][i]) == AllocFail;
        assert devs[i + 1] == devs[1..][i];
      }
    }
  }

  /**
   * Print mode stops exactly at the first failed allocation: it ends with out
   * of memory pending iff a failure is reached, and the devices it probes are
   * those before that failure.
   */
  lemma {:induction false} PrintStopsAtAllocFail(q: Query, devs: seq<Device>)
    ensures Run(q, devs, false).oom <==> Reach(q, devs) < |devs|
    ensures Run(q, devs, false).tested == Run(q, devs[..Reach(q, devs)], false).tested
    decreases |devs|
  {
    if devs != [] {
      RunCons(q, devs, false);
      if Judge(q, devs[0]) == AllocFail {
        assert devs[..Reach(q, devs)] == [];
      } else {
        var prefix := devs[..Reach(q, devs)];
        PrintStopsAtAllocFail(q, devs[1..]);
        assert prefix[0] == devs[0];
        assert prefix[1..] == devs[1..][..Reach(q, devs[1..])];
        RunCons(q, prefix, false);
      }
    }
  }

  /**
   * Binding mode ends with out of memory pending iff a failed allocation is
   * reached before any match.
   */
  lemma {:induction false} BindStopsAtAllocFail(q: Query, devs: seq<Device>)
    ensures Run(q, devs, true).oom <==> Reach(q, devs) < |devs| && FirstHit(q, devs).None?
    decreases |devs|
  {
    if devs != [] {
      RunCons(q, devs, true);
      if Judge(q, devs[0]) !in {Hit, AllocFail} {
        BindStopsAtAllocFail(q, devs[1..]);
      }
    }
  }

  /** A device recognised as a floppy is never opened or probed when floppies are excluded. */
  lemma {:induction false} FloppiesNeverProbed(q: Query, devs: seq<Device>, bind: bool)
    requires q.noFloppy
    ensures forall k :: 0 <= k < |Run(q, devs, bind).tested| ==>
      !IsFloppyName(Run(q, devs, bind).tested[k])
    decreases |devs|
  {
    if devs != [] {
      FloppiesNeverProbed(q, devs[1..], bind);
    }
  }

  /** The names of the enumerated devices, in order. */
  function Names(devs: seq<Device>): (names: seq<string>)
    ensures |names| == |devs|
    ensures forall k :: 0 <= k < |devs| ==> names[k] == devs[k].name
  {
    seq(|devs|, k requires 0 <= k < |devs| => devs[k].name)
  }

  /**
   * Without floppy exclusion, print mode in label/UUID mode probes every
   * enumerated device, floppies included, in order.
   */
  lemma {:induction false} AllProbedWithoutExclusion(q: Query, devs: seq<Device>)
    requires !q.noFloppy && q.mode != ByFile
    ensures Run(q, devs, false).tested == Names(devs)
    decreases |devs|
  {
    if devs != [] {
      AllProbedWithoutExclusion(q, devs[1..]);
      assert Names(devs) == [devs[0].name] + Names(devs[1..]);
    }
  }

  /**
   * Label/UUID mode fails with "no such device: <key>" exactly when nothing
   * matched, and otherwise leaves no error, whatever error was pending before.
   */
  lemma LabelUuidDecision(q: Query, devs: seq<Device>, bind: bool, e0: ErrCode, m0: string)
    requires q.mode != ByFile
    ensures var t := Run(q, devs, bind);
      && (RaisesNotFound(q, t, e0) <==> t.hits == [])
      && FinalErrno(q, t, e0) == (if t.hits == [] then ErrFileNotFound else ErrNone)
      && FinalErrmsg(q, t, e0, m0) == (if t.hits == [] then "no such device: " + q.key else m0)
  {
  }

  /**
   * File mode fails with "no such file: <key>" exactly when nothing matched,
   * no allocation failed, and either a device was probed or no error was
   * pending on entry. A failed allocation is reported instead of "no such
   * file", and an error pending on entry survives when every device was
   * skipped.
   */
  lemma FileDecision(q: Query, devs: seq<Device>, bind: bool, e0: ErrCode, m0: string)
    requires q.mode == ByFile
    ensures var t := Run(q, devs, bind);
      && (RaisesNotFound(q, t, e0) <==> t.hits == [] && !t.oom && (t.tested != [] || e0 == ErrNone))
      && (RaisesNotFound(q, t, e0) ==>
            FinalErrno(q, t, e0) == ErrFileNotFound && FinalErrmsg(q, t, e0, m0) == "no such file: " + q.key)
      && (t.oom ==> FinalErrno(q, t, e0) == ErrOutOfMemory && FinalErrmsg(q, t, e0, m0) == OutOfMemoryMessage)
      && (!t.oom && t.hits != [] ==> FinalErrno(q, t, e0) == ErrNone && FinalErrmsg(q, t, e0, m0) == m0)
      && (!t.oom && t.tested == [] && e0 != ErrNone ==> FinalErrno(q, t, e0) == e0 && FinalErrmsg(q, t, e0, m0) == m0)
  {
  }
}
