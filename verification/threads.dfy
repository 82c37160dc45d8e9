/**
 The threaded engine: workers that count what `communicate` returns to them, and two ways of adding
 their counts up. With the mutex every `+=` on the shared totals is a read and a write of its own, and
 any thread may run between them; without it every thread has its own slot, and the slots are added
 after the joins. Thread ids are positions; a schedule is the sequence of threads that take a step.
 */
module Threads {
  import opened Text

  datatype Counts = Counts(speed: nat, failed: nat, bytes: nat)

  const NOTHING := Counts(0, 0, 0)

  function Plus(a: Counts, b: Counts): Counts {
    Counts(a.speed + b.speed, a.failed + b.failed, a.bytes + b.bytes)
  }

  function SumTo(s: seq<Counts>, k: nat): Counts
    requires k <= |s|
  {
    if k == 0 then NOTHING else Plus(SumTo(s, k - 1), s[k - 1])
  }

  function SumAll(s: seq<Counts>): Counts {
    SumTo(s, |s|)
  }

  /** Sums are taken field by field. */
  lemma {:induction false} SumsExactly(s: seq<Counts>, t: seq<Counts>, x: Counts)
    ensures SumAll([x]) == x
    ensures var a, b, c := SumAll(s), SumAll(t), SumAll(s + t);
            c.speed == a.speed + b.speed && c.failed == a.failed + b.failed && c.bytes == a.bytes + b.bytes
  {
    assert SumTo([x], 0) == NOTHING;
    SumsFrom(s, t, |t|);
  }

  lemma {:induction false} SumsFrom(s: seq<Counts>, t: seq<Counts>, k: nat)
    requires k <= |t|
    ensures var a, b, c := SumAll(s), SumTo(t, k), SumTo(s + t, |s| + k);
            c.speed == a.speed + b.speed && c.failed == a.failed + b.failed && c.bytes == a.bytes + b.bytes
  {
    if k == 0 {
      SamePrefix(s, t, |s|);
    } else {
      SumsFrom(s, t, k - 1);
    }
  }

  lemma {:induction false} SamePrefix(s: seq<Counts>, t: seq<Counts>, k: nat)
    requires k <= |s|
    ensures SumTo(s + t, k) == SumTo(s, k)
  {
    if k > 0 {
      SamePrefix(s, t, k - 1);
    }
  }

  /** What `communicate` returned to one worker: how often positive, zero and negative, and the bytes. */
  datatype Tally = Tally(positive: nat, zero: nat, negative: nat, bytes: nat)

  function Count(t: Tally, ret: int): Tally {
    if ret > 0 then t.(positive := t.positive + 1, bytes := t.bytes + ret)
    else if ret == 0 then t.(zero := t.zero + 1)
    else t.(negative := t.negative + 1)
  }

  function TallyTo(rets: seq<int>, k: nat): (t: Tally)
    requires k <= |rets|
    ensures t.positive + t.zero + t.negative == k
  {
    if k == 0 then Tally(0, 0, 0, 0) else Count(TallyTo(rets, k - 1), rets[k - 1])
  }

  function TallyOf(rets: seq<int>): Tally {
    TallyTo(rets, |rets|)
  }

  /** The mutex engine counts a zero, which force mode returns, as a success. */
  function MutexCounts(t: Tally): Counts {
    Counts(t.positive + t.zero, t.negative, t.bytes)
  }

  /** The slot engine counts it as a failure. */
  function SlotCounts(t: Tally): Counts {
    Counts(t.positive, t.zero + t.negative, t.bytes)
  }

  /** The positions at which results are positive, zero and negative, and not negative and not positive. */
  function PositiveAt(rets: seq<int>): set<nat> {
    set k: nat | k < |rets| && rets[k] > 0
  }

  function ZeroAt(rets: seq<int>): set<nat> {
    set k: nat | k < |rets| && rets[k] == 0
  }

  function NegativeAt(rets: seq<int>): set<nat> {
    set k: nat | k < |rets| && rets[k] < 0
  }

  function NotNegativeAt(rets: seq<int>): set<nat> {
    set k: nat | k < |rets| && rets[k] >= 0
  }

  function NotPositiveAt(rets: seq<int>): set<nat> {
    set k: nat | k < |rets| && rets[k] <= 0
  }

  /** The bytes positive results stand for. */
  function BytesIn(rets: seq<int>): nat {
    if rets == [] then 0 else BytesIn(rets[..|rets| - 1]) + (if rets[|rets| - 1] > 0 then rets[|rets| - 1] else 0)
  }

  lemma {:induction false} BytesLaws(s: seq<int>, t: seq<int>, x: int)
    ensures BytesIn([]) == 0 && BytesIn([x]) == (if x > 0 then x else 0) && BytesIn(s + t) == BytesIn(s) + BytesIn(t)
  {
    assert [x][..0] == [];
    if t == [] {
      assert s + t == s;
    } else {
      var m := |t| - 1;
      BytesLaws(s, t[..m], x);
      assert (s + t)[..|s + t| - 1] == s + t[..m];
    }
  }

  lemma OneMorePositive(rets: seq<int>, m: nat)
    requires m + 1 == |rets|
    ensures |PositiveAt(rets)| == |PositiveAt(rets[..m])| + (if rets[m] > 0 then 1 else 0)
  {
    assert PositiveAt(rets) == PositiveAt(rets[..m]) + (if rets[m] > 0 then {m} else {});
  }

  lemma OneMoreZero(rets: seq<int>, m: nat)
    requires m + 1 == |rets|
    ensures |ZeroAt(rets)| == |ZeroAt(rets[..m])| + (if rets[m] == 0 then 1 else 0)
  {
    assert ZeroAt(rets) == ZeroAt(rets[..m]) + (if rets[m] == 0 then {m} else {});
  }

  lemma OneMoreNegative(rets: seq<int>, m: nat)
    requires m + 1 == |rets|
    ensures |NegativeAt(rets)| == |NegativeAt(rets[..m])| + (if rets[m] < 0 then 1 else 0)
  {
    assert NegativeAt(rets) == NegativeAt(rets[..m]) + (if rets[m] < 0 then {m} else {});
  }

  /** The tally counts positions. */
  lemma {:induction false} TallyExactly(rets: seq<int>, k: nat)
    requires k <= |rets|
    ensures var t, s := TallyTo(rets, k), rets[..k];
            && t.positive == |PositiveAt(s)| && t.zero == |ZeroAt(s)| && t.negative == |NegativeAt(s)|
            && t.bytes == BytesIn(s)
  {
    hide PositiveAt, ZeroAt, NegativeAt, BytesIn;
    if k == 0 {
      NoResults();
    } else {
      TallyExactly(rets, k - 1);
      assert rets[..k][..k - 1] == rets[..k - 1];
      OneMorePositive(rets[..k], k - 1);
      OneMoreZero(rets[..k], k - 1);
      OneMoreNegative(rets[..k], k - 1);
      BytesOf(rets[..k]);
    }
  }

  lemma BytesOf(rets: seq<int>)
    requires rets != []
    ensures var m := |rets| - 1; BytesIn(rets) == BytesIn(rets[..m]) + (if rets[m] > 0 then rets[m] else 0)
  {
  }

  lemma NoResults()
    ensures PositiveAt([]) == {} && ZeroAt([]) == {} && NegativeAt([]) == {} && BytesIn([]) == 0
  {
  }

  lemma NotNegative(rets: seq<int>)
    ensures |NotNegativeAt(rets)| == |PositiveAt(rets)| + |ZeroAt(rets)|
  {
    assert NotNegativeAt(rets) == PositiveAt(rets) + ZeroAt(rets);
  }

  lemma NotPositive(rets: seq<int>)
    ensures |NotPositiveAt(rets)| == |ZeroAt(rets)| + |NegativeAt(rets)|
  {
    assert NotPositiveAt(rets) == ZeroAt(rets) + NegativeAt(rets);
  }

  /** `bench_worker` counts a result that is not negative as a success; `bench_worker_no_racing` wants it positive. */
  lemma CountsExactly(rets: seq<int>)
    ensures MutexCounts(TallyOf(rets))
         == Counts(|NotNegativeAt(rets)|, |NegativeAt(rets)|, BytesIn(rets))
    ensures SlotCounts(TallyOf(rets))
         == Counts(|PositiveAt(rets)|, |NotPositiveAt(rets)|, BytesIn(rets))
  {
    hide TallyTo, BytesIn, ZeroAt;
    TallyExactly(rets, |rets|);
    assert rets[..|rets|] == rets;
    NotNegative(rets);
    NotPositive(rets);
  }

  /** The loop of `bench_worker`; `rets` is what `communicate` returns until time is up. */
  method BenchWorker(rets: seq<int>) returns (local: Counts)
    ensures local.speed == |NotNegativeAt(rets)|
    ensures local.failed == |NegativeAt(rets)|
    ensures local.bytes == BytesIn(rets)
    ensures local == MutexCounts(TallyOf(rets))
  {
    CountsExactly(rets);
    var localSpeed: nat, localFailed: nat, localBytes: nat := 0, 0, 0;
    for k := 0 to |rets|
      invariant localSpeed == TallyTo(rets, k).positive + TallyTo(rets, k).zero
      invariant localFailed == TallyTo(rets, k).negative
      invariant localBytes == TallyTo(rets, k).bytes
    {
      var ret := rets[k];
      if ret >= 0 {
        localBytes := localBytes + ret;
        localSpeed := localSpeed + 1;
      } else if ret < 0 {
        localFailed := localFailed + 1;
      }
    }
    local := Counts(localSpeed, localFailed, localBytes);
  }

  /** The loop of `bench_worker_no_racing`. */
  method BenchWorkerNoRacing(rets: seq<int>) returns (local: Counts)
    ensures local.speed == |PositiveAt(rets)|
    ensures local.failed == |NotPositiveAt(rets)|
    ensures local.bytes == BytesIn(rets)
    ensures local == SlotCounts(TallyOf(rets))
  {
    CountsExactly(rets);
    var localSpeed: nat, localFailed: nat, localBytes: nat := 0, 0, 0;
    for k := 0 to |rets|
      invariant localSpeed == TallyTo(rets, k).positive
      invariant localFailed == TallyTo(rets, k).zero + TallyTo(rets, k).negative
      invariant localBytes == TallyTo(rets, k).bytes
    {
      var ret := rets[k];
      if ret > 0 {
        localBytes := localBytes + ret;
        localSpeed := localSpeed + 1;
      } else {
        localFailed := localFailed + 1;
      }
    }
    local := Counts(localSpeed, localFailed, localBytes);
  }

  /** Where a worker stands after its loop; a `Write` carries the value its read found. */
  datatype Pc =
    | Waiting
    | ReadSpeed | WriteSpeed(found: nat)
    | ReadFailed | WriteFailed(found: nat)
    | ReadBytes | WriteBytes(found: nat)
    | Leaving | Finished

  predicate Inside(pc: Pc) {
    !pc.Waiting? && !pc.Finished?
  }

  /** One step of the three updates on the cell they change, shared or not. */
  function Advance(pc: Pc, cell: Counts, local: Counts): (r: (Pc, Counts)) {
    match pc
    case ReadSpeed => (WriteSpeed(cell.speed), cell)
    case WriteSpeed(found) => (ReadFailed, cell.(speed := found + local.speed))
    case ReadFailed => (WriteFailed(cell.failed), cell)
    case WriteFailed(found) => (ReadBytes, cell.(failed := found + local.failed))
    case ReadBytes => (WriteBytes(cell.bytes), cell)
    case WriteBytes(found) => (Leaving, cell.(bytes := found + local.bytes))
    case Waiting | Leaving | Finished => (pc, cell)
  }

  /** The part of its counts a worker has written by the time it stands at `pc`. */
  function Written(pc: Pc, local: Counts): Counts {
    match pc
    case Waiting | ReadSpeed | WriteSpeed(_) => NOTHING
    case ReadFailed | WriteFailed(_) => Counts(local.speed, 0, 0)
    case ReadBytes | WriteBytes(_) => Counts(local.speed, local.failed, 0)
    case Leaving | Finished => local
  }

  /** What a worker read is still what the cell holds. */
  predicate UpToDate(pc: Pc, cell: Counts) {
    match pc
    case WriteSpeed(found) => found == cell.speed
    case WriteFailed(found) => found == cell.failed
    case WriteBytes(found) => found == cell.bytes
    case _ => true
  }

  /** Steps a worker still has to take. */
  function StepsLeft(pc: Pc): nat {
    match pc
    case Waiting => 8
    case ReadSpeed => 7
    case WriteSpeed(_) => 6
    case ReadFailed => 5
    case WriteFailed(_) => 4
    case ReadBytes => 3
    case WriteBytes(_) => 2
    case Leaving => 1
    case Finished => 0
  }

  lemma AdvanceWrites(pc: Pc, cell: Counts, local: Counts)
    requires UpToDate(pc, cell)
    ensures var (pc1, cell1) := Advance(pc, cell, local);
            && UpToDate(pc1, cell1)
            && Plus(cell1, Written(pc, local)) == Plus(cell, Written(pc1, local))
  {
  }

  // The mutex engine.

  datatype Shared = Shared(totals: Counts, holder: Option<nat>, pcs: seq<Pc>)

  /** Thread `i` takes a step; a thread waiting for the mutex stays where it is while another holds it. */
  function Step(locals: seq<Counts>, s: Shared, i: nat): (s1: Shared)
    requires |s.pcs| == |locals|
    ensures |s1.pcs| == |locals|
  {
    if i >= |locals| then s
    else match s.pcs[i]
      case Waiting => if s.holder.None? then s.(holder := Some(i), pcs := s.pcs[i := ReadSpeed]) else s
      case Leaving => s.(holder := None, pcs := s.pcs[i := Finished])
      case Finished => s
      case _ =>
        var (pc, totals) := Advance(s.pcs[i], s.totals, locals[i]);
        s.(totals := totals, pcs := s.pcs[i := pc])
  }

  function Run(locals: seq<Counts>, s: Shared, schedule: seq<nat>): (s1: Shared)
    requires |s.pcs| == |locals|
    ensures |s1.pcs| == |locals|
    decreases |schedule|
  {
    if schedule == [] then s else Run(locals, Step(locals, s, schedule[0]), schedule[1..])
  }

  function Beginning(n: nat): Shared {
    Shared(NOTHING, None, seq(n, _ => Waiting))
  }

  predicate AllFinished(pcs: seq<Pc>) {
    forall i | 0 <= i < |pcs| :: pcs[i].Finished?
  }

  function Contributions(locals: seq<Counts>, pcs: seq<Pc>): (r: seq<Counts>)
    requires |pcs| == |locals|
    ensures |r| == |pcs|
  {
    seq(|pcs|, i requires 0 <= i < |pcs| => Written(pcs[i], locals[i]))
  }

  /** Only the holder of the mutex is between lock and unlock. */
  predicate Exclusive(s: Shared) {
    forall i: nat | i < |s.pcs| :: Inside(s.pcs[i]) <==> s.holder == Some(i)
  }

  /** The totals are what the workers have written so far, and nobody works on an old value. */
  predicate MutexInv(locals: seq<Counts>, s: Shared) {
    && |s.pcs| == |locals|
    && Exclusive(s)
    && (s.holder.Some? ==> s.holder.value < |locals|)
    && (forall i | 0 <= i < |s.pcs| :: UpToDate(s.pcs[i], s.totals))
    && s.totals == SumAll(Contributions(locals, s.pcs))
  }

  lemma {:induction false} SumUpdate(s: seq<Counts>, i: nat, x: Counts, k: nat)
    requires i < |s| && k <= |s|
    ensures if i < k then Plus(SumTo(s[i := x], k), s[i]) == Plus(SumTo(s, k), x)
            else SumTo(s[i := x], k) == SumTo(s, k)
  {
    if k > 0 {
      SumUpdate(s, i, x, k - 1);
    }
  }

  lemma {:induction false} SumOfNothing(s: seq<Counts>, k: nat)
    requires k <= |s| && forall i | 0 <= i < |s| :: s[i] == NOTHING
    ensures SumTo(s, k) == NOTHING
  {
    if k > 0 {
      SumOfNothing(s, k - 1);
    }
  }

  lemma ContributionsUpdate(locals: seq<Counts>, pcs: seq<Pc>, i: nat, pc: Pc)
    requires |pcs| == |locals| && i < |pcs|
    ensures var before := SumAll(Contributions(locals, pcs)); var after := SumAll(Contributions(locals, pcs[i := pc]));
            Plus(after, Written(pcs[i], locals[i])) == Plus(before, Written(pc, locals[i]))
  {
    var c := Contributions(locals, pcs);
    SumUpdate(c, i, Written(pc, locals[i]), |c|);
    assert Contributions(locals, pcs[i := pc]) == c[i := Written(pc, locals[i])];
  }

  lemma StepKeepsInv(locals: seq<Counts>, s: Shared, i: nat)
    requires MutexInv(locals, s)
    ensures MutexInv(locals, Step(locals, s, i))
  {
    hide SumTo, Contributions;
    if i < |locals| {
      ContributionsUpdate(locals, s.pcs, i, Step(locals, s, i).pcs[i]);
      if Inside(s.pcs[i]) {
        AdvanceWrites(s.pcs[i], s.totals, locals[i]);
      }
    }
  }

  lemma SameLength(locals: seq<Counts>, s: Shared)
    requires MutexInv(locals, s)
    ensures |s.pcs| == |locals|
  {
  }

  lemma {:induction false} RunKeepsInv(locals: seq<Counts>, s: Shared, schedule: seq<nat>)
    requires MutexInv(locals, s)
    ensures MutexInv(locals, Run(locals, s, schedule))
    decreases |schedule|
  {
    hide MutexInv, Step;
    SameLength(locals, s);
    if schedule != [] {
      StepKeepsInv(locals, s, schedule[0]);
      RunKeepsInv(locals, Step(locals, s, schedule[0]), schedule[1..]);
    }
  }

  lemma BeginningInv(locals: seq<Counts>)
    ensures MutexInv(locals, Beginning(|locals|))
  {
    SumOfNothing(Contributions(locals, Beginning(|locals|).pcs), |locals|);
  }

  /** Whatever the schedule, at most one worker is ever between lock and unlock. */
  lemma MutualExclusion(locals: seq<Counts>, schedule: seq<nat>, i: nat, j: nat)
    requires i < |locals| && j < |locals|
    ensures var s := Run(locals, Beginning(|locals|), schedule);
            Inside(s.pcs[i]) && Inside(s.pcs[j]) ==> i == j
  {
    BeginningInv(locals);
    RunKeepsInv(locals, Beginning(|locals|), schedule);
  }

  /** Whatever the schedule, once all workers are joined the totals are the sums of their counts. */
  lemma NothingIsLost(locals: seq<Counts>, schedule: seq<nat>)
    ensures var s := Run(locals, Beginning(|locals|), schedule);
            AllFinished(s.pcs) ==> s.totals == SumAll(locals)
  {
    BeginningInv(locals);
    RunKeepsInv(locals, Beginning(|locals|), schedule);
    var s := Run(locals, Beginning(|locals|), schedule);
    if AllFinished(s.pcs) {
      assert Contributions(locals, s.pcs) == locals;
    }
  }

  /** Steps all workers together still have to take. */
  function RemainingTo(pcs: seq<Pc>, k: nat): nat
    requires k <= |pcs|
  {
    if k == 0 then 0 else RemainingTo(pcs, k - 1) + StepsLeft(pcs[k - 1])
  }

  function Remaining(pcs: seq<Pc>): nat {
    RemainingTo(pcs, |pcs|)
  }

  lemma {:induction false} RemainingUpdate(pcs: seq<Pc>, i: nat, pc: Pc, k: nat)
    requires i < |pcs| && k <= |pcs|
    ensures if i < k then RemainingTo(pcs[i := pc], k) + StepsLeft(pcs[i]) == RemainingTo(pcs, k) + StepsLeft(pc)
            else RemainingTo(pcs[i := pc], k) == RemainingTo(pcs, k)
  {
    if k > 0 {
      RemainingUpdate(pcs, i, pc, k - 1);
    }
  }

  /** A step is taken or has to wait; one that is taken leaves one step less. */
  lemma StepOrWait(locals: seq<Counts>, s: Shared, i: nat)
    requires MutexInv(locals, s)
    ensures var s1 := Step(locals, s, i);
            s1 == s || Remaining(s1.pcs) + 1 == Remaining(s.pcs)
  {
    if i < |locals| {
      RemainingUpdate(s.pcs, i, Step(locals, s, i).pcs[i], |s.pcs|);
    }
  }

  /** The mutex never blocks everybody: some worker can take a step until all have finished. */
  lemma SomeoneCanStep(locals: seq<Counts>, s: Shared) returns (i: nat)
    requires MutexInv(locals, s) && !AllFinished(s.pcs)
    ensures i < |locals| && Step(locals, s, i) != s
  {
    if s.holder.Some? {
      i := s.holder.value;
      assert Inside(s.pcs[i]);
      assert Step(locals, s, i).pcs[i] != s.pcs[i];
    } else {
      i :| 0 <= i < |s.pcs| && !s.pcs[i].Finished?;
      assert !Inside(s.pcs[i]);
      assert Step(locals, s, i).holder != s.holder;
    }
  }

  /** From wherever a schedule has led, the workers can all finish. */
  lemma {:induction false} CanFinish(locals: seq<Counts>, s: Shared) returns (schedule: seq<nat>)
    requires MutexInv(locals, s)
    ensures AllFinished(Run(locals, s, schedule).pcs)
    decreases Remaining(s.pcs)
  {
    hide MutexInv, Step, RemainingTo;
    SameLength(locals, s);
    if AllFinished(s.pcs) {
      schedule := [];
    } else {
      var i := SomeoneCanStep(locals, s);
      StepKeepsInv(locals, s, i);
      StepOrWait(locals, s, i);
      var rest := CanFinish(locals, Step(locals, s, i));
      schedule := [i] + rest;
      assert schedule[1..] == rest;
    }
  }

  // The slot engine.

  datatype Slots = Slots(slots: seq<Counts>, pcs: seq<Pc>)

  function SlotStep(locals: seq<Counts>, s: Slots, i: nat): (s1: Slots)
    requires |s.pcs| == |s.slots| == |locals|
    ensures |s1.pcs| == |s1.slots| == |locals|
  {
    if i >= |locals| then s
    else match s.pcs[i]
      case Waiting | Finished => s
      case Leaving => s.(pcs := s.pcs[i := Finished])
      case _ =>
        var (pc, slot) := Advance(s.pcs[i], s.slots[i], locals[i]);
        Slots(s.slots[i := slot], s.pcs[i := pc])
  }

  function SlotRun(locals: seq<Counts>, s: Slots, schedule: seq<nat>): (s1: Slots)
    requires |s.pcs| == |s.slots| == |locals|
    ensures |s1.pcs| == |s1.slots| == |locals|
    decreases |schedule|
  {
    if schedule == [] then s else SlotRun(locals, SlotStep(locals, s, schedule[0]), schedule[1..])
  }

  function EmptySlots(n: nat): Slots {
    Slots(seq(n, _ => NOTHING), seq(n, _ => ReadSpeed))
  }

  predicate SlotInv(locals: seq<Counts>, s: Slots) {
    && |s.pcs| == |s.slots| == |locals|
    && forall i | 0 <= i < |locals| :: s.slots[i] == Written(s.pcs[i], locals[i]) && UpToDate(s.pcs[i], s.slots[i])
  }

  lemma SlotStepKeepsInv(locals: seq<Counts>, s: Slots, i: nat)
    requires SlotInv(locals, s)
    ensures SlotInv(locals, SlotStep(locals, s, i))
  {
    if i < |locals| {
      AdvanceWrites(s.pcs[i], s.slots[i], locals[i]);
    }
  }

  lemma {:induction false} SlotRunKeepsInv(locals: seq<Counts>, s: Slots, schedule: seq<nat>)
    requires |s.pcs| == |s.slots| == |locals| && SlotInv(locals, s)
    ensures SlotInv(locals, SlotRun(locals, s, schedule))
    decreases |schedule|
  {
    hide SlotInv, SlotStep;
    if schedule != [] {
      SlotStepKeepsInv(locals, s, schedule[0]);
      SlotRunKeepsInv(locals, SlotStep(locals, s, schedule[0]), schedule[1..]);
    }
  }

  /** Whatever the schedule, once all workers are joined every slot holds its worker's counts. */
  lemma SlotsHoldTheCounts(locals: seq<Counts>, schedule: seq<nat>)
    ensures var s := SlotRun(locals, EmptySlots(|locals|), schedule);
            AllFinished(s.pcs) ==> s.slots == locals
  {
    hide SlotRun;
    SlotRunKeepsInv(locals, EmptySlots(|locals|), schedule);
  }

  /** The summary of `bench_with_no_racing`. */
  method Summary(slots: seq<Counts>) returns (speed: nat, failed: nat, bytes: nat)
    ensures Counts(speed, failed, bytes) == SumAll(slots)
  {
    speed, failed, bytes := 0, 0, 0;
    for i := 0 to |slots|
      invariant Counts(speed, failed, bytes) == SumTo(slots, i)
    {
      bytes := bytes + slots[i].bytes;
      failed := failed + slots[i].failed;
      speed := speed + slots[i].speed;
    }
  }

  // Both engines on the same outcomes.

  /** How often `communicate` returned zero. */
  function ZerosTo(outcomes: seq<seq<int>>, k: nat): nat
    requires k <= |outcomes|
  {
    if k == 0 then 0 else ZerosTo(outcomes, k - 1) + TallyOf(outcomes[k - 1]).zero
  }

  function ZeroOutcomes(outcomes: seq<seq<int>>): nat {
    ZerosTo(outcomes, |outcomes|)
  }

  function MutexLocals(outcomes: seq<seq<int>>): (r: seq<Counts>)
    ensures |r| == |outcomes|
  {
    seq(|outcomes|, i requires 0 <= i < |outcomes| => MutexCounts(TallyOf(outcomes[i])))
  }

  function SlotLocals(outcomes: seq<seq<int>>): (r: seq<Counts>)
    ensures |r| == |outcomes|
  {
    seq(|outcomes|, i requires 0 <= i < |outcomes| => SlotCounts(TallyOf(outcomes[i])))
  }

  /** Two reports that differ by calling `zeros` outcomes a success or a failure. */
  predicate DifferByZeros(a: Counts, b: Counts, zeros: nat) {
    a.bytes == b.bytes && a.speed + a.failed == b.speed + b.failed && a.speed == b.speed + zeros
  }

  lemma {:induction false} SumsDifferByZeros(outcomes: seq<seq<int>>, k: nat)
    requires k <= |outcomes|
    ensures DifferByZeros(SumTo(MutexLocals(outcomes), k), SumTo(SlotLocals(outcomes), k), ZerosTo(outcomes, k))
  {
    if k > 0 {
      SumsDifferByZeros(outcomes, k - 1);
    }
  }

  /**
   For the same outcomes and any interleavings that let all workers finish, the two engines report the
   same bytes and the same number of attempts; their speeds differ by the number of zero outcomes.
   */
  lemma EnginesDifferByZeros(outcomes: seq<seq<int>>, schedule: seq<nat>, slotSchedule: seq<nat>)
    ensures var n := |outcomes|;
            var s := Run(MutexLocals(outcomes), Beginning(n), schedule);
            var t := SlotRun(SlotLocals(outcomes), EmptySlots(n), slotSchedule);
            AllFinished(s.pcs) && AllFinished(t.pcs) ==>
              DifferByZeros(s.totals, SumAll(t.slots), ZeroOutcomes(outcomes))
  {
    hide Run, SlotRun, SumTo, ZerosTo;
    NothingIsLost(MutexLocals(outcomes), schedule);
    SlotsHoldTheCounts(SlotLocals(outcomes), slotSchedule);
    SumsDifferByZeros(outcomes, |outcomes|);
  }
}
