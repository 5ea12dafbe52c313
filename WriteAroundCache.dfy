/**
 * The per-cycle tick of the write-around L1 cache. A tick runs the data
 * pipeline unless the cache is paused, and then always ticks the control
 * stage. The pipeline ticks its stages in reverse pipeline order: the
 * respond stage, the bottom parser, every bank stage, the directory and the
 * coalescer. The respond, bottom-parser and coalesce stages are ticked
 * `numReqPerCycle` times; each bank stage and the directory once. Every
 * stage call is made (the call stands left of `||`), and the tick reports
 * whether any call made progress.
 *
 * The stages themselves are opaque: a stage call is recorded in a ghost
 * trace, and what it answers is an oracle `report(stage, k)`, `k` being the
 * number of stage calls the cache made before it.
 */
module WriteAroundCache {

  /** The stages of the cache; `Bank(i)` is the `i`-th entry of the bank-stage slice. */
  datatype StageId = Respond | ParseBottom | Bank(index: nat) | Directory | Coalesce | Control

  // ---------------------------------------------------------------------
  // The call sequences a tick is specified by

  /** How many times a loop `for i := 0; i < n; i++` runs. */
  function Iterations(n: int): nat
  {
    if n <= 0 then 0 else n
  }

  /** `n` calls of stage `s`. */
  function Repeat(s: StageId, n: nat): (r: seq<StageId>)
    ensures |r| == n
    ensures forall k :: 0 <= k < |r| ==> r[k] == s
  {
    if n == 0 then [] else Repeat(s, n - 1) + [s]
  }

  /** The calls made on `numBanks` bank stages, in slice order. */
  function Banks(numBanks: nat): (r: seq<StageId>)
    ensures |r| == numBanks
    ensures forall k :: 0 <= k < |r| ==> r[k] == Bank(k)
  {
    if numBanks == 0 then [] else Banks(numBanks - 1) + [Bank(numBanks - 1)]
  }

  /** The calls of one pipeline run, downstream stage first. */
  function PipelineCalls(numReqPerCycle: int, numBanks: nat): (r: seq<StageId>)
    ensures |r| == 3 * Iterations(numReqPerCycle) + numBanks + 1
  {
    var n := Iterations(numReqPerCycle);
    Repeat(Respond, n) + Repeat(ParseBottom, n) + Banks(numBanks) + [Directory] + Repeat(Coalesce, n)
  }

  /** The calls of one cache tick. */
  function TickCalls(paused: bool, numReqPerCycle: int, numBanks: nat): (r: seq<StageId>)
    ensures |r| == (if paused then 0 else 3 * Iterations(numReqPerCycle) + numBanks + 1) + 1
  {
    (if paused then [] else PipelineCalls(numReqPerCycle, numBanks)) + [Control]
  }

  /**
   * Whether any of the calls `calls`, the first being the `start`-th call
   * the cache makes, reports progress.
   */
  function AnyProgress(report: (StageId, nat) -> bool, start: nat, calls: seq<StageId>): bool
    decreases |calls|
  {
    calls != [] && (report(calls[0], start) || AnyProgress(report, start + 1, calls[1..]))
  }

  // ---------------------------------------------------------------------
  // Properties of the specification

  /** The OR over a run of calls is the OR over its two halves. */
  lemma {:induction false} AnyProgressAppend(report: (StageId, nat) -> bool, start: nat, a: seq<StageId>, b: seq<StageId>)
    ensures AnyProgress(report, start, a + b) == (AnyProgress(report, start, a) || AnyProgress(report, start + |a|, b))
    decreases |a|
  {
    if a != [] {
      AnyProgressAppend(report, start + 1, a[1..], b);
      assert (a + b)[1..] == a[1..] + b;
    } else {
      assert a + b == b;
    }
  }

  /**
   * No call is skipped: the calls report progress exactly when one of them
   * does, whatever the calls before it answered.
   */
  lemma {:induction false} AnyProgressIsSomeCall(report: (StageId, nat) -> bool, start: nat, calls: seq<StageId>)
    ensures AnyProgress(report, start, calls) <==> exists k :: 0 <= k < |calls| && report(calls[k], start + k)
    decreases |calls|
  {
    if calls != [] {
      AnyProgressIsSomeCall(report, start + 1, calls[1..]);
      if AnyProgress(report, start + 1, calls[1..]) {
        var k :| 0 <= k < |calls| - 1 && report(calls[1..][k], start + 1 + k);
        assert report(calls[k + 1], start + (k + 1));
      }
      if exists k :: 0 <= k < |calls| && report(calls[k], start + k) {
        var k :| 0 <= k < |calls| && report(calls[k], start + k);
        if k > 0 {
          assert report(calls[1..][k - 1], start + 1 + (k - 1));
        }
      }
    }
  }

  /** The position of a stage in the mandated tick order of a cache with `numBanks` banks. */
  function Rank(s: StageId, numBanks: nat): nat
  {
    match s
    case Respond => 0
    case ParseBottom => 1
    case Bank(i) => 2 + i
    case Directory => 2 + numBanks
    case Coalesce => 3 + numBanks
    case Control => 4 + numBanks
  }

  /** How many of `calls` are calls of stage `s`. */
  function Occurrences(calls: seq<StageId>, s: StageId): nat
  {
    if calls == [] then 0 else Occurrences(calls[..|calls| - 1], s) + (if calls[|calls| - 1] == s then 1 else 0)
  }

  lemma {:induction false} OccurrencesAppend(a: seq<StageId>, b: seq<StageId>, s: StageId)
    ensures Occurrences(a + b, s) == Occurrences(a, s) + Occurrences(b, s)
    decreases |b|
  {
    if b == [] {
      assert a + b == a;
    } else {
      OccurrencesAppend(a, b[..|b| - 1], s);
      assert (a + b)[..|a + b| - 1] == a + b[..|b| - 1];
    }
  }

  /** The calls `calls` are made in the mandated order. */
  ghost predicate InOrder(calls: seq<StageId>, numBanks: nat)
  {
    forall i, j :: 0 <= i < j < |calls| ==> Rank(calls[i], numBanks) <= Rank(calls[j], numBanks)
  }

  ghost predicate RanksWithin(calls: seq<StageId>, numBanks: nat, lo: nat, hi: nat)
  {
    forall k :: 0 <= k < |calls| ==> lo <= Rank(calls[k], numBanks) <= hi
  }

  /** Calls in order followed by calls in order, none of the first after any of the second, are in order. */
  lemma InOrderAppend(a: seq<StageId>, b: seq<StageId>, numBanks: nat, lo: nat, mid: nat, hi: nat)
    requires InOrder(a, numBanks) && RanksWithin(a, numBanks, lo, mid)
    requires InOrder(b, numBanks) && RanksWithin(b, numBanks, mid, hi)
    requires lo <= mid <= hi
    ensures InOrder(a + b, numBanks) && RanksWithin(a + b, numBanks, lo, hi)
  {
    var ab := a + b;
    forall i, j | 0 <= i < j < |ab| ensures Rank(ab[i], numBanks) <= Rank(ab[j], numBanks) {
      if j < |a| {
      } else if i >= |a| {
        assert ab[i] == b[i - |a|] && ab[j] == b[j - |a|];
      } else {
        assert ab[j] == b[j - |a|];
      }
    }
    forall k | 0 <= k < |ab| ensures lo <= Rank(ab[k], numBanks) <= hi {
      if k >= |a| {
        assert ab[k] == b[k - |a|];
      }
    }
  }

  lemma RepeatInOrder(s: StageId, n: nat, numBanks: nat)
    ensures InOrder(Repeat(s, n), numBanks) && RanksWithin(Repeat(s, n), numBanks, Rank(s, numBanks), Rank(s, numBanks))
  {
  }

  lemma BanksInOrder(numBanks: nat)
    ensures InOrder(Banks(numBanks), numBanks) && RanksWithin(Banks(numBanks), numBanks, 2, 1 + numBanks)
  {
  }

  /**
   * A pipeline run calls the stages in reverse pipeline order: respond,
   * parse bottom, banks in slice order, directory, coalesce.
   */
  lemma PipelineOrder(numReqPerCycle: int, numBanks: nat)
    ensures InOrder(PipelineCalls(numReqPerCycle, numBanks), numBanks)
    ensures RanksWithin(PipelineCalls(numReqPerCycle, numBanks), numBanks, 0, 3 + numBanks)
  {
    var n := Iterations(numReqPerCycle);
    var r, p, b, c := Repeat(Respond, n), Repeat(ParseBottom, n), Banks(numBanks), Repeat(Coalesce, n);
    RepeatInOrder(Respond, n, numBanks);
    RepeatInOrder(ParseBottom, n, numBanks);
    RepeatInOrder(Coalesce, n, numBanks);
    BanksInOrder(numBanks);
    InOrderAppend(r, p, numBanks, 0, 0, 1);
    InOrderAppend(r + p, b, numBanks, 0, 1, 1 + numBanks);
    InOrderAppend(r + p + b, [Directory], numBanks, 0, 1 + numBanks, 2 + numBanks);
    InOrderAppend(r + p + b + [Directory], c, numBanks, 0, 2 + numBanks, 3 + numBanks);
  }

  /** A tick makes the pipeline's calls in order, unless paused, and calls the control stage last. */
  lemma TickOrder(paused: bool, numReqPerCycle: int, numBanks: nat)
    ensures var calls := TickCalls(paused, numReqPerCycle, numBanks);
            && calls[|calls| - 1] == Control
            && InOrder(calls, numBanks)
  {
    PipelineOrder(numReqPerCycle, numBanks);
    var pipeline := if paused then [] else PipelineCalls(numReqPerCycle, numBanks);
    InOrderAppend(pipeline, [Control], numBanks, 0, 3 + numBanks, 4 + numBanks);
  }

  /**
   * A pipeline run calls the respond, bottom-parser and coalesce stages
   * `numReqPerCycle` times each (never when that is not positive), each bank
   * stage and the directory once, and no other stage.
   */
  lemma PipelineMultiplicity(numReqPerCycle: int, numBanks: nat, s: StageId)
    ensures Occurrences(PipelineCalls(numReqPerCycle, numBanks), s) ==
              match s
              case Respond | ParseBottom | Coalesce => Iterations(numReqPerCycle)
              case Bank(i) => if i < numBanks then 1 else 0
              case Directory => 1
              case Control => 0
  {
    var n := Iterations(numReqPerCycle);
    var r, p, b, c := Repeat(Respond, n), Repeat(ParseBottom, n), Banks(numBanks), Repeat(Coalesce, n);
    OccurrencesAppend(r, p, s);
    OccurrencesAppend(r + p, b, s);
    OccurrencesAppend(r + p + b, [Directory], s);
    OccurrencesAppend(r + p + b + [Directory], c, s);
    assert Occurrences([Directory], s) == if s == Directory then 1 else 0 by {
      assert [Directory][..0] == [];
    }
    RepeatCount(Respond, n, s);
    RepeatCount(ParseBottom, n, s);
    RepeatCount(Coalesce, n, s);
    BanksCount(numBanks, s);
  }

  /**
   * A tick calls the control stage once, after the pipeline's calls; a
   * paused cache calls only the control stage.
   */
  lemma TickMultiplicity(paused: bool, numReqPerCycle: int, numBanks: nat, s: StageId)
    ensures var calls := TickCalls(paused, numReqPerCycle, numBanks);
            && (paused ==> calls == [Control])
            && Occurrences(calls, s) ==
                 if s == Control then 1
                 else if paused then 0
                 else Occurrences(PipelineCalls(numReqPerCycle, numBanks), s)
  {
    var pipeline := if paused then [] else PipelineCalls(numReqPerCycle, numBanks);
    OccurrencesSnoc(pipeline, Control, s);
    PipelineMultiplicity(numReqPerCycle, numBanks, Control);
  }

  lemma OccurrencesSnoc(a: seq<StageId>, x: StageId, t: StageId)
    ensures Occurrences(a + [x], t) == Occurrences(a, t) + (if x == t then 1 else 0)
  {
    assert (a + [x])[..|a|] == a;
  }

  lemma {:induction false} RepeatCount(s: StageId, n: nat, t: StageId)
    ensures Occurrences(Repeat(s, n), t) == if t == s then n else 0
    decreases n
  {
    if n > 0 {
      RepeatCount(s, n - 1, t);
      OccurrencesSnoc(Repeat(s, n - 1), s, t);
    }
  }

  lemma {:induction false} BanksCount(numBanks: nat, t: StageId)
    ensures Occurrences(Banks(numBanks), t) == if t.Bank? && t.index < numBanks then 1 else 0
    decreases numBanks
  {
    if numBanks > 0 {
      BanksCount(numBanks - 1, t);
      OccurrencesSnoc(Banks(numBanks - 1), Bank(numBanks - 1), t);
    }
  }

  /**
   * A tick reports progress exactly when some stage call it made does; in
   * particular a tick whose every stage reports no progress reports none,
   * and a paused tick reports only the control stage's answer.
   */
  lemma TickProgress(report: (StageId, nat) -> bool, start: nat, paused: bool, numReqPerCycle: int, numBanks: nat)
    ensures var calls := TickCalls(paused, numReqPerCycle, numBanks);
            && (AnyProgress(report, start, calls) <==> exists k :: 0 <= k < |calls| && report(calls[k], start + k))
            && (paused ==> AnyProgress(report, start, calls) == report(Control, start))
  {
    var calls := TickCalls(paused, numReqPerCycle, numBanks);
    AnyProgressIsSomeCall(report, start, calls);
    if paused {
      assert calls == [Control];
      assert AnyProgress(report, start + 1, calls[1..]) == false;
    }
  }

  // ---------------------------------------------------------------------
  // The cache component

  class Comp {
    /**
     * Two runs of calls, one after the other: the trace grows by both, and the
     * accumulated answer is the OR over both.
     */
    static lemma Then(report: (StageId, nat) -> bool,
                      t0: seq<StageId>, c0: nat, a: seq<StageId>, ma: bool,
                      t1: seq<StageId>, c1: nat, b: seq<StageId>, mb: bool,
                      t2: seq<StageId>, c2: nat)
      requires t1 == t0 + a && c1 == |t1| && c0 == |t0| && ma == AnyProgress(report, c0, a)
      requires t2 == t1 + b && c2 == |t2| && mb == AnyProgress(report, c1, b)
      ensures t2 == t0 + (a + b) && (mb || ma) == AnyProgress(report, c0, a + b)
    {
      AnyProgressAppend(report, c0, a, b);
    }

    const numReqPerCycle: int
    /** The number of entries of the bank-stage slice. */
    const numBanks: nat
    var isPaused: bool
    /** What the opaque stages answer: `report(s, k)` is the answer of stage `s` to the `k`-th stage call. */
    const report: (StageId, nat) -> bool
    /** The number of stage calls made so far. */
    var calls: nat
    /** Every stage call made so far, in order. */
    ghost var trace: seq<StageId>

    ghost predicate Valid()
      reads this
    {
      calls == |trace|
    }

    constructor (numReqPerCycle: int, numBanks: nat, report: (StageId, nat) -> bool)
      ensures Valid() && trace == [] && !isPaused
      ensures this.numReqPerCycle == numReqPerCycle && this.numBanks == numBanks && this.report == report
    {
      this.numReqPerCycle, this.numBanks, this.report := numReqPerCycle, numBanks, report;
      isPaused, calls, trace := false, 0, [];
    }

    /** The control stage's pause or continue: the only writer of `isPaused`. */
    method SetPaused(p: bool)
      modifies this`isPaused
      ensures isPaused == p
    {
      isPaused := p;
    }

    /** One call of a stage's Tick. */
    method TickStage(s: StageId) returns (madeProgress: bool)
      requires Valid()
      modifies this`calls, this`trace
      ensures Valid() && trace == old(trace) + [s]
      ensures madeProgress == AnyProgress(report, old(calls), [s])
    {
      madeProgress := report(s, calls);
      calls, trace := calls + 1, trace + [s];
    }

    /** `n` calls of stage `s`, as the respond, bottom-parser and coalesce helpers make them. */
    method TickRepeatedly(s: StageId, n: int) returns (madeProgress: bool)
      requires Valid()
      modifies this`calls, this`trace
      ensures Valid() && trace == old(trace) + Repeat(s, Iterations(n))
      ensures madeProgress == AnyProgress(report, old(calls), Repeat(s, Iterations(n)))
    {
      madeProgress := false;
      var i: nat := 0;
      while i < n
        invariant Valid() && i <= Iterations(n)
        invariant trace == old(trace) + Repeat(s, i)
        invariant madeProgress == AnyProgress(report, old(calls), Repeat(s, i))
      {
        var p := TickStage(s);
        AnyProgressAppend(report, old(calls), Repeat(s, i), [s]);
        madeProgress := p || madeProgress;
        i := i + 1;
      }
    }

    method TickRespondStage() returns (madeProgress: bool)
      requires Valid()
      modifies this`calls, this`trace
      ensures Valid() && trace == old(trace) + Repeat(Respond, Iterations(numReqPerCycle))
      ensures madeProgress == AnyProgress(report, old(calls), Repeat(Respond, Iterations(numReqPerCycle)))
    {
      madeProgress := TickRepeatedly(Respond, numReqPerCycle);
    }

    method TickParseBottomStage() returns (madeProgress: bool)
      requires Valid()
      modifies this`calls, this`trace
      ensures Valid() && trace == old(trace) + Repeat(ParseBottom, Iterations(numReqPerCycle))
      ensures madeProgress == AnyProgress(report, old(calls), Repeat(ParseBottom, Iterations(numReqPerCycle)))
    {
      madeProgress := TickRepeatedly(ParseBottom, numReqPerCycle);
    }

    /** Each bank stage once, in slice order. */
    method TickBankStage() returns (madeProgress: bool)
      requires Valid()
      modifies this`calls, this`trace
      ensures Valid() && trace == old(trace) + Banks(numBanks)
      ensures madeProgress == AnyProgress(report, old(calls), Banks(numBanks))
    {
      madeProgress := false;
      var i := 0;
      while i < numBanks
        invariant Valid() && i <= numBanks
        invariant trace == old(trace) + Banks(i)
        invariant madeProgress == AnyProgress(report, old(calls), Banks(i))
      {
        var p := TickStage(Bank(i));
        AnyProgressAppend(report, old(calls), Banks(i), [Bank(i)]);
        madeProgress := p || madeProgress;
        i := i + 1;
      }
    }

    method TickDirectoryStage() returns (madeProgress: bool)
      requires Valid()
      modifies this`calls, this`trace
      ensures Valid() && trace == old(trace) + [Directory]
      ensures madeProgress == AnyProgress(report, old(calls), [Directory])
    {
      madeProgress := TickStage(Directory);
    }

    method TickCoalesceStage() returns (madeProgress: bool)
      requires Valid()
      modifies this`calls, this`trace
      ensures Valid() && trace == old(trace) + Repeat(Coalesce, Iterations(numReqPerCycle))
      ensures madeProgress == AnyProgress(report, old(calls), Repeat(Coalesce, Iterations(numReqPerCycle)))
    {
      madeProgress := TickRepeatedly(Coalesce, numReqPerCycle);
    }

    method RunPipeline() returns (madeProgress: bool)
      requires Valid()
      modifies this`calls, this`trace
      ensures Valid() && trace == old(trace) + PipelineCalls(numReqPerCycle, numBanks)
      ensures madeProgress == AnyProgress(report, old(calls), PipelineCalls(numReqPerCycle, numBanks))
    {
      ghost var t0, c0 := trace, calls;
      var m := TickRespondStage();
      madeProgress := m;
      ghost var t1, c1, r := trace, calls, Repeat(Respond, Iterations(numReqPerCycle));
      m := TickParseBottomStage();
      Then(report, t0, c0, r, madeProgress, t1, c1, Repeat(ParseBottom, Iterations(numReqPerCycle)), m, trace, calls);
      madeProgress := m || madeProgress;
      ghost var t2, c2, rp := trace, calls, r + Repeat(ParseBottom, Iterations(numReqPerCycle));
      m := TickBankStage();
      Then(report, t0, c0, rp, madeProgress, t2, c2, Banks(numBanks), m, trace, calls);
      madeProgress := m || madeProgress;
      ghost var t3, c3, rpb := trace, calls, rp + Banks(numBanks);
      m := TickDirectoryStage();
      Then(report, t0, c0, rpb, madeProgress, t3, c3, [Directory], m, trace, calls);
      madeProgress := m || madeProgress;
      ghost var t4, c4, rpbd := trace, calls, rpb + [Directory];
      m := TickCoalesceStage();
      Then(report, t0, c0, rpbd, madeProgress, t4, c4, Repeat(Coalesce, Iterations(numReqPerCycle)), m, trace, calls);
      madeProgress := m || madeProgress;
    }

    /** One cycle of the cache: the pipeline unless paused, then the control stage. */
    method Tick() returns (madeProgress: bool)
      requires Valid()
      modifies this`calls, this`trace
      ensures Valid() && trace == old(trace) + TickCalls(isPaused, numReqPerCycle, numBanks)
      ensures madeProgress == AnyProgress(report, old(calls), TickCalls(isPaused, numReqPerCycle, numBanks))
    {
      ghost var start := calls;
      ghost var pipeline := if isPaused then [] else PipelineCalls(numReqPerCycle, numBanks);
      madeProgress := false;
      if !isPaused {
        var m := RunPipeline();
        madeProgress := m || madeProgress;
      }
      var m := TickStage(Control);
      AnyProgressAppend(report, start, pipeline, [Control]);
      madeProgress := m || madeProgress;
    }
  }
}
