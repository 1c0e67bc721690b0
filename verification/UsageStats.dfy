/**
 Token usage over a session's frames (sandbox/lib/active-sessions.ts, the stdout frame handler).

 The handler keeps a snapshot, a flag and two figures up to date frame by frame. The specification
 looks back over the whole history instead: what is the context usage, what was billed, in how many
 turns. A history spans any number of wakes; a figure missing from a frame is `None`.
*/
module UsageStats {
  import opened Wrappers

  datatype Usage = Usage(input: Option<int>, cacheCreated: Option<int>, cacheRead: Option<int>, output: Option<int>)
  datatype Totals = Totals(input: int, cacheCreated: int, cacheRead: int, output: int, turns: nat)

  /**
   What the child prints, and `Woken`: the slot is replaced and carries its statistics over.
   `post` is the size a compaction boundary reports, when it is a finite number.
   */
  datatype Frame =
    | Assistant(synthetic: bool, usage: Option<Usage>)
    | Boundary(post: Option<int>)
    | Result(billed: Usage)
    | Woken
    | Other

  // ---- Looking back --------------------------------------------------------------------------

  function InputSide(u: Usage): int { u.input.GetOr(0) + u.cacheCreated.GetOr(0) + u.cacheRead.GetOr(0) }
  function Total(u: Usage): int { InputSide(u) + u.output.GetOr(0) }

  /** A real model call that read its prompt. */
  predicate RealCall(f: Frame) { f.Assistant? && !f.synthetic && f.usage.Some? && InputSide(f.usage.value) > 0 }

  /** A turn that consumed tokens. */
  predicate Billed(f: Frame) { f.Result? && Total(f.billed) > 0 }

  predicate EndsTurn(f: Frame) { f.Result? || f.Woken? }

  function Baseline(f: Frame): Usage
    requires f.Boundary?
  {
    Usage(Some(if f.post.Some? && f.post.value > 0 then f.post.value else 0), Some(0), Some(0), Some(0))
  }

  /** The last real call of the turn in progress, if no boundary came after it. */
  function Snapshot(h: seq<Frame>): Option<Usage> {
    if h == [] then None
    else
      var f := h[|h| - 1];
      if RealCall(f) then f.usage
      else if EndsTurn(f) || f.Boundary? then None
      else Snapshot(h[..|h| - 1])
  }

  /** The last boundary of the turn in progress. */
  function TurnBoundary(h: seq<Frame>): Option<Usage> {
    if h == [] then None
    else
      var f := h[|h| - 1];
      if f.Boundary? then Some(Baseline(f))
      else if EndsTurn(f) then None
      else TurnBoundary(h[..|h| - 1])
  }

  /** What a billed result that comes after `h` makes of the context usage. */
  function AtResult(h: seq<Frame>, billed: Usage): Usage {
    Snapshot(h).GetOr(TurnBoundary(h).GetOr(billed))
  }

  /** The context usage: set by the last billed result or boundary, whichever came later. */
  function ContextUsage(h: seq<Frame>): Option<Usage> {
    if h == [] then None
    else
      var f := h[|h| - 1];
      if f.Boundary? then Some(Baseline(f))
      else if Billed(f) then Some(AtResult(h[..|h| - 1], f.billed))
      else ContextUsage(h[..|h| - 1])
  }

  const ZERO := Totals(0, 0, 0, 0, 0)

  function Plus(t: Totals, u: Totals): Totals {
    Totals(t.input + u.input, t.cacheCreated + u.cacheCreated, t.cacheRead + u.cacheRead, t.output + u.output,
           t.turns + u.turns)
  }

  function BillOf(f: Frame): Totals {
    if Billed(f)
    then Totals(f.billed.input.GetOr(0), f.billed.cacheCreated.GetOr(0), f.billed.cacheRead.GetOr(0),
                f.billed.output.GetOr(0), 1)
    else ZERO
  }

  /** Everything billed, with one turn for each billed result. */
  function Bill(h: seq<Frame>): Totals {
    if h == [] then ZERO else Plus(Bill(h[..|h| - 1]), BillOf(h[|h| - 1]))
  }

  // ---- The handler ---------------------------------------------------------------------------

  datatype Stats = Stats(usage: Option<Usage>, totals: Option<Totals>)
  datatype State = State(lastAssistantUsage: Option<Usage>, compactedThisTurn: bool, lastStats: Stats)

  function SoFar(totals: Option<Totals>): Totals { if totals.Some? then totals.value else ZERO }

  const FRESH := State(None, false, Stats(None, None))

  function Step(s: State, f: Frame): State {
    match f
    case Assistant(synthetic, usage) =>
      if !synthetic && usage.Some? && InputSide(usage.value) > 0 then s.(lastAssistantUsage := usage) else s
    case Boundary(post) => State(None, true, s.lastStats.(usage := Some(Baseline(f))))
    case Result(billed) =>
      State(None, false,
            if Total(billed) > 0 then
              Stats(Some(if s.lastAssistantUsage.Some? then s.lastAssistantUsage.value
                         else if s.compactedThisTurn then s.lastStats.usage.GetOr(billed)
                         else billed),
                    Some(Plus(SoFar(s.lastStats.totals), BillOf(f))))
            else s.lastStats)
    case Woken => State(None, false, s.lastStats)
    case Other => s
  }

  function Run(h: seq<Frame>): State {
    if h == [] then FRESH else Step(Run(h[..|h| - 1]), h[|h| - 1])
  }

  lemma RunSnoc(h: seq<Frame>, f: Frame)
    ensures Run(h + [f]) == Step(Run(h), f)
  {
    assert (h + [f])[..|h|] == h;
    hide Step;
  }

  // ---- The handler meets the specification ---------------------------------------------------

  lemma PlusAssociates(t: Totals, u: Totals, v: Totals)
    ensures Plus(Plus(t, u), v) == Plus(t, Plus(u, v))
    ensures Plus(t, ZERO) == t
  {
  }

  lemma {:induction false} BillAppends(h: seq<Frame>, k: seq<Frame>)
    ensures Bill(h + k) == Plus(Bill(h), Bill(k))
    decreases |k|
  {
    hide Plus, BillOf;
    if k == [] {
      assert h + k == h;
      PlusAssociates(Bill(h), ZERO, ZERO);
    } else {
      var init := k[..|k| - 1];
      assert (h + k)[..|h + k| - 1] == h + init;
      BillAppends(h, init);
      PlusAssociates(Bill(h), Bill(init), BillOf(k[|k| - 1]));
    }
  }

  /** In the turn in progress, a boundary is also what the context usage says. */
  lemma {:induction false} BoundaryIsShown(h: seq<Frame>)
    ensures TurnBoundary(h).Some? ==> ContextUsage(h) == TurnBoundary(h)
    decreases |h|
  {
    if h != [] { BoundaryIsShown(h[..|h| - 1]); }
  }

  /** The handler's state is what looking back over the history says. */
  ghost predicate Agrees(s: State, h: seq<Frame>) {
    && s.lastAssistantUsage == Snapshot(h)
    && (s.compactedThisTurn <==> TurnBoundary(h).Some?)
    && s.lastStats.usage == ContextUsage(h)
    && SoFar(s.lastStats.totals) == Bill(h)
    && (s.lastStats.totals.None? <==> Bill(h).turns == 0)
  }

  lemma Unfold(h: seq<Frame>, init: seq<Frame>, f: Frame)
    requires h == init + [f]
    ensures Snapshot(h) == if RealCall(f) then f.usage else if EndsTurn(f) || f.Boundary? then None else Snapshot(init)
    ensures TurnBoundary(h) == if f.Boundary? then Some(Baseline(f)) else if EndsTurn(f) then None
                               else TurnBoundary(init)
    ensures ContextUsage(h) == if f.Boundary? then Some(Baseline(f))
                               else if Billed(f) then Some(AtResult(init, f.billed)) else ContextUsage(init)
    ensures Bill(h) == Plus(Bill(init), BillOf(f))
  {
    assert h[..|h| - 1] == init;
    hide RealCall, EndsTurn, Billed, AtResult, Plus, BillOf, Baseline;
  }

  /** One step, on the looked-back values alone. */
  lemma StepOnContext(s: State, f: Frame, snap: Option<Usage>, boundary: Option<Usage>, context: Option<Usage>)
    requires s.lastAssistantUsage == snap && (s.compactedThisTurn <==> boundary.Some?)
    requires s.lastStats.usage == context && (boundary.Some? ==> context == boundary)
    ensures var t := Step(s, f);
            && t.lastAssistantUsage == (if RealCall(f) then f.usage else if EndsTurn(f) || f.Boundary? then None
                                        else snap)
            && (t.compactedThisTurn <==> f.Boundary? || (!EndsTurn(f) && boundary.Some?))
            && t.lastStats.usage == (if f.Boundary? then Some(Baseline(f))
                                     else if Billed(f) then Some(snap.GetOr(boundary.GetOr(f.billed))) else context)
  {
    hide Plus, BillOf, Total, InputSide, Baseline;
  }

  lemma BilledStep(s: State, f: Frame, bill: Totals)
    requires Billed(f)
    ensures Step(s, f).lastStats.totals == Some(Plus(SoFar(s.lastStats.totals), BillOf(f)))
    ensures Plus(bill, BillOf(f)).turns > 0
  {
  }

  lemma UnbilledStep(s: State, f: Frame, bill: Totals)
    requires !Billed(f)
    ensures Step(s, f).lastStats.totals == s.lastStats.totals && Plus(bill, BillOf(f)) == bill
  {
  }

  lemma StepOnBill(s: State, f: Frame, bill: Totals)
    requires SoFar(s.lastStats.totals) == bill && (s.lastStats.totals.None? <==> bill.turns == 0)
    ensures var t := Step(s, f);
            && SoFar(t.lastStats.totals) == Plus(bill, BillOf(f))
            && (t.lastStats.totals.None? <==> Plus(bill, BillOf(f)).turns == 0)
  {
    hide Step, Plus, BillOf, Billed;
    if Billed(f) { BilledStep(s, f, bill); } else { UnbilledStep(s, f, bill); }
  }

  lemma StepAgrees(s: State, h: seq<Frame>, init: seq<Frame>, f: Frame)
    requires h == init + [f] && Agrees(s, init)
    ensures Agrees(Step(s, f), h)
  {
    Unfold(h, init, f);
    BoundaryIsShown(init);
    hide Snapshot, TurnBoundary, ContextUsage, Bill, Baseline, Step, Plus, BillOf;
    StepOnContext(s, f, Snapshot(init), TurnBoundary(init), ContextUsage(init));
    StepOnBill(s, f, Bill(init));
  }

  /** After any history, across any number of wakes, the handler agrees with looking back. */
  lemma {:induction false} HandlerIsCorrect(h: seq<Frame>)
    ensures Agrees(Run(h), h)
    decreases |h|
  {
    if h != [] {
      HandlerIsCorrect(h[..|h| - 1]);
      hide Agrees;
      StepAgrees(Run(h[..|h| - 1]), h, h[..|h| - 1], h[|h| - 1]);
    }
  }

  // ---- What looking back means ---------------------------------------------------------------

  lemma {:induction false} SnapshotMeans(h: seq<Frame>, i: int)
    requires 0 <= i < |h| && RealCall(h[i])
    requires forall j :: i < j < |h| ==> !RealCall(h[j]) && !EndsTurn(h[j]) && !h[j].Boundary?
    ensures Snapshot(h) == h[i].usage
    decreases |h|
  {
    if i < |h| - 1 { SnapshotMeans(h[..|h| - 1], i); }
  }

  lemma {:induction false} NoSnapshotAfter(h: seq<Frame>, i: int)
    requires -1 <= i < |h| && (i == -1 || EndsTurn(h[i]) || h[i].Boundary?)
    requires forall j :: i < j < |h| ==> !RealCall(h[j])
    ensures Snapshot(h).None?
    decreases |h|
  {
    if i < |h| - 1 { NoSnapshotAfter(h[..|h| - 1], i); }
  }

  lemma {:induction false} BoundaryMeans(h: seq<Frame>, i: int)
    requires 0 <= i < |h| && h[i].Boundary?
    requires forall j :: i < j < |h| ==> !EndsTurn(h[j]) && !h[j].Boundary?
    ensures TurnBoundary(h) == Some(Baseline(h[i]))
    decreases |h|
  {
    if i < |h| - 1 { BoundaryMeans(h[..|h| - 1], i); }
  }

  lemma {:induction false} NoBoundarySince(h: seq<Frame>, i: int)
    requires -1 <= i < |h| && (i == -1 || EndsTurn(h[i]))
    requires forall j :: i < j < |h| ==> !h[j].Boundary?
    ensures TurnBoundary(h).None?
    decreases |h|
  {
    if i < |h| - 1 { NoBoundarySince(h[..|h| - 1], i); }
  }

  /** After frame `i` there is neither a real call nor a boundary. */
  ghost predicate PlainFrom(h: seq<Frame>, i: int)
    requires -1 <= i
  {
    forall j :: i < j < |h| ==> !RealCall(h[j]) && !h[j].Boundary?
  }

  /**
   The three cases of a billed turn's end, `start` being where its turn began (after frame `start`).
   The context usage becomes the last real call since the turn's last boundary; failing that, the
   size its last boundary reported; failing that, what the result itself billed.
   */
  lemma TurnEnd(h: seq<Frame>, start: int, billed: Usage)
    requires -1 <= start < |h| && (start == -1 || EndsTurn(h[start])) && Total(billed) > 0
    requires forall j :: start < j < |h| ==> !EndsTurn(h[j])
    ensures var usage := Run(h + [Result(billed)]).lastStats.usage;
            && (forall i :: start < i < |h| && RealCall(h[i]) && PlainFrom(h, i) ==> usage == h[i].usage)
            && (forall i :: start < i < |h| && h[i].Boundary? && PlainFrom(h, i) ==> usage == Some(Baseline(h[i])))
            && (PlainFrom(h, start) ==> usage == Some(billed))
  {
    var k := h + [Result(billed)];
    HandlerIsCorrect(k);
    assert k[..|k| - 1] == h;
    forall i | start < i < |h| && RealCall(h[i]) && PlainFrom(h, i)
      ensures Snapshot(h) == h[i].usage
    {
      SnapshotMeans(h, i);
    }
    forall i | start < i < |h| && h[i].Boundary? && PlainFrom(h, i)
      ensures Snapshot(h).None? && TurnBoundary(h) == Some(Baseline(h[i]))
    {
      NoSnapshotAfter(h, i);
      BoundaryMeans(h, i);
    }
    if PlainFrom(h, start) {
      NoSnapshotAfter(h, start);
      NoBoundarySince(h, start);
    }
  }

  /** Neither waking nor an unbilled result moves any figure. */
  lemma QuietFramesShowNothing(h: seq<Frame>, f: Frame)
    requires f.Woken? || f.Other? || f.Assistant? || (f.Result? && !Billed(f))
    ensures Run(h + [f]).lastStats == Run(h).lastStats
  {
    assert (h + [f])[..|h|] == h;
  }

  /** Totals do not care where a history is cut: a later part adds what it bills, wakes or not. */
  lemma TotalsAccumulate(h: seq<Frame>, k: seq<Frame>)
    ensures SoFar(Run(h + k).lastStats.totals) == Plus(SoFar(Run(h).lastStats.totals), Bill(k))
  {
    HandlerIsCorrect(h + k);
    HandlerIsCorrect(h);
    BillAppends(h, k);
  }

  // ---- The figures, field by field -----------------------------------------------------------

  /** What a figure counts for: nothing when it is missing. */
  function Said(figure: Option<int>): int { match figure case Some(n) => n case None => 0 }

  ghost predicate Consumed(billed: Usage) {
    Said(billed.input) + Said(billed.cacheCreated) + Said(billed.cacheRead) + Said(billed.output) > 0
  }

  ghost predicate ReadItsPrompt(f: Frame) {
    && f.Assistant? && !f.synthetic && f.usage.Some?
    && Said(f.usage.value.input) + Said(f.usage.value.cacheCreated) + Said(f.usage.value.cacheRead) > 0
  }

  /** No call that read its prompt and no boundary comes after frame `i`. */
  ghost predicate LastWord(h: seq<Frame>, i: int)
    requires -1 <= i
  {
    forall j :: i < j < |h| ==> !ReadItsPrompt(h[j]) && !h[j].Boundary?
  }

  /** What is shown after a boundary: its size when that is positive, else 0, and nothing beside it. */
  ghost predicate ShowsBoundary(usage: Option<Usage>, f: Frame)
    requires f.Boundary?
  {
    usage.Some? && usage.value.cacheCreated == usage.value.cacheRead == usage.value.output == Some(0)
    && usage.value.input == match f.post case Some(n) => Some(if n < 0 then 0 else n) case None => Some(0)
  }

  /**
   One frame after any history. A result that consumed anything adds each of its four figures to the
   total of that name and one turn; a boundary leaves the totals and shows its size; no other frame,
   and no result that consumed nothing, changes what is shown.
   */
  lemma FrameByFrame(h: seq<Frame>, f: Frame)
    ensures var was, now := Run(h).lastStats, Run(h + [f]).lastStats;
            var before, after := SoFar(was.totals), SoFar(now.totals);
            if f.Result? && Consumed(f.billed) then
              && after.input - before.input == Said(f.billed.input)
              && after.cacheCreated - before.cacheCreated == Said(f.billed.cacheCreated)
              && after.cacheRead - before.cacheRead == Said(f.billed.cacheRead)
              && after.output - before.output == Said(f.billed.output)
              && after.turns == before.turns + 1 && now.totals.Some?
            else if f.Boundary? then now.totals == was.totals && ShowsBoundary(now.usage, f)
            else now == was
  {
    hide Run;
    RunSnoc(h, f);
  }

  lemma SameCalls(f: Frame)
    ensures ReadItsPrompt(f) <==> RealCall(f)
  {
  }

  lemma SameLastWord(h: seq<Frame>, i: int)
    requires -1 <= i
    ensures LastWord(h, i) <==> PlainFrom(h, i)
  {
    hide ReadItsPrompt, RealCall;
    forall j | i < j < |h| ensures ReadItsPrompt(h[j]) <==> RealCall(h[j]) { SameCalls(h[j]); }
  }

  /**
   What a billed turn's end shows, on the frames themselves; the turn began after frame `start`. It is
   the last model call that read its prompt with no boundary after it; failing that the last boundary's
   size; and what the result billed when the turn has neither.
   */
  lemma TurnEndByFrames(h: seq<Frame>, start: int, billed: Usage)
    requires -1 <= start < |h| && (start == -1 || h[start].Result? || h[start].Woken?) && Consumed(billed)
    requires forall j :: start < j < |h| ==> !h[j].Result? && !h[j].Woken?
    ensures var usage := Run(h + [Result(billed)]).lastStats.usage;
            && (forall i :: start < i < |h| && ReadItsPrompt(h[i]) && LastWord(h, i) ==> usage == h[i].usage)
            && (forall i :: start < i < |h| && h[i].Boundary? && LastWord(h, i) ==> ShowsBoundary(usage, h[i]))
            && (LastWord(h, start) ==> usage == Some(billed))
  {
    hide Run, Snapshot, TurnBoundary, RealCall, ReadItsPrompt, PlainFrom, LastWord;
    assert Total(billed) > 0;
    forall i | -1 <= i < |h| ensures LastWord(h, i) <==> PlainFrom(h, i) { SameLastWord(h, i); }
    forall i | 0 <= i < |h| ensures ReadItsPrompt(h[i]) <==> RealCall(h[i]) { SameCalls(h[i]); }
    TurnEnd(h, start, billed);
  }

  // ---- The slot, changed in place ------------------------------------------------------------

  class Meter {
    var lastAssistantUsage: Option<Usage>
    var compactedThisTurn: bool
    var usage: Option<Usage>
    var totals: Option<Totals>
    ghost var history: seq<Frame>

    ghost predicate Valid()
      reads this
    {
      State(lastAssistantUsage, compactedThisTurn, Stats(usage, totals)) == Run(history)
    }

    constructor ()
      ensures Valid() && history == []
    {
      lastAssistantUsage, compactedThisTurn, usage, totals, history := None, false, None, None, [];
    }

    /** One frame; `history` grows by it, and what is shown is what looking back over it says. */
    method OnFrame(f: Frame)
      requires Valid()
      modifies this
      ensures Valid() && history == old(history) + [f]
      ensures usage == ContextUsage(history) && SoFar(totals) == Bill(history)
    {
      hide Run, Snapshot, TurnBoundary, ContextUsage, Bill;
      match f {
        case Assistant(synthetic, u) =>
          if !synthetic && u.Some? {
            var tokens := u.value.input.GetOr(0) + u.value.cacheCreated.GetOr(0) + u.value.cacheRead.GetOr(0);
            if tokens > 0 { lastAssistantUsage := u; }
          }
        case Boundary(post) =>
          var size := if post.Some? && post.value > 0 then post.value else 0;
          usage := Some(Usage(Some(size), Some(0), Some(0), Some(0)));
          compactedThisTurn := true;
          lastAssistantUsage := None;
        case Result(billed) =>
          var input, cacheCreated := billed.input.GetOr(0), billed.cacheCreated.GetOr(0);
          var cacheRead, output := billed.cacheRead.GetOr(0), billed.output.GetOr(0);
          if input + cacheCreated + cacheRead + output > 0 {
            if lastAssistantUsage.Some? {
              usage := lastAssistantUsage;
            } else if !compactedThisTurn || usage.None? {
              usage := Some(billed);
            }
            var prev := SoFar(totals);
            totals := Some(Totals(prev.input + input, prev.cacheCreated + cacheCreated, prev.cacheRead + cacheRead,
                                  prev.output + output, prev.turns + 1));
          }
          lastAssistantUsage := None;
          compactedThisTurn := false;
        case Woken =>
          lastAssistantUsage, compactedThisTurn := None, false;
        case Other =>
      }
      history := history + [f];
      RunSnoc(old(history), f);
      HandlerIsCorrect(history);
    }
  }
}
