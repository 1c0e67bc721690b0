/**
 The arm protocol of the file watcher (sandbox/lib/file-watch.ts).

 Arming a working directory awaits a scan, so reconciles, ancestor callbacks, re-arm timers and
 finished scans interleave. Four maps guard the protocol: live watchers, pending arms, arm tokens and
 re-arm timers. Every entry of them belongs to one directory, and no step looks at another
 directory's entries, so the protocol is described one directory (one `Cell`) at a time; the class
 at the end keeps the maps themselves and is proved to move every cell as described here.
*/
module ArmProtocol {
  import opened Wrappers

  type Cwd = string

  /** A registration: real watches, or a placeholder on an ancestor of a directory not there yet. */
  datatype Kind = Real | Ancestor

  /** An arm in flight: awaiting its scan, or returned but not yet removed from the pending map. */
  datatype Arm = Scanning(token: nat) | Settling

  /**
   One directory's share of the state. `arms` are all its arms in flight. The last four fields
   remember what happened and are read by no step: whether the last reconcile wanted it; whether
   some reconcile left it out since its last arm began; whether its last arm bound no watch at all;
   and whether a new directory was seen in it since its last arm began.
  */
  datatype Cell = Cell(
    watch: Option<Kind>, pending: bool, token: Option<nat>, timer: bool, arms: seq<Arm>,
    wanted: bool, dropped: bool, unbound: bool, stale: bool)

  const IDLE := Cell(None, false, None, false, [], false, false, false, false)

  datatype Event =
    | Reconcile(wanted: bool, exists_: bool, anchored: bool)
    | AncestorFired
    | NewDirectory
    | RearmTimer(exists_: bool, anchored: bool)
    | ScanDone(i: nat, bound: bool)
    | Settled(i: nat)

  function TokenOf(x: Cell): nat { x.token.GetOr(0) }

  /** `trackArm`, up to the first suspension of `armFileWatcher`. */
  function Start(x: Cell, exists_: bool, anchored: bool): Cell {
    var t := TokenOf(x) + 1;
    var y := x.(token := Some(t), pending := true, dropped := false, unbound := false, stale := false);
    if exists_ then y.(arms := x.arms + [Scanning(t)])
    else y.(watch := if anchored then Some(Ancestor) else None, timer := false,
            unbound := !anchored, arms := x.arms + [Settling])
  }

  /** What `syncFileWatchers` does to one directory. */
  function OnReconcile(x: Cell, wanted: bool, exists_: bool, anchored: bool): Cell {
    if !wanted then
      var y := x.(wanted := false);
      if x.watch.Some? || x.pending then y.(watch := None, timer := false, token := None, dropped := true) else y
    else if x.watch.Some? || x.pending then x.(wanted := true)
    else Start(x.(wanted := true), exists_, anchored)
  }

  /** `scheduleRearm`'s callback: retry while an arm is pending, and never revive an unwatched one. */
  function OnRearmTimer(x: Cell, exists_: bool, anchored: bool): Cell {
    if x.watch.None? then x.(timer := false)
    else if x.pending then x
    else Start(x.(timer := false), exists_, anchored)
  }

  /** The tail of `armFileWatcher`: a superseded arm discards itself, the current one swaps watches. */
  function OnScanDone(x: Cell, i: nat, bound: bool): Cell
    requires i < |x.arms| && x.arms[i].Scanning?
  {
    var y := x.(arms := x.arms[i := Settling]);
    if TokenOf(x) != x.arms[i].token then y
    else y.(watch := if bound then Some(Real) else None, unbound := !bound)
  }

  predicate Enabled(x: Cell, e: Event) {
    match e
    case Reconcile(_, _, _) => true
    case AncestorFired => x.watch == Some(Ancestor)
    case NewDirectory => x.watch == Some(Real)
    case RearmTimer(_, _) => x.timer
    case ScanDone(i, _) => i < |x.arms| && x.arms[i].Scanning?
    case Settled(i) => i < |x.arms| && x.arms[i].Settling?
  }

  function Step(x: Cell, e: Event): Cell
    requires Enabled(x, e)
  {
    match e
    case Reconcile(wanted, exists_, anchored) => OnReconcile(x, wanted, exists_, anchored)
    case AncestorFired => if x.pending then x else Start(x, true, true)
    case NewDirectory => x.(timer := true, stale := true)
    case RearmTimer(exists_, anchored) => OnRearmTimer(x, exists_, anchored)
    case ScanDone(i, bound) => OnScanDone(x, i, bound)
    case Settled(i) => x.(arms := x.arms[..i] + x.arms[i + 1..], pending := false)
  }

  ghost predicate Possible(x: Cell, es: seq<Event>)
    decreases |es|
  {
    es == [] || (Enabled(x, es[0]) && Possible(Step(x, es[0]), es[1..]))
  }

  function Run(x: Cell, es: seq<Event>): Cell
    requires Possible(x, es)
    decreases |es|
  {
    if es == [] then x else Run(Step(x, es[0]), es[1..])
  }

  // ---- What every step keeps -----------------------------------------------------------------

  /** Some arm in flight still holds the directory's token, and so may register its watches. */
  predicate Live(x: Cell) { exists i :: 0 <= i < |x.arms| && MayRegister(x, x.arms[i]) }

  predicate MayRegister(x: Cell, a: Arm) { a.Scanning? && a.token == TokenOf(x) }

  /** Watched, or about to be. */
  predicate Covered(x: Cell) { x.watch.Some? || Live(x) }

  predicate Inv(x: Cell) {
    && |x.arms| <= 1
    && (x.pending <==> |x.arms| == 1)
    && (x.arms != [] && x.arms[0].Scanning? ==> x.arms[0].token > 0 && (MayRegister(x, x.arms[0]) <==> !x.dropped))
    && (x.watch.Some? || (x.arms != [] && MayRegister(x, x.arms[0])) <==> x.wanted && !x.dropped && !x.unbound)
    && (x.stale && x.watch.Some? ==> x.timer)
    && (x.stale && x.arms != [] && MayRegister(x, x.arms[0]) ==> x.watch.Some?)
    && (x.watch.Some? || x.pending ==> x.dropped || x.wanted)
    && (x.unbound ==> x.arms == [] || x.arms[0].Settling?)
    && (x.token.Some? <==> x.watch.Some? || (x.pending && !x.dropped) || (x.unbound && !x.dropped))
  }

  lemma OneArmIsLive(x: Cell)
    requires |x.arms| <= 1
    ensures Live(x) <==> x.arms != [] && MayRegister(x, x.arms[0])
  {
  }

  lemma StartKeepsInv(x: Cell, exists_: bool, anchored: bool)
    requires x.arms == [] && x.wanted && !x.pending
    ensures Inv(Start(x, exists_, anchored))
  {
  }

  lemma StepKeepsInv(x: Cell, e: Event)
    requires Inv(x) && Enabled(x, e)
    ensures Inv(Step(x, e))
  {
    match e {
      case Reconcile(wanted, exists_, anchored) =>
        if wanted && x.watch.None? && !x.pending { StartKeepsInv(x.(wanted := true), exists_, anchored); }
      case AncestorFired => if !x.pending { StartKeepsInv(x, true, true); }
      case NewDirectory =>
      case RearmTimer(exists_, anchored) =>
        if x.watch.Some? && !x.pending {
          var t := Step(x, e);
          assert t == Start(x.(timer := false), exists_, anchored);
          assert t == Start(x.(timer := false, stale := false), exists_, anchored);
          StartKeepsInv(x.(timer := false, stale := false), exists_, anchored);
        }
      case ScanDone(i, bound) => assert Step(x, e).arms == [Settling];
      case Settled(i) => assert Step(x, e).arms == [];
    }
  }

  lemma {:induction false} RunKeepsInv(x: Cell, es: seq<Event>)
    requires Inv(x) && Possible(x, es)
    ensures Inv(Run(x, es))
    decreases |es|
  {
    if es != [] {
      StepKeepsInv(x, es[0]);
      RunKeepsInv(Step(x, es[0]), es[1..]);
    }
  }

  // ---- The remembered flags, read off the events ---------------------------------------------

  /** This event begins an arm. */
  predicate Arms(x: Cell, e: Event) {
    match e
    case Reconcile(wanted, _, _) => wanted && x.watch.None? && !x.pending
    case AncestorFired => !x.pending
    case RearmTimer(_, _) => x.watch.Some? && !x.pending
    case _ => false
  }

  /** A reconcile leaves the directory out while it is live or mid-arm. */
  predicate Drops(x: Cell, e: Event) { e.Reconcile? && !e.wanted && (x.watch.Some? || x.pending) }

  /** An arm binds no watch: neither the directory nor an ancestor at its start, or nothing after its scan. */
  predicate Fails(x: Cell, e: Event) {
    match e
    case Reconcile(_, exists_, anchored) => Arms(x, e) && !exists_ && !anchored
    case RearmTimer(exists_, anchored) => Arms(x, e) && !exists_ && !anchored
    case ScanDone(i, bound) => !bound && i < |x.arms| && MayRegister(x, x.arms[i])
    case _ => false
  }

  predicate SeesNew(x: Cell, e: Event) { e.NewDirectory? }

  lemma {:induction false} PossiblePrefix(x: Cell, es: seq<Event>, n: nat)
    requires Possible(x, es) && n <= |es|
    ensures Possible(x, es[..n])
    ensures n < |es| ==> Enabled(Run(x, es[..n]), es[n]) && Possible(x, es[..n + 1])
                         && Run(x, es[..n + 1]) == Step(Run(x, es[..n]), es[n])
    decreases n
  {
    hide Step, Enabled;
    if n > 0 {
      assert es[..n][1..] == es[1..][..n - 1];
      PossiblePrefix(Step(x, es[0]), es[1..], n - 1);
    }
    if n < |es| {
      assert es[..n + 1][1..] == es[1..][..n];
      if n == 0 { assert es[..1][1..] == []; }
    }
  }

  /** The directory's share of the state before event `n` of a run. */
  function At(es: seq<Event>, n: nat): Cell
    requires Possible(IDLE, es) && n <= |es|
  {
    PossiblePrefix(IDLE, es, n);
    Run(IDLE, es[..n])
  }

  /** Before event `n`, the last arm began, if ever, and such a `hit` came with it or after it. */
  ghost predicate Since(es: seq<Event>, n: nat, hit: (Cell, Event) -> bool)
    requires Possible(IDLE, es) && n <= |es|
  {
    exists i :: 0 <= i < n && HitLast(es, i, n, hit)
  }

  ghost predicate HitLast(es: seq<Event>, i: nat, n: nat, hit: (Cell, Event) -> bool)
    requires Possible(IDLE, es) && i < n <= |es|
  {
    hit(At(es, i), es[i]) && forall m :: i < m < n ==> !Arms(At(es, m), es[m])
  }

  /** A flag that a `hit` sets and an arm without one clears. */
  ghost predicate Tracked(es: seq<Event>, n: nat, flag: Cell -> bool, hit: (Cell, Event) -> bool)
    requires Possible(IDLE, es) && n <= |es|
  {
    forall k :: 0 <= k < n ==>
      (flag(At(es, k + 1)) <==> hit(At(es, k), es[k]) || (flag(At(es, k)) && !Arms(At(es, k), es[k])))
  }

  lemma HitEarlier(es: seq<Event>, i: nat, n: nat, hit: (Cell, Event) -> bool)
    requires Possible(IDLE, es) && i < n - 1 && n <= |es|
    ensures HitLast(es, i, n, hit) ==> HitLast(es, i, n - 1, hit) && !Arms(At(es, n - 1), es[n - 1])
  {
    hide At, Arms;
  }

  lemma {:induction false} TrackedIsSince(es: seq<Event>, n: nat, flag: Cell -> bool, hit: (Cell, Event) -> bool)
    requires Possible(IDLE, es) && n <= |es| && Tracked(es, n, flag, hit) && !flag(At(es, 0))
    ensures flag(At(es, n)) <==> Since(es, n, hit)
    decreases n
  {
    hide At, Arms;
    if n > 0 {
      TrackedIsSince(es, n - 1, flag, hit);
      if hit(At(es, n - 1), es[n - 1]) {
        assert HitLast(es, n - 1, n, hit);
      } else if flag(At(es, n)) {
        var i :| 0 <= i < n - 1 && HitLast(es, i, n - 1, hit);
        assert HitLast(es, i, n, hit);
      } else {
        forall i | 0 <= i < n - 1 ensures !HitLast(es, i, n, hit) { HitEarlier(es, i, n, hit); }
      }
    }
  }

  lemma FlagStep(x: Cell, e: Event)
    requires Inv(x) && Enabled(x, e)
    ensures Step(x, e).dropped <==> Drops(x, e) || (x.dropped && !Arms(x, e))
    ensures Step(x, e).stale <==> SeesNew(x, e) || (x.stale && !Arms(x, e))
  {
  }

  lemma BindingStep(x: Cell, e: Event)
    requires Inv(x) && Enabled(x, e)
    ensures Step(x, e).unbound <==> Fails(x, e) || (x.unbound && !Arms(x, e))
  {
  }

  /**
   The remembered flags say what the events say: since the last arm began, a reconcile left the
   directory out, the arm bound no watch, or a new directory was seen.
   */
  lemma FlagsAreEvents(es: seq<Event>)
    requires Possible(IDLE, es)
    ensures var x := Run(IDLE, es);
            && Inv(x)
            && (x.dropped <==> Since(es, |es|, Drops))
            && (x.unbound <==> Since(es, |es|, Fails))
            && (x.stale <==> Since(es, |es|, SeesNew))
  {
    var n := |es|;
    assert es[..n] == es && At(es, n) == Run(IDLE, es);
    assert es[..0] == [] && At(es, 0) == IDLE;
    RunKeepsInv(IDLE, es);
    forall k | 0 <= k < n
      ensures At(es, k + 1).dropped
              <==> Drops(At(es, k), es[k]) || (At(es, k).dropped && !Arms(At(es, k), es[k]))
      ensures At(es, k + 1).unbound
              <==> Fails(At(es, k), es[k]) || (At(es, k).unbound && !Arms(At(es, k), es[k]))
      ensures At(es, k + 1).stale
              <==> SeesNew(At(es, k), es[k]) || (At(es, k).stale && !Arms(At(es, k), es[k]))
    {
      PossiblePrefix(IDLE, es, k);
      RunKeepsInv(IDLE, es[..k]);
      FlagStep(At(es, k), es[k]);
      BindingStep(At(es, k), es[k]);
    }
    hide At, Arms, Drops, Fails, SeesNew, Inv;
    TrackedIsSince(es, n, (x: Cell) => x.dropped, Drops);
    TrackedIsSince(es, n, (x: Cell) => x.unbound, Fails);
    TrackedIsSince(es, n, (x: Cell) => x.stale, SeesNew);
  }

  // ---- The theorems --------------------------------------------------------------------------

  /**
   In every interleaving at most one arm of a directory is in flight, the pending map says exactly
   whether one is, and a directory that is watched, or has an arm that may still register, is in
   the last desired set.
   */
  lemma OnlyDesiredAreWatched(es: seq<Event>)
    requires Possible(IDLE, es)
    ensures var x := Run(IDLE, es);
            && |x.arms| <= 1 && (x.pending <==> |x.arms| == 1)
            && (Covered(x) ==> x.wanted)
  {
    RunKeepsInv(IDLE, es);
    OneArmIsLive(Run(IDLE, es));
  }

  /**
   Exactly when a desired directory is covered: in every reachable state it is watched, or has an
   arm that will register, if and only if no reconcile left it out since its last arm began and
   that arm did not fail to bind every watch.
   */
  lemma CoveredExactlyUnlessDropped(es: seq<Event>)
    requires Possible(IDLE, es) && Run(IDLE, es).wanted
    ensures Covered(Run(IDLE, es)) <==> !Since(es, |es|, Drops) && !Since(es, |es|, Fails)
  {
    FlagsAreEvents(es);
    OneArmIsLive(Run(IDLE, es));
  }

  /** A finished scan swaps its watches in exactly when no reconcile left the directory out meanwhile. */
  lemma ScanRegistersExactlyUnlessDropped(es: seq<Event>, i: nat, bound: bool)
    requires Possible(IDLE, es) && Enabled(Run(IDLE, es), ScanDone(i, bound))
    ensures var x := Run(IDLE, es);
            var y := Step(x, ScanDone(i, bound));
            && i == 0 && y.arms == [Settling]
            && y.watch == (if Since(es, |es|, Drops) then x.watch else if bound then Some(Real) else None)
  {
    FlagsAreEvents(es);
    OneArmIsLive(Run(IDLE, es));
  }

  /** A directory that leaves and re-enters the desired set during one scan ends up unwatched. */
  lemma ReentryDuringScanIsLost(exists_: bool, anchored: bool)
    ensures var es := [Reconcile(true, true, anchored), Reconcile(false, exists_, anchored),
                       Reconcile(true, exists_, anchored), ScanDone(0, true), Settled(0)];
            && Possible(IDLE, es)
            && var x := Run(IDLE, es);
               x.wanted && x.watch.None? && !x.pending && !Covered(x)
  {
    var x1 := Step(IDLE, Reconcile(true, true, anchored));
    var x2 := Step(x1, Reconcile(false, exists_, anchored));
    var x3 := Step(x2, Reconcile(true, exists_, anchored));
    assert x3.arms == [Scanning(1)];
    var x4 := Step(x3, ScanDone(0, true));
    var x5 := Step(x4, Settled(0));
    var e1, e2, e3, e4, e5 := Reconcile(true, true, anchored), Reconcile(false, exists_, anchored),
      Reconcile(true, exists_, anchored), ScanDone(0, true), Settled(0);
    assert [e1, e2, e3, e4, e5][1..] == [e2, e3, e4, e5] && [e2, e3, e4, e5][1..] == [e3, e4, e5];
    assert [e3, e4, e5][1..] == [e4, e5] && [e4, e5][1..] == [e5] && [e5][1..] == [];
    assert Possible(x5, []);
    assert Possible(x4, [e5]);
    assert Possible(x3, [e4, e5]);
    assert Possible(x2, [e3, e4, e5]);
    assert Possible(x1, [e2, e3, e4, e5]);
    assert Run(x3, [e4, e5]) == Run(x4, [e5]) == Run(x5, []) == x5;
    assert Run(IDLE, [e1, e2, e3, e4, e5]) == Run(x1, [e2, e3, e4, e5]) == Run(x2, [e3, e4, e5]);
  }

  /**
   A token can outlive its directory: an arm that bound no watch leaves one behind, and a reconcile,
   which looks at live and pending directories only, does not take it away.
   */
  lemma TokenOutlivesDirectory(exists_: bool, anchored: bool)
    ensures var es := [Reconcile(true, true, anchored), ScanDone(0, false), Settled(0),
                       Reconcile(false, exists_, anchored)];
            && Possible(IDLE, es)
            && var x := Run(IDLE, es);
               !x.wanted && x.watch.None? && !x.pending && x.token == Some(1)
  {
    var e1, e2, e3, e4 :=
      Reconcile(true, true, anchored), ScanDone(0, false), Settled(0), Reconcile(false, exists_, anchored);
    var x1 := Step(IDLE, e1);
    assert x1.arms == [Scanning(1)];
    var x2 := Step(x1, e2);
    var x3 := Step(x2, e3);
    var x4 := Step(x3, e4);
    assert [e1, e2, e3, e4][1..] == [e2, e3, e4] && [e2, e3, e4][1..] == [e3, e4] && [e3, e4][1..] == [e4];
    assert [e4][1..] == [];
    assert Possible(x4, []) && Possible(x3, [e4]) && Possible(x2, [e3, e4]) && Possible(x1, [e2, e3, e4]);
    assert Run(x1, [e2, e3, e4]) == Run(x2, [e3, e4]) == Run(x3, [e4]) == Run(x4, []) == x4;
  }

  /**
   Exactly when a token stays: over every run, the token map has an entry for the directory if and
   only if it is watched, or the arm that began last has not been dropped by a reconcile and is still
   pending or bound no watch. For a directory neither live nor mid-arm only the last reason is left.
  */
  lemma TokenStaysExactlyWhenUnbound(es: seq<Event>)
    requires Possible(IDLE, es)
    ensures var x := Run(IDLE, es);
            && (x.token.Some? <==>
                  x.watch.Some? || (!Since(es, |es|, Drops) && (x.pending || Since(es, |es|, Fails))))
            && (x.watch.None? && !x.pending ==>
                  (x.token.Some? <==> Since(es, |es|, Fails) && !Since(es, |es|, Drops)))
  {
    FlagsAreEvents(es);
  }

  /** The next reconcile that wants it heals a directory with nothing in flight. */
  lemma NextReconcileHeals(es: seq<Event>, exists_: bool, anchored: bool)
    requires Possible(IDLE, es) && !Run(IDLE, es).pending
    ensures var y := OnReconcile(Run(IDLE, es), true, exists_, anchored);
            y.wanted && (Covered(y) <==> Run(IDLE, es).watch.Some? || exists_ || anchored)
  {
    RunKeepsInv(IDLE, es);
    var x := Run(IDLE, es);
    var y := OnReconcile(x, true, exists_, anchored);
    OneArmIsLive(y);
  }

  /**
   A new directory is not forgotten: while its cwd stays watched, a re-arm is scheduled until an arm
   that began after the directory appeared, and the timer meets a pending arm only to wait again.
   */
  lemma NewDirectoriesAreRescanned(es: seq<Event>)
    requires Possible(IDLE, es)
    ensures var x := Run(IDLE, es);
            && (Since(es, |es|, SeesNew) && x.watch.Some? ==> x.timer)
            && (x.timer && x.watch.Some? ==> forall exists_, anchored ::
                  var y := Step(x, RearmTimer(exists_, anchored));
                  if x.pending then y == x else y.pending && !y.stale)
  {
    FlagsAreEvents(es);
    OneArmIsLive(Run(IDLE, es));
  }

  // ---- The maps, changed in place ------------------------------------------------------------

  /** What the file system answers during one step: what exists, and where an ancestor can be watched. */
  datatype Fs = Fs(present: set<Cwd>, anchored: set<Cwd>)

  class FileWatch {
    var fileWatchers: map<Cwd, Kind>
    var pendingArm: set<Cwd>
    var armToken: map<Cwd, nat>
    var rearmTimers: set<Cwd>
    ghost var inFlight: map<Cwd, seq<Arm>>
    ghost var wanted: set<Cwd>
    ghost var dropped: set<Cwd>
    ghost var unbound: set<Cwd>
    ghost var stale: set<Cwd>

    constructor ()
      ensures forall c :: View(c) == IDLE
    {
      fileWatchers, pendingArm, armToken, rearmTimers := map[], {}, map[], {};
      inFlight, wanted, dropped, unbound, stale := map[], {}, {}, {}, {};
    }

    ghost function View(c: Cwd): Cell
      reads this
    {
      Cell(if c in fileWatchers then Some(fileWatchers[c]) else None, c in pendingArm,
           if c in armToken then Some(armToken[c]) else None, c in rearmTimers,
           if c in inFlight then inFlight[c] else [],
           c in wanted, c in dropped, c in unbound, c in stale)
    }

    method InvalidateArm(cwd: Cwd) returns (next: nat)
      modifies `armToken
      ensures next == TokenOf(old(View(cwd))) + 1 && View(cwd) == old(View(cwd)).(token := Some(next))
      ensures forall c :: c != cwd ==> View(c) == old(View(c))
    {
      next := (if cwd in armToken then armToken[cwd] else 0) + 1;
      armToken := armToken[cwd := next];
    }

    method CloseFileWatch(cwd: Cwd)
      modifies `fileWatchers, `rearmTimers
      ensures fileWatchers == old(fileWatchers) - {cwd} && rearmTimers == old(rearmTimers) - {cwd}
    {
      fileWatchers := fileWatchers - {cwd};
      rearmTimers := rearmTimers - {cwd};
    }

    /** `trackArm`, with `armFileWatcher` up to its scan. */
    method TrackArm(cwd: Cwd, fs: Fs)
      modifies this
      ensures View(cwd) == Start(old(View(cwd)), cwd in fs.present, cwd in fs.anchored)
      ensures forall c :: c != cwd ==> View(c) == old(View(c))
      ensures wanted == old(wanted)
    {
      var token := InvalidateArm(cwd);
      Remember(cwd, cwd !in fs.present && cwd !in fs.anchored);
      if cwd !in fs.present {
        ArmAncestorWatch(cwd, cwd in fs.anchored);
      }
      SetPending(cwd, if cwd in fs.present then Scanning(token) else Settling);
    }

    /** The arm's promise enters the pending map; `arm` is where the arm stands. */
    method SetPending(cwd: Cwd, ghost arm: Arm)
      modifies `pendingArm, `inFlight
      ensures View(cwd) == old(View(cwd)).(pending := true, arms := old(View(cwd)).arms + [arm])
      ensures forall c :: c != cwd ==> View(c) == old(View(c))
    {
      inFlight := inFlight[cwd := View(cwd).arms + [arm]];
      pendingArm := pendingArm + {cwd};
    }

    /** What is remembered when an arm begins. */
    ghost method Remember(cwd: Cwd, bindsNothing: bool)
      modifies `dropped, `unbound, `stale
      ensures View(cwd) == old(View(cwd)).(dropped := false, unbound := bindsNothing, stale := false)
      ensures forall c :: c != cwd ==> View(c) == old(View(c))
    {
      dropped, stale := dropped - {cwd}, stale - {cwd};
      unbound := if bindsNothing then unbound + {cwd} else unbound - {cwd};
    }

    /** `closeFileWatch` and `armAncestorWatch`, for a directory that is not there yet. */
    method ArmAncestorWatch(cwd: Cwd, anchored: bool)
      modifies `fileWatchers, `rearmTimers
      ensures View(cwd) == old(View(cwd)).(watch := if anchored then Some(Ancestor) else None, timer := false)
      ensures forall c :: c != cwd ==> View(c) == old(View(c))
    {
      CloseFileWatch(cwd);
      if anchored { fileWatchers := fileWatchers[cwd := Ancestor]; }
    }

    method ArmIfNew(cwd: Cwd, fs: Fs)
      modifies this
      ensures var x := old(View(cwd));
              View(cwd) == IfNew(x, cwd, fs)
      ensures forall c :: c != cwd ==> View(c) == old(View(c))
      ensures wanted == old(wanted)
    {
      if cwd in fileWatchers || cwd in pendingArm { return; }
      TrackArm(cwd, fs);
    }

    method ArmAncestorFired(cwd: Cwd, fs: Fs)
      requires Enabled(View(cwd), AncestorFired) && cwd in fs.present
      modifies this
      ensures View(cwd) == Step(old(View(cwd)), AncestorFired)
      ensures forall c :: c != cwd ==> View(c) == old(View(c))
    {
      if cwd in pendingArm { return; }
      TrackArm(cwd, fs);
    }

    /** The callback `scheduleRearm` sets: the timer goes first, and is set anew while an arm is pending. */
    method RearmTimerFired(cwd: Cwd, fs: Fs)
      requires Enabled(View(cwd), RearmTimer(cwd in fs.present, cwd in fs.anchored))
      modifies this
      ensures View(cwd) == OnRearmTimer(old(View(cwd)), cwd in fs.present, cwd in fs.anchored)
      ensures forall c :: c != cwd ==> View(c) == old(View(c))
    {
      rearmTimers := rearmTimers - {cwd};
      if cwd !in fileWatchers { return; }
      if cwd in pendingArm {
        rearmTimers := rearmTimers + {cwd};
        return;
      }
      TrackArm(cwd, fs);
    }

    /** `maybeScheduleRearmForNewDir`, for a path that is a directory now. */
    method MaybeScheduleRearmForNewDir(cwd: Cwd)
      requires Enabled(View(cwd), NewDirectory)
      modifies this
      ensures View(cwd) == Step(old(View(cwd)), NewDirectory)
      ensures forall c :: c != cwd ==> View(c) == old(View(c))
    {
      stale := stale + {cwd};
      if cwd in rearmTimers { return; }
      rearmTimers := rearmTimers + {cwd};
    }

    /** `armFileWatcher` after its scan, for an arm holding `token`; `bound`: some watch was opened. */
    method FinishArm(cwd: Cwd, i: nat, token: nat, bound: bool)
      requires Enabled(View(cwd), ScanDone(i, bound)) && View(cwd).arms[i].token == token
      modifies this
      ensures View(cwd) == OnScanDone(old(View(cwd)), i, bound)
      ensures forall c :: c != cwd ==> View(c) == old(View(c))
    {
      Returned(cwd, inFlight[cwd][i := Settling]);
      if (if cwd in armToken then armToken[cwd] else 0) != token { return; }
      SwapWatchers(cwd, bound);
    }

    ghost method Returned(cwd: Cwd, arms: seq<Arm>)
      modifies `inFlight
      ensures View(cwd) == old(View(cwd)).(arms := arms)
      ensures forall c :: c != cwd ==> View(c) == old(View(c))
    {
      inFlight := inFlight[cwd := arms];
    }

    /** The old watchers go, and the new ones come in when there are any. */
    method SwapWatchers(cwd: Cwd, bound: bool)
      modifies `fileWatchers, `unbound
      ensures View(cwd) == old(View(cwd)).(watch := if bound then Some(Real) else None, unbound := !bound)
      ensures forall c :: c != cwd ==> View(c) == old(View(c))
    {
      fileWatchers := fileWatchers - {cwd};
      if bound { fileWatchers := fileWatchers[cwd := Real]; }
      unbound := if bound then unbound - {cwd} else unbound + {cwd};
    }

    /** The arm's promise settles. */
    method SettleArm(cwd: Cwd, i: nat)
      requires Enabled(View(cwd), Settled(i))
      modifies this
      ensures View(cwd) == Step(old(View(cwd)), Settled(i))
      ensures forall c :: c != cwd ==> View(c) == old(View(c))
    {
      inFlight := inFlight[cwd := inFlight[cwd][..i] + inFlight[cwd][i + 1..]];
      pendingArm := pendingArm - {cwd};
    }

    /** The first loop of `syncFileWatchers`: what is live or pending and no longer desired goes. */
    method DropUndesired(desired: set<Cwd>) returns (ghost gone: set<Cwd>)
      modifies `fileWatchers, `rearmTimers, `armToken
      ensures gone == LiveOrPending(old(fileWatchers), pendingArm) - desired
      ensures Maps() == old(Maps()).Without(gone)
    {
      var all := LiveOrPending(fileWatchers, pendingArm);
      var todo := all;
      gone := {};
      NoneGone(Maps());
      while todo != {}
        invariant todo <= all && forall c :: c in gone <==> c in all && c !in todo && c !in desired
        invariant Maps() == old(Maps()).Without(gone)
        decreases |todo|
      {
        var cwd :| cwd in todo;
        if cwd !in desired {
          OneMoreGone(old(Maps()), gone, cwd);
          Forget(cwd);
          gone := gone + {cwd};
        }
        todo := todo - {cwd};
      }
    }

    /** What a directory that is no longer desired loses: its watches, its timer and its token. */
    method Forget(cwd: Cwd)
      modifies `fileWatchers, `rearmTimers, `armToken
      ensures Maps() == old(Maps()).Without({cwd})
    {
      CloseFileWatch(cwd);
      armToken := armToken - {cwd};
    }

    ghost function Maps(): Tables
      reads this
    {
      Tables(fileWatchers, rearmTimers, armToken)
    }

    /** Its second loop. */
    method ArmDesired(desired: set<Cwd>, fs: Fs)
      modifies this
      ensures wanted == old(wanted)
      ensures forall c :: View(c) == if c in desired then IfNew(old(View(c)), c, fs) else old(View(c))
    {
      var todo := desired;
      while todo != {}
        invariant wanted == old(wanted) && todo <= desired
        invariant forall c :: View(c) == if c in desired - todo then IfNew(old(View(c)), c, fs) else old(View(c))
        decreases |todo|
      {
        var cwd :| cwd in todo;
        todo := todo - {cwd};
        ArmIfNew(cwd, fs);
      }
    }

    /** `syncFileWatchers`: every directory takes one reconcile step, whatever the order of the loops. */
    method SyncFileWatchers(cwds: seq<Cwd>, fs: Fs)
      modifies this
      ensures forall c :: View(c) ==
                OnReconcile(old(View(c)), c in cwds && c != "", c in fs.present, c in fs.anchored)
    {
      var desired := set c | c in cwds && c != "";
      wanted := desired;
      ghost var gone := DropUndesired(desired);
      dropped := dropped + gone;
      forall c ensures View(c) == Swept(old(View(c)), c in desired) {}
      ArmDesired(desired, fs);
    }
  }

  /** Three of the maps together. */
  datatype Tables = Tables(watchers: map<Cwd, Kind>, timers: set<Cwd>, tokens: map<Cwd, nat>) {
    function Without(gone: set<Cwd>): Tables { Tables(watchers - gone, timers - gone, tokens - gone) }
  }

  lemma NoneGone(m: Tables)
    ensures m.Without({}) == m
  {
    assert m.watchers - {} == m.watchers && m.timers - {} == m.timers && m.tokens - {} == m.tokens;
  }

  lemma OneMoreGone(m: Tables, gone: set<Cwd>, c: Cwd)
    ensures m.Without(gone).Without({c}) == m.Without(gone + {c})
  {
    assert m.watchers - gone - {c} == m.watchers - (gone + {c});
    assert m.timers - gone - {c} == m.timers - (gone + {c});
    assert m.tokens - gone - {c} == m.tokens - (gone + {c});
  }

  function LiveOrPending(watchers: map<Cwd, Kind>, pending: set<Cwd>): set<Cwd> { watchers.Keys + pending }

  /** One directory between the two loops of a reconcile. */
  function Swept(x: Cell, wanted: bool): Cell {
    var y := x.(wanted := wanted);
    if !wanted && (x.watch.Some? || x.pending)
    then y.(watch := None, timer := false, token := None, dropped := true) else y
  }

  function IfNew(x: Cell, c: Cwd, fs: Fs): Cell {
    if x.watch.Some? || x.pending then x else Start(x, c in fs.present, c in fs.anchored)
  }
}
