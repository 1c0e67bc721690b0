/**
 Frames of a child that outlives its slot (sandbox/lib/active-sessions.ts, the frame handler).

 `endSession` sends a SIGTERM after its grace period and removes the slot without waiting for the
 child to close. The frame handler does not ask whether its slot is still registered, so a late frame
 with another id puts the removed slot back. This is the registry's machine with such frames as steps
 of their own; `owner` remembers which session an id was given to and is read by no step.
*/
module LateFrames {
  import opened Wrappers
  import R = SessionRegistry

  type Sid = R.Sid

  /** A slot removed while its child lives on, and the ids it had then. */
  datatype Orphan = Orphan(slot: R.Slot, ids: set<Sid>)

  datatype World = World(reg: R.State, orphans: map<Sid, Orphan>, owner: map<Sid, nat>, born: nat)

  /** `Outlived`: the end of a session whose child has not closed; a plain `Ended` leaves no child. */
  datatype Event = Plain(event: R.Event) | Outlived(captured: Sid) | LateFrame(from: Sid, to: Sid)

  function Init(): World { World(R.Init(), map[], map[], 0) }

  /** As in the registry, a new id is new or one the session already had. */
  predicate Orderly(w: World, e: Event) {
    match e
    case Plain(event) => R.Orderly(w.reg, event)
    case Outlived(_) => true
    case LateFrame(from, to) =>
      from in w.orphans && from != to && (to !in w.reg.used || to in w.orphans[from].ids)
  }

  function Named(owner: map<Sid, nat>, from: Sid, to: Sid): map<Sid, nat> {
    if to !in owner && from in owner then owner[to := owner[from]] else owner
  }

  function Step(w: World, e: Event): World
    requires Orderly(w, e)
  {
    match e
    case Plain(Created(id)) => w.(reg := R.Create(w.reg, id), owner := w.owner[id := w.born], born := w.born + 1)
    case Plain(Swapped(from, to)) => w.(reg := R.Swap(w.reg, from, to), owner := Named(w.owner, from, to))
    case Plain(Recovered(from, to)) => w.(reg := R.Recover(w.reg, from, to), owner := Named(w.owner, from, to))
    case Plain(event) => w.(reg := R.Step(w.reg, event))
    case Outlived(c) =>
      w.(reg := R.Remove(w.reg, c),
      orphans := if c in w.reg.slots then w.orphans[c := Orphan(w.reg.slots[c], R.Expand(w.reg.aliases, c))]
                 else w.orphans)
    case LateFrame(from, to) =>
      w.(reg := R.Adopt(w.reg, w.orphans[from].slot, from, to), orphans := w.orphans - {from},
      owner := Named(w.owner, from, to))
  }

  ghost predicate AllOrderly(w: World, es: seq<Event>)
    decreases |es|
  {
    es == [] || (Orderly(w, es[0]) && AllOrderly(Step(w, es[0]), es[1..]))
  }

  function Run(w: World, es: seq<Event>): World
    requires AllOrderly(w, es)
    decreases |es|
  {
    if es == [] then w else Run(Step(w, es[0]), es[1..])
  }

  // ---- What every step keeps -----------------------------------------------------------------

  predicate Lives(w: World, x: Sid) { R.Resolves(w.reg, x) }

  /** Every id that was ever used has an owner; live ids lead to one slot exactly when they share it. */
  ghost predicate OwnersOk(reg: R.State, owner: map<Sid, nat>, born: nat) {
    && owner.Keys == reg.used
    && (forall x :: x in owner ==> owner[x] < born)
    && (forall x, y :: x in owner && y in owner && R.Resolves(reg, x) && R.Resolves(reg, y) ==>
          (R.SameSession(reg, x, y) <==> owner[x] == owner[y]))
  }

  /** No id of owner `k` leads to a slot. */
  ghost predicate Gone(reg: R.State, owner: map<Sid, nat>, k: nat) {
    forall x :: x in owner && owner[x] == k ==> !R.Resolves(reg, x)
  }

  ghost predicate OrphanOk(reg: R.State, owner: map<Sid, nat>, c: Sid, o: Orphan) {
    && c in owner && o.slot.sessionId == c && Gone(reg, owner, owner[c])
    && (forall x :: x in o.ids ==> x in owner && owner[x] == owner[c])
  }

  ghost predicate OrphansOk(reg: R.State, owner: map<Sid, nat>, orphans: map<Sid, Orphan>) {
    && (forall c :: c in orphans ==> OrphanOk(reg, owner, c, orphans[c]))
    && (forall c, d :: c in orphans && d in orphans && owner[c] == owner[d] ==> c == d)
  }

  ghost predicate Inv(w: World) {
    R.Inv(w.reg) && OwnersOk(w.reg, w.owner, w.born) && OrphansOk(w.reg, w.owner, w.orphans)
  }

  /** Owners are for good. */
  ghost predicate OwnersGrow(w: World, t: World) {
    forall x :: x in w.owner ==> x in t.owner && t.owner[x] == w.owner[x]
  }

  /** A step that revives nothing and tells sessions apart as before keeps the invariant. */
  lemma QuietKeepsInv(w: World, t: World)
    requires Inv(w) && R.Inv(t.reg) && R.Follows(w.reg, t.reg)
    requires t.orphans == w.orphans && t.owner == w.owner && t.born == w.born && t.reg.used == w.reg.used
    ensures Inv(t)
  {
    forall c | c in t.orphans ensures OrphanOk(t.reg, t.owner, c, t.orphans[c]) {
      assert OrphanOk(w.reg, w.owner, c, w.orphans[c]);
    }
  }

  lemma CreateKeepsInv(w: World, id: Sid)
    requires Inv(w) && Orderly(w, Plain(R.Created(id)))
    ensures Inv(Step(w, Plain(R.Created(id)))) && id !in w.owner
  {
    var t := Step(w, Plain(R.Created(id)));
    R.StepKeeps(w.reg, R.Created(id));
    assert R.Step(w.reg, R.Created(id)) == t.reg;
    forall x | x in w.owner ensures R.Canonical(t.reg.aliases, x) != id {}
    assert R.Canonical(t.reg.aliases, id) == id;
    forall c | c in t.orphans ensures OrphanOk(t.reg, t.owner, c, t.orphans[c]) {
      assert OrphanOk(w.reg, w.owner, c, w.orphans[c]);
    }
  }

  /** Orphans stay as they are while nothing of theirs comes to life. */
  lemma OrphansStay(w: World, t: World)
    requires Inv(w) && OwnersGrow(w, t) && t.orphans == w.orphans
    requires forall x :: x in t.owner && Lives(t, x) ==>
               exists y :: y in w.owner && Lives(w, y) && w.owner[y] == t.owner[x]
    ensures OrphansOk(t.reg, t.owner, t.orphans)
  {
    forall c | c in t.orphans ensures OrphanOk(t.reg, t.owner, c, t.orphans[c]) {
      assert OrphanOk(w.reg, w.owner, c, w.orphans[c]);
    }
  }

  /** The owners when `to` becomes one more id of the session of `from`, which lives. */
  lemma NameKeepsOwners(a: R.State, b: R.State, owner: map<Sid, nat>, born: nat, from: Sid, to: Sid)
    requires OwnersOk(a, owner, born) && R.Follows(a, b) && from in owner && R.Resolves(a, from)
    requires b.used == a.used + {to} && (to in owner ==> R.SameSession(a, to, from))
    requires forall x :: R.SameSession(b, x, to) <==> R.SameSession(a, x, from) || x == to
    ensures OwnersOk(b, Named(owner, from, to), born)
  {
    var named := Named(owner, from, to);
    forall x, y | x in named && y in named && R.Resolves(b, x) && R.Resolves(b, y)
      ensures R.SameSession(b, x, y) <==> named[x] == named[y]
    {
      if x in owner && y in owner {
        assert R.Resolves(a, x) && R.Resolves(a, y);
        assert R.SameSession(b, x, y) <==> R.SameSession(a, x, y);
      } else if x in owner {
        assert y == to && R.Resolves(a, x);
      } else if y in owner {
        assert x == to && R.Resolves(a, y) && (R.SameSession(b, y, to) <==> R.SameSession(b, to, y));
      }
    }
  }

  lemma NameKeepsInv(w: World, t: World, from: Sid, to: Sid)
    requires Inv(w) && R.Inv(t.reg) && R.Follows(w.reg, t.reg) && from in w.reg.slots
    requires t.reg.used == w.reg.used + {to} && t.owner == Named(w.owner, from, to)
    requires R.Expand(t.reg.aliases, to) == R.Expand(w.reg.aliases, from) + {to}
    requires to !in w.reg.used || to in R.Expand(w.reg.aliases, from)
    requires t.orphans == w.orphans && t.born == w.born
    ensures Inv(t)
  {
    R.ExpandIsTheSession(w.reg, from);
    R.ExpandIsTheSession(t.reg, to);
    SlotIsLive(w, from);
    forall x ensures R.SameSession(t.reg, x, to) <==> R.SameSession(w.reg, x, from) || x == to {
      assert R.SameSession(t.reg, x, to) <==> x in R.Expand(t.reg.aliases, to);
    }
    hide R.Expand;
    NameKeepsOwners(w.reg, t.reg, w.owner, w.born, from, to);
    hide OrphansOk, OwnersOk;
    forall x | x in t.owner && Lives(t, x)
      ensures exists y :: y in w.owner && Lives(w, y) && w.owner[y] == t.owner[x]
    {
      if x in w.owner {
        assert Lives(w, x);
      } else {
        assert t.owner[x] == w.owner[from];
      }
    }
    OrphansStay(w, t);
  }

  lemma SlotIsLive(w: World, c: Sid)
    requires Inv(w) && c in w.reg.slots
    ensures R.Canonical(w.reg.aliases, c) == c && Lives(w, c) && c in w.owner
  {
    hide OrphansOk;
  }

  lemma OutlivedKeepsInv(w: World, c: Sid)
    requires Inv(w)
    ensures Inv(Step(w, Outlived(c)))
  {
    var t := Step(w, Outlived(c));
    R.RemoveKeeps(w.reg, c);
    assert t.reg.used == w.reg.used;
    var u := t.(orphans := w.orphans);
    QuietKeepsInv(w, u);
    if c in w.reg.slots {
      RemovedIsGone(w, c);
      R.ExpandIsTheSession(w.reg, c);
      OrphanedKeepsInv(w, u, c);
    }
  }

  lemma OneOwnerOneSlot(w: World, x: Sid, c: Sid)
    requires Inv(w) && c in w.reg.slots && x in w.owner && c in w.owner && w.owner[x] == w.owner[c] && Lives(w, x)
    ensures R.Canonical(w.reg.aliases, x) == c
  {
    SlotIsLive(w, c);
    hide OrphansOk;
    assert R.SameSession(w.reg, x, c);
  }

  /** The removal of a live session's slot leaves none of its ids leading to one. */
  lemma RemovedIsGone(w: World, c: Sid)
    requires Inv(w) && c in w.reg.slots
    ensures R.Canonical(w.reg.aliases, c) == c && c in w.owner
    ensures Gone(R.Remove(w.reg, c), w.owner, w.owner[c])
    ensures forall d :: d in w.orphans && d in w.owner ==> w.owner[d] != w.owner[c]
  {
    SlotIsLive(w, c);
    R.RemoveKeeps(w.reg, c);
    forall x | x in w.owner && w.owner[x] == w.owner[c] ensures !R.Resolves(R.Remove(w.reg, c), x) {
      if R.Resolves(w.reg, x) { OneOwnerOneSlot(w, x, c); }
    }
    forall d | d in w.orphans && d in w.owner ensures w.owner[d] != w.owner[c] { OrphansAreGone(w, d, c); }
    hide *;
  }

  lemma OrphansAreGone(w: World, d: Sid, x: Sid)
    requires Inv(w) && d in w.orphans && x in w.owner && Lives(w, x)
    ensures d in w.owner && w.owner[d] != w.owner[x]
  {
    assert OrphanOk(w.reg, w.owner, d, w.orphans[d]);
  }

  lemma OrphanedKeepsInv(w: World, u: World, c: Sid)
    requires Inv(w) && Inv(u) && c in w.reg.slots && u == w.(reg := R.Remove(w.reg, c))
    requires c in w.owner && Gone(u.reg, w.owner, w.owner[c])
    requires forall d :: d in w.orphans && d in w.owner ==> w.owner[d] != w.owner[c]
    requires forall x :: x in R.Expand(w.reg.aliases, c) <==> R.SameSession(w.reg, x, c)
    requires R.Canonical(w.reg.aliases, c) == c
    ensures Inv(u.(orphans := u.orphans[c := Orphan(w.reg.slots[c], R.Expand(w.reg.aliases, c))]))
  {
    var o := Orphan(w.reg.slots[c], R.Expand(w.reg.aliases, c));
    forall x | x in o.ids ensures x in w.owner && w.owner[x] == w.owner[c] {
      assert R.SameSession(w.reg, x, c) && R.Resolves(w.reg, x) && R.Resolves(w.reg, c);
      assert x in w.reg.aliases || x == c;
    }
    assert OrphanOk(u.reg, u.owner, c, o);
  }

  /** Neither id of a late frame leads anywhere, and no alias leads to either. */
  lemma LateIdsAreGone(w: World, from: Sid, to: Sid)
    requires Inv(w) && Orderly(w, LateFrame(from, to))
    ensures !Lives(w, from) && !Lives(w, to) && from in w.owner
    ensures to in w.owner ==> w.owner[to] == w.owner[from]
  {
    assert OrphanOk(w.reg, w.owner, from, w.orphans[from]);
    hide R.Inv;
  }

  lemma GoneIsUnmapped(s: R.State, x: Sid)
    requires R.Inv(s) && !R.Resolves(s, x)
    ensures x !in s.slots && x !in s.aliases && R.Canonical(s.aliases, x) == x
    ensures forall a :: a in s.aliases ==> s.aliases[a] != x
  {
  }

  /** Adopting an id under which nothing is registered, for one that leads nowhere. */
  lemma AdoptedMaps(s: R.State, slot: R.Slot, from: Sid, to: Sid)
    requires R.Inv(s) && from != to && !R.Resolves(s, from) && !R.Resolves(s, to)
    ensures var t := R.Adopt(s, slot, from, to);
            && t.slots == s.slots[to := slot.(sessionId := to)] && t.aliases == s.aliases[from := to]
            && t.used == s.used + {to}
  {
    GoneIsUnmapped(s, from);
    var t := R.Adopt(s, slot, from, to);
    assert s.slots - {from} == s.slots;
    assert t.aliases == s.aliases[from := to];
  }

  lemma AdoptedLeads(s: R.State, t: R.State, from: Sid, to: Sid)
    requires R.Inv(s) && from != to && !R.Resolves(s, from) && !R.Resolves(s, to) && from in s.used
    requires to in t.slots && t.slots == s.slots[to := t.slots[to]] && t.slots[to].sessionId == to
    requires t.aliases == s.aliases[from := to] && t.used == s.used + {to}
    ensures R.Inv(t)
    ensures forall x :: R.Canonical(t.aliases, x) == if x == from || x == to then to else R.Canonical(s.aliases, x)
    ensures forall x :: R.Resolves(t, x) <==> R.Resolves(s, x) || x == from || x == to
  {
    GoneIsUnmapped(s, from);
    GoneIsUnmapped(s, to);
  }

  /** What a late frame does to the maps: `from` and `to` lead to the slot that is back, nothing else changes. */
  lemma LateFrameMaps(w: World, from: Sid, to: Sid)
    requires Inv(w) && Orderly(w, LateFrame(from, to))
    ensures !Lives(w, from) && !Lives(w, to) && from in w.owner
    ensures var t := Step(w, LateFrame(from, to));
            && R.Inv(t.reg)
            && t.reg.slots == w.reg.slots[to := w.orphans[from].slot.(sessionId := to)]
            && (forall x :: R.Canonical(t.reg.aliases, x) ==
                  if x == from || x == to then to else R.Canonical(w.reg.aliases, x))
            && (forall x :: Lives(t, x) <==> Lives(w, x) || x == from || x == to)
            && (to in w.owner ==> w.owner[to] == w.owner[from])
  {
    LateIdsAreGone(w, from, to);
    assert w.owner.Keys == w.reg.used;
    var t := Step(w, LateFrame(from, to));
    assert t.reg == R.Adopt(w.reg, w.orphans[from].slot, from, to);
    hide Step, OwnersOk, OrphansOk, R.Inv, R.Adopt;
    AdoptedMaps(w.reg, w.orphans[from].slot, from, to);
    AdoptedLeads(w.reg, t.reg, from, to);
  }

  /** The owners when a gone session comes back under `to`. */
  lemma LateKeepsOwners(a: R.State, b: R.State, owner: map<Sid, nat>, born: nat, from: Sid, to: Sid)
    requires OwnersOk(a, owner, born) && from in owner && Gone(a, owner, owner[from])
    requires b.used == a.used + {to} && to !in a.slots && (to in owner ==> owner[to] == owner[from])
    requires forall x :: R.Canonical(b.aliases, x) == if x == from || x == to then to else R.Canonical(a.aliases, x)
    requires forall x :: R.Resolves(b, x) <==> R.Resolves(a, x) || x == from || x == to
    ensures OwnersOk(b, Named(owner, from, to), born)
    ensures forall x :: x in owner && R.Resolves(b, x) ==> R.Resolves(a, x) || owner[x] == owner[from]
  {
    var named := Named(owner, from, to);
    forall x, y | x in named && y in named && R.Resolves(b, x) && R.Resolves(b, y)
      ensures R.SameSession(b, x, y) <==> named[x] == named[y]
    {
      var backX, backY := x == from || x == to, y == from || y == to;
      if !backX { assert R.Resolves(a, x) && named[x] == owner[x] != owner[from]; }
      if !backY { assert R.Resolves(a, y) && named[y] == owner[y] != owner[from]; }
    }
  }

  lemma LateFrameKeepsInv(w: World, from: Sid, to: Sid)
    requires Inv(w) && Orderly(w, LateFrame(from, to))
    ensures Inv(Step(w, LateFrame(from, to)))
  {
    var t := Step(w, LateFrame(from, to));
    assert t.owner == Named(w.owner, from, to) && t.reg.used == w.reg.used + {to};
    assert t.orphans == w.orphans - {from} && t.born == w.born;
    LateFrameMaps(w, from, to);
    OrphanIsGone(w, from);
    assert to !in w.reg.slots;
    hide Step, Orderly;
    LateKeepsOwners(w.reg, t.reg, w.owner, w.born, from, to);
    LateKeepsOrphans(w, t, from, to);
  }

  lemma OrphanIsGone(w: World, c: Sid)
    requires Inv(w) && c in w.orphans
    ensures c in w.owner && Gone(w.reg, w.owner, w.owner[c])
  {
    assert OrphanOk(w.reg, w.owner, c, w.orphans[c]);
  }

  lemma LateKeepsOrphans(w: World, t: World, from: Sid, to: Sid)
    requires Inv(w) && from in w.orphans && t.orphans == w.orphans - {from}
    requires from in w.owner && t.owner == Named(w.owner, from, to) && (to in w.owner ==> w.owner[to] == w.owner[from])
    requires forall x :: Lives(t, x) <==> Lives(w, x) || x == from || x == to
    ensures OrphansOk(t.reg, t.owner, t.orphans)
  {
    hide R.Inv, OwnersOk, R.Resolves;
    forall c | c in t.orphans ensures OrphanOk(t.reg, t.owner, c, t.orphans[c]) {
      assert OrphanOk(w.reg, w.owner, c, w.orphans[c]) && w.owner[c] != w.owner[from];
      assert t.owner[c] == w.owner[c];
      forall x | x in t.owner && t.owner[x] == t.owner[c] ensures !R.Resolves(t.reg, x) {
        assert x != from && x != to && x in w.owner && !Lives(w, x);
        assert !Lives(t, x);
      }
    }
  }

  lemma StepKeepsInv(w: World, e: Event)
    requires Inv(w) && Orderly(w, e)
    ensures Inv(Step(w, e)) && OwnersGrow(w, Step(w, e))
  {
    hide Inv, R.Follows, R.Orderly, R.Swap, R.Recover, R.Wake, R.Remove;
    match e {
      case Plain(Created(id)) => CreateKeepsInv(w, id);
      case Plain(Swapped(from, to)) => SwapKeepsInv(w, from, to);
      case Plain(Recovered(from, to)) => RecoverKeepsInv(w, from, to);
      case Plain(Woken(id, r)) => OldIdsKeepInv(w, e.event);
      case Plain(Destroying(id)) => OldIdsKeepInv(w, e.event);
      case Plain(Ended(c)) => OldIdsKeepInv(w, e.event);
      case Outlived(c) => OutlivedKeepsInv(w, c);
      case LateFrame(from, to) => LateFrameKeepsInv(w, from, to);
    }
  }

  lemma OldIdsKeepInv(w: World, event: R.Event)
    requires Inv(w) && R.Orderly(w.reg, event) && (event.Woken? || event.Destroying? || event.Ended?)
    ensures Inv(w.(reg := R.Step(w.reg, event)))
  {
    R.StepKeeps(w.reg, event);
    assert R.Step(w.reg, event).used == w.reg.used;
    QuietKeepsInv(w, w.(reg := R.Step(w.reg, event)));
  }

  lemma SwapKeepsInv(w: World, from: Sid, to: Sid)
    requires Inv(w) && Orderly(w, Plain(R.Swapped(from, to)))
    ensures Inv(Step(w, Plain(R.Swapped(from, to))))
  {
    R.SwapRenames(w.reg, from, to);
    assert to in R.Swap(w.reg, from, to).slots && R.Swap(w.reg, from, to).used == w.reg.used + {to};
    NameKeepsInv(w, Step(w, Plain(R.Swapped(from, to))), from, to);
  }

  lemma RecoverKeepsInv(w: World, from: Sid, to: Sid)
    requires Inv(w) && Orderly(w, Plain(R.Recovered(from, to)))
    ensures Inv(Step(w, Plain(R.Recovered(from, to))))
  {
    R.RecoverRenames(w.reg, from, to);
    assert to in R.Recover(w.reg, from, to).slots && R.Recover(w.reg, from, to).used == w.reg.used + {to};
    NameKeepsInv(w, Step(w, Plain(R.Recovered(from, to))), from, to);
  }

  lemma {:induction false} RunKeepsInv(w: World, es: seq<Event>)
    requires Inv(w) && AllOrderly(w, es)
    ensures Inv(Run(w, es)) && OwnersGrow(w, Run(w, es))
    decreases |es|
  {
    hide Inv, Step, Orderly;
    if es != [] {
      StepKeepsInv(w, es[0]);
      RunKeepsInv(Step(w, es[0]), es[1..]);
    }
  }

  // ---- The theorems --------------------------------------------------------------------------

  /**
   Late frames and all, in every run: the registry keeps its shape; two ids that lead to different
   sessions at some time never come together afterwards; and two ids of one session that both lead to
   a slot later lead to the same one.
   */
  lemma SessionsNeverMerge(es: seq<Event>, more: seq<Event>, x: Sid, y: Sid)
    requires AllOrderly(Init(), es) && AllOrderly(Run(Init(), es), more)
    requires Lives(Run(Init(), es), x) && Lives(Run(Init(), es), y)
    ensures var w := Run(Init(), es);
            var t := Run(w, more);
            && R.Inv(t.reg)
            && (R.SameSession(t.reg, x, y) ==> R.SameSession(w.reg, x, y))
            && (R.SameSession(w.reg, x, y) && Lives(t, x) && Lives(t, y) ==> R.SameSession(t.reg, x, y))
  {
    InitInv();
    RunKeepsInv(Init(), es);
    var w := Run(Init(), es);
    RunKeepsInv(w, more);
    var t := Run(w, more);
    LiveIsUsed(w, x);
    LiveIsUsed(w, y);
    if R.SameSession(t.reg, x, y) { TogetherMeansOneOwner(t, x, y); }
  }

  lemma InitInv()
    ensures Inv(Init())
  {
  }

  lemma LiveIsUsed(w: World, x: Sid)
    requires Inv(w) && Lives(w, x)
    ensures x in w.owner
  {
  }

  lemma TogetherMeansOneOwner(t: World, x: Sid, y: Sid)
    requires Inv(t) && x in t.owner && y in t.owner && R.SameSession(t.reg, x, y)
    ensures t.owner[x] == t.owner[y]
  {
    if x != y {
      assert x in t.reg.aliases || y in t.reg.aliases;
      assert Lives(t, x) && Lives(t, y);
    }
  }

  predicate Names(e: Event, x: Sid) { e.LateFrame? && (e.from == x || e.to == x) }

  /** One step brings an id back exactly when it is a late frame from it or to it. */
  lemma OneStepBack(w: World, e: Event, x: Sid)
    requires Inv(w) && Orderly(w, e) && x in w.owner && !Lives(w, x)
    ensures Lives(Step(w, e), x) <==> Names(e, x)
  {
    match e {
      case LateFrame(from, to) => LateFrameMaps(w, from, to);
      case Outlived(c) => R.RemoveKeeps(w.reg, c);
      case Plain(event) =>
        R.StepKeeps(w.reg, event);
        assert R.Step(w.reg, event) == Step(w, e).reg;
        hide Step;
    }
  }

  lemma {:induction false} StaysGone(w: World, es: seq<Event>, x: Sid, n: nat)
    requires Inv(w) && AllOrderly(w, es) && x in w.owner && !Lives(w, x) && n <= |es|
    requires forall i :: 0 <= i < n ==> !Names(es[i], x)
    ensures AllOrderly(w, es[..n]) && !Lives(Run(w, es[..n]), x)
    decreases |es|
  {
    hide Step, Orderly, Inv, Lives;
    if n > 0 {
      assert !Names(es[0], x);
      StepKeepsInv(w, es[0]);
      OneStepBack(w, es[0], x);
      assert es[..n][1..] == es[1..][..n - 1];
      StaysGone(Step(w, es[0]), es[1..], x, n - 1);
    }
  }

  lemma {:induction false} OrderlyPrefix(w: World, es: seq<Event>, n: nat)
    requires AllOrderly(w, es) && n <= |es|
    ensures AllOrderly(w, es[..n])
    ensures n < |es| ==> Orderly(Run(w, es[..n]), es[n]) && AllOrderly(w, es[..n + 1])
                         && Run(w, es[..n + 1]) == Step(Run(w, es[..n]), es[n])
    decreases |es|
  {
    hide Step, Orderly;
    if n > 0 {
      assert es[..n][1..] == es[1..][..n - 1];
      OrderlyPrefix(Step(w, es[0]), es[1..], n - 1);
    }
    if n < |es| {
      assert es[..n + 1][1..] == es[1..][..n];
      if n == 0 { assert es[..1][1..] == []; }
    }
  }

  /** The id leads to a slot after the first `n` events. */
  ghost predicate LivesAfter(w: World, es: seq<Event>, x: Sid, n: nat)
    requires AllOrderly(w, es) && n <= |es|
  {
    OrderlyPrefix(w, es, n);
    Lives(Run(w, es[..n]), x)
  }

  lemma BackExactlyFrom(w: World, more: seq<Event>, x: Sid)
    requires Inv(w) && AllOrderly(w, more) && x in w.owner && !Lives(w, x)
    ensures (exists n: nat :: n <= |more| && LivesAfter(w, more, x, n))
            <==> (exists i :: 0 <= i < |more| && Names(more[i], x))
  {
    if i :| 0 <= i < |more| && Names(more[i], x) {
      OrderlyPrefix(w, more, i);
      RunKeepsInv(w, more[..i]);
      LateFrameMaps(Run(w, more[..i]), more[i].from, more[i].to);
      assert LivesAfter(w, more, x, i + 1);
    } else {
      forall n: nat | n <= |more| ensures !LivesAfter(w, more, x, n) { StaysGone(w, more, x, n); }
    }
  }

  /**
   Gone stays gone, but for late frames, exactly: an id that leads to no slot leads to one again at
   some time of a later run if and only if a late frame comes from it or to it.
   */
  lemma BackExactlyByLateFrame(es: seq<Event>, more: seq<Event>, x: Sid)
    requires AllOrderly(Init(), es) && AllOrderly(Run(Init(), es), more)
    requires x in Run(Init(), es).reg.used && !Lives(Run(Init(), es), x)
    ensures (exists n: nat :: n <= |more| && LivesAfter(Run(Init(), es), more, x, n))
            <==> (exists i :: 0 <= i < |more| && Names(more[i], x))
  {
    InitInv();
    RunKeepsInv(Init(), es);
    BackExactlyFrom(Run(Init(), es), more, x);
  }

  /**
   A session whose slot is removed while its child lives on, by a destroy or otherwise: at once none of
   its ids leads to a slot, and one of them does again later if and only if a late frame names it.
   */
  lemma RemovedComesBackExactly(es: seq<Event>, c: Sid, more: seq<Event>, x: Sid)
    requires AllOrderly(Init(), es) && c in Run(Init(), es).reg.slots
    requires R.SameSession(Run(Init(), es).reg, x, c)
    requires AllOrderly(Step(Run(Init(), es), Outlived(c)), more)
    ensures var t := Step(Run(Init(), es), Outlived(c));
            && !Lives(t, x)
            && ((exists n: nat :: n <= |more| && LivesAfter(t, more, x, n))
                <==> (exists i :: 0 <= i < |more| && Names(more[i], x)))
  {
    InitInv();
    RunKeepsInv(Init(), es);
    var w := Run(Init(), es);
    var t := Step(w, Outlived(c));
    StepKeepsInv(w, Outlived(c));
    RemovedIsGone(w, c);
    SlotIsLive(w, c);
    LiveIsUsed(w, x);
    assert w.owner[x] == w.owner[c];
    assert !Lives(t, x);
    BackExactlyFrom(t, more, x);
  }

  /**
   What a late frame brings back: exactly the id its handler knew and the new one, leading to the
   removed slot with the mark it had. If it was being destroyed it stays so for good: no wake and no
   destroy touches it.
   */
  lemma LateFrameRevives(es: seq<Event>, from: Sid, to: Sid, x: Sid, r: R.Revival)
    requires AllOrderly(Init(), es) && Orderly(Run(Init(), es), LateFrame(from, to))
    ensures var w := Run(Init(), es);
            var t := Step(w, LateFrame(from, to));
            && (Lives(t, x) <==> Lives(w, x) || x == from || x == to)
            && R.Canonical(t.reg.aliases, from) == to && to in t.reg.slots
            && t.reg.slots[to] == w.orphans[from].slot.(sessionId := to)
            && (w.orphans[from].slot.destroying ==>
                  R.DestroyStart(t.reg, from) == (None, t.reg) && R.Wake(t.reg, from, r) == t.reg)
  {
    InitInv();
    RunKeepsInv(Init(), es);
    LateFrameMaps(Run(Init(), es), from, to);
  }

  lemma RunCons(w: World, e: Event, es: seq<Event>)
    requires Orderly(w, e) && AllOrderly(Step(w, e), es)
    ensures AllOrderly(w, [e] + es) && Run(w, [e] + es) == Run(Step(w, e), es)
  {
    hide Step, Orderly;
    assert ([e] + es)[1..] == es;
  }

  /**
   A concrete run: a session is created, marked by a destroy, removed while its child lives on, and put
   back by a frame with another id. Its first id leads to a slot again, marked as being destroyed.
   */
  lemma DestroyedSlotComesBack(a: Sid, b: Sid) returns (es: seq<Event>)
    requires a != b
    ensures es == [Plain(R.Created(a))] + ([Plain(R.Destroying(a))] + ([Outlived(a)] + [LateFrame(a, b)]))
    ensures AllOrderly(Init(), es)
    ensures var t := Run(Init(), es).reg;
            && R.Resolves(t, a) && R.Canonical(t.aliases, a) == b && b in t.slots && t.slots[b].destroying
  {
    var e1, e2, e3, e4 := Plain(R.Created(a)), Plain(R.Destroying(a)), Outlived(a), LateFrame(a, b);
    es := [e1] + ([e2] + ([e3] + [e4]));
    var w1 := Step(Init(), e1);
    var w2 := Step(w1, e2);
    assert w2.reg.slots == map[a := R.Slot(a, true)] && w2.reg.aliases == map[] && w2.reg.used == {a};
    var w3 := Step(w2, e3);
    assert w3.reg.slots == map[] && w3.reg.aliases == map[] && w3.reg.used == {a};
    assert w3.orphans == map[a := w3.orphans[a]] && w3.orphans[a].slot == R.Slot(a, true);
    var w4 := Step(w3, e4);
    assert w4.reg.slots == map[b := R.Slot(b, true)] && w4.reg.aliases == map[a := b];
    assert Orderly(Init(), e1) && Orderly(w1, e2) && Orderly(w2, e3) && Orderly(w3, e4);
    hide Step, Orderly;
    assert [e4] + [] == [e4];
    RunCons(w3, e4, []);
    RunCons(w2, e3, [e4]);
    RunCons(w1, e2, [e3] + [e4]);
    RunCons(Init(), e1, [e2] + ([e3] + [e4]));
  }

  /** All of owner `k` is gone, and no child of it is left. */
  ghost predicate Finished(w: World, k: nat) {
    Gone(w.reg, w.owner, k) && k < w.born && forall c :: c in w.orphans && c in w.owner ==> w.owner[c] != k
  }

  lemma GoneStaysGone(w: World, event: R.Event, k: nat)
    requires Inv(w) && Orderly(w, Plain(event)) && Gone(w.reg, w.owner, k) && k < w.born
    ensures Gone(Step(w, Plain(event)).reg, Step(w, Plain(event)).owner, k)
  {
    var t := Step(w, Plain(event));
    R.StepKeeps(w.reg, event);
    assert t.reg == R.Step(w.reg, event);
    if event.Swapped? || event.Recovered? { SlotIsLive(w, event.from); }
    assert forall x :: x in w.owner ==> t.owner[x] == w.owner[x];
    assert forall x :: x in t.owner && x !in w.owner ==> t.owner[x] != k;
    hide Step, R.Step, R.Swap, R.Recover, R.Wake, OrphansOk;
  }

  lemma PlainStaysFinished(w: World, event: R.Event, k: nat)
    requires Inv(w) && Orderly(w, Plain(event)) && Finished(w, k)
    ensures Finished(Step(w, Plain(event)), k)
  {
    hide Gone, R.Step, R.Swap, R.Recover, R.Create;
    GoneStaysGone(w, event, k);
    StepKeepsInv(w, Plain(event));
    var t := Step(w, Plain(event));
    assert t.orphans == w.orphans && t.born >= w.born;
    forall c | c in t.orphans && c in t.owner ensures t.owner[c] != k {
      assert OrphanOk(w.reg, w.owner, c, w.orphans[c]);
    }
  }

  lemma StaysFinished(w: World, e: Event, k: nat)
    requires Inv(w) && Orderly(w, e) && Finished(w, k)
    ensures Finished(Step(w, e), k)
  {
    match e {
      case Plain(event) => PlainStaysFinished(w, event, k);
      case Outlived(c) =>
        R.RemoveKeeps(w.reg, c);
        if c in w.reg.slots { RemovedIsGone(w, c); }
      case LateFrame(from, to) =>
        LateFrameMaps(w, from, to);
        forall c | c in w.orphans ensures c in w.owner { assert OrphanOk(w.reg, w.owner, c, w.orphans[c]); }
    }
  }

  lemma {:induction false} RunStaysFinished(w: World, es: seq<Event>, k: nat)
    requires Inv(w) && AllOrderly(w, es) && Finished(w, k)
    ensures Finished(Run(w, es), k)
    decreases |es|
  {
    hide Step, Orderly, Inv, Finished;
    if es != [] {
      StepKeepsInv(w, es[0]);
      StaysFinished(w, es[0], k);
      RunStaysFinished(Step(w, es[0]), es[1..], k);
    }
  }

  /**
   A session whose child had closed before its slot was removed never comes back, whatever late frames
   of other children come: no id it had leads to a slot in any later run.
   */
  lemma EndedWithItsChildNeverComesBack(es: seq<Event>, c: Sid, more: seq<Event>, x: Sid)
    requires AllOrderly(Init(), es) && c in Run(Init(), es).reg.slots
    requires R.SameSession(Run(Init(), es).reg, x, c)
    requires AllOrderly(Step(Run(Init(), es), Plain(R.Ended(c))), more)
    ensures !Lives(Run(Step(Run(Init(), es), Plain(R.Ended(c))), more), x)
  {
    InitInv();
    RunKeepsInv(Init(), es);
    var w := Run(Init(), es);
    var t := Step(w, Plain(R.Ended(c)));
    StepKeepsInv(w, Plain(R.Ended(c)));
    RemovedIsGone(w, c);
    assert Lives(w, c) && Lives(w, x);
    LiveIsUsed(w, x);
    assert w.owner[x] == w.owner[c];
    assert Finished(t, w.owner[c]);
    RunKeepsInv(t, more);
    RunStaysFinished(t, more, w.owner[c]);
  }
}
