/**
 The session registry (sandbox/lib/active-sessions.ts): a map of live slots and a one-hop map from
 every id a session was known by to the id it has now.

 Waking, an id swap inside a running child, recovery from a failed resume and teardown all rewrite
 both maps. `used` remembers every id there ever was; no step reads it, and a brand-new id is one
 that is not in it.
*/
module SessionRegistry {
  import opened Wrappers

  type Sid = string
  type Aliases = map<Sid, Sid>

  datatype Slot = Slot(sessionId: Sid, destroying: bool)
  datatype State = State(slots: map<Sid, Slot>, aliases: Aliases, used: set<Sid>)

  // ---- Lookups -------------------------------------------------------------------------------

  function Canonical(aliases: Aliases, id: Sid): Sid { if id in aliases then aliases[id] else id }

  predicate Resolves(s: State, id: Sid) { Canonical(s.aliases, id) in s.slots }

  function AliasesFor(aliases: Aliases, canonical: Sid): set<Sid> {
    set a | a in aliases && aliases[a] == canonical
  }

  function Expand(aliases: Aliases, id: Sid): set<Sid> {
    {Canonical(aliases, id)} + AliasesFor(aliases, Canonical(aliases, id))
  }

  predicate SameSession(s: State, x: Sid, y: Sid) { Canonical(s.aliases, x) == Canonical(s.aliases, y) }

  // ---- Steps ---------------------------------------------------------------------------------

  function Repoint(aliases: Aliases, from: Sid, to: Sid): Aliases {
    map a | a in aliases :: if aliases[a] == from then to else aliases[a]
  }

  function DropTarget(aliases: Aliases, target: Sid): Aliases {
    map a | a in aliases && aliases[a] != target :: aliases[a]
  }

  /** A session created under a fresh id, running or still provisioning. */
  function Create(s: State, id: Sid): State {
    s.(slots := s.slots[id := Slot(id, false)], used := s.used + {id})
  }

  function Rekey(s: State, from: Sid, to: Sid): State {
    s.(slots := s.slots - {from}, aliases := Repoint(s.aliases - {to}, from, to)[from := to])
  }

  /** The registration at the end of a spawn; in between, nothing else runs. */
  function Register(s: State, id: Sid): State { s.(slots := s.slots[id := Slot(id, false)]) }

  /** What waking needs to know: is the directory still allowed, which id has a transcript, does the spawn work. */
  datatype Revival = Revival(cwdAllowed: bool, resume: Option<Sid>, spawns: bool)

  function Remove(s: State, id: Sid): State {
    s.(slots := s.slots - {id}, aliases := DropTarget(s.aliases, id))
  }

  /** `wakeSession` of a session that is not running. */
  function Wake(s: State, id: Sid, r: Revival): State {
    var c := Canonical(s.aliases, id);
    if c !in s.slots || s.slots[c].destroying then s
    else if !r.cwdAllowed then Remove(s, c)
    else
      var target := r.resume.GetOr(c);
      var t := if target != c then Rekey(s, c, target) else s;
      if r.spawns then Register(t, target) else t
  }

  /**
   A frame of a child carries another id than `from`, the one its handler knows: the handler puts the
   slot it holds under the new id, whether or not it is still registered.
   */
  function Adopt(s: State, slot: Slot, from: Sid, to: Sid): State {
    State((s.slots - {from})[to := slot.(sessionId := to)],
          Repoint(s.aliases[from := to], from, to), s.used + {to})
  }

  /** Such a frame while the slot is registered. */
  function Swap(s: State, from: Sid, to: Sid): State
    requires from in s.slots
  {
    Adopt(s, s.slots[from], from, to)
  }

  function Recover(s: State, from: Sid, to: Sid): State {
    State((s.slots - {from})[to := Slot(to, false)],
          Repoint(s.aliases[from := to], from, to), s.used + {to})
  }

  datatype Event =
    | Created(id: Sid)
    | Woken(id: Sid, revival: Revival)
    | Swapped(from: Sid, to: Sid)
    | Recovered(from: Sid, to: Sid)
    | Destroying(id: Sid)
    | Ended(captured: Sid)

  /** `destroySession` marks the slot, when there is one. */
  function Mark(s: State, id: Sid): State {
    var c := Canonical(s.aliases, id);
    if c in s.slots then s.(slots := s.slots[c := s.slots[c].(destroying := true)]) else s
  }

  /** `endSession` after its wait removes the id it captured before. */
  function Step(s: State, e: Event): State
    requires e.Swapped? ==> e.from in s.slots
  {
    match e
    case Created(id) => Create(s, id)
    case Woken(id, r) => Wake(s, id, r)
    case Swapped(from, to) => Swap(s, from, to)
    case Recovered(from, to) => Recover(s, from, to)
    case Destroying(id) => Mark(s, id)
    case Ended(captured) => Remove(s, captured)
  }

  /**
   What the world guarantees. A new id is new, or, for a swap, one the session already had; the
   transcript to resume is found among the session's own ids; and a spawn does not throw.
   */
  predicate Orderly(s: State, e: Event) {
    match e
    case Created(id) => id !in s.used
    case Woken(id, r) =>
      r.spawns && (r.resume.Some? ==> r.resume.value in Expand(s.aliases, id))
    case Swapped(from, to) => from in s.slots && from != to && (to !in s.used || to in Expand(s.aliases, from))
    case Recovered(from, to) => from in s.slots && to !in s.used
    case Destroying(_) => true
    case Ended(_) => true
  }

  ghost predicate AllOrderly(s: State, es: seq<Event>)
    decreases |es|
  {
    es == [] || (Orderly(s, es[0]) && AllOrderly(Step(s, es[0]), es[1..]))
  }

  function Run(s: State, es: seq<Event>): State
    requires AllOrderly(s, es)
    decreases |es|
  {
    if es == [] then s else Run(Step(s, es[0]), es[1..])
  }

  function Init(): State { State(map[], map[], {}) }

  // ---- What every step keeps -----------------------------------------------------------------

  ghost predicate Inv(s: State) {
    && (forall k :: k in s.slots ==> s.slots[k].sessionId == k && k in s.used)
    && (forall a :: a in s.aliases ==> s.aliases[a] in s.slots && a in s.used)
    && (forall k :: k in s.slots && k in s.aliases ==> s.aliases[k] == k)
  }

  /**
   How sessions follow each other from `s` to a later state: no two ids of different sessions come
   together, ids of one session stay together unless the session is gone, and gone stays gone.
   */
  ghost predicate Follows(s: State, t: State) {
    && s.used <= t.used
    && (forall x, y :: x in s.used && y in s.used && SameSession(t, x, y) ==> SameSession(s, x, y))
    && (forall x, y :: x in s.used && y in s.used && SameSession(s, x, y) && Resolves(t, x) ==> SameSession(t, x, y))
    && (forall x :: x in s.used && Resolves(t, x) ==> Resolves(s, x))
  }

  /** The shape of all renaming steps: the session of `from` is known as `to` from now on. */
  ghost predicate Renamed(s: State, t: State, from: Sid, to: Sid) {
    && from in s.slots && (to !in s.used || Canonical(s.aliases, to) == from)
    && t.slots.Keys == s.slots.Keys - {from} + {to} && t.used == s.used + {to}
    && (forall k :: k in t.slots ==> t.slots[k].sessionId == k)
    && (forall x :: x in t.aliases ==> x in s.aliases || x == from)
    && (forall x :: Canonical(t.aliases, x) ==
          if Canonical(s.aliases, x) == from || x == to then to else Canonical(s.aliases, x))
  }

  lemma RenamedKeepsInv(s: State, t: State, from: Sid, to: Sid)
    requires Inv(s) && Renamed(s, t, from, to)
    ensures Inv(t)
  {
    forall a | a in t.aliases ensures t.aliases[a] in t.slots && a in t.used {
      assert Canonical(t.aliases, a) == t.aliases[a];
    }
    forall k | k in t.slots && k in t.aliases ensures t.aliases[k] == k {
      assert Canonical(t.aliases, k) == t.aliases[k];
    }
  }

  lemma RenamedFollows(s: State, t: State, from: Sid, to: Sid)
    requires Inv(s) && Renamed(s, t, from, to)
    ensures Follows(s, t)
  {
    forall x | x in s.used && Canonical(t.aliases, x) == to ensures Canonical(s.aliases, x) == from {
      assert x == to || Canonical(s.aliases, x) == from || Canonical(s.aliases, x) == to;
      if Canonical(s.aliases, x) == to { assert to in s.used; assert Canonical(s.aliases, to) == to; }
    }
  }

  lemma Renames(s: State, t: State, from: Sid, to: Sid)
    requires Inv(s) && Renamed(s, t, from, to)
    ensures Inv(t) && Follows(s, t)
    ensures Expand(t.aliases, to) == Expand(s.aliases, from) + {to}
  {
    hide Follows;
    RenamedKeepsInv(s, t, from, to);
    RenamedFollows(s, t, from, to);
    ExpandIsTheSession(s, from);
    ExpandIsTheSession(t, to);
    forall x ensures x in Expand(t.aliases, to) <==> x in Expand(s.aliases, from) + {to} {
      if x != to && Canonical(s.aliases, x) == to {
        assert to in s.slots;
      }
    }
  }

  /** Every id resolves in one hop: a slot's id to itself, an alias to a live slot. */
  lemma ExpandIsTheSession(s: State, id: Sid)
    requires Inv(s)
    ensures forall x :: x in Expand(s.aliases, id) <==> SameSession(s, x, id)
  {
  }

  lemma RekeyRenames(s: State, from: Sid, to: Sid)
    requires Inv(s) && from in s.slots && to != from && Canonical(s.aliases, to) == from
    ensures var t := Register(Rekey(s, from, to), to);
            Inv(t) && Follows(s, t) && Expand(t.aliases, to) == Expand(s.aliases, from)
  {
    var t := Register(Rekey(s, from, to), to);
    assert to in s.aliases && t.used == s.used + {to};
    Renames(s, t, from, to);
    ExpandIsTheSession(s, from);
  }

  lemma SwapRenames(s: State, from: Sid, to: Sid)
    requires Inv(s) && Orderly(s, Swapped(from, to))
    ensures var t := Swap(s, from, to);
            Inv(t) && Follows(s, t) && Expand(t.aliases, to) == Expand(s.aliases, from) + {to}
  {
    ExpandIsTheSession(s, from);
    Renames(s, Swap(s, from, to), from, to);
  }

  lemma RecoverRenames(s: State, from: Sid, to: Sid)
    requires Inv(s) && Orderly(s, Recovered(from, to))
    ensures var t := Recover(s, from, to);
            Inv(t) && Follows(s, t) && Expand(t.aliases, to) == Expand(s.aliases, from) + {to}
  {
    var t := Recover(s, from, to);
    assert Renamed(s, t, from, to) by {
      forall x ensures Canonical(t.aliases, x) ==
        if Canonical(s.aliases, x) == from || x == to then to else Canonical(s.aliases, x) {}
    }
    hide *;
    Renames(s, t, from, to);
  }

  /** `t` is `s` with only some of its sessions. */
  ghost predicate Restricted(s: State, t: State) {
    && t.used == s.used
    && (forall k :: k in t.slots ==> k in s.slots && t.slots[k].sessionId == k)
    && (forall a :: a in t.aliases <==> a in s.aliases && s.aliases[a] in t.slots)
    && (forall a :: a in t.aliases ==> t.aliases[a] == s.aliases[a])
  }

  lemma RestrictedFollows(s: State, t: State)
    requires Inv(s) && Restricted(s, t)
    ensures Inv(t) && Follows(s, t)
    ensures forall x :: Resolves(t, x) <==> Resolves(s, x) && Canonical(s.aliases, x) in t.slots
  {
    forall x ensures Canonical(t.aliases, x) ==
      if x in s.aliases && x !in t.aliases then x else Canonical(s.aliases, x) {}
  }

  lemma RemoveKeeps(s: State, id: Sid)
    requires Inv(s)
    ensures Inv(Remove(s, id)) && Follows(s, Remove(s, id))
    ensures id in s.slots ==>
              forall x :: Resolves(Remove(s, id), x) <==> Resolves(s, x) && Canonical(s.aliases, x) != id
    ensures id !in s.slots ==> Remove(s, id) == s
  {
    hide Follows;
    RestrictedFollows(s, Remove(s, id));
    if id !in s.slots {
      assert DropTarget(s.aliases, id) == s.aliases;
    }
  }

  lemma WakeKeeps(s: State, id: Sid, r: Revival)
    requires Inv(s) && Orderly(s, Woken(id, r))
    ensures Inv(Wake(s, id, r)) && Follows(s, Wake(s, id, r))
    ensures r.cwdAllowed ==> forall x :: x in Expand(Wake(s, id, r).aliases, id) <==> x in Expand(s.aliases, id)
  {
    var c := Canonical(s.aliases, id);
    ExpandIsTheSession(s, id);
    if c in s.slots && !s.slots[c].destroying {
      if !r.cwdAllowed {
        RemoveKeeps(s, c);
      } else if r.resume.Some? && r.resume.value != c {
        RekeyRenames(s, c, r.resume.value);
        ExpandIsTheSession(Wake(s, id, r), id);
        ExpandIsTheSession(Wake(s, id, r), r.resume.value);
      }
    }
  }

  lemma StepKeeps(s: State, e: Event)
    requires Inv(s) && Orderly(s, e)
    ensures Inv(Step(s, e)) && Follows(s, Step(s, e))
  {
    match e {
      case Created(id) =>
      case Woken(id, r) => WakeKeeps(s, id, r);
      case Swapped(from, to) => SwapRenames(s, from, to);
      case Recovered(from, to) => RecoverRenames(s, from, to);
      case Destroying(_) =>
      case Ended(captured) => RemoveKeeps(s, captured);
    }
  }

  lemma FollowsChain(s: State, t: State, u: State)
    requires Follows(s, t) && Follows(t, u)
    ensures Follows(s, u)
  {
    forall x, y | x in s.used && y in s.used && SameSession(s, x, y) && Resolves(u, x) ensures SameSession(u, x, y) {
      assert Resolves(t, x);
    }
  }

  lemma {:induction false} RunKeeps(s: State, es: seq<Event>)
    requires Inv(s) && AllOrderly(s, es)
    ensures Inv(Run(s, es)) && Follows(s, Run(s, es))
    decreases |es|
  {
    if es != [] {
      hide Inv, Follows;
      StepKeeps(s, es[0]);
      RunKeeps(Step(s, es[0]), es[1..]);
      FollowsChain(s, Step(s, es[0]), Run(s, es));
    } else {
      assert Follows(s, s);
    }
  }

  // ---- The theorems --------------------------------------------------------------------------

  /**
   In every reachable state each slot sits under its own id and resolves to itself, resolving twice
   is resolving once, every alias leads to a live slot, and expanding an id gives exactly the ids
   that resolve where it does.
   */
  lemma OneHopResolution(es: seq<Event>, id: Sid)
    requires AllOrderly(Init(), es)
    ensures var s := Run(Init(), es);
            && (forall k :: k in s.slots ==> s.slots[k].sessionId == k && Canonical(s.aliases, k) == k)
            && Canonical(s.aliases, Canonical(s.aliases, id)) == Canonical(s.aliases, id)
            && (id in s.aliases ==> s.aliases[id] in s.slots)
            && (forall x :: x in Expand(s.aliases, id) <==> SameSession(s, x, id))
  {
    RunKeeps(Init(), es);
    ExpandIsTheSession(Run(Init(), es), id);
  }

  /**
   Over any later run, two ids that ever belonged to different sessions never come together, two ids
   of one session stay together while it lives, and an id that stopped resolving never resolves again.
   */
  lemma SessionsNeverMerge(es: seq<Event>, more: seq<Event>, x: Sid, y: Sid)
    requires AllOrderly(Init(), es) && AllOrderly(Run(Init(), es), more)
    requires x in Run(Init(), es).used && y in Run(Init(), es).used
    ensures var s := Run(Init(), es);
            var t := Run(s, more);
            && (SameSession(t, x, y) ==> SameSession(s, x, y))
            && (SameSession(s, x, y) && Resolves(t, x) ==> SameSession(t, x, y))
            && (Resolves(t, x) ==> Resolves(s, x))
  {
    RunKeeps(Init(), es);
    RunKeeps(Run(Init(), es), more);
  }

  /** Re-keying keeps a session's ids exactly; a swap or a recovery adds exactly the new id. */
  lemma StepsAddAtMostOneId(es: seq<Event>, from: Sid, to: Sid)
    requires AllOrderly(Init(), es) && from in Run(Init(), es).slots
    ensures var s := Run(Init(), es);
            && (to in Expand(s.aliases, from) && to != from && !s.slots[from].destroying ==>
                  Expand(Wake(s, from, Revival(true, Some(to), true)).aliases, to) == Expand(s.aliases, from))
            && (Orderly(s, Swapped(from, to)) ==>
                  Expand(Swap(s, from, to).aliases, to) == Expand(s.aliases, from) + {to})
            && (Orderly(s, Recovered(from, to)) ==>
                  Expand(Recover(s, from, to).aliases, to) == Expand(s.aliases, from) + {to})
  {
    RunKeeps(Init(), es);
    var s := Run(Init(), es);
    ExpandIsTheSession(s, from);
    hide Follows;
    if to in Expand(s.aliases, from) && to != from { RekeyRenames(s, from, to); }
    if Orderly(s, Swapped(from, to)) { SwapRenames(s, from, to); }
    if Orderly(s, Recovered(from, to)) { RecoverRenames(s, from, to); }
  }

  /**
   A wake whose spawn throws. The registry keeps its shape exactly when the wake was refused, pruned
   the session or had nothing to re-key; otherwise the session's ids all lead to no slot.
   */
  lemma FailedWake(es: seq<Event>, id: Sid, r: Revival)
    requires AllOrderly(Init(), es) && !r.spawns
    requires r.resume.Some? ==> r.resume.value in Expand(Run(Init(), es).aliases, id)
    ensures var s := Run(Init(), es);
            var c := Canonical(s.aliases, id);
            var t := Wake(s, id, r);
            && (Inv(t) <==> c !in s.slots || s.slots[c].destroying || !r.cwdAllowed || r.resume.GetOr(c) == c)
            && (!Inv(t) ==> !Resolves(t, id))
  {
    RunKeeps(Init(), es);
    var s := Run(Init(), es);
    var c := Canonical(s.aliases, id);
    ExpandIsTheSession(s, id);
    if c in s.slots && !s.slots[c].destroying {
      if !r.cwdAllowed {
        RemoveKeeps(s, c);
      } else if r.resume.GetOr(c) != c {
        var t := Wake(s, id, r);
        assert t.aliases[c] == r.resume.value && r.resume.value !in t.slots;
      }
    }
  }

  /** A recovery whose spawn throws: the dead slot is gone already, and no alias was written yet. */
  function RecoverThrows(s: State, from: Sid): State { s.(slots := s.slots - {from}) }

  /**
   After it no id of the session leads to a slot, and the registry keeps its shape exactly when the
   session had no alias: otherwise its aliases lead nowhere.
   */
  lemma FailedRecovery(es: seq<Event>, from: Sid, x: Sid)
    requires AllOrderly(Init(), es) && from in Run(Init(), es).slots
    ensures var s := Run(Init(), es);
            var t := RecoverThrows(s, from);
            && (Inv(t) <==> AliasesFor(s.aliases, from) == {})
            && (Resolves(t, x) <==> Resolves(s, x) && !SameSession(s, x, from))
  {
    RunKeeps(Init(), es);
    var s := Run(Init(), es);
    var t := RecoverThrows(s, from);
    assert Canonical(s.aliases, from) == from;
    if AliasesFor(s.aliases, from) != {} {
      var a :| a in AliasesFor(s.aliases, from);
      assert t.aliases[a] == from && from !in t.slots;
    } else {
      forall a | a in s.aliases ensures s.aliases[a] != from { assert a !in AliasesFor(s.aliases, from); }
    }
  }

  // ---- Destroying ----------------------------------------------------------------------------

  /** What a destroy captured before its wait. */
  datatype Ticket = Ticket(canonical: Sid, held: set<Sid>)

  /** `destroySession` up to its wait; nothing is captured when a destroy is already under way. */
  function DestroyStart(s: State, id: Sid): (Option<Ticket>, State) {
    var c := Canonical(s.aliases, id);
    if c in s.slots && s.slots[c].destroying then (None, s)
    else (Some(Ticket(c, Expand(s.aliases, id))), Mark(s, id))
  }

  /** Which ids the rest of it covers: shares and previews, and the event store. */
  datatype Teardown = Teardown(revoked: set<Sid>, purged: set<Sid>)

  function DestroyFinish(s: State, k: Ticket): (Teardown, State) {
    var t := Remove(s, k.canonical);
    (Teardown(k.held, Expand(t.aliases, k.canonical)), t)
  }

  /** Shares and previews go for exactly the ids the session had when the destroy began. */
  lemma RevokesTheWholeSession(es: seq<Event>, id: Sid, during: seq<Event>)
    requires AllOrderly(Init(), es) && DestroyStart(Run(Init(), es), id).0.Some?
    requires AllOrderly(DestroyStart(Run(Init(), es), id).1, during)
    ensures var s := Run(Init(), es);
            var (k, s1) := DestroyStart(s, id);
            var (down, _) := DestroyFinish(Run(s1, during), k.value);
            forall x :: x in down.revoked <==> SameSession(s, x, id)
  {
    RunKeeps(Init(), es);
    ExpandIsTheSession(Run(Init(), es), id);
  }

  /** Where one event leaves the session that lives under `cur`: under which id, or nowhere. */
  function Follow(s: State, cur: Sid, e: Event): Option<Sid>
    requires cur in s.slots
  {
    match e
    case Swapped(from, to) => Some(if from == cur then to else cur)
    case Recovered(from, to) => Some(if from == cur then to else cur)
    case Ended(captured) => if captured == cur then None else Some(cur)
    case Woken(id, r) =>
      if Canonical(s.aliases, id) != cur || s.slots[cur].destroying then Some(cur)
      else if !r.cwdAllowed then None
      else Some(r.resume.GetOr(cur))
    case Created(_) => Some(cur)
    case Destroying(_) => Some(cur)
  }

  ghost predicate LivesUnder(t: State, id: Sid, next: Option<Sid>) {
    if next.None? then !Resolves(t, id)
    else next.value in t.slots && Canonical(t.aliases, id) == next.value
  }

  lemma WakeFollows(s: State, cur: Sid, id: Sid, r: Revival)
    requires Inv(s) && Orderly(s, Woken(id, r)) && cur in s.slots
    ensures LivesUnder(Wake(s, id, r), cur, Follow(s, cur, Woken(id, r)))
  {
    ExpandIsTheSession(s, id);
  }

  lemma FollowIsWhereItLives(s: State, cur: Sid, e: Event)
    requires Inv(s) && Orderly(s, e) && cur in s.slots
    ensures LivesUnder(Step(s, e), cur, Follow(s, cur, e))
  {
    match e {
      case Woken(id, r) => WakeFollows(s, cur, id, r);
      case Swapped(from, to) => ExpandIsTheSession(s, from);
      case Recovered(from, to) => ExpandIsTheSession(s, from);
      case Created(_) =>
      case Destroying(_) =>
      case Ended(_) =>
    }
  }

  /** Under which id the session of `cur` lives after `es`, read off the events, or None once it is gone. */
  function Fate(s: State, cur: Sid, es: seq<Event>): Option<Sid>
    requires Inv(s) && AllOrderly(s, es) && cur in s.slots
    decreases |es|
  {
    if es == [] then Some(cur) else
      StepKeeps(s, es[0]);
      FollowIsWhereItLives(s, cur, es[0]);
      var next := Follow(s, cur, es[0]);
      if next.None? then None else Fate(Step(s, es[0]), next.value, es[1..])
  }

  lemma {:induction false} FateIsWhereItLives(s: State, cur: Sid, es: seq<Event>)
    requires Inv(s) && AllOrderly(s, es) && cur in s.slots
    ensures LivesUnder(Run(s, es), cur, Fate(s, cur, es))
    decreases |es|
  {
    if es == [] {
      assert Canonical(s.aliases, cur) == cur;
    } else {
      var t := Step(s, es[0]);
      var next := Follow(s, cur, es[0]);
      StepKeeps(s, es[0]);
      FollowIsWhereItLives(s, cur, es[0]);
      assert cur in s.used && cur in t.used;
      RunKeeps(t, es[1..]);
      if next.Some? {
        assert Canonical(t.aliases, next.value) == next.value;
        hide Step, Orderly, Follow;
        FateIsWhereItLives(t, next.value, es[1..]);
        TogetherOrGone(t, Run(t, es[1..]), cur, next.value);
      }
    }
  }

  lemma TogetherOrGone(t: State, u: State, x: Sid, y: Sid)
    requires Inv(t) && Follows(t, u) && x in t.used && y in t.slots && Canonical(t.aliases, x) == y
    ensures Resolves(u, x) || Resolves(u, y) ==> SameSession(u, x, y)
  {
    assert Canonical(t.aliases, y) == y;
    assert SameSession(t, x, y) && SameSession(t, y, x);
  }

  /** The session known as `c` gets another id. */
  predicate RenamesFrom(e: Event, c: Sid) { (e.Swapped? || e.Recovered?) && e.from == c }

  lemma MarkedStaysOneStep(s: State, e: Event, c: Sid)
    requires Inv(s) && Orderly(s, e) && c in s.slots && s.slots[c].destroying && !RenamesFrom(e, c)
    ensures Follow(s, c, e).None? ||
            (Follow(s, c, e) == Some(c) && c in Step(s, e).slots && Step(s, e).slots[c].destroying)
  {
    if e.Swapped? || e.Recovered? {
      ExpandIsTheSession(s, e.from);
    } else if e.Woken? {
      ExpandIsTheSession(s, e.id);
    }
  }

  /** A session marked as being destroyed leaves its id only by a swap or a recovery from it. */
  lemma {:induction false} MarkedStays(s: State, es: seq<Event>, c: Sid)
    requires Inv(s) && AllOrderly(s, es) && c in s.slots && s.slots[c].destroying
    requires forall e :: e in es ==> !RenamesFrom(e, c)
    ensures Fate(s, c, es).None? || Fate(s, c, es) == Some(c)
    decreases |es|
  {
    if es != [] {
      StepKeeps(s, es[0]);
      FollowIsWhereItLives(s, c, es[0]);
      MarkedStaysOneStep(s, es[0], c);
      hide Inv, Step, Orderly, Follow;
      if Follow(s, c, es[0]).Some? {
        MarkedStays(Step(s, es[0]), es[1..], c);
      }
    }
  }

  /** One event on the mark of the session that lives under `cur`: a destroy sets it, a recovery clears it. */
  ghost predicate MarkAfter(s: State, cur: Sid, e: Event, marked: bool) {
    (marked || (e.Destroying? && SameSession(s, e.id, cur))) && !(e.Recovered? && e.from == cur)
  }

  /** Is the session of `cur` marked after `es`, read off the events? */
  ghost predicate MarkedBy(s: State, cur: Sid, es: seq<Event>, marked: bool)
    requires Inv(s) && AllOrderly(s, es) && cur in s.slots
    decreases |es|
  {
    if es == [] then marked else
      StepKeeps(s, es[0]);
      FollowIsWhereItLives(s, cur, es[0]);
      var next := Follow(s, cur, es[0]);
      next.Some? && MarkedBy(Step(s, es[0]), next.value, es[1..], MarkAfter(s, cur, es[0], marked))
  }

  lemma WakeKeepsMark(s: State, cur: Sid, id: Sid, r: Revival)
    requires Inv(s) && Orderly(s, Woken(id, r)) && cur in s.slots
    ensures var next := Follow(s, cur, Woken(id, r));
            next.Some? && next.value in Wake(s, id, r).slots ==>
              Wake(s, id, r).slots[next.value].destroying == s.slots[cur].destroying
  {
    ExpandIsTheSession(s, id);
  }

  lemma MarkOneStep(s: State, cur: Sid, e: Event)
    requires Inv(s) && Orderly(s, e) && cur in s.slots
    ensures var next := Follow(s, cur, e);
            next.Some? ==> next.value in Step(s, e).slots &&
                           (Step(s, e).slots[next.value].destroying <==> MarkAfter(s, cur, e, s.slots[cur].destroying))
  {
    FollowIsWhereItLives(s, cur, e);
    match e {
      case Woken(id, r) => WakeKeepsMark(s, cur, id, r);
      case Swapped(from, to) => ExpandIsTheSession(s, from);
      case Recovered(from, to) => ExpandIsTheSession(s, from);
      case Created(_) =>
      case Destroying(_) =>
      case Ended(_) =>
    }
  }

  lemma {:induction false} MarkIsReadOff(s: State, cur: Sid, es: seq<Event>)
    requires Inv(s) && AllOrderly(s, es) && cur in s.slots
    ensures var k := Fate(s, cur, es);
            k.Some? ==> k.value in Run(s, es).slots &&
                        (Run(s, es).slots[k.value].destroying <==> MarkedBy(s, cur, es, s.slots[cur].destroying))
    decreases |es|
  {
    if es != [] {
      StepKeeps(s, es[0]);
      FollowIsWhereItLives(s, cur, es[0]);
      MarkOneStep(s, cur, es[0]);
      hide Inv, Step, Orderly, Follow, MarkAfter;
      var next := Follow(s, cur, es[0]);
      if next.Some? { MarkIsReadOff(Step(s, es[0]), next.value, es[1..]); }
    }
  }

  /**
   Who is marked as being destroyed, from a session's creation on: under whatever id it lives later, its
   slot carries the mark if and only if a destroy named one of its ids and no recovery of it came since.
   So a created, woken or recovered session is unmarked until then, and no destroy of another marks it.
   */
  lemma MarkedOnlyByItsDestroy(es: seq<Event>, id: Sid, more: seq<Event>)
    requires AllOrderly(Init(), es) && Orderly(Run(Init(), es), Created(id))
    requires AllOrderly(Step(Run(Init(), es), Created(id)), more)
    ensures var t := Step(Run(Init(), es), Created(id));
            Inv(t) && id in t.slots
            && var k := Fate(t, id, more);
               k.Some? ==> k.value in Run(t, more).slots &&
                           (Run(t, more).slots[k.value].destroying <==> MarkedBy(t, id, more, false))
  {
    RunKeeps(Init(), es);
    StepKeeps(Run(Init(), es), Created(id));
    MarkIsReadOff(Step(Run(Init(), es), Created(id)), id, more);
    hide Inv, Follows, Fate, MarkedBy;
  }

  /**
   What a destroy misses, exactly, whatever happens during its wait: an id of the session still
   resolves afterwards if and only if the events of the wait left the session alive under another id
   than the captured one. That takes a swap or a recovery from the captured id; an end or a prune
   after it, or a swap back, lets the destroy succeed after all.
   */
  lemma SurvivesDestroyExactly(es: seq<Event>, id: Sid, during: seq<Event>, x: Sid)
    requires AllOrderly(Init(), es) && Resolves(Run(Init(), es), id) && DestroyStart(Run(Init(), es), id).0.Some?
    requires AllOrderly(DestroyStart(Run(Init(), es), id).1, during)
    requires SameSession(Run(Init(), es), x, id)
    ensures var s := Run(Init(), es);
            var c := Canonical(s.aliases, id);
            var (k, s1) := DestroyStart(s, id);
            var s2 := Run(s1, during);
            var s3 := DestroyFinish(s2, k.value).1;
            && Inv(s1) && c in s1.slots
            && var fate := Fate(s1, c, during);
            && (Resolves(s3, x) <==> fate.Some? && fate.value != c)
            && (Resolves(s3, x) <==> Resolves(s2, x) && Canonical(s2.aliases, x) != c)
            && (Resolves(s3, x) ==> Canonical(s3.aliases, x) == fate.value)
            && (Resolves(s3, x) ==> exists e :: e in during && RenamesFrom(e, c))
  {
    RunKeeps(Init(), es);
    var s := Run(Init(), es);
    var c := Canonical(s.aliases, id);
    var s1 := DestroyStart(s, id).1;
    StepKeeps(s, Destroying(id));
    assert s1 == Step(s, Destroying(id));
    assert x in s1.used && Canonical(s1.aliases, x) == c;
    var s2 := Run(s1, during);
    RunKeeps(s1, during);
    FateIsWhereItLives(s1, c, during);
    TogetherOrGone(s1, s2, x, c);
    RemoveKeeps(s2, c);
    RemovedOrUntouched(s2, c, x);
    if forall e :: e in during ==> !RenamesFrom(e, c) { MarkedStays(s1, during, c); }
  }

  /** An id that leads to no slot stands for itself alone. */
  lemma GoneStandsAlone(s: State, id: Sid)
    requires Inv(s) && !Resolves(s, id)
    ensures Expand(s.aliases, id) == {id}
  {
  }

  /**
   What a destroy purges, exactly, whatever happens during its wait. The purge expands the captured id
   after the aliases are gone: it covers that id alone when the session was removed, by this destroy or
   before it; it covers all ids of the session when the wait left it alive under another id. So it
   covers the ids whose shares and previews are revoked exactly in the second case, or when there was
   no other id; without a swap or recovery during the wait, exactly when the session had only one id.
   */
  lemma PurgesExactly(es: seq<Event>, id: Sid, during: seq<Event>)
    requires AllOrderly(Init(), es) && Resolves(Run(Init(), es), id) && DestroyStart(Run(Init(), es), id).0.Some?
    requires AllOrderly(DestroyStart(Run(Init(), es), id).1, during)
    ensures var s := Run(Init(), es);
            var c := Canonical(s.aliases, id);
            var (k, s1) := DestroyStart(s, id);
            var s2 := Run(s1, during);
            var down := DestroyFinish(s2, k.value).0;
            && Inv(s1) && c in s1.slots
            && var fate := Fate(s1, c, during);
            && (fate.None? || fate.value == c ==> down.purged == {c})
            && (fate.Some? && fate.value != c ==>
                  down.purged == Expand(s2.aliases, fate.value) && down.revoked <= down.purged)
            && (down.revoked <= down.purged <==> (fate.Some? && fate.value != c) || down.revoked == {c})
            && ((forall e :: e in during ==> !RenamesFrom(e, c)) ==>
                  (down.revoked <= down.purged <==> Expand(s.aliases, id) == {c}))
  {
    RunKeeps(Init(), es);
    var s := Run(Init(), es);
    var c := Canonical(s.aliases, id);
    var (k, s1) := DestroyStart(s, id);
    StepKeeps(s, Destroying(id));
    assert s1 == Step(s, Destroying(id)) && s1.aliases == s.aliases;
    var s2 := Run(s1, during);
    var s3 := Remove(s2, c);
    RunKeeps(s1, during);
    FateIsWhereItLives(s1, c, during);
    RemoveKeeps(s2, c);
    ExpandIsTheSession(s, id);
    assert c in k.value.held;
    if forall e :: e in during ==> !RenamesFrom(e, c) { MarkedStays(s1, during, c); }
    var fate := Fate(s1, c, during);
    if fate.Some? && fate.value != c {
      RemovedOrUntouched(s2, c, c);
      MovedKeepsAll(s1, s2, c, fate.value);
      LeavesOthers(s2, c, fate.value);
      hide *;
    } else {
      assert !Resolves(s3, c);
      GoneStandsAlone(s3, c);
    }
  }

  /** The destroy of an id that leads to no slot purges at least that id, whatever it comes to mean meanwhile. */
  lemma UnknownIdIsPurged(es: seq<Event>, id: Sid, during: seq<Event>)
    requires AllOrderly(Init(), es) && !Resolves(Run(Init(), es), id)
    requires AllOrderly(DestroyStart(Run(Init(), es), id).1, during)
    ensures var (k, s1) := DestroyStart(Run(Init(), es), id);
            k.Some? &&
            var down := DestroyFinish(Run(s1, during), k.value).0;
            down.revoked == {id} && down.revoked <= down.purged
  {
    RunKeeps(Init(), es);
    var s := Run(Init(), es);
    GoneStandsAlone(s, id);
    RunKeeps(s, during);
    RemoveKeeps(Run(s, during), id);
    ExpandIsTheSession(Remove(Run(s, during), id), id);
  }

  /** All ids of a session are still its ids where it lives now. */
  lemma MovedKeepsAll(s: State, t: State, c: Sid, d: Sid)
    requires Inv(s) && Inv(t) && Follows(s, t) && c in s.slots && d in t.slots && Canonical(t.aliases, c) == d
    ensures Expand(s.aliases, c) <= Expand(t.aliases, d)
  {
    ExpandIsTheSession(s, c);
    ExpandIsTheSession(t, d);
    assert Canonical(t.aliases, d) == d;
    forall x | x in Expand(s.aliases, c) ensures x in Expand(t.aliases, d) {
      assert x in s.used;
      TogetherOrGone(s, t, x, c);
    }
  }

  /** Removing an id that is no slot's own leaves the session it leads to as it is. */
  lemma LeavesOthers(s: State, c: Sid, d: Sid)
    requires Inv(s) && Canonical(s.aliases, c) == d && d in s.slots && d != c
    ensures Remove(s, c) == s && Expand(Remove(s, c).aliases, c) == Expand(s.aliases, d)
  {
    RemoveKeeps(s, c);
  }

  lemma RemovedOrUntouched(s: State, c: Sid, x: Sid)
    requires Inv(s)
    ensures Resolves(Remove(s, c), x) <==> Resolves(s, x) && Canonical(s.aliases, x) != c
    ensures Resolves(Remove(s, c), x) ==> Canonical(Remove(s, c).aliases, x) == Canonical(s.aliases, x)
  {
    RemoveKeeps(s, c);
  }

  /**
   A destroyed session never comes back: if nothing renamed it while its destroy waited, then after
   any further run none of the ids it had leads to a slot. Waking it meanwhile is refused.
   */
  lemma DestroyedNeverComesBack(es: seq<Event>, id: Sid, during: seq<Event>, more: seq<Event>, x: Sid)
    requires AllOrderly(Init(), es) && Resolves(Run(Init(), es), id) && DestroyStart(Run(Init(), es), id).0.Some?
    requires AllOrderly(DestroyStart(Run(Init(), es), id).1, during)
    requires var (k, s1) := DestroyStart(Run(Init(), es), id);
             && (forall e :: e in during ==> !RenamesFrom(e, k.value.canonical))
             && AllOrderly(DestroyFinish(Run(s1, during), k.value).1, more)
    requires SameSession(Run(Init(), es), x, id)
    ensures var (k, s1) := DestroyStart(Run(Init(), es), id);
            !Resolves(Run(DestroyFinish(Run(s1, during), k.value).1, more), x)
  {
    SurvivesDestroyExactly(es, id, during, x);
    RunKeeps(Init(), es);
    var s := Run(Init(), es);
    var c := Canonical(s.aliases, id);
    var s1 := DestroyStart(s, id).1;
    StepKeeps(s, Destroying(id));
    assert s1 == Step(s, Destroying(id));
    assert x in s1.used;
    RunKeeps(s1, during);
    var s2 := Run(s1, during);
    RemoveKeeps(s2, c);
    RunKeeps(Remove(s2, c), more);
  }

  /**
   A session whose child changes its id while the destroy waits survives it, under the new id and
   marked as being destroyed, so that no later destroy or wake touches it.
   */
  lemma SwapDuringDestroySurvives(es: seq<Event>, id: Sid, to: Sid, r: Revival)
    requires AllOrderly(Init(), es) && Resolves(Run(Init(), es), id) && DestroyStart(Run(Init(), es), id).0.Some?
    requires Orderly(Run(Init(), es), Swapped(Canonical(Run(Init(), es).aliases, id), to))
    ensures var s := Run(Init(), es);
            var c := Canonical(s.aliases, id);
            var (k, s1) := DestroyStart(s, id);
            var s3 := DestroyFinish(Swap(s1, c, to), k.value).1;
            && Resolves(s3, id) && Canonical(s3.aliases, id) == to && s3.slots[to].destroying
            && DestroyStart(s3, id) == (None, s3) && Wake(s3, id, r) == s3
  {
    hide Follows;
    RunKeeps(Init(), es);
    var s := Run(Init(), es);
    var c := Canonical(s.aliases, id);
    var s1 := DestroyStart(s, id).1;
    StepKeeps(s, Destroying(id));
    assert s1 == Step(s, Destroying(id));
    SwapRenames(s1, c, to);
    var s2 := Swap(s1, c, to);
    RemoveKeeps(s2, c);
    assert DestroyFinish(s2, Ticket(c, Expand(s.aliases, id))).1 == s2;
    ExpandIsTheSession(s1, c);
    ExpandIsTheSession(s2, to);
    assert id in Expand(s1.aliases, c) && id in Expand(s2.aliases, to);
  }

  // ---- The maps, changed in place ------------------------------------------------------------

  class Registry {
    var slots: map<Sid, Slot>
    var aliases: Aliases
    ghost var used: set<Sid>

    constructor ()
      ensures Abs() == Init()
    {
      slots, aliases, used := map[], map[], {};
    }

    ghost function Abs(): State
      reads this
    {
      State(slots, aliases, used)
    }

    /** `aliasesFor`: a walk over the alias map. */
    method FindAliases(canonicalId: Sid) returns (out: set<Sid>)
      ensures out == AliasesFor(aliases, canonicalId)
    {
      out := {};
      var todo := aliases.Keys;
      while todo != {}
        invariant todo <= aliases.Keys
        invariant forall a :: a in out <==> a in aliases && a !in todo && aliases[a] == canonicalId
        decreases |todo|
      {
        var old_ :| old_ in todo;
        if aliases[old_] == canonicalId { out := out + {old_}; }
        todo := todo - {old_};
      }
    }

    method ExpandSessionIds(id: Sid) returns (ids: set<Sid>)
      ensures ids == Expand(aliases, id)
    {
      var canonicalId := Canonical(aliases, id);
      ids := FindAliases(canonicalId);
      ids := {canonicalId} + ids;
    }

    /** The loop that keeps the alias map flat. */
    method RepointAliases(from: Sid, to: Sid)
      modifies `aliases
      ensures aliases == Repoint(old(aliases), from, to)
    {
      var todo := aliases.Keys;
      while todo != {}
        invariant aliases.Keys == old(aliases).Keys && todo <= aliases.Keys
        invariant forall a :: a in todo ==> aliases[a] == old(aliases)[a]
        invariant forall a :: a in aliases && a !in todo ==>
                    aliases[a] == if old(aliases)[a] == from then to else old(aliases)[a]
        decreases |todo|
      {
        var a :| a in todo;
        if aliases[a] == from { aliases := aliases[a := to]; }
        todo := todo - {a};
      }
    }

    /** The loop that forgets a session's aliases. */
    method DropAliases(target: Sid)
      modifies `aliases
      ensures aliases == DropTarget(old(aliases), target)
    {
      var todo := aliases.Keys;
      while todo != {}
        invariant todo <= aliases.Keys <= old(aliases).Keys
        invariant forall a :: a in aliases ==> aliases[a] == old(aliases)[a]
        invariant forall a :: a in old(aliases) ==> (a in aliases <==> a in todo || old(aliases)[a] != target)
        decreases |todo|
      {
        var alias :| alias in todo;
        if aliases[alias] == target { aliases := aliases - {alias}; }
        todo := todo - {alias};
      }
    }

    method RekeyCanonical(from: Sid, to: Sid)
      modifies `slots, `aliases
      ensures Abs() == Rekey(old(Abs()), from, to)
    {
      slots := slots - {from};
      aliases := aliases - {to};
      RepointAliases(from, to);
      aliases := aliases[from := to];
    }

    method WakeSession(id: Sid, r: Revival) returns (ok: bool)
      modifies `slots, `aliases
      ensures Abs() == Wake(old(Abs()), id, r)
      ensures ok ==> r.cwdAllowed && r.spawns && old(Resolves(Abs(), id))
    {
      var canonicalId := Canonical(aliases, id);
      if canonicalId !in slots || slots[canonicalId].destroying { return false; }
      if !r.cwdAllowed {
        slots := slots - {canonicalId};
        DropAliases(canonicalId);
        return false;
      }
      var target := r.resume.GetOr(canonicalId);
      if target != canonicalId { RekeyCanonical(canonicalId, target); }
      if !r.spawns { return false; }
      slots := slots[target := Slot(target, false)];
      return true;
    }

    /** A frame carries another id; `slot` is the one its handler holds. */
    method AdoptId(slot: Slot, from: Sid, to: Sid)
      modifies this
      ensures Abs() == Adopt(old(Abs()), slot, from, to)
    {
      slots := slots - {from};
      slots := slots[to := slot.(sessionId := to)];
      aliases := aliases[from := to];
      RepointAliases(from, to);
      used := used + {to};
    }

    method RecoverWithFreshSession(from: Sid, to: Sid)
      requires from in slots
      modifies this
      ensures Abs() == Recover(old(Abs()), from, to)
    {
      slots := slots - {from};
      slots := slots[to := Slot(to, false)];
      aliases := aliases[from := to];
      RepointAliases(from, to);
      used := used + {to};
    }

    /** `endSession` after its wait. */
    method EndCaptured(canonicalId: Sid)
      modifies `slots, `aliases
      ensures Abs() == Remove(old(Abs()), canonicalId)
    {
      slots := slots - {canonicalId};
      DropAliases(canonicalId);
    }

    method BeginDestroy(id: Sid) returns (ticket: Option<Ticket>)
      modifies `slots
      ensures (ticket, Abs()) == DestroyStart(old(Abs()), id)
    {
      var c := Canonical(aliases, id);
      if c in slots {
        if slots[c].destroying { return None; }
        slots := slots[c := slots[c].(destroying := true)];
      }
      var held := ExpandSessionIds(id);
      return Some(Ticket(c, held));
    }

    method FinishDestroy(ticket: Ticket) returns (down: Teardown)
      modifies `slots, `aliases
      ensures (down, Abs()) == DestroyFinish(old(Abs()), ticket)
    {
      EndCaptured(ticket.canonical);
      var purged := ExpandSessionIds(ticket.canonical);
      return Teardown(ticket.held, purged);
    }
  }
}
