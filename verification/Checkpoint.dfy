/**
 Saving and loading the registry (sandbox/lib/active-sessions.ts, `saveCheckpoint`/`loadCheckpoint`).

 A field that is absent and a field that is null are read alike everywhere, so both are `None`.
 Statistics and preview specs are carried as they are; their content is left as text. The order in
 which the slots are written is left open: the theorems hold for every order.
*/
module Checkpoint {
  import opened Wrappers
  import Collections
  import SessionRegistry

  type Sid = SessionRegistry.Sid
  type Stats = string
  type Spec = string

  datatype Via = Skill | NewConversation | Resumed
  datatype Status = Alive | Dormant | Ended | Expired | Provisioning | Failed
  datatype Reason = Idle

  /** What a checkpoint carries about a session beside its id, aliases and reviews. */
  datatype Settings = Settings(
    runId: Option<string>, label_: string, displayName: Option<string>, cwd: string, via: Via,
    startedAt: int, lastSeenAt: int, skill: Option<string>, skillArgs: Option<string>,
    model: Option<string>, autoMode: bool, idleTtlMs: Option<int>, burnAfterUse: bool,
    lastStats: Option<Stats>, lastPreviewSpec: Option<Spec>, lastPreviewStoppedReason: Option<Reason>)

  datatype Ask = Ask(requestId: string, synthetic: bool, input: string)

  /** What lives only as long as the process: the child, the turn in flight, who is trusted. */
  datatype Live = Live(running: bool, turnActive: bool, destroying: bool, trusted: set<string>)
  const COLD := Live(false, false, false, {})

  datatype Slot = Slot(sessionId: Sid, status: Status, settings: Settings, pending: seq<Ask>, live: Live)
  datatype State = State(slots: map<Sid, Slot>, aliases: SessionRegistry.Aliases)
  datatype Entry = Entry(sessionId: Sid, settings: Settings, aliases: seq<Sid>, pendingReviews: seq<Ask>)

  /** The clock, the cwd policy and the preview-spec validator at load time. */
  datatype Env = Env(now: int, cwdAllowed: string -> bool, validate: Spec -> Option<Spec>)

  const PRUNE_AGE_MS := 30 * 24 * 60 * 60 * 1000

  // ---- Saving --------------------------------------------------------------------------------

  predicate WorthReviving(slot: Slot) { slot.status != Expired && slot.status != Provisioning }

  /** An empty string is written as an absent field. */
  function NonEmpty(text: Option<string>): Option<string> { if text == Some("") then None else text }

  function Written(x: Settings): Settings {
    x.(skill := NonEmpty(x.skill), skillArgs := NonEmpty(x.skillArgs), model := NonEmpty(x.model))
  }

  predicate IsSynthetic(a: Ask) { a.synthetic }

  function Synthetic(asks: seq<Ask>): seq<Ask> { Collections.Filter(IsSynthetic, asks) }

  /** Entry `e` is what a save writes for slot `k`. */
  ghost predicate Writes(s: State, k: Sid, e: Entry) {
    && k in s.slots && WorthReviving(s.slots[k])
    && e.sessionId == s.slots[k].sessionId && e.settings == Written(s.slots[k].settings)
    && e.pendingReviews == Synthetic(s.slots[k].pending)
    && (forall a :: a in e.aliases <==> a in SessionRegistry.AliasesFor(s.aliases, s.slots[k].sessionId))
  }

  /** `file` is a checkpoint of `s`: every slot worth reviving once, in some order, and nothing else. */
  ghost predicate Saved(s: State, file: seq<Entry>) {
    && (forall i, j :: 0 <= i < j < |file| ==> file[i].sessionId != file[j].sessionId)
    && (forall i :: 0 <= i < |file| ==> Writes(s, file[i].sessionId, file[i]))
    && (forall k :: k in s.slots && WorthReviving(s.slots[k]) ==> Listed(file, k))
  }

  ghost predicate Listed(file: seq<Entry>, k: Sid) { exists i :: 0 <= i < |file| && file[i].sessionId == k }

  // ---- Loading -------------------------------------------------------------------------------

  function Migrated(cwd: string): string { if cwd == "/workspace" then "/home/agent/workspace" else cwd }

  predicate Survives(env: Env, x: Settings) {
    env.now - x.lastSeenAt <= PRUNE_AGE_MS && env.cwdAllowed(Migrated(x.cwd))
  }

  /** Neither pruned nor migrated. */
  ghost predicate AsItWas(env: Env, x: Settings) {
    env.now - x.lastSeenAt <= 2_592_000_000 && x.cwd != "/workspace" && env.cwdAllowed(x.cwd)
  }

  function RestoredSpec(env: Env, spec: Option<Spec>): Option<Spec> {
    if spec.Some? then env.validate(spec.value) else None
  }

  function Read(env: Env, x: Settings): Settings {
    var spec := RestoredSpec(env, x.lastPreviewSpec);
    x.(cwd := Migrated(x.cwd), model := NonEmpty(x.model), lastPreviewSpec := spec,
    lastPreviewStoppedReason := if spec.Some? then Some(x.lastPreviewStoppedReason.GetOr(Idle)) else None)
  }

  function SlotFrom(env: Env, e: Entry): Slot {
    Slot(e.sessionId, Dormant, Read(env, e.settings), Synthetic(e.pendingReviews), COLD)
  }

  function SetAliases(aliases: SessionRegistry.Aliases, olds: seq<Sid>, id: Sid): SessionRegistry.Aliases
    decreases |olds|
  {
    if olds == [] then aliases else SetAliases(aliases[olds[0] := id], olds[1..], id)
  }

  function LoadEntry(env: Env, s: State, e: Entry): State {
    if !Survives(env, e.settings) then s
    else State(s.slots[e.sessionId := SlotFrom(env, e)], SetAliases(s.aliases, e.aliases, e.sessionId))
  }

  function Load(env: Env, s: State, file: seq<Entry>): State
    decreases |file|
  {
    if file == [] then s else Load(env, LoadEntry(env, s, file[0]), file[1..])
  }

  const EMPTY := State(map[], map[])

  // ---- What a restart makes of the registry --------------------------------------------------

  predicate Revived(env: Env, s: State, k: Sid) {
    k in s.slots && WorthReviving(s.slots[k]) && Survives(env, s.slots[k].settings)
  }

  function RestartedSlot(env: Env, slot: Slot): Slot {
    Slot(slot.sessionId, Dormant, Read(env, Written(slot.settings)), Synthetic(slot.pending), COLD)
  }

  /** The registry after a restart, said without the file: the slots that survive, and their aliases. */
  function Restarted(env: Env, s: State): State {
    State(map k | k in s.slots && Revived(env, s, k) :: RestartedSlot(env, s.slots[k]),
          map a | a in s.aliases && Revived(env, s, s.aliases[a]) :: s.aliases[a])
  }

  ghost predicate OwnIds(s: State) { forall k :: k in s.slots ==> s.slots[k].sessionId == k }

  // ---- Small facts ---------------------------------------------------------------------------

  lemma SyntheticTwice(asks: seq<Ask>)
    ensures Synthetic(Synthetic(asks)) == Synthetic(asks)
    ensures forall a :: a in Synthetic(asks) <==> a in asks && a.synthetic
  {
    Collections.FilterTwice(IsSynthetic, asks);
    Collections.FilterKeeps(IsSynthetic, asks);
  }

  lemma {:induction false} AliasesSet(aliases: SessionRegistry.Aliases, olds: seq<Sid>, id: Sid)
    ensures var r := SetAliases(aliases, olds, id);
            && (forall a :: a in r <==> a in aliases || a in olds)
            && (forall a :: a in r ==> r[a] == if a in olds then id else aliases[a])
    decreases |olds|
  {
    if olds != [] {
      forall a ensures a in olds <==> a == olds[0] || a in olds[1..] {
        assert olds == [olds[0]] + olds[1..];
      }
      AliasesSet(aliases[olds[0] := id], olds[1..], id);
      assert SetAliases(aliases, olds, id) == SetAliases(aliases[olds[0] := id], olds[1..], id);
    }
  }

  // ---- Loading a saved file ------------------------------------------------------------------

  /** No two entries name the same session or the same alias. */
  ghost predicate Separate(file: seq<Entry>) {
    && (forall i, j :: 0 <= i < j < |file| ==> file[i].sessionId != file[j].sessionId)
    && (forall i, j, a :: 0 <= i < j < |file| && a in file[i].aliases ==> a !in file[j].aliases)
  }

  ghost predicate SlotLoaded(env: Env, s: State, file: seq<Entry>, t: State) {
    && (forall i :: 0 <= i < |file| && Survives(env, file[i].settings) ==>
          file[i].sessionId in t.slots && t.slots[file[i].sessionId] == SlotFrom(env, file[i]))
    && (forall k :: k in t.slots ==> (k in s.slots && t.slots[k] == s.slots[k]) || SurvivorNamed(env, file, k))
    && (forall k :: k in s.slots && !Listed(file, k) ==> k in t.slots && t.slots[k] == s.slots[k])
  }

  ghost predicate SurvivorNamed(env: Env, file: seq<Entry>, k: Sid) {
    exists i :: 0 <= i < |file| && file[i].sessionId == k && Survives(env, file[i].settings)
  }

  /** Where a file sends alias `a`: to the first surviving entry that lists it. */
  function AliasTo(env: Env, file: seq<Entry>, a: Sid): Option<Sid>
    decreases |file|
  {
    if file == [] then None
    else if Survives(env, file[0].settings) && a in file[0].aliases then Some(file[0].sessionId)
    else AliasTo(env, file[1..], a)
  }

  function Lookup(aliases: SessionRegistry.Aliases, a: Sid): Option<Sid> {
    if a in aliases then Some(aliases[a]) else None
  }

  lemma {:induction false} AliasToFinds(env: Env, file: seq<Entry>, a: Sid)
    requires Separate(file)
    ensures AliasTo(env, file, a).None? ==>
              forall i :: 0 <= i < |file| && Survives(env, file[i].settings) ==> a !in file[i].aliases
    ensures AliasTo(env, file, a).Some? ==>
              exists i :: 0 <= i < |file| && Survives(env, file[i].settings) && a in file[i].aliases &&
                          file[i].sessionId == AliasTo(env, file, a).value
    decreases |file|
  {
    if file != [] {
      AliasToFinds(env, file[1..], a);
      if AliasTo(env, file, a) == AliasTo(env, file[1..], a) && AliasTo(env, file, a).Some? {
        var i :| 0 <= i < |file| - 1 && Survives(env, file[1..][i].settings) && a in file[1..][i].aliases &&
                 file[1..][i].sessionId == AliasTo(env, file, a).value;
        assert file[i + 1] == file[1..][i];
      }
      forall i | 0 < i < |file| ensures file[i] == file[1..][i - 1] {}
    }
  }

  lemma {:induction false} AliasLoaded(env: Env, s: State, file: seq<Entry>, a: Sid)
    requires Separate(file)
    ensures Lookup(Load(env, s, file).aliases, a) ==
            var to := AliasTo(env, file, a); if to.Some? then to else Lookup(s.aliases, a)
    decreases |file|
  {
    if file != [] {
      assert Separate(file[1..]);
      AliasLoaded(env, LoadEntry(env, s, file[0]), file[1..], a);
      AliasesSet(s.aliases, file[0].aliases, file[0].sessionId);
      if a in file[0].aliases {
        AliasToFinds(env, file[1..], a);
        forall i | 0 <= i < |file| - 1 ensures a !in file[1..][i].aliases { assert file[1..][i] == file[i + 1]; }
      }
    }
  }

  lemma SlotsStep(env: Env, s: State, file: seq<Entry>, t: State)
    requires file != [] && Separate(file) && SlotLoaded(env, LoadEntry(env, s, file[0]), file[1..], t)
    ensures SlotLoaded(env, s, file, t)
  {
    var rest := file[1..];
    forall i | 0 < i < |file| ensures file[i] == rest[i - 1] {}
    assert !Listed(rest, file[0].sessionId);
    forall k | k in t.slots && SurvivorNamed(env, rest, k) ensures SurvivorNamed(env, file, k) {
      var i :| 0 <= i < |rest| && rest[i].sessionId == k && Survives(env, rest[i].settings);
      assert file[i + 1] == rest[i];
    }
    forall k | Listed(rest, k) ensures Listed(file, k) {
      var i :| 0 <= i < |rest| && rest[i].sessionId == k;
      assert file[i + 1] == rest[i];
    }
  }

  lemma {:induction false} LoadsAll(env: Env, s: State, file: seq<Entry>)
    requires Separate(file)
    ensures SlotLoaded(env, s, file, Load(env, s, file))
    decreases |file|
  {
    if file != [] {
      assert Separate(file[1..]);
      LoadsAll(env, LoadEntry(env, s, file[0]), file[1..]);
      hide LoadEntry, SlotLoaded, Separate;
      SlotsStep(env, s, file, Load(env, s, file));
    }
  }

  lemma SavedIsSeparate(s: State, file: seq<Entry>)
    requires OwnIds(s) && Saved(s, file)
    ensures Separate(file)
  {
    forall i, j, a | 0 <= i < j < |file| && a in file[i].aliases ensures a !in file[j].aliases {
      assert Writes(s, file[i].sessionId, file[i]) && Writes(s, file[j].sessionId, file[j]);
      assert s.aliases[a] == file[i].sessionId;
    }
  }

  // ---- The theorems --------------------------------------------------------------------------

  lemma EntryRestored(env: Env, s: State, e: Entry)
    requires Writes(s, e.sessionId, e)
    ensures Survives(env, e.settings) <==> Revived(env, s, e.sessionId)
    ensures OwnIds(s) ==> SlotFrom(env, e) == RestartedSlot(env, s.slots[e.sessionId])
  {
    SyntheticTwice(s.slots[e.sessionId].pending);
    hide Read;
  }

  /** What a load leaves under id `k`. */
  lemma SlotRestored(env: Env, s: State, file: seq<Entry>, t: State, k: Sid)
    requires OwnIds(s) && Saved(s, file) && SlotLoaded(env, EMPTY, file, t)
    ensures k in t.slots <==> Revived(env, s, k)
    ensures k in t.slots ==> t.slots[k] == RestartedSlot(env, s.slots[k])
  {
    hide SlotFrom, RestartedSlot;
    if k in t.slots {
      assert SurvivorNamed(env, file, k);
      var i :| 0 <= i < |file| && file[i].sessionId == k && Survives(env, file[i].settings);
      assert Writes(s, file[i].sessionId, file[i]);
      hide Survives, Writes, Revived;
      EntryRestored(env, s, file[i]);
    } else if Revived(env, s, k) {
      assert Listed(file, k);
      var i :| 0 <= i < |file| && file[i].sessionId == k;
      assert Writes(s, file[i].sessionId, file[i]);
      hide Survives, Writes, Revived;
      EntryRestored(env, s, file[i]);
    }
  }

  lemma SlotsRestored(env: Env, s: State, file: seq<Entry>, t: State)
    requires OwnIds(s) && Saved(s, file) && SlotLoaded(env, EMPTY, file, t)
    ensures t.slots == Restarted(env, s).slots
  {
    assert forall k :: Revived(env, s, k) ==> k in s.slots;
    hide Saved, SlotLoaded, OwnIds, Revived, RestartedSlot;
    forall k ensures k in t.slots <==> Revived(env, s, k)
             ensures k in t.slots ==> t.slots[k] == RestartedSlot(env, s.slots[k])
    {
      SlotRestored(env, s, file, t, k);
    }
  }

  lemma AliasRestored(env: Env, s: State, file: seq<Entry>, a: Sid)
    requires OwnIds(s) && Saved(s, file)
    ensures Lookup(Load(env, EMPTY, file).aliases, a) == Lookup(Restarted(env, s).aliases, a)
  {
    SavedIsSeparate(s, file);
    AliasLoaded(env, EMPTY, file, a);
    AliasToFinds(env, file, a);
    hide Load, AliasTo, Separate;
    forall i | 0 <= i < |file|
      ensures Survives(env, file[i].settings) <==> Revived(env, s, file[i].sessionId)
      ensures a in file[i].aliases <==> a in s.aliases && s.aliases[a] == file[i].sessionId
    {
      assert Writes(s, file[i].sessionId, file[i]);
    }
    if a in Restarted(env, s).aliases {
      assert Listed(file, s.aliases[a]);
    }
  }

  lemma AliasesRestored(env: Env, s: State, file: seq<Entry>)
    requires OwnIds(s) && Saved(s, file)
    ensures Load(env, EMPTY, file).aliases == Restarted(env, s).aliases
  {
    var l, r := Load(env, EMPTY, file).aliases, Restarted(env, s).aliases;
    hide Load, Restarted, Saved;
    forall a ensures (a in l <==> a in r) && (a in l ==> l[a] == r[a]) { AliasRestored(env, s, file, a); }
  }

  /** Loading any checkpoint of a registry gives its restart: the same slots, whatever their order. */
  lemma RoundTrip(env: Env, s: State, file: seq<Entry>)
    requires OwnIds(s) && Saved(s, file)
    ensures Load(env, EMPTY, file) == Restarted(env, s)
  {
    hide *;
    SavedIsSeparate(s, file);
    LoadsAll(env, EMPTY, file);
    SlotsRestored(env, s, file, Load(env, EMPTY, file));
    AliasesRestored(env, s, file);
  }

  /** Does a session come back at all: its status, its age in milliseconds, and the directory it gets. */
  ghost predicate ComesBack(env: Env, slot: Slot) {
    && slot.status !in {Expired, Provisioning}
    && env.now - slot.settings.lastSeenAt <= 2_592_000_000
    && env.cwdAllowed(if slot.settings.cwd == "/workspace" then "/home/agent/workspace" else slot.settings.cwd)
  }

  /** An empty text counts as none. */
  ghost predicate SameText(was: Option<string>, now: Option<string>) {
    now == match was case Some(text) => (if |text| == 0 then None else was) case None => None
  }

  /** What a session comes back as, field by field: dormant, with nobody trusted and nothing running. */
  ghost predicate CameBack(env: Env, was: Slot, now: Slot) {
    && now.sessionId == was.sessionId && now.status == Dormant
    && !now.live.running && !now.live.turnActive && !now.live.destroying && now.live.trusted == {}
    && (forall a :: a in now.pending <==> a in was.pending && a.synthetic)
    && var x, y := was.settings, now.settings;
       && y.runId == x.runId && y.label_ == x.label_ && y.displayName == x.displayName && y.via == x.via
       && y.startedAt == x.startedAt && y.lastSeenAt == x.lastSeenAt && y.autoMode == x.autoMode
       && y.idleTtlMs == x.idleTtlMs && y.burnAfterUse == x.burnAfterUse && y.lastStats == x.lastStats
       && y.cwd == (if x.cwd == "/workspace" then "/home/agent/workspace" else x.cwd)
       && SameText(x.skill, y.skill) && SameText(x.skillArgs, y.skillArgs) && SameText(x.model, y.model)
       && y.lastPreviewSpec == (match x.lastPreviewSpec case Some(spec) => env.validate(spec) case None => None)
       && y.lastPreviewStoppedReason == if y.lastPreviewSpec.Some? then Some(Idle) else None
  }

  lemma CameBackAsRestarted(env: Env, slot: Slot)
    ensures CameBack(env, slot, RestartedSlot(env, slot))
    ensures WorthReviving(slot) && Survives(env, slot.settings) <==> ComesBack(env, slot)
  {
    SyntheticTwice(slot.pending);
    hide Synthetic;
    assert slot.settings.lastPreviewStoppedReason.Some? ==> slot.settings.lastPreviewStoppedReason.value == Idle;
  }

  /**
   A save and a load, whatever order the file is in: exactly the sessions that were neither expired nor
   still provisioning, are at most thirty days old and may use their directory come back, each with
   the fields said above; and an alias comes back exactly when the session it leads to does.
   */
  lemma WhatSurvivesARestart(env: Env, s: State, file: seq<Entry>, k: Sid)
    requires OwnIds(s) && Saved(s, file)
    ensures var t := Load(env, EMPTY, file);
            && (k in t.slots <==> k in s.slots && ComesBack(env, s.slots[k]))
            && (k in t.slots ==> CameBack(env, s.slots[k], t.slots[k]))
            && (k in t.aliases <==> k in s.aliases && s.aliases[k] in s.slots && ComesBack(env, s.slots[s.aliases[k]]))
            && (k in t.aliases ==> t.aliases[k] == s.aliases[k])
  {
    RoundTrip(env, s, file);
    hide Load, Saved, RestartedSlot, WorthReviving, Survives, ComesBack, CameBack;
    if k in s.slots { CameBackAsRestarted(env, s.slots[k]); }
    if k in s.aliases && s.aliases[k] in s.slots { CameBackAsRestarted(env, s.slots[s.aliases[k]]); }
  }

  /** What the settings of a session must be for a restart to give them back unchanged. */
  predicate Durable(env: Env, x: Settings) {
    && x.cwd != "/workspace" && x.skill != Some("") && x.skillArgs != Some("") && x.model != Some("")
    && match x.lastPreviewSpec
       case None => x.lastPreviewStoppedReason.None?
       case Some(spec) => env.validate(spec) == Some(spec) && x.lastPreviewStoppedReason == Some(Idle)
  }

  /**
   A session comes back with all its settings exactly when they are durable. In particular a null
   stopped-reason beside a preview spec comes back as "idle", and an idle window of 0 stays 0.
   */
  lemma SettingsSurviveExactlyWhenDurable(env: Env, s: State, file: seq<Entry>, k: Sid)
    requires OwnIds(s) && Saved(s, file) && Revived(env, s, k)
    ensures var t := Load(env, EMPTY, file);
            && k in t.slots && t.slots[k].status == Dormant && t.slots[k].live == COLD
            && (t.slots[k].settings == s.slots[k].settings <==> Durable(env, s.slots[k].settings))
            && t.slots[k].settings.idleTtlMs == s.slots[k].settings.idleTtlMs
            && t.slots[k].settings.lastStats == s.slots[k].settings.lastStats
            && t.slots[k].pending == Synthetic(s.slots[k].pending)
  {
    RoundTrip(env, s, file);
    ReadsBackDurable(env, s.slots[k].settings);
  }

  lemma ReadsBackDurable(env: Env, x: Settings)
    ensures Read(env, Written(x)) == x <==> Durable(env, x)
  {
    assert |Migrated("/workspace")| != |"/workspace"|;
    var y := Read(env, Written(x));
    assert y.cwd == x.cwd <==> x.cwd != "/workspace";
    assert y.skill == x.skill <==> x.skill != Some("");
    assert y.skillArgs == x.skillArgs <==> x.skillArgs != Some("");
    assert y.model == x.model <==> x.model != Some("");
    assert x.lastPreviewStoppedReason.Some? ==> x.lastPreviewStoppedReason.value.Idle?;
    if Durable(env, x) {
      assert y == x.(lastPreviewSpec := y.lastPreviewSpec, lastPreviewStoppedReason := y.lastPreviewStoppedReason);
    }
  }

  /** A surviving session keeps its ids exactly, and one that does not survive keeps none. */
  lemma AliasClassSurvives(env: Env, s: State, file: seq<Entry>, k: Sid)
    requires OwnIds(s) && Saved(s, file)
    ensures SessionRegistry.AliasesFor(Load(env, EMPTY, file).aliases, k)
         == if Revived(env, s, k) then SessionRegistry.AliasesFor(s.aliases, k) else {}
  {
    RoundTrip(env, s, file);
  }

  /** The validator accepts what it returned, unchanged. */
  ghost predicate Stable(env: Env) {
    forall spec :: env.validate(spec).Some? ==> env.validate(env.validate(spec).value) == env.validate(spec)
  }

  lemma ReadTwice(env: Env, later: Env, x: Settings)
    requires Stable(env) && later.validate == env.validate
    ensures var y := Read(env, Written(x));
            && Read(later, Written(y)) == y && y.lastSeenAt == x.lastSeenAt
            && (Survives(env, x) && later.cwdAllowed == env.cwdAllowed ==>
                  (Survives(later, y) <==> later.now - y.lastSeenAt <= PRUNE_AGE_MS))
  {
    assert |Migrated("/workspace")| != |"/workspace"|;
  }

  /** What is left of a registry of restarted sessions when those that no longer survive are dropped. */
  function Pruned(env: Env, t: State): State {
    State(map k | k in t.slots && Survives(env, t.slots[k].settings) :: t.slots[k],
          map a | a in t.aliases && t.aliases[a] in t.slots && Survives(env, t.slots[t.aliases[a]].settings)
            :: t.aliases[a])
  }

  lemma SlotRestartsTwice(env: Env, later: Env, s: State, k: Sid)
    requires OwnIds(s) && Stable(env) && later.validate == env.validate && k in Restarted(env, s).slots
    ensures var slot := Restarted(env, s).slots[k]; RestartedSlot(later, slot) == slot && WorthReviving(slot)
  {
    hide Read, Written, Synthetic;
    SyntheticTwice(s.slots[k].pending);
    ReadTwice(env, later, s.slots[k].settings);
  }

  lemma RestartTwice(env: Env, later: Env, s: State)
    requires OwnIds(s) && Stable(env) && later.validate == env.validate
    ensures Restarted(later, Restarted(env, s)) == Pruned(later, Restarted(env, s))
  {
    var t := Restarted(env, s);
    forall k | k in t.slots ensures RestartedSlot(later, t.slots[k]) == t.slots[k] && WorthReviving(t.slots[k]) {
      SlotRestartsTwice(env, later, s, k);
    }
    hide RestartedSlot, Survives, WorthReviving;
    RestartPrunes(later, t);
  }

  lemma RestartPrunes(later: Env, t: State)
    requires forall k :: k in t.slots ==> RestartedSlot(later, t.slots[k]) == t.slots[k] && WorthReviving(t.slots[k])
    ensures Restarted(later, t) == Pruned(later, t)
  {
    hide RestartedSlot, Survives, WorthReviving;
    assert forall k :: Revived(later, t, k) <==> k in t.slots && Survives(later, t.slots[k].settings);
    hide Revived;
    assert Restarted(later, t).slots == Pruned(later, t).slots;
    assert Restarted(later, t).aliases == Pruned(later, t).aliases;
  }

  /** From `env` to `later` only time has passed: exactly the sessions grown too old go. */
  ghost predicate OnlyTheAgedGo(env: Env, later: Env, t: State) {
    && (forall k :: k in t.slots ==>
          (k in Pruned(later, t).slots <==> later.now - t.slots[k].settings.lastSeenAt <= PRUNE_AGE_MS))
    && (later.now <= env.now ==> Pruned(later, t) == t)
  }

  lemma OnlyItsAgeCounts(env: Env, later: Env, s: State, k: Sid)
    requires Stable(env) && later.validate == env.validate && later.cwdAllowed == env.cwdAllowed
    requires k in Restarted(env, s).slots
    ensures var x := Restarted(env, s).slots[k].settings;
            && (Survives(later, x) <==> later.now - x.lastSeenAt <= PRUNE_AGE_MS)
            && (later.now <= env.now ==> Survives(later, x))
  {
    ReadTwice(env, later, s.slots[k].settings);
    hide Read, Written, Synthetic, Migrated;
  }

  lemma NothingPruned(later: Env, t: State)
    requires forall k :: k in t.slots ==> Survives(later, t.slots[k].settings)
    requires forall a :: a in t.aliases ==> t.aliases[a] in t.slots
    ensures Pruned(later, t) == t
  {
    hide Survives;
  }

  lemma RestartedAliasesLead(env: Env, s: State)
    ensures var t := Restarted(env, s); forall a :: a in t.aliases ==> t.aliases[a] in t.slots
  {
  }

  lemma OnlyAgeCounts(env: Env, later: Env, s: State)
    requires Stable(env) && later.validate == env.validate && later.cwdAllowed == env.cwdAllowed
    ensures OnlyTheAgedGo(env, later, Restarted(env, s))
  {
    var t := Restarted(env, s);
    RestartedAliasesLead(env, s);
    hide Survives, Restarted, Stable;
    forall k | k in t.slots
      ensures Survives(later, t.slots[k].settings) <==> later.now - t.slots[k].settings.lastSeenAt <= PRUNE_AGE_MS
      ensures later.now <= env.now ==> Survives(later, t.slots[k].settings)
    {
      OnlyItsAgeCounts(env, later, s, k);
    }
    if later.now <= env.now { NothingPruned(later, t); }
  }

  /**
   A second save and load, at any later time and under any policy, whichever orders the two saves
   choose, changes no session: it drops exactly those that no longer survive, with their aliases. When
   only time has passed these are exactly the sessions grown too old in between, and when not even
   that nothing changes.
   */
  lemma SecondRestartOnlyPrunes(env: Env, later: Env, s: State, file: seq<Entry>, file': seq<Entry>)
    requires OwnIds(s) && Stable(env) && later.validate == env.validate
    requires Saved(s, file) && Saved(Load(env, EMPTY, file), file')
    ensures var t := Load(env, EMPTY, file);
            && Load(later, EMPTY, file') == Pruned(later, t)
            && (later.cwdAllowed == env.cwdAllowed ==> OnlyTheAgedGo(env, later, t))
  {
    hide *;
    RestartHasOwnIds(env, s);
    RoundTrip(env, s, file);
    RoundTrip(later, Restarted(env, s), file');
    RestartTwice(env, later, s);
    if later.cwdAllowed == env.cwdAllowed { OnlyAgeCounts(env, later, s); }
  }

  lemma RestartHasOwnIds(env: Env, s: State)
    requires OwnIds(s)
    ensures OwnIds(Restarted(env, s))
  {
  }

  /** The registry's own view of this state. */
  function Ids(s: State, used: set<Sid>): SessionRegistry.State {
    SessionRegistry.State(
      map k | k in s.slots :: SessionRegistry.Slot(s.slots[k].sessionId, s.slots[k].live.destroying),
      s.aliases, used)
  }

  lemma RestartRestricts(env: Env, s: State, used: set<Sid>)
    requires OwnIds(s)
    ensures SessionRegistry.Restricted(Ids(s, used), Ids(Restarted(env, s), used))
  {
    hide RestartedSlot, Survives;
    forall k | k in Restarted(env, s).slots ensures Restarted(env, s).slots[k].sessionId == k {
      RestartedId(env, s.slots[k]);
    }
  }

  /** A restart is one more step of the registry: its shape holds, nothing merges, nothing comes back. */
  lemma RestartFollows(env: Env, s: State, file: seq<Entry>, used: set<Sid>)
    requires SessionRegistry.Inv(Ids(s, used)) && Saved(s, file)
    ensures SessionRegistry.Inv(Ids(Load(env, EMPTY, file), used))
    ensures SessionRegistry.Follows(Ids(s, used), Ids(Load(env, EMPTY, file), used))
  {
    forall k | k in s.slots ensures s.slots[k].sessionId == k {
      assert Ids(s, used).slots[k].sessionId == k;
    }
    hide *;
    RoundTrip(env, s, file);
    RestartRestricts(env, s, used);
    SessionRegistry.RestrictedFollows(Ids(s, used), Ids(Restarted(env, s), used));
  }

  lemma RestartedId(env: Env, slot: Slot)
    ensures RestartedSlot(env, slot).sessionId == slot.sessionId
  {
  }

  lemma ListedMore(file: seq<Entry>, e: Entry)
    ensures forall k :: Listed(file + [e], k) <==> Listed(file, k) || k == e.sessionId
  {
    forall k ensures Listed(file + [e], k) <==> Listed(file, k) || k == e.sessionId {
      if Listed(file, k) {
        var i :| 0 <= i < |file| && file[i].sessionId == k;
        assert (file + [e])[i].sessionId == k;
      }
      assert (file + [e])[|file|] == e;
    }
  }

  // ---- The maps, changed in place ------------------------------------------------------------

  class Sessions {
    var slots: map<Sid, Slot>
    var aliases: SessionRegistry.Aliases

    constructor ()
      ensures Abs() == EMPTY
    {
      slots, aliases := map[], map[];
    }

    ghost function Abs(): State
      reads this
    {
      State(slots, aliases)
    }

    method FindAliases(canonicalId: Sid) returns (out: seq<Sid>)
      ensures forall a :: a in out <==> a in SessionRegistry.AliasesFor(aliases, canonicalId)
    {
      out := [];
      var todo := aliases.Keys;
      while todo != {}
        invariant todo <= aliases.Keys
        invariant forall a :: a in out <==> a in aliases && a !in todo && aliases[a] == canonicalId
        decreases |todo|
      {
        var old_ :| old_ in todo;
        if aliases[old_] == canonicalId { out := out + [old_]; }
        todo := todo - {old_};
      }
    }

    method EntryFor(id: Sid) returns (e: Entry)
      requires OwnIds(Abs()) && id in slots && WorthReviving(slots[id])
      ensures e.sessionId == id && Writes(Abs(), id, e)
    {
      var slot := slots[id];
      var al := FindAliases(slot.sessionId);
      e := Entry(slot.sessionId, Written(slot.settings), al, Synthetic(slot.pending));
    }

    method SaveCheckpoint() returns (file: seq<Entry>)
      requires OwnIds(Abs())
      ensures Saved(Abs(), file)
    {
      hide Writes, Listed, OwnIds;
      file := [];
      var todo := slots.Keys;
      while todo != {}
        invariant todo <= slots.Keys
        invariant forall i, j :: 0 <= i < j < |file| ==> file[i].sessionId != file[j].sessionId
        invariant forall i :: 0 <= i < |file| ==>
                    file[i].sessionId !in todo && Writes(Abs(), file[i].sessionId, file[i])
        invariant forall k :: k in slots && k !in todo && WorthReviving(slots[k]) ==> Listed(file, k)
        decreases |todo|
      {
        var id :| id in todo;
        var slot := slots[id];
        if slot.status != Expired && slot.status != Provisioning {
          var e := EntryFor(id);
          ListedMore(file, e);
          file := file + [e];
        }
        todo := todo - {id};
      }
    }

    method SetAliasesTo(olds: seq<Sid>, id: Sid)
      modifies `aliases
      ensures aliases == SetAliases(old(aliases), olds, id)
    {
      var i := 0;
      while i < |olds|
        invariant 0 <= i <= |olds|
        invariant SetAliases(aliases, olds[i..], id) == SetAliases(old(aliases), olds, id)
      {
        aliases := aliases[olds[i] := id];
        i := i + 1;
      }
    }

    /** `changed`: something was pruned or migrated, and the checkpoint is saved again. */
    method LoadCheckpoint(env: Env, file: seq<Entry>) returns (changed: bool)
      modifies this
      ensures Abs() == Load(env, old(Abs()), file)
      ensures changed <==> exists i :: 0 <= i < |file| && !AsItWas(env, file[i].settings)
    {
      changed := false;
      var i := 0;
      while i < |file|
        invariant 0 <= i <= |file|
        invariant Load(env, Abs(), file[i..]) == Load(env, old(Abs()), file)
        invariant changed <==> exists j :: 0 <= j < i && !AsItWas(env, file[j].settings)
      {
        var entry := file[i];
        if env.now - entry.settings.lastSeenAt > PRUNE_AGE_MS {
          changed := true;
        } else {
          var cwd := entry.settings.cwd;
          if cwd == "/workspace" {
            cwd := "/home/agent/workspace";
            changed := true;
          }
          if env.cwdAllowed(cwd) {
            slots := slots[entry.sessionId := SlotFrom(env, entry)];
            SetAliasesTo(entry.aliases, entry.sessionId);
          } else {
            changed := true;
          }
        }
        i := i + 1;
      }
    }
  }
}
