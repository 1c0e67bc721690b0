/**
 What the permission gate and its route decide, said once more as flat conditions on the request, the
 classifiers, the flags of the session's slot and the participant header. None of the gate's own
 branches is used to say it: `PermissionGate` is proved to follow these rules, in any state for one
 ask and over whole runs for what a hook is told.
*/
module PermissionRules {
  import opened Wrappers
  import opened PermissionGate
  import JsText
  import Collections

  // ---- Tool names ----------------------------------------------------------------------------

  /** One of hooop's own tools: the name mentions hooop somewhere and ends in the suffix. */
  ghost predicate Named(name: string, suffix: string) {
    (exists a, b :: name == a + "hooop" + b) && (exists a :: name == a + suffix)
  }

  ghost predicate Submits(name: string) { name == "ExitPlanMode" || Named(name, "__submit_plan") }
  ghost predicate Enters(name: string) { Named(name, "__enter_plan_mode") }
  ghost predicate Questions(name: string) { name == "AskUserQuestion" || Named(name, "__ask_user_question") }
  ghost predicate Publishes(name: string) { Named(name, "__share_preview") }
  ghost predicate WorksAlone(name: string) {
    || Named(name, "__start_preview") || Named(name, "__restart_preview") || Named(name, "__rebuild_preview")
    || Named(name, "__stop_preview") || Named(name, "__list_previews")
    || Named(name, "__page_snapshot") || Named(name, "__page_click") || Named(name, "__page_type")
    || Named(name, "__list_page_tools") || Named(name, "__call_page_tool")
  }

  ghost predicate ReadsFiles(name: string) { name in {"Read", "Glob", "Grep", "NotebookRead"} }
  ghost predicate OnlyReads(name: string) {
    ReadsFiles(name) || name in {"ToolSearch", "WebFetch", "WebSearch", "TodoWrite"}
  }

  lemma {:induction false} IncludesMeans(s: string, word: string)
    ensures Includes(s, word) <==> exists a, b :: s == a + word + b
    decreases |s|
  {
    if word <= s {
      assert s == "" + word + s[|word|..];
    } else if s != "" {
      IncludesMeans(s[1..], word);
      if Includes(s[1..], word) {
        var a, b :| s[1..] == a + word + b;
        assert s == ([s[0]] + a) + word + b;
      }
      forall a, b | s == a + word + b ensures exists a', b' :: s[1..] == a' + word + b' {
        assert a != "";
        assert s[1..] == a[1..] + word + b;
      }
    } else {
      assert forall a, b :: |a + word + b| >= |word|;
    }
  }

  lemma NamedMeans(name: string, suffix: string)
    ensures HooopTool(name, suffix) <==> Named(name, suffix)
  {
    IncludesMeans(name, "hooop");
    if EndsWith(name, suffix) {
      assert name == name[..|name| - |suffix|] + suffix;
    }
  }

  lemma NamesMean(name: string)
    ensures IsPlanSubmit(name) <==> Submits(name)
    ensures IsEnterPlan(name) <==> Enters(name)
    ensures IsAsk(name) <==> Questions(name)
    ensures IsSharePreview(name) <==> Publishes(name)
    ensures IsOtherPreview(name) || IsPageTool(name) <==> WorksAlone(name)
    ensures name in PLAN_READONLY_TOOLS <==> OnlyReads(name)
    ensures name in READ_FAST_LANE_TOOLS <==> ReadsFiles(name)
  {
    hide HooopTool, Named;
    NamedMeans(name, "__submit_plan");
    NamedMeans(name, "__enter_plan_mode");
    NamedMeans(name, "__ask_user_question");
    NamedMeans(name, "__share_preview");
    NamedMeans(name, "__start_preview");
    NamedMeans(name, "__restart_preview");
    NamedMeans(name, "__rebuild_preview");
    NamedMeans(name, "__stop_preview");
    NamedMeans(name, "__list_previews");
    NamedMeans(name, "__page_snapshot");
    NamedMeans(name, "__page_click");
    NamedMeans(name, "__page_type");
    NamedMeans(name, "__list_page_tools");
    NamedMeans(name, "__call_page_tool");
  }

  lemma NamedEnds(name: string, suffix: string)
    requires suffix != ""
    ensures Named(name, suffix) ==> |name| >= |suffix| && name[|name| - 1] == suffix[|suffix| - 1]
  {
  }

  /** The native names are too short, or end otherwise, to be hooop's. */
  lemma NativeNames(name: string)
    ensures OnlyReads(name) || name == "Bash" ==>
              !Submits(name) && !Enters(name) && !Questions(name) && !Publishes(name) && !WorksAlone(name)
    ensures Questions(name) ==> !Publishes(name) && !WorksAlone(name)
  {
    hide Named;
    NamedEnds(name, "__submit_plan");
    NamedEnds(name, "__enter_plan_mode");
    NamedEnds(name, "__ask_user_question");
    NamedEnds(name, "__share_preview");
    NamedEnds(name, "__start_preview");
    NamedEnds(name, "__restart_preview");
    NamedEnds(name, "__rebuild_preview");
    NamedEnds(name, "__stop_preview");
    NamedEnds(name, "__list_previews");
    NamedEnds(name, "__page_snapshot");
    NamedEnds(name, "__page_click");
    NamedEnds(name, "__page_type");
    NamedEnds(name, "__list_page_tools");
    NamedEnds(name, "__call_page_tool");
  }

  // ---- What is decided at once ---------------------------------------------------------------

  ghost function LiveSlot(s: State, sid: Sid): Option<Slot> {
    if sid in s.slots then Some(s.slots[sid]) else None
  }

  ghost function Workdir(slot: Option<Slot>): Option<string> {
    match slot case Some(sl) => Some(sl.cwd) case None => None
  }

  /** A plan turn is read-only; a question is still asked. */
  ghost predicate ReadOnlyTurn(slot: Option<Slot>, r: Request) {
    slot.Some? && slot.value.planTurn && !Questions(r.tool)
  }

  ghost predicate CriticalCall(p: Policy, slot: Option<Slot>, r: Request) {
    p.criticalTool(r.tool, r.input, Workdir(slot))
  }

  ghost predicate CriticalCommand(p: Policy, r: Request) {
    r.input.command.Some? && p.criticalBash(r.input.command.value)
  }

  /** The share an ask is attributed to: the request's own, or else that of the turn's driver. */
  ghost function AskedFor(slot: Option<Slot>, r: Request): Option<ShareId> {
    match r.shareId
    case Some(id) => r.shareId
    case None => match slot case Some(sl) => sl.driver case None => None
  }

  /** The slot's standing permissions: an approved plan's turn, a trusted peer's turn, auto mode. */
  ghost predicate Standing(sl: Slot, who: Option<ShareId>) {
    sl.planRun || sl.autoMode || (who.Some? && who.value != "" && who.value in sl.trusted)
  }

  ghost predicate AllowedAtOnce(p: Policy, slot: Option<Slot>, r: Request) {
    if ReadOnlyTurn(slot, r) then OnlyReads(r.tool) && !CriticalCall(p, slot, r)
    else
      || (ReadsFiles(r.tool) && !CriticalCall(p, slot, r))
      || (r.tool == "Bash" && !CriticalCommand(p, r))
      || (slot.Some? && Standing(slot.value, AskedFor(slot, r)) && !CriticalCall(p, slot, r)
          && !Submits(r.tool) && !Enters(r.tool) && !Questions(r.tool) && !Publishes(r.tool) && !WorksAlone(r.tool))
  }

  ghost predicate DeniedAtOnce(p: Policy, slot: Option<Slot>, r: Request) {
    || Submits(r.tool) || Enters(r.tool)
    || (ReadOnlyTurn(slot, r) && !(OnlyReads(r.tool) && !CriticalCall(p, slot, r)))
    || (!ReadOnlyTurn(slot, r) && Publishes(r.tool) && !WorksAlone(r.tool) && r.target == NotShareable)
  }

  ghost predicate RunsUnasked(slot: Option<Slot>, r: Request) {
    WorksAlone(r.tool) && !Submits(r.tool) && !Enters(r.tool) && !ReadOnlyTurn(slot, r)
  }

  ghost predicate Shown(p: Policy, slot: Option<Slot>, r: Request) {
    !AllowedAtOnce(p, slot, r) && !DeniedAtOnce(p, slot, r) && !RunsUnasked(slot, r)
  }

  ghost function ShownAs(r: Request): string { if Questions(r.tool) then "AskUserQuestion" else r.tool }

  ghost predicate HostOnly(p: Policy, slot: Option<Slot>, r: Request) {
    p.criticalTool(ShownAs(r), r.input, Workdir(slot)) || Publishes(r.tool)
  }

  ghost function TheCard(p: Policy, slot: Option<Slot>, r: Request): Ask {
    Ask(r.id, ShownAs(r), AskedFor(slot, r), HostOnly(p, slot, r), false, slot.Some? && slot.value.planTurn)
  }

  lemma GateFollowsTheRules(p: Policy, slot: Option<Slot>, r: Request)
    ensures var v := Gate(p, slot, r);
            && (v.Decide? && v.decision == Allow <==> AllowedAtOnce(p, slot, r))
            && ((v.Decide? && v.decision == Deny) || v.OpenReview? || v.EnterPlan? <==> DeniedAtOnce(p, slot, r))
            && (v.RunInBackground? <==> RunsUnasked(slot, r))
            && (v.OpenReview? ==> slot.Some?)
            && (v.EnterPlan? <==> Enters(r.tool) && !Submits(r.tool))
  {
    hide HooopTool, Named, IsPlanSubmit, IsEnterPlan, IsSharePreview, IsOtherPreview, IsPageTool, PlanText,
         Submits, Enters, Publishes, WorksAlone, Questions, IsAsk;
    NamesMean(r.tool);
    NativeNames(r.tool);
    NamesMean("AskUserQuestion");
  }

  // ---- What an ask leaves behind -------------------------------------------------------------

  ghost predicate HasText(text: string) { exists i :: 0 <= i < |text| && !JsText.IsSpace(text[i]) }

  /** A submitted plan is captured from the call, or else from the turn's prose, if there is a slot to show it on. */
  ghost predicate OpensReview(slot: Option<Slot>, r: Request) {
    Submits(r.tool) && slot.Some?
    && ((r.input.plan.Some? && HasText(r.input.plan.value)) || HasText(slot.value.lastText))
  }

  /** The session's one review is `reviewId`, at the end; earlier ones are gone and the other cards stay. */
  ghost predicate ReviewPut(was: Slot, now: Slot, reviewId: ReqId) {
    && now == was.(pending := now.pending)
    && now.pending != []
    && now.pending[|now.pending| - 1] == Ask(reviewId, "ExitPlanMode", was.driver, false, true, false)
    && var others := now.pending[..|now.pending| - 1];
       forall c :: multiset(others)[c] == if c.synthetic then 0 else multiset(was.pending)[c]
  }

  /** The boards and the slots' flags after an ask. */
  ghost predicate BoardsAfter(p: Policy, s: State, t: State, r: Request, reviewId: ReqId) {
    var slot := LiveSlot(s, r.sid);
    && t.slotless == (if slot.None? && Shown(p, slot, r)
                      then s.slotless[r.sid := (if r.sid in s.slotless then s.slotless[r.sid] else [])
                                               + [TheCard(p, slot, r)]]
                      else s.slotless)
    && t.slots.Keys == s.slots.Keys
    && (forall sid :: sid in s.slots && sid != r.sid ==> t.slots[sid] == s.slots[sid])
    && (slot.Some? ==>
          if OpensReview(slot, r) then ReviewPut(slot.value, t.slots[r.sid], reviewId)
          else if Enters(r.tool) && !Submits(r.tool) then t.slots[r.sid] == slot.value.(planTurn := true)
          else if Shown(p, slot, r)
          then t.slots[r.sid] == slot.value.(pending := slot.value.pending + [TheCard(p, slot, r)])
          else t.slots[r.sid] == slot.value)
  }

  /** What is recorded of an ask is what became of it. */
  ghost predicate RecordedAs(p: Policy, s: State, t: State, r: Request) {
    var slot := LiveSlot(s, r.sid);
    r.id in t.asks
    && var rec := t.asks[r.id];
       && rec.sid == r.sid && rec.viaGate && rec.tool == ShownAs(r) && rec.critical == HostOnly(p, slot, r)
       && (rec.verdict == Card <==> Shown(p, slot, r))
       && (rec.verdict == RunInBackground <==> RunsUnasked(slot, r))
       && (rec.verdict.Decide? && rec.verdict.decision == Allow <==> AllowedAtOnce(p, slot, r))
  }

  lemma CardFollowsTheRules(p: Policy, slot: Option<Slot>, r: Request)
    ensures CardFor(p, slot, r) == TheCard(p, slot, r)
    ensures MarkCritical(p, Normalized(r.tool), r.input, CwdOf(slot)) == HostOnly(p, slot, r)
    ensures Normalized(r.tool) == ShownAs(r)
  {
    hide HooopTool, Named, IsSharePreview, Publishes, WorksAlone;
    NamesMean(r.tool);
    NativeNames(r.tool);
    NamesMean("AskUserQuestion");
    NativeNames("AskUserQuestion");
  }

  lemma ReviewFollowsTheRules(p: Policy, slot: Option<Slot>, r: Request)
    ensures Gate(p, slot, r).OpenReview? <==> OpensReview(slot, r)
  {
    hide HooopTool, Named, IsPlanSubmit, IsEnterPlan, IsSharePreview, IsOtherPreview, IsPageTool, IsAsk, MarkCritical,
         Submits, JsText.IsSpace;
    NamesMean(r.tool);
    assert forall text :: HasText(text) <==> !JsText.IsBlank(text);
  }

  lemma {:induction false} RealOnesStay(cards: seq<Ask>)
    ensures forall c :: multiset(NotSynthetic(cards))[c] == if c.synthetic then 0 else multiset(cards)[c]
  {
    if cards != [] {
      RealOnesStay(cards[1..]);
      assert cards == [cards[0]] + cards[1..];
    }
  }

  lemma ReviewIsPut(sl: Slot, reviewId: ReqId)
    ensures ReviewPut(sl, sl.(pending := NotSynthetic(sl.pending) + [ReviewAsk(sl, reviewId)]), reviewId)
  {
    RealOnesStay(sl.pending);
    var kept := NotSynthetic(sl.pending);
    assert (kept + [ReviewAsk(sl, reviewId)])[..|kept|] == kept;
    hide NotSynthetic;
  }

  /** A slot after a verdict on an ask of its session. */
  ghost function AfterOnSlot(sl: Slot, v: Verdict, card: Ask, reviewId: ReqId): Slot {
    match v
    case OpenReview => sl.(pending := NotSynthetic(sl.pending) + [ReviewAsk(sl, reviewId)])
    case EnterPlan => sl.(planTurn := true)
    case Card => sl.(pending := sl.pending + [card])
    case _ => sl
  }

  ghost predicate Moves(s: State, t: State, r: Request, reviewId: ReqId, v: Verdict, card: Ask) {
    && t.slotless == (if v == Card && r.sid !in s.slots
                      then s.slotless[r.sid := (if r.sid in s.slotless then s.slotless[r.sid] else []) + [card]]
                      else s.slotless)
    && t.slots == (if r.sid in s.slots
                   then s.slots[r.sid := AfterOnSlot(s.slots[r.sid], v, card, reviewId)] else s.slots)
    && t.responded == s.responded
  }

  lemma NothingMoves(s: State, t: State, r: Request, reviewId: ReqId, v: Verdict, card: Ask)
    requires t.slots == s.slots && t.slotless == s.slotless && t.responded == s.responded
    requires v.Decide? || v.RunInBackground?
    ensures Moves(s, t, r, reviewId, v, card)
  {
    assert r.sid in s.slots ==> s.slots[r.sid := s.slots[r.sid]] == s.slots;
  }

  lemma SlotMoves(s: State, t: State, r: Request, reviewId: ReqId, v: Verdict, card: Ask)
    requires r.sid in s.slots && t.slots == s.slots[r.sid := AfterOnSlot(s.slots[r.sid], v, card, reviewId)]
    requires t.slotless == s.slotless && t.responded == s.responded
    ensures Moves(s, t, r, reviewId, v, card)
  {
    hide AfterOnSlot;
  }

  lemma NobodyMoves(s: State, t: State, r: Request, reviewId: ReqId, v: Verdict, card: Ask)
    requires r.sid !in s.slots && t.slots == s.slots && t.responded == s.responded
    requires t.slotless == if v == Card
                           then s.slotless[r.sid := (if r.sid in s.slotless then s.slotless[r.sid] else []) + [card]]
                           else s.slotless
    ensures Moves(s, t, r, reviewId, v, card)
  {
  }

  lemma VerdictMoves(s: State, r: Request, reviewId: ReqId, v: Verdict, card: Ask)
    requires v.OpenReview? ==> r.sid in s.slots
    ensures var t := AfterVerdict(s, r, reviewId, v, card);
            && Moves(s, t, r, reviewId, v, card)
            && (reviewId != r.id && r.id in s.asks ==> r.id in t.asks && t.asks[r.id] == s.asks[r.id])
  {
    hide Moves, NotSynthetic, ReviewAsk, ReviewRecord;
    var t := AfterVerdict(s, r, reviewId, v, card);
    match v {
      case Decide(decision, why) => NothingMoves(s, t, r, reviewId, v, card);
      case RunInBackground => NothingMoves(s, t, r, reviewId, v, card);
      case OpenReview =>
        assert t.asks == s.asks[reviewId := ReviewRecord(s, r.sid)];
        SlotMoves(s, t, r, reviewId, v, card);
      case EnterPlan =>
        if r.sid in s.slots { SlotMoves(s, t, r, reviewId, v, card); } else { NobodyMoves(s, t, r, reviewId, v, card); }
      case Card =>
        if r.sid in s.slots { SlotMoves(s, t, r, reviewId, v, card); } else { NobodyMoves(s, t, r, reviewId, v, card); }
    }
  }

  lemma AskIsItsVerdict(p: Policy, s: State, r: Request, reviewId: ReqId)
    ensures var s1 := s.(early := s.early - {r.id}, asks := s.asks[r.id := RecordOf(p, s, r)]);
            var slot := LiveSlot(s, r.sid);
            && (Gate(p, slot, r).OpenReview? ==> r.sid in s.slots)
            && Step(p, s, AskThroughGate(r, reviewId))
               == AfterVerdict(s1, r, reviewId, Gate(p, slot, r), TheCard(p, slot, r))
            && RecordOf(p, s, r).verdict == Gate(p, slot, r)
  {
    hide Gate, CardFor, TheCard, AfterVerdict, MarkCritical, HostOnly;
    assert SlotOf(s, r.sid) == LiveSlot(s, r.sid);
    CardFollowsTheRules(p, LiveSlot(s, r.sid), r);
    if Gate(p, SlotOf(s, r.sid), r).OpenReview? { GateOpens(p, s, r); }
  }

  lemma RecordFollowsTheRules(p: Policy, s: State, t: State, r: Request)
    requires r.id in t.asks && t.asks[r.id] == RecordOf(p, s, r)
    ensures RecordedAs(p, s, t, r)
  {
    hide Gate, CardFor, TheCard, MarkCritical, HostOnly, AllowedAtOnce, DeniedAtOnce, RunsUnasked, Questions, IsAsk;
    var slot := LiveSlot(s, r.sid);
    assert SlotOf(s, r.sid) == slot;
    CardFollowsTheRules(p, slot, r);
    GateFollowsTheRules(p, slot, r);
  }

  lemma BoardsFollowTheRules(p: Policy, s: State, t: State, r: Request, reviewId: ReqId, v: Verdict)
    requires v == Gate(p, LiveSlot(s, r.sid), r) && Moves(s, t, r, reviewId, v, TheCard(p, LiveSlot(s, r.sid), r))
    ensures BoardsAfter(p, s, t, r, reviewId)
  {
    hide Gate, TheCard, AllowedAtOnce, DeniedAtOnce, RunsUnasked, OpensReview, Submits, Enters, NotSynthetic,
         ReviewAsk, ReviewPut;
    var slot := LiveSlot(s, r.sid);
    GateFollowsTheRules(p, slot, r);
    ReviewFollowsTheRules(p, slot, r);
    if v.OpenReview? { ReviewIsPut(slot.value, reviewId); }
  }

  lemma SameBoards(s1: State, s: State, t: State, r: Request, reviewId: ReqId, v: Verdict, card: Ask)
    requires Moves(s1, t, r, reviewId, v, card) && s1.slots == s.slots && s1.slotless == s.slotless
    requires s1.responded == s.responded
    ensures Moves(s, t, r, reviewId, v, card)
  {
    hide AfterOnSlot;
  }

  /**
   One ask, in any state. The hook is told "allow" at once, or "deny" at once, exactly under the two
   flat conditions, and these exclude each other; an ask under neither, unless it works alone in the
   background, becomes one card on its session's board, or on the board of sessions without a slot; a
   submitted plan with text opens the session's one review; and nothing else on a board or among the
   flags changes. What is recorded of the ask agrees.
   */
  lemma AskFollowsTheRules(p: Policy, s: State, r: Request, reviewId: ReqId)
    ensures var t := Step(p, s, AskThroughGate(r, reviewId));
            var slot := LiveSlot(s, r.sid);
            && (Peek(t, r.id).Some? && Peek(t, r.id).value.decision == Allow <==> AllowedAtOnce(p, slot, r))
            && (Peek(t, r.id).Some? && Peek(t, r.id).value.decision == Deny <==> DeniedAtOnce(p, slot, r))
            && (forall id :: id != r.id ==> Peek(t, id) == Peek(s, id))
            && BoardsAfter(p, s, t, r, reviewId)
            && (reviewId != r.id ==> RecordedAs(p, s, t, r))
  {
    hide Gate, TheCard, AllowedAtOnce, DeniedAtOnce, RunsUnasked, AfterVerdict, Moves, BoardsAfter, RecordedAs,
         RecordOf, Step;
    var slot := LiveSlot(s, r.sid);
    var s1 := s.(early := s.early - {r.id}, asks := s.asks[r.id := RecordOf(p, s, r)]);
    var v, card := Gate(p, slot, r), TheCard(p, slot, r);
    AskIsItsVerdict(p, s, r, reviewId);
    var t := AfterVerdict(s1, r, reviewId, v, card);
    VerdictMoves(s1, r, reviewId, v, card);
    SameBoards(s1, s, t, r, reviewId, v, card);
    BoardsFollowTheRules(p, s, t, r, reviewId, v);
    if reviewId != r.id { RecordFollowsTheRules(p, s, t, r); }
    GateFollowsTheRules(p, slot, r);
    assert SlotOf(s, r.sid) == slot;
    ReusedIdMeetsItsOwnVerdict(p, s, r, reviewId);
  }

  // ---- Who may answer ------------------------------------------------------------------------

  /** The card is on the board of its session: a live slot's, or that of a session without a slot. */
  ghost predicate Open(s: State, sid: Sid, card: Ask) {
    if sid in s.slots then !s.slots[sid].expired && card in s.slots[sid].pending
    else sid in s.slotless && card in s.slotless[sid]
  }

  /** The host: as such, or on a device that is enrolled and valid. */
  ghost predicate ByTheHost(e: Event)
    requires e.Route?
  {
    e.header == Host || (e.header.Device? && e.header.id != "" && e.header.id in e.devices)
  }

  /** A peer on a live share of that session: only questions without full access, and nothing critical. */
  ghost predicate ByAnEntitledPeer(e: Event, card: Ask)
    requires e.Route?
  {
    && e.header.Peer? && e.header.shareId in e.shares
    && var share := e.shares[e.header.shareId];
       && share.sessionId == e.sid && share.capability != Spectate && !card.critical
       && (card.tool == "AskUserQuestion" || share.capability == Full)
  }

  /** Event `e` answers an open card by someone who may. */
  ghost predicate Answers(s: State, e: Event, card: Ask) {
    e.Route? && Open(s, e.sid, card) && card.id == e.id && (ByTheHost(e) || ByAnEntitledPeer(e, card))
  }

  /** What a taken answer does: it is recorded once, its card goes, and no other card does. */
  ghost predicate AnswerTaken(s: State, t: State, e: Event, card: Ask)
    requires e.Route?
  {
    && t.responded == s.responded[e.id := Reply(e.decision, e.header.Peer?)]
    && (forall sid, c :: Open(t, sid, c) <==> Open(s, sid, c) && !(sid == e.sid && c == card))
    && (e.sid in s.slots ==>
          && e.sid in t.slots
          && t.slots[e.sid].trusted == s.slots[e.sid].trusted
               + if e.always && e.decision == Allow && !e.header.Peer? && card.shareId.Some? && card.shareId.value != ""
                 then {card.shareId.value} else {})
  }

  /** With distinct ids on a board, the card found under an id is the one. */
  lemma FoundIt(cards: seq<Ask>, card: Ask)
    requires Distinct(cards) && card in cards
    ensures var i := IndexOf(cards, card.id); i >= 0 && cards[i] == card
  {
    var j :| 0 <= j < |cards| && cards[j] == card;
    assert forall k :: 0 <= k < j ==> cards[k].id != cards[j].id;
  }

  lemma OpenCardFound(s: State, sid: Sid, card: Ask)
    requires Inv(s) && Open(s, sid, card)
    ensures var i := IndexOf(PendingOf(s, sid), card.id); i >= 0 && PendingOf(s, sid)[i] == card
    ensures card.id in s.asks && card.id !in s.responded && s.asks[card.id].critical == card.critical
    ensures s.asks[card.id].sid == sid && s.asks[card.id].verdict == Card
  {
    hide IndexOf;
    assert CardsOk(s.asks, s.responded, PendingOf(s, sid), sid, if sid in s.slots then OnSlot else OnSlotless);
    FoundIt(PendingOf(s, sid), card);
    assert CardOk(s.asks, s.responded, card, sid, if sid in s.slots then OnSlot else OnSlotless);
  }

  lemma RouteFollowsWhoMay(s: State, e: Event, card: Ask)
    requires e.Route?
    requires var i := IndexOf(PendingOf(s, e.sid), e.id); i >= 0 && PendingOf(s, e.sid)[i] == card
    ensures RouteAccepts(s, e.sid, e.id, CheckParticipant(e.header, e.sid, e.devices, e.shares))
            <==> ByTheHost(e) || ByAnEntitledPeer(e, card)
    ensures ByTheHost(e) ==> !e.header.Peer?
    ensures RouteAccepts(s, e.sid, e.id, CheckParticipant(e.header, e.sid, e.devices, e.shares)) ==>
              (CheckParticipant(e.header, e.sid, e.devices, e.shares).PeerOk? <==> e.header.Peer?)
  {
    hide IndexOf;
  }

  lemma TakesReplyExactly(s: State, e: Event)
    requires Inv(s) && e.Route?
    ensures TakesReply(s, e) <==> exists card :: Answers(s, e, card)
  {
    hide RouteAccepts, CheckParticipant, ByTheHost, ByAnEntitledPeer, IndexOf, Inv;
    forall card | Answers(s, e, card) ensures TakesReply(s, e) {
      OpenCardFound(s, e.sid, card);
      RouteFollowsWhoMay(s, e, card);
    }
    if TakesReply(s, e) {
      var card := PendingOf(s, e.sid)[IndexOf(PendingOf(s, e.sid), e.id)];
      RouteFollowsWhoMay(s, e, card);
      assert Open(s, e.sid, card);
      assert Answers(s, e, card);
    }
  }

  lemma DeliveryKeepsBoards(s: State, id: ReqId, a: Answer)
    ensures var t := Deliver(s, id, a);
            t.slots == s.slots && t.slotless == s.slotless && t.responded == s.responded
  {
    if id in s.waiters { FinishKeepsBoards(s, s.waiters[id], Decided(a)); }
    hide Finish;
  }

  lemma FinishKeepsBoards(s: State, w: WaitId, r: Settlement)
    ensures var t := Finish(s, w, r);
            t.slots == s.slots && t.slotless == s.slotless && t.responded == s.responded && t.asks == s.asks
  {
  }

  /** Everything about `Respond` on a slot's card but who is told. */
  lemma SlotAnswer(s: State, sid: Sid, id: ReqId, decision: Decision, always: bool, isPeer: bool)
    requires sid in s.slots && !s.slots[sid].expired && IndexOf(s.slots[sid].pending, id) >= 0
    ensures var t := Respond(s, sid, id, decision, always, isPeer);
            var sl := s.slots[sid];
            var i := IndexOf(sl.pending, id);
            && t.responded == s.responded[id := Reply(decision, isPeer)] && t.slotless == s.slotless
            && t.slots == s.slots[sid := sl.(pending := Splice(sl.pending, i),
                                             trusted := TrustedAfter(sl, sl.pending[i], decision, always))]
  {
    hide IndexOf, Splice, Deliver, TrustedAfter, Enqueue;
    var sl := s.slots[sid];
    var i := IndexOf(sl.pending, id);
    var s1 := Responded(WithSlot(s, sid, sl.(pending := Splice(sl.pending, i),
      trusted := TrustedAfter(sl, sl.pending[i], decision, always))), id, decision, isPeer);
    DeliveryKeepsBoards(s1, id, Answer(decision, ByHuman(isPeer)));
  }

  lemma SlotlessAnswer(s: State, sid: Sid, id: ReqId, decision: Decision, always: bool, isPeer: bool)
    requires sid !in s.slots && sid in s.slotless && IndexOf(s.slotless[sid], id) >= 0
    ensures var t := Respond(s, sid, id, decision, always, isPeer);
            && t.responded == s.responded[id := Reply(decision, isPeer)] && t.slots == s.slots
            && t.slotless == DropSlotless(s, sid, id).slotless
  {
    hide IndexOf, Deliver, DropSlotless;
    var s1 := Responded(DropSlotless(s, sid, id), id, decision, isPeer);
    assert DropSlotless(s, sid, id).slots == s.slots && DropSlotless(s, sid, id).responded == s.responded by {
      DropIsQuietOnSlots(s, sid, id);
    }
    DeliveryKeepsBoards(s1, id, Answer(decision, ByHuman(isPeer)));
  }

  lemma DropIsQuietOnSlots(s: State, sid: Sid, id: ReqId)
    ensures DropSlotless(s, sid, id).slots == s.slots && DropSlotless(s, sid, id).responded == s.responded
  {
    hide AllBut;
  }

  lemma OnlyTheCardGoes(cards: seq<Ask>, card: Ask)
    requires Distinct(cards) && card in cards
    ensures IndexOf(cards, card.id) >= 0
    ensures forall c :: c in Splice(cards, IndexOf(cards, card.id)) <==> c in cards && c != card
    ensures forall c :: c in AllBut(cards, card.id) <==> c in cards && c != card
  {
    FoundIt(cards, card);
    var i := IndexOf(cards, card.id);
    assert cards == cards[..i] + [cards[i]] + cards[i + 1..];
    assert forall c :: c in cards && c.id == card.id ==> c == card;
    Collections.FilterKeeps(HasOtherId(card.id), cards);
    hide IndexOf;
  }

  lemma OneAnswered(slots: map<Sid, Slot>, slotless: map<Sid, seq<Ask>>, s: State, t: State, sid: Sid, card: Ask)
    requires s.slots == slots && s.slotless == slotless && Open(s, sid, card)
    requires sid in slots ==>
               && t.slotless == slotless && t.slots.Keys == slots.Keys
               && (forall x :: x in slots && x != sid ==> t.slots[x] == slots[x])
               && t.slots[sid].expired == slots[sid].expired
               && forall c :: c in t.slots[sid].pending <==> c in slots[sid].pending && c != card
    requires sid !in slots ==>
               && t.slots == slots
               && (forall x :: x != sid ==> (x in t.slotless <==> x in slotless))
               && (forall x :: x != sid && x in slotless ==> t.slotless[x] == slotless[x])
               && forall c :: (sid in t.slotless && c in t.slotless[sid]) <==> c in slotless[sid] && c != card
    ensures forall x, c :: Open(t, x, c) <==> Open(s, x, c) && !(x == sid && c == card)
  {
  }

  lemma SlotAnswerTaken(s: State, t: State, e: Event, card: Ask)
    requires Inv(s) && Answers(s, e, card) && e.sid in s.slots
    requires t == Respond(s, e.sid, e.id, e.decision, e.always && !e.header.Peer?, e.header.Peer?)
    ensures AnswerTaken(s, t, e, card)
  {
    hide IndexOf, Respond, Inv, Open, Splice, ByTheHost, ByAnEntitledPeer;
    var cards := s.slots[e.sid].pending;
    DistinctCards(s, e.sid);
    assert card in cards && !s.slots[e.sid].expired by { OpenOnSlot(s, e.sid, card); }
    FoundIt(cards, card);
    OnlyTheCardGoes(cards, card);
    SlotAnswer(s, e.sid, e.id, e.decision, e.always && !e.header.Peer?, e.header.Peer?);
    OneAnswered(s.slots, s.slotless, s, t, e.sid, card);
  }

  lemma OpenOnSlot(s: State, sid: Sid, card: Ask)
    requires Open(s, sid, card)
    ensures sid in s.slots ==> card in s.slots[sid].pending && !s.slots[sid].expired
    ensures sid !in s.slots ==> sid in s.slotless && card in s.slotless[sid]
  {
  }

  lemma DistinctCards(s: State, sid: Sid)
    requires Inv(s)
    ensures Distinct(PendingOf(s, sid))
    ensures sid in s.slotless ==> Distinct(s.slotless[sid])
  {
  }

  lemma SlotlessAnswerTaken(s: State, t: State, e: Event, card: Ask)
    requires Inv(s) && Answers(s, e, card) && e.sid !in s.slots
    requires t == Respond(s, e.sid, e.id, e.decision, e.always && !e.header.Peer?, e.header.Peer?)
    ensures AnswerTaken(s, t, e, card)
  {
    hide IndexOf, Respond, Inv, Open, Splice, AllBut, ByTheHost, ByAnEntitledPeer;
    assert e.sid in s.slotless && card in s.slotless[e.sid] by { OpenOnSlot(s, e.sid, card); }
    var cards := s.slotless[e.sid];
    DistinctCards(s, e.sid);
    FoundIt(cards, card);
    OnlyTheCardGoes(cards, card);
    SlotlessAnswer(s, e.sid, e.id, e.decision, e.always && !e.header.Peer?, e.header.Peer?);
    OneAnswered(s.slots, s.slotless, s, t, e.sid, card);
  }

  lemma NoReplyTaken(p: Policy, s: State, e: Event)
    requires e.Route? && !TakesReply(s, e)
    ensures Step(p, s, e) == s
  {
    RouteIsRespond(p, s, e);
    hide Step, CheckParticipant, RouteAccepts, IndexOf, Splice, Deliver, DropSlotless;
  }

  lemma AnswerIsTaken(p: Policy, s: State, e: Event, card: Ask)
    requires Inv(s) && Answers(s, e, card)
    ensures AnswerTaken(s, Step(p, s, e), e, card) && e.id !in s.responded
  {
    hide Step, CheckParticipant, RouteAccepts, IndexOf, Respond, AnswerTaken, Inv, ByTheHost, ByAnEntitledPeer, Open;
    OpenCardFound(s, e.sid, card);
    RouteFollowsWhoMay(s, e, card);
    RouteIsRespond(p, s, e);
    if e.sid in s.slots {
      SlotAnswerTaken(s, Step(p, s, e), e, card);
    } else {
      SlotlessAnswerTaken(s, Step(p, s, e), e, card);
    }
  }

  /**
   The permission route. In every state of a run a request takes a reply exactly when a card with its
   id is open on that session's board and the participant is the host, on a valid device or not, or a
   peer on a live share of that session who may answer that card; it is then recorded with the
   participant's own standing, that card alone goes, and trust grows only by the host's "always".
   Otherwise nothing changes at all.
  */
  lemma RouteFollowsTheRules(p: Policy, s: State, e: Event)
    requires Inv(s) && e.Route?
    ensures (exists card :: Answers(s, e, card)) <==> e.id !in s.responded && e.id in Step(p, s, e).responded
    ensures forall card :: Answers(s, e, card) ==> AnswerTaken(s, Step(p, s, e), e, card)
    ensures (forall card :: !Answers(s, e, card)) ==> Step(p, s, e) == s
  {
    hide Step, Inv, TakesReply, Answers;
    TakesReplyExactly(s, e);
    if TakesReply(s, e) {
      forall card | Answers(s, e, card) ensures AnswerTaken(s, Step(p, s, e), e, card) && e.id !in s.responded {
        AnswerIsTaken(p, s, e, card);
      }
    } else {
      NoReplyTaken(p, s, e);
    }
  }

  // ---- Over whole runs -----------------------------------------------------------------------

  lemma AskRepliesNothing(p: Policy, s: State, r: Request, reviewId: ReqId)
    ensures Step(p, s, AskThroughGate(r, reviewId)).responded == s.responded
  {
    hide Gate, TheCard, AfterVerdict, RecordOf, Step;
    AskIsItsVerdict(p, s, r, reviewId);
    var s1 := s.(early := s.early - {r.id}, asks := s.asks[r.id := RecordOf(p, s, r)]);
    VerdictMoves(s1, r, reviewId, Gate(p, LiveSlot(s, r.sid), r), TheCard(p, LiveSlot(s, r.sid), r));
  }

  lemma ControlAskRepliesNothing(p: Policy, s: State, r: Request)
    ensures OnControlAsk(p, s, r).responded == s.responded
  {
    hide MarkCritical;
  }

  lemma WithdrawRepliesNothing(s: State, sid: Sid, id: ReqId)
    ensures OnWithdraw(s, sid, id).responded == s.responded
  {
    hide IndexOf, Splice;
    if sid in s.slots && IndexOf(s.slots[sid].pending, id) >= 0 {
      var slot := s.slots[sid].(pending := Splice(s.slots[sid].pending, IndexOf(s.slots[sid].pending, id)));
      assert OnWithdraw(s, sid, id) == WithSlot(s, sid, slot).(early := s.early - {id});
    }
  }

  lemma WaitRepliesNothing(s: State, w: WaitId, id: ReqId)
    ensures OnWait(s, w, id).responded == s.responded
  {
    var s1 := s.(waits := s.waits[w := id]);
    if id in s.early {
      assert OnWait(s, w, id)
             == s1.(settled := s.settled[w := Decided(s.early[id])], early := s.early - {id});
    } else {
      assert OnWait(s, w, id) == s1.(waiters := s.waiters[id := w]);
    }
    hide *;
  }

  lemma TurnRepliesNothing(s: State, sid: Sid, plan: bool, auto: bool, driver: Option<ShareId>)
    ensures OnTurnStarts(s, sid, plan, auto, driver).responded == s.responded
  {
  }

  lemma SpawnRepliesNothing(s: State, sid: Sid, cwd: string, autoMode: bool)
    ensures OnSpawn(s, sid, cwd, autoMode).responded == s.responded
  {
    hide Synthetic;
  }

  /** Only the route records replies. */
  lemma OthersReplyNothing(p: Policy, s: State, e: Event)
    requires !e.Route?
    ensures Step(p, s, e).responded == s.responded
  {
    hide OnAsk, OnRoute, OnWait, Deliver, Finish, OnControlAsk, OnWithdraw, DropSlotless, OnTurnStarts, OnSpawn;
    match e {
      case AskThroughGate(r, reviewId) => AskRepliesNothing(p, s, r, reviewId);
      case ControlAsk(r) => ControlAskRepliesNothing(p, s, r);
      case Wait(w, id) => WaitRepliesNothing(s, w, id);
      case Timeout(w) => FinishKeepsReplies(s, w, TimedOut);
      case PreviewSettled(id) => DeliverKeepsReplies(s, id, Answer(Deny, BySystem));
      case Withdraw(sid, id) => WithdrawRepliesNothing(s, sid, id);
      case DropStale(sid, id) => DropIsQuietOnSlots(s, sid, id);
      case TurnStarts(sid, plan, auto, driver) => TurnRepliesNothing(s, sid, plan, auto, driver);
      case Spawn(sid, cwd, autoMode) => SpawnRepliesNothing(s, sid, cwd, autoMode);
      case _ =>
    }
  }

  /** Event `k` answers ask `id` with decision `d`, by the host or by an entitled peer. */
  ghost predicate AnsweredAt(p: Policy, es: seq<Event>, k: nat, id: ReqId, d: Decision, host: bool)
    requires k < |es|
  {
    && es[k].Route? && es[k].id == id && es[k].decision == d && host == !es[k].header.Peer?
    && (host ==> ByTheHost(es[k]))
    && exists card :: Answers(At(p, es, k), es[k], card)
  }

  /** A recorded reply was given by some earlier request of the run. */
  lemma {:induction false} RepliedAt(p: Policy, es: seq<Event>, id: ReqId, n: nat) returns (k: nat)
    requires n <= |es| && AllWellUsed(p, Init(), es) && id in At(p, es, n).responded
    ensures k < n && AnsweredAt(p, es, k, id, At(p, es, n).responded[id].decision, !At(p, es, n).responded[id].isPeer)
    decreases n
  {
    hide *;
    NoReplyAtStart(p, es);
    if id in At(p, es, n - 1).responded {
      NextKeeps(p, es, n - 1);
      SameReply(At(p, es, n - 1), At(p, es, n), id);
      k := RepliedAt(p, es, id, n - 1);
    } else {
      NewReply(p, es, n - 1, id);
      k := n - 1;
    }
  }

  lemma NoReplyAtStart(p: Policy, es: seq<Event>)
    ensures At(p, es, 0).responded == map[]
  {
    AtStart(p, es);
  }

  lemma SameReply(s: State, t: State, id: ReqId)
    requires Kept(s, t) && id in s.responded
    ensures id in t.responded && t.responded[id] == s.responded[id]
  {
  }

  lemma NewReply(p: Policy, es: seq<Event>, k: nat, id: ReqId)
    requires k < |es| && AllWellUsed(p, Init(), es)
    requires var m := k + 1; id !in At(p, es, k).responded && id in At(p, es, m).responded
    ensures var m := k + 1; var reply := At(p, es, m).responded[id];
            AnsweredAt(p, es, k, id, reply.decision, !reply.isPeer)
  {
    hide At, Step, Inv, AllWellUsed, WellUsed, Open, OnlyGrows;
    var s, e := At(p, es, k), es[k];
    AtNext(p, es, k);
    NextKeeps(p, es, k);
    if !e.Route? {
      OthersReplyNothing(p, s, e);
    } else {
      RouteFollowsTheRules(p, s, e);
      var card :| Answers(s, e, card);
      assert AnswerTaken(s, Step(p, s, e), e, card);
    }
  }

  lemma {:induction false} RecordHeld(p: Policy, es: seq<Event>, id: ReqId, i: nat, n: nat)
    requires AllWellUsed(p, Init(), es) && i <= n <= |es| && id in At(p, es, i).asks
    ensures id in At(p, es, n).asks && At(p, es, n).asks[id] == At(p, es, i).asks[id]
    decreases n
  {
    hide *;
    if i < n {
      RecordHeld(p, es, id, i, n - 1);
      NextKeeps(p, es, n - 1);
      RecordStays(At(p, es, n - 1), At(p, es, n), id);
    }
  }

  lemma NewToTheBoard(p: Policy, s: State, r: Request, reviewId: ReqId)
    requires WellUsed(p, s, AskThroughGate(r, reviewId))
    ensures r.id !in s.asks && reviewId != r.id
  {
  }

  /** The ask of event `j`, in the state it met and in what the run remembers of it. */
  lemma AskedInRun(p: Policy, es: seq<Event>, j: nat, n: nat)
    requires AllWellUsed(p, Init(), es) && j < n <= |es| && es[j].AskThroughGate?
    ensures var m := j + 1;
            var r := es[j].request;
            var slot, told := LiveSlot(At(p, es, j), r.sid), Peek(At(p, es, m), r.id);
            && r.id !in At(p, es, j).asks
            && RecordedAs(p, At(p, es, j), At(p, es, n), r)
            && (told.Some? && told.value.decision == Allow <==> AllowedAtOnce(p, slot, r))
            && (told.Some? && told.value.decision == Deny <==> DeniedAtOnce(p, slot, r))
  {
    hide At, Step, Inv, AllWellUsed, WellUsed, AllowedAtOnce, DeniedAtOnce, RunsUnasked, HostOnly, BoardsAfter, Peek,
         Questions, LiveSlot;
    WellUsedBefore(p, es, j);
    AtNext(p, es, j);
    NewToTheBoard(p, At(p, es, j), es[j].request, es[j].reviewId);
    AskFollowsTheRules(p, At(p, es, j), es[j].request, es[j].reviewId);
    RecordHeld(p, es, es[j].request.id, j + 1, n);
  }

  /** Between its ask `j` and event `n`, ask `id` is allowed by a participant who may. */
  ghost predicate AllowedByReply(p: Policy, es: seq<Event>, j: nat, n: nat, id: ReqId, host: bool)
    requires n <= |es|
  {
    exists k :: j < k < n && AnsweredAt(p, es, k, id, Allow, host)
  }

  lemma AnsweredAfter(p: Policy, es: seq<Event>, j: nat, k: nat, id: ReqId, host: bool)
    requires AllWellUsed(p, Init(), es) && j < |es| && k < |es|
    requires id !in At(p, es, j).asks && es[j].AskThroughGate? && AnsweredAt(p, es, k, id, Allow, host)
    ensures j < k
  {
    hide At, Step, Inv, AllWellUsed, WellUsed, Open;
    WellUsedBefore(p, es, k);
    var card :| Answers(At(p, es, k), es[k], card);
    OpenCardFound(At(p, es, k), es[k].sid, card);
    if k < j { RecordHeld(p, es, id, k, j); }
  }

  /** An allow that was told goes back to the ask's own verdict, or to a reply on its card. */
  lemma ToldAllow(p: Policy, es: seq<Event>, id: ReqId, a: Answer, n: nat)
    requires AllWellUsed(p, Init(), es) && n <= |es| && ToldTo(At(p, es, n), id, a) && a.decision == Allow
    ensures var s := At(p, es, n);
            && id in s.asks
            && ((s.asks[id].verdict.Decide? && s.asks[id].verdict.decision == Allow && s.asks[id].viaGate)
                || (s.asks[id].verdict == Card && id in s.responded && a.cause.ByHuman?
                    && s.responded[id] == Reply(Allow, a.cause.isPeer)))
  {
    hide At, Step, AllWellUsed, ToldTo, Inv;
    InvAt(p, es, n);
    ToldWhatWasProduced(At(p, es, n), id, a);
  }

  lemma InvAt(p: Policy, es: seq<Event>, n: nat)
    requires AllWellUsed(p, Init(), es) && n <= |es|
    ensures Inv(At(p, es, n))
  {
    if n < |es| {
      hide *;
      WellUsedBefore(p, es, n);
    } else {
      assert es[..n] == es;
      RunKeeps(p, Init(), es);
      hide *;
    }
  }

  /**
   What a hook is told. In every run, right after an ask its hook is told "allow" exactly under the
   flat condition on the ask and the slot it met; and when it is ever told "allow" without that
   condition, inline or by a wait, its ask had become a card, and between the ask and now somebody who
   may answer that card allowed it.
   */
  lemma AllowedByRuleOrReply(p: Policy, es: seq<Event>, j: nat, n: nat)
    requires AllWellUsed(p, Init(), es) && j < n <= |es| && es[j].AskThroughGate?
    ensures var m := j + 1;
            var r := es[j].request;
            var slot, told := LiveSlot(At(p, es, j), r.sid), Peek(At(p, es, m), r.id);
            && (told.Some? && told.value.decision == Allow <==> AllowedAtOnce(p, slot, r))
            && (told.Some? && told.value.decision == Deny <==> DeniedAtOnce(p, slot, r))
            && forall a :: ToldTo(At(p, es, n), r.id, a) && a.decision == Allow && !AllowedAtOnce(p, slot, r) ==>
                 Shown(p, slot, r) && a.cause.ByHuman? && AllowedByReply(p, es, j, n, r.id, !a.cause.isPeer)
  {
    var r := es[j].request;
    var slot := LiveSlot(At(p, es, j), r.sid);
    AskedInRun(p, es, j, n);
    hide At, Step, Inv, AllWellUsed, WellUsed, AllowedAtOnce, DeniedAtOnce, RunsUnasked, HostOnly, Peek, ToldTo,
         Questions, LiveSlot, AnsweredAt;
    forall a | ToldTo(At(p, es, n), r.id, a) && a.decision == Allow && !AllowedAtOnce(p, slot, r)
      ensures Shown(p, slot, r) && a.cause.ByHuman? && AllowedByReply(p, es, j, n, r.id, !a.cause.isPeer)
    {
      ToldAllow(p, es, r.id, a, n);
      var k := RepliedAt(p, es, r.id, n);
      AnsweredAfter(p, es, j, k, r.id, !a.cause.isPeer);
    }
  }

  /** `isCriticalTool` on Bash is `isCriticalBash` on its command. */
  ghost predicate BashAgrees(p: Policy) {
    forall input, cwd :: p.criticalTool("Bash", input, cwd)
                         <==> input.command.Some? && p.criticalBash(input.command.value)
  }

  lemma CriticalIsNotAllowedAtOnce(p: Policy, slot: Option<Slot>, r: Request)
    requires BashAgrees(p) && HostOnly(p, slot, r)
    ensures !AllowedAtOnce(p, slot, r)
  {
    hide Named, Submits, Enters, Publishes, WorksAlone, Questions;
    NativeNames(r.tool);
  }

  /**
   Critical asks. In every run, when a hook is told "allow", inline or by a wait, on an ask recorded as
   critical, however it was raised and whatever mode its session was in, then an earlier request of the
   run is the host's own, as such or on a valid device, and allows that very ask's open card.
   */
  lemma CriticalIsAllowedByTheHost(p: Policy, es: seq<Event>, id: ReqId, a: Answer)
    requires AllWellUsed(p, Init(), es) && BashAgrees(p)
    requires var s := Run(p, Init(), es);
             ToldTo(s, id, a) && a.decision == Allow && id in s.asks && s.asks[id].critical
    ensures exists k: nat :: k < |es| && AnsweredAt(p, es, k, id, Allow, true)
  {
    assert es[..|es|] == es;
    var s := At(p, es, |es|);
    hide Run, Step, AllWellUsed, ToldTo, AnsweredAt, AllowedAtOnce, HostOnly, BashAgrees, Questions, RunsUnasked;
    ToldAllow(p, es, id, a, |es|);
    if s.asks[id].verdict.Decide? {
      var j := AskedAt(p, es, id, |es|);
      AskedInRun(p, es, j, |es|);
      CriticalIsNotAllowedAtOnce(p, LiveSlot(At(p, es, j), es[j].request.sid), es[j].request);
      assert false;
    }
    OnlyTheHostAllowsCritical(p, es, id, a);
    var k := RepliedAt(p, es, id, |es|);
  }

  /** In any slot state, a Bash command that counts as critical is allowed only by the host's reply to its card. */
  lemma CriticalBashNeedsTheHost(p: Policy, es: seq<Event>, j: nat, a: Answer)
    requires AllWellUsed(p, Init(), es) && BashAgrees(p) && j < |es|
    requires es[j].AskThroughGate? && es[j].request.tool == "Bash" && CriticalCommand(p, es[j].request)
    requires ToldTo(Run(p, Init(), es), es[j].request.id, a) && a.decision == Allow
    ensures exists k :: j < k < |es| && AnsweredAt(p, es, k, es[j].request.id, Allow, true)
  {
    assert es[..|es|] == es;
    var r := es[j].request;
    NativeNames(r.tool);
    hide Run, Step, AllWellUsed, ToldTo, AnsweredAt, Questions, Publishes, AllowedAtOnce, RunsUnasked, Named;
    AskedInRun(p, es, j, |es|);
    var s := At(p, es, |es|);
    CriticalIsAllowedByTheHost(p, es, r.id, a);
    var k: nat :| k < |es| && AnsweredAt(p, es, k, r.id, Allow, true);
    AnsweredAfter(p, es, j, k, r.id, true);
  }
}
