/**
 The permission gate (sandbox/lib/active-sessions.ts) and the route that answers its cards
 (sandbox/server.ts).

 A tool call becomes an ask: the gate decides it at once, or puts it on the board for a human. The
 hook that raised it waits for the decision; a decision nobody waits for yet is stashed. The state
 also remembers what happened (`asks`, `responded`, `approved`), which no step reads: the theorems
 at the end are about that record.
*/
module PermissionGate {
  import opened Wrappers
  import Collections
  import JsText

  type Sid = string
  type ReqId = string
  type ShareId = string
  type WaitId = nat

  datatype Input = Input(command: Option<string>, plan: Option<string>, rest: string)

  /** The two classifiers of sandbox/lib/peer-policy.ts, left uninterpreted. */
  datatype Policy = Policy(
    criticalTool: (string, Input, Option<string>) -> bool,
    criticalBash: string -> bool)

  // ---- Tool names ----------------------------------------------------------------------------

  predicate EndsWith(s: string, suffix: string) {
    |suffix| <= |s| && s[|s| - |suffix|..] == suffix
  }

  predicate Includes(s: string, word: string)
    decreases |s|
  {
    word <= s || (s != "" && Includes(s[1..], word))
  }

  predicate HooopTool(name: string, suffix: string) { Includes(name, "hooop") && EndsWith(name, suffix) }

  predicate IsPlanSubmit(name: string) { name == "ExitPlanMode" || HooopTool(name, "__submit_plan") }
  predicate IsEnterPlan(name: string) { HooopTool(name, "__enter_plan_mode") }
  predicate IsAsk(name: string) { name == "AskUserQuestion" || HooopTool(name, "__ask_user_question") }
  predicate IsSharePreview(name: string) { HooopTool(name, "__share_preview") }
  predicate IsOtherPreview(name: string) {
    || HooopTool(name, "__start_preview") || HooopTool(name, "__restart_preview")
    || HooopTool(name, "__rebuild_preview") || HooopTool(name, "__stop_preview")
    || HooopTool(name, "__list_previews")
  }
  predicate IsPageTool(name: string) {
    || HooopTool(name, "__page_snapshot") || HooopTool(name, "__page_click") || HooopTool(name, "__page_type")
    || HooopTool(name, "__list_page_tools") || HooopTool(name, "__call_page_tool")
  }

  const PLAN_READONLY_TOOLS: set<string> :=
    {"Read", "Glob", "Grep", "ToolSearch", "WebFetch", "WebSearch", "NotebookRead", "TodoWrite"}
  const READ_FAST_LANE_TOOLS: set<string> := {"Read", "Glob", "Grep", "NotebookRead"}

  // ---- Values --------------------------------------------------------------------------------

  datatype Decision = Allow | Deny

  datatype Why =
    | PlanSubmitted | NoPlanCaptured | PlanModeEngaged | PlanModeDenied | PlanModeRead
    | NothingToShare | AutoRead | AutoBash | ApprovedPlan | TrustedPeer | AutoMode

  /** Who produced a decision. */
  datatype Cause = ByGate(why: Why) | ByHuman(isPeer: bool) | BySystem
  datatype Answer = Answer(decision: Decision, cause: Cause)
  datatype Settlement = TimedOut | Decided(answer: Answer)

  datatype Ask = Ask(
    id: ReqId, tool: string, shareId: Option<ShareId>, critical: bool, synthetic: bool, planMode: bool)

  datatype Slot = Slot(
    expired: bool, cwd: string, autoMode: bool, planTurn: bool, planRun: bool, trusted: set<ShareId>,
    driver: Option<ShareId>, lastText: string, pending: seq<Ask>)

  /** What the preview a share_preview call names turns out to be. */
  datatype ShareTarget = Shareable | NotShareable

  datatype Request = Request(
    id: ReqId, sid: Sid, tool: string, input: Input, shareId: Option<ShareId>, target: ShareTarget)

  /** What the gate does with an ask. */
  datatype Verdict =
    | Decide(decision: Decision, why: Why)
    | OpenReview
    | EnterPlan
    | RunInBackground
    | Card

  datatype Home = OnSlot | OnSlotless
  /** What is remembered of an ask. `approvedBefore`: a plan review of its session had been allowed. */
  datatype Record = Record(
    sid: Sid, home: Home, tool: string, critical: bool, planTurn: bool, viaGate: bool,
    approvedBefore: bool, verdict: Verdict)

  datatype Reply = Reply(decision: Decision, isPeer: bool)

  datatype State = State(
    slots: map<Sid, Slot>,
    slotless: map<Sid, seq<Ask>>,
    early: map<ReqId, Answer>,
    waiters: map<ReqId, WaitId>,
    waits: map<WaitId, ReqId>,
    settled: map<WaitId, Settlement>,
    autoTurns: map<Sid, nat>,
    asks: map<ReqId, Record>,
    responded: map<ReqId, Reply>,
    approved: set<Sid>)

  /** How many follow-up turns that may carry an approved plan on are queued for a session. */
  function Queued(autoTurns: map<Sid, nat>, sid: Sid): nat { if sid in autoTurns then autoTurns[sid] else 0 }

  function Enqueue(autoTurns: map<Sid, nat>, sid: Sid): map<Sid, nat> {
    autoTurns[sid := Queued(autoTurns, sid) + 1]
  }

  function Dequeue(autoTurns: map<Sid, nat>, sid: Sid): map<Sid, nat>
    requires Queued(autoTurns, sid) > 0
  {
    autoTurns[sid := autoTurns[sid] - 1]
  }

  // ---- The gate ------------------------------------------------------------------------------

  function Normalized(tool: string): string { if IsAsk(tool) then "AskUserQuestion" else tool }

  function CwdOf(slot: Option<Slot>): Option<string> {
    if slot.Some? then Some(slot.value.cwd) else None
  }

  predicate MarkCritical(p: Policy, tool: string, input: Input, cwd: Option<string>) {
    p.criticalTool(tool, input, cwd) || IsSharePreview(tool)
  }

  predicate Truthy(id: Option<string>) { id.Some? && id.value != "" }

  function PlanText(slot: Option<Slot>, input: Input): string {
    if input.plan.Some? && !JsText.IsBlank(input.plan.value) then input.plan.value
    else if slot.Some? then slot.value.lastText else ""
  }

  /** `createPermissionRequest`, branch by branch. */
  function Gate(p: Policy, slot: Option<Slot>, r: Request): Verdict {
    var tool := Normalized(r.tool);
    var cwd := CwdOf(slot);
    var shareId := if r.shareId.Some? then r.shareId else if slot.Some? then slot.value.driver else None;
    var critical := MarkCritical(p, tool, r.input, cwd);
    if IsPlanSubmit(r.tool) then
      if slot.Some? && !JsText.IsBlank(PlanText(slot, r.input)) then OpenReview else Decide(Deny, NoPlanCaptured)
    else if IsEnterPlan(r.tool) then EnterPlan
    else if slot.Some? && slot.value.planTurn && !IsAsk(r.tool) then
      if r.tool !in PLAN_READONLY_TOOLS then Decide(Deny, PlanModeDenied)
      else if p.criticalTool(r.tool, r.input, cwd) then Decide(Deny, PlanModeDenied)
      else Decide(Allow, PlanModeRead)
    else if IsOtherPreview(r.tool) || IsPageTool(r.tool) then RunInBackground
    else if IsSharePreview(r.tool) && r.target.NotShareable? then Decide(Deny, NothingToShare)
    else if r.tool in READ_FAST_LANE_TOOLS && !p.criticalTool(r.tool, r.input, cwd) then Decide(Allow, AutoRead)
    else if r.tool == "Bash" && !(r.input.command.Some? && p.criticalBash(r.input.command.value)) then
      Decide(Allow, AutoBash)
    else if slot.Some? && slot.value.planRun && !critical && !IsAsk(r.tool) then Decide(Allow, ApprovedPlan)
    else if slot.Some? && Truthy(shareId) && shareId.value in slot.value.trusted && !critical && !IsAsk(r.tool) then
      Decide(Allow, TrustedPeer)
    else if slot.Some? && slot.value.autoMode && !IsAsk(r.tool) && !critical then Decide(Allow, AutoMode)
    else Card
  }

  function SlotOf(s: State, sid: Sid): Option<Slot> {
    if sid in s.slots then Some(s.slots[sid]) else None
  }

  function CardFor(p: Policy, slot: Option<Slot>, r: Request): Ask {
    Ask(r.id, Normalized(r.tool),
        if r.shareId.Some? then r.shareId else if slot.Some? then slot.value.driver else None,
        MarkCritical(p, Normalized(r.tool), r.input, CwdOf(slot)), false,
        slot.Some? && slot.value.planTurn)
  }

  function RecordOf(p: Policy, s: State, r: Request): Record {
    var slot := SlotOf(s, r.sid);
    Record(r.sid, if slot.Some? then OnSlot else OnSlotless, Normalized(r.tool),
           MarkCritical(p, Normalized(r.tool), r.input, CwdOf(slot)),
           slot.Some? && slot.value.planTurn, true, r.sid in s.approved, Gate(p, slot, r))
  }

  function WithSlot(s: State, sid: Sid, slot: Slot): State { s.(slots := s.slots[sid := slot]) }

  predicate IsSynthetic(a: Ask) { a.synthetic }
  predicate IsReal(a: Ask) { !a.synthetic }

  function NotSynthetic(asks: seq<Ask>): seq<Ask> { Collections.Filter(IsReal, asks) }
  function Synthetic(asks: seq<Ask>): seq<Ask> { Collections.Filter(IsSynthetic, asks) }

  /** A synthetic plan review, replacing any earlier one of the session. */
  function ReviewAsk(slot: Slot, reviewId: ReqId): Ask {
    Ask(reviewId, "ExitPlanMode", slot.driver, false, true, false)
  }

  function ReviewRecord(s: State, sid: Sid): Record {
    Record(sid, OnSlot, "ExitPlanMode", false, false, false, sid in s.approved, Card)
  }

  function Stash(s: State, id: ReqId, a: Answer): State { s.(early := s.early[id := a]) }

  function OnBoard(s: State, sid: Sid, card: Ask): State {
    if sid in s.slots then WithSlot(s, sid, s.slots[sid].(pending := s.slots[sid].pending + [card]))
    else s.(slotless := s.slotless[sid := (if sid in s.slotless then s.slotless[sid] else []) + [card]])
  }

  /** What a verdict on a recorded ask does. `reviewId` is the fresh id a captured plan's review gets. */
  function AfterVerdict(s: State, r: Request, reviewId: ReqId, v: Verdict, card: Ask): State
    requires v.OpenReview? ==> r.sid in s.slots
  {
    match v
    case Decide(decision, why) => Stash(s, r.id, Answer(decision, ByGate(why)))
    case OpenReview =>
      var sl := s.slots[r.sid];
      Stash(WithSlot(s, r.sid, sl.(pending := NotSynthetic(sl.pending) + [ReviewAsk(sl, reviewId)])).(
            asks := s.asks[reviewId := ReviewRecord(s, r.sid)]),
            r.id, Answer(Deny, ByGate(PlanSubmitted)))
    case EnterPlan =>
      Stash(if r.sid in s.slots then WithSlot(s, r.sid, s.slots[r.sid].(planTurn := true)) else s,
            r.id, Answer(Deny, ByGate(PlanModeEngaged)))
    case RunInBackground => s
    case Card => OnBoard(s, r.sid, card)
  }

  /** An ask through the gate. A decision still stashed under its id is dropped first. */
  function OnAsk(p: Policy, s: State, r: Request, reviewId: ReqId): State {
    var slot := SlotOf(s, r.sid);
    AfterVerdict(s.(early := s.early - {r.id}, asks := s.asks[r.id := RecordOf(p, s, r)]),
                 r, reviewId, Gate(p, slot, r), CardFor(p, slot, r))
  }

  /** An ask that arrives as a `control_request` frame and becomes a card as it is. */
  function OnControlAsk(p: Policy, s: State, r: Request): State {
    if r.sid !in s.slots then s
    else
      var sl := s.slots[r.sid];
      var critical := MarkCritical(p, r.tool, r.input, Some(sl.cwd));
      WithSlot(s, r.sid, sl.(pending := sl.pending + [Ask(r.id, r.tool, sl.driver, critical, false, false)])).(
      asks := s.asks[r.id := Record(r.sid, OnSlot, r.tool, critical, sl.planTurn, false, r.sid in s.approved, Card)])
  }

  // ---- Waiting -------------------------------------------------------------------------------

  /** The resolver of wait `w`: the first result wins, and the id's waiter entry goes either way. */
  function Finish(s: State, w: WaitId, r: Settlement): State {
    if w in s.settled || w !in s.waits then s
    else s.(settled := s.settled[w := r], waiters := s.waiters - {s.waits[w]})
  }

  function OnWait(s: State, w: WaitId, id: ReqId): State {
    var s1 := s.(waits := s.waits[w := id]);
    if id in s.early then
      s1.(settled := s.settled[w := Decided(s.early[id])], early := s.early - {id})
    else s1.(waiters := s.waiters[id := w])
  }

  /** `peekPermissionDecision`: the route that raised an ask answers the hook inline, and takes nothing away. */
  function Peek(s: State, id: ReqId): Option<Answer> {
    if id in s.early then Some(s.early[id]) else None
  }

  /** Hand a decision to the waiter of `id`, or stash it for the next one. */
  function Deliver(s: State, id: ReqId, a: Answer): State {
    if id in s.waiters then Finish(s, s.waiters[id], Decided(a)) else Stash(s, id, a)
  }

  // ---- Answering -----------------------------------------------------------------------------

  function IndexOf(asks: seq<Ask>, id: ReqId): (i: int)
    ensures -1 <= i < |asks|
    ensures i >= 0 ==> asks[i].id == id && forall j :: 0 <= j < i ==> asks[j].id != id
    ensures i < 0 ==> forall j :: 0 <= j < |asks| ==> asks[j].id != id
  {
    if asks == [] then -1
    else if asks[0].id == id then 0
    else var i := IndexOf(asks[1..], id); if i < 0 then -1 else i + 1
  }

  function Splice(asks: seq<Ask>, i: nat): seq<Ask>
    requires i < |asks|
  {
    asks[..i] + asks[i + 1..]
  }

  function HasOtherId(id: ReqId): Ask -> bool { (a: Ask) => a.id != id }
  function AllBut(asks: seq<Ask>, id: ReqId): seq<Ask> { Collections.Filter(HasOtherId(id), asks) }

  function DropSlotless(s: State, sid: Sid, id: ReqId): State {
    if sid !in s.slotless then s
    else
      var next := AllBut(s.slotless[sid], id);
      s.(slotless := if next != [] then s.slotless[sid := next] else s.slotless - {sid})
  }

  datatype Capability = Full | Drive | Spectate
  datatype Share = Share(sessionId: Sid, capability: Capability)
  datatype Header = Missing | Host | Device(id: string) | Peer(shareId: ShareId) | Unknown
  datatype Guard = Refused | HostOk | PeerOk(capability: Capability)

  predicate MayTurn(c: Capability) { c != Spectate }
  predicate MayDecide(c: Capability) { c == Full }

  /** `checkParticipant` for a turn: `devices` are the valid ones, `shares` the live ones. */
  function CheckParticipant(h: Header, sid: Sid, devices: set<string>, shares: map<ShareId, Share>): Guard {
    match h
    case Host => HostOk
    case Device(id) => if id != "" && id in devices then HostOk else Refused
    case Peer(shareId) =>
      if shareId in shares && shares[shareId].sessionId == sid && MayTurn(shares[shareId].capability)
      then PeerOk(shares[shareId].capability) else Refused
    case Missing => Refused
    case Unknown => Refused
  }

  function PendingOf(s: State, sid: Sid): seq<Ask> {
    if sid in s.slots then s.slots[sid].pending
    else if sid in s.slotless then s.slotless[sid] else []
  }

  /** The permission route's authority check for a peer. */
  predicate PeerMayAnswer(s: State, sid: Sid, id: ReqId, c: Capability) {
    var i := IndexOf(PendingOf(s, sid), id);
    var tool := if i < 0 then "" else PendingOf(s, sid)[i].tool;
    && !(i >= 0 && PendingOf(s, sid)[i].critical)
    && ((i >= 0 && tool == "AskUserQuestion") || MayDecide(c))
  }

  predicate RouteAccepts(s: State, sid: Sid, id: ReqId, g: Guard) {
    match g
    case Refused => false
    case HostOk => true
    case PeerOk(c) => PeerMayAnswer(s, sid, id, c)
  }

  function Responded(s: State, id: ReqId, decision: Decision, isPeer: bool): State {
    s.(responded := s.responded[id := Reply(decision, isPeer)])
  }

  function TrustedAfter(sl: Slot, a: Ask, decision: Decision, always: bool): set<ShareId> {
    if always && decision == Allow && Truthy(a.shareId) then sl.trusted + {a.shareId.value} else sl.trusted
  }

  /** `respondToPermission`; `always` is the host's "allow all from this peer". */
  function Respond(s: State, sid: Sid, id: ReqId, decision: Decision, always: bool, isPeer: bool): State {
    if sid in s.slots then
      var sl := s.slots[sid];
      var i := IndexOf(sl.pending, id);
      if sl.expired || i < 0 then s
      else
        var a := sl.pending[i];
        var trusted := TrustedAfter(sl, a, decision, always);
        var s1 := Responded(WithSlot(s, sid, sl.(pending := Splice(sl.pending, i), trusted := trusted)),
                            id, decision, isPeer);
        if a.synthetic then
          if decision == Allow then s1.(autoTurns := Enqueue(s1.autoTurns, sid), approved := s1.approved + {sid})
          else s1
        else
          var s2 := Deliver(s1, id, Answer(decision, ByHuman(isPeer)));
          if a.tool == "AskUserQuestion" && decision == Deny && !a.planMode && sl.planRun
          then s2.(autoTurns := Enqueue(s2.autoTurns, sid)) else s2
    else if sid in s.slotless && IndexOf(s.slotless[sid], id) >= 0 then
      Deliver(Responded(DropSlotless(s, sid, id), id, decision, isPeer), id, Answer(decision, ByHuman(isPeer)))
    else s
  }

  function OnRoute(s: State, sid: Sid, id: ReqId, decision: Decision, always: bool, g: Guard): State {
    if RouteAccepts(s, sid, id, g) then Respond(s, sid, id, decision, always && !g.PeerOk?, g.PeerOk?) else s
  }

  function OnWithdraw(s: State, sid: Sid, id: ReqId): State {
    if sid in s.slots && IndexOf(s.slots[sid].pending, id) >= 0 then
      var sl := s.slots[sid];
      WithSlot(s, sid, sl.(pending := Splice(sl.pending, IndexOf(sl.pending, id)))).(early := s.early - {id})
    else if sid in s.slotless && IndexOf(s.slotless[sid], id) >= 0 then
      s.(slotless := s.slotless[sid := Splice(s.slotless[sid], IndexOf(s.slotless[sid], id))],
      early := s.early - {id})
    else s
  }

  // ---- Events --------------------------------------------------------------------------------

  datatype Event =
    | AskThroughGate(request: Request, reviewId: ReqId)
    | ControlAsk(request: Request)
    | Wait(w: WaitId, id: ReqId)
    | Timeout(w: WaitId)
    | ExpireStash(id: ReqId)
    | PreviewSettled(id: ReqId)
    | Route(sid: Sid, id: ReqId, decision: Decision, always: bool, header: Header,
            devices: set<string>, shares: map<ShareId, Share>)
    | Withdraw(sid: Sid, id: ReqId)
    | DropStale(sid: Sid, id: ReqId)
    | TurnStarts(sid: Sid, plan: bool, auto: bool, driver: Option<ShareId>)
    | ResultFrame(sid: Sid)
    | SetAutoMode(sid: Sid, on: bool)
    | TrustPeer(sid: Sid, shareId: ShareId)
    | AssistantText(sid: Sid, text: string)
    | Spawn(sid: Sid, cwd: string, autoMode: bool)
    | Expire(sid: Sid)
    | End(sid: Sid)

  function NewSlot(cwd: string, autoMode: bool, carried: seq<Ask>): Slot {
    Slot(false, cwd, autoMode, false, false, {}, None, "", carried)
  }

  function OnSpawn(s: State, sid: Sid, cwd: string, autoMode: bool): State {
    WithSlot(s, sid, NewSlot(cwd, autoMode, if sid in s.slots then Synthetic(s.slots[sid].pending) else []))
  }

  /** May a turn start? One that carries an approved plan on must have been queued. */
  predicate TurnBegins(s: State, sid: Sid, auto: bool) {
    sid in s.slots && !s.slots[sid].expired && (auto ==> Queued(s.autoTurns, sid) > 0)
  }

  /** `writeUserTurn` rewrites the per-turn flags, for this turn only. */
  function OnTurnStarts(s: State, sid: Sid, plan: bool, auto: bool, driver: Option<ShareId>): State {
    if !TurnBegins(s, sid, auto) then s
    else WithSlot(s, sid, s.slots[sid].(planTurn := plan, planRun := auto, driver := driver, lastText := "")).(
         autoTurns := if auto then Dequeue(s.autoTurns, sid) else s.autoTurns)
  }

  function Step(p: Policy, s: State, e: Event): State {
    match e
    case AskThroughGate(r, reviewId) => OnAsk(p, s, r, reviewId)
    case ControlAsk(r) => OnControlAsk(p, s, r)
    case Wait(w, id) => OnWait(s, w, id)
    case Timeout(w) => Finish(s, w, TimedOut)
    case ExpireStash(id) => s.(early := s.early - {id})
    case PreviewSettled(id) => Deliver(s, id, Answer(Deny, BySystem))
    case Route(sid, id, decision, always, header, devices, shares) =>
      OnRoute(s, sid, id, decision, always, CheckParticipant(header, sid, devices, shares))
    case Withdraw(sid, id) => OnWithdraw(s, sid, id)
    case DropStale(sid, id) => DropSlotless(s, sid, id)
    case TurnStarts(sid, plan, auto, driver) => OnTurnStarts(s, sid, plan, auto, driver)
    case ResultFrame(sid) =>
      if sid in s.slots then WithSlot(s, sid, s.slots[sid].(planTurn := false, planRun := false)) else s
    case SetAutoMode(sid, on) => if sid in s.slots then WithSlot(s, sid, s.slots[sid].(autoMode := on)) else s
    case TrustPeer(sid, shareId) =>
      if sid in s.slots && shareId != ""
      then WithSlot(s, sid, s.slots[sid].(trusted := s.slots[sid].trusted + {shareId})) else s
    case AssistantText(sid, text) =>
      if sid in s.slots then WithSlot(s, sid, s.slots[sid].(lastText := text)) else s
    case Spawn(sid, cwd, autoMode) =>
      OnSpawn(s, sid, cwd, autoMode)
    case Expire(sid) => if sid in s.slots then WithSlot(s, sid, s.slots[sid].(expired := true)) else s
    case End(sid) => s.(slots := s.slots - {sid})
  }

  function Run(p: Policy, s: State, es: seq<Event>): State
    decreases |es|
  {
    if es == [] then s else Run(p, Step(p, s, es[0]), es[1..])
  }

  function Init(): State {
    State(map[], map[], map[], map[], map[], map[], map[], map[], map[], {})
  }

  /**
   What claude and the hook guarantee: an ask's id (its tool-use id) and a review's id are new, a
   wait is for an id that was asked and is the only wait on it, and what settles in the background was
   sent there. What an id used again would meet is `ReusedIdMeetsItsOwnVerdict`.
   */
  predicate WellUsed(p: Policy, s: State, e: Event) {
    match e
    case AskThroughGate(r, reviewId) => r.id !in s.asks && reviewId !in s.asks && reviewId != r.id
    case ControlAsk(r) => r.id !in s.asks
    case Wait(w, id) => w !in s.waits && id in s.asks && id !in s.waiters
    case PreviewSettled(id) => id in s.asks && s.asks[id].verdict.RunInBackground?
    case _ => true
  }

  ghost predicate AllWellUsed(p: Policy, s: State, es: seq<Event>)
    decreases |es|
  {
    es == [] || (WellUsed(p, s, es[0]) && AllWellUsed(p, Step(p, s, es[0]), es[1..]))
  }

  // ---- What every step keeps -----------------------------------------------------------------

  type Asks = map<ReqId, Record>
  type Replies = map<ReqId, Reply>

  ghost predicate Distinct(cards: seq<Ask>) {
    forall i, j :: 0 <= i < j < |cards| ==> cards[i].id != cards[j].id
  }

  /** An undecided card, as its record describes it. */
  ghost predicate CardOk(asks: Asks, responded: Replies, c: Ask, sid: Sid, home: Home) {
    && c.id in asks && c.id !in responded
    && var rec := asks[c.id];
    rec.sid == sid && rec.home == home && rec.verdict == Card && rec.critical == c.critical && rec.tool == c.tool
  }

  ghost predicate CardsOk(asks: Asks, responded: Replies, cards: seq<Ask>, sid: Sid, home: Home) {
    Distinct(cards) && forall c :: c in cards ==> CardOk(asks, responded, c, sid, home)
  }

  ghost predicate BoardOk(slots: map<Sid, Slot>, slotless: map<Sid, seq<Ask>>, asks: Asks, responded: Replies) {
    && (forall sid :: sid in slots ==> CardsOk(asks, responded, slots[sid].pending, sid, OnSlot))
    && (forall sid :: sid in slotless ==> CardsOk(asks, responded, slotless[sid], sid, OnSlotless))
  }

  function GateDecision(v: Verdict): Option<Answer> {
    match v
    case Decide(decision, why) => Some(Answer(decision, ByGate(why)))
    case OpenReview => Some(Answer(Deny, ByGate(PlanSubmitted)))
    case EnterPlan => Some(Answer(Deny, ByGate(PlanModeEngaged)))
    case _ => None
  }

  /** Decision `a` was produced for ask `id`, by that ask's own verdict or by its own reply. */
  ghost predicate ProducedFor(asks: Asks, responded: Replies, id: ReqId, a: Answer) {
    && id in asks
    && match a.cause
       case ByGate(why) => asks[id].viaGate && GateDecision(asks[id].verdict) == Some(a)
       case BySystem => a.decision == Deny && asks[id].verdict.RunInBackground?
       case ByHuman(isPeer) =>
         asks[id].verdict == Card && id in responded && responded[id] == Reply(a.decision, isPeer)
  }

  ghost predicate StashOk(early: map<ReqId, Answer>, asks: Asks, responded: Replies) {
    forall id :: id in early ==> ProducedFor(asks, responded, id, early[id])
  }

  ghost predicate SettledOk(settled: map<WaitId, Settlement>, waits: map<WaitId, ReqId>, asks: Asks,
                            responded: Replies) {
    forall w :: w in settled ==>
      w in waits && (settled[w].Decided? ==> ProducedFor(asks, responded, waits[w], settled[w].answer))
  }

  ghost predicate WaitersOk(waiters: map<ReqId, WaitId>, waits: map<WaitId, ReqId>,
                            settled: map<WaitId, Settlement>) {
    && (forall id :: id in waiters ==>
          waiters[id] in waits && waits[waiters[id]] == id && waiters[id] !in settled)
    && (forall w :: w in waits && w !in settled ==> waits[w] in waiters && waiters[waits[w]] == w)
  }

  ghost predicate NeverBoth(waiters: map<ReqId, WaitId>, early: map<ReqId, Answer>, asks: Asks) {
    forall id :: id in waiters ==> id in asks && id !in early
  }

  /** Replies respect the cards: only the host answers a critical one. */
  ghost predicate RepliesOk(asks: Asks, responded: Replies) {
    forall id :: id in responded ==> id in asks && (responded[id].isPeer ==> !asks[id].critical)
  }

  /** Every approved-plan flag and every approved-plan verdict goes back to an allowed review. */
  ghost predicate ApprovalsOk(slots: map<Sid, Slot>, autoTurns: map<Sid, nat>, approved: set<Sid>) {
    && (forall sid :: sid in autoTurns && autoTurns[sid] > 0 ==> sid in approved)
    && (forall sid :: sid in slots && slots[sid].planRun ==> sid in approved)
  }

  /** What the gate can have decided, by the record alone. */
  ghost predicate RecordsOk(asks: Asks) {
    forall id :: id in asks ==> RecordOk(asks[id])
  }

  ghost predicate RecordOk(r: Record) {
    (r.viaGate ==> VerdictFits(r)) && (r.verdict == Decide(Allow, ApprovedPlan) ==> r.approvedBefore)
  }

  predicate VerdictFits(r: Record) {
    && (r.verdict == Card && r.planTurn ==> r.tool == "AskUserQuestion")
    && (r.verdict.Decide? && r.verdict.decision == Allow && r.planTurn ==>
          r.tool in PLAN_READONLY_TOOLS && !r.critical)
    && (r.verdict.Decide? && r.verdict.why in {ApprovedPlan, TrustedPeer, AutoMode} ==>
          !r.critical && r.tool != "AskUserQuestion")
  }

  ghost predicate Inv(s: State) {
    && BoardOk(s.slots, s.slotless, s.asks, s.responded)
    && StashOk(s.early, s.asks, s.responded)
    && SettledOk(s.settled, s.waits, s.asks, s.responded)
    && WaitersOk(s.waiters, s.waits, s.settled)
    && NeverBoth(s.waiters, s.early, s.asks)
    && RepliesOk(s.asks, s.responded)
    && ApprovalsOk(s.slots, s.autoTurns, s.approved)
    && RecordsOk(s.asks)
  }

  /** Nothing recorded is ever rewritten: records, replies and settled waits only grow. */
  ghost predicate OnlyGrows(s: State, t: State) {
    && (forall id :: id in s.asks ==> id in t.asks && t.asks[id] == s.asks[id])
    && (forall id :: id in s.responded ==> id in t.responded && t.responded[id] == s.responded[id])
    && (forall w :: w in s.settled ==> w in t.settled && t.settled[w] == s.settled[w])
    && (forall w :: w in s.waits ==> w in t.waits && t.waits[w] == s.waits[w])
    && s.approved <= t.approved
  }

  lemma GateFits(p: Policy, s: State, r: Request)
    ensures VerdictFits(RecordOf(p, s, r))
    ensures RecordOf(p, s, r).verdict == Decide(Allow, ApprovedPlan) ==>
              SlotOf(s, r.sid).Some? && s.slots[r.sid].planRun
  {
    assert IsAsk(r.tool) <==> Normalized(r.tool) == "AskUserQuestion";
    PlainNames(r.tool);
  }

  /** The listed read-only tools are not preview tools: their names do not mention hooop. */
  lemma PlainNames(tool: string)
    ensures tool in PLAN_READONLY_TOOLS ==> !IsSharePreview(tool) && !IsAsk(tool)
  {
    assert tool in PLAN_READONLY_TOOLS ==> |tool| < 15;
  }

  // ---- One event at a time -------------------------------------------------------------------

  ghost predicate Kept(s: State, t: State) { Inv(t) && OnlyGrows(s, t) }

  lemma Chain(s: State, t: State, u: State)
    requires Kept(s, t) && Kept(t, u)
    ensures Kept(s, u)
  {
  }

  /** A change of a slot's flags: same cards, and a plan run only where a review was allowed. */
  lemma SlotFlagsKeep(s: State, sid: Sid, slot: Slot)
    requires Inv(s) && sid in s.slots && slot.pending == s.slots[sid].pending
    requires slot.planRun ==> sid in s.approved
    ensures Kept(s, WithSlot(s, sid, slot))
  {
  }

  /** Cards go on, or come off, the board of one session. */
  lemma SlotCardsKeep(s: State, sid: Sid, slot: Slot)
    requires Inv(s) && CardsOk(s.asks, s.responded, slot.pending, sid, OnSlot)
    requires slot.planRun ==> sid in s.approved
    ensures Kept(s, WithSlot(s, sid, slot))
  {
  }

  lemma SlotlessCardsKeep(s: State, sid: Sid, cards: seq<Ask>)
    requires Inv(s) && CardsOk(s.asks, s.responded, cards, sid, OnSlotless)
    ensures Kept(s, s.(slotless := s.slotless[sid := cards]))
    ensures Kept(s, s.(slotless := s.slotless - {sid}))
  {
  }

  lemma UnstashKeeps(s: State, id: ReqId)
    requires Inv(s)
    ensures Kept(s, s.(early := s.early - {id}))
  {
  }

  lemma NewAskOffBoard(s: State, asks: Asks)
    requires BoardOk(s.slots, s.slotless, s.asks, s.responded)
    requires forall id :: id in s.asks ==> id in asks && asks[id] == s.asks[id]
    ensures BoardOk(s.slots, s.slotless, asks, s.responded)
  {
    forall sid | sid in s.slots ensures CardsOk(asks, s.responded, s.slots[sid].pending, sid, OnSlot) {
      assert forall c :: c in s.slots[sid].pending ==> CardOk(s.asks, s.responded, c, sid, OnSlot);
    }
    forall sid | sid in s.slotless ensures CardsOk(asks, s.responded, s.slotless[sid], sid, OnSlotless) {
      assert forall c :: c in s.slotless[sid] ==> CardOk(s.asks, s.responded, c, sid, OnSlotless);
    }
  }

  /** A new ask, not yet decided and not on the board. */
  lemma NewAskKeeps(s: State, id: ReqId, rec: Record)
    requires Inv(s) && id !in s.asks && RecordOk(rec)
    ensures var t := s.(early := s.early - {id}, asks := s.asks[id := rec]);
            Kept(s, t) && id !in t.early && id !in t.waiters && id !in t.responded
  {
    hide BoardOk, CardsOk, RecordOk, ApprovalsOk, WaitersOk;
    NewAskOffBoard(s, s.asks[id := rec]);
  }

  lemma StashKeeps(s: State, id: ReqId, a: Answer)
    requires Inv(s) && ProducedFor(s.asks, s.responded, id, a) && id !in s.waiters
    ensures Kept(s, Stash(s, id, a))
  {
  }

  /** The waits and waiters of a state where wait `w` has just been settled. */
  lemma FinishedWait(s: State, w: WaitId, r: Settlement)
    requires WaitersOk(s.waiters, s.waits, s.settled) && SettledOk(s.settled, s.waits, s.asks, s.responded)
    requires w in s.waits && w !in s.settled
    requires r.Decided? ==> ProducedFor(s.asks, s.responded, s.waits[w], r.answer)
    ensures WaitersOk(s.waiters - {s.waits[w]}, s.waits, s.settled[w := r])
    ensures SettledOk(s.settled[w := r], s.waits, s.asks, s.responded)
  {
    hide ProducedFor;
  }

  lemma FinishKeeps(s: State, w: WaitId, r: Settlement)
    requires Inv(s) && (r.Decided? && w in s.waits ==> ProducedFor(s.asks, s.responded, s.waits[w], r.answer))
    ensures Kept(s, Finish(s, w, r))
  {
    hide BoardOk, StashOk, RepliesOk, ApprovalsOk, RecordsOk, ProducedFor, WaitersOk, SettledOk;
    if w in s.waits && w !in s.settled {
      FinishedWait(s, w, r);
      assert Finish(s, w, r) == s.(settled := s.settled[w := r], waiters := s.waiters - {s.waits[w]});
    }
  }

  lemma DeliverKeeps(s: State, id: ReqId, a: Answer)
    requires Inv(s) && ProducedFor(s.asks, s.responded, id, a)
    ensures Kept(s, Deliver(s, id, a))
    ensures var t := Deliver(s, id, a);
            t == s.(early := t.early, waiters := t.waiters, settled := t.settled)
  {
    if id in s.waiters { FinishKeeps(s, s.waiters[id], Decided(a)); } else { StashKeeps(s, id, a); }
  }

  /** The waits and waiters of a state where wait `w` was registered and settled at once. */
  lemma SettledWait(s: State, w: WaitId, id: ReqId, r: Settlement)
    requires WaitersOk(s.waiters, s.waits, s.settled) && SettledOk(s.settled, s.waits, s.asks, s.responded)
    requires w !in s.waits && (r.Decided? ==> ProducedFor(s.asks, s.responded, id, r.answer))
    ensures w !in s.settled
    ensures WaitersOk(s.waiters, s.waits[w := id], s.settled[w := r])
    ensures SettledOk(s.settled[w := r], s.waits[w := id], s.asks, s.responded)
  {
  }

  lemma WaitConsumesStash(s: State, w: WaitId, id: ReqId)
    requires Inv(s) && w !in s.waits && id in s.early
    ensures Kept(s, OnWait(s, w, id))
  {
    SettledWait(s, w, id, Decided(s.early[id]));
    hide BoardOk, RepliesOk, ApprovalsOk, RecordsOk, ProducedFor, WaitersOk, SettledOk;
    var t := OnWait(s, w, id);
    assert t == s.(waits := s.waits[w := id], settled := s.settled[w := Decided(s.early[id])], early := s.early - {id});
    hide OnWait;
  }

  /** The waits and waiters of a state where wait `w` was registered and parked. */
  lemma ParkedWait(s: State, w: WaitId, id: ReqId)
    requires WaitersOk(s.waiters, s.waits, s.settled) && SettledOk(s.settled, s.waits, s.asks, s.responded)
    requires w !in s.waits && id !in s.waiters
    ensures WaitersOk(s.waiters[id := w], s.waits[w := id], s.settled)
    ensures SettledOk(s.settled, s.waits[w := id], s.asks, s.responded)
  {
    assert w !in s.settled;
  }

  lemma ParkedKeeps(s: State, w: WaitId, id: ReqId)
    requires Inv(s) && w !in s.waits && id in s.asks && id !in s.waiters && id !in s.early
    ensures Kept(s, s.(waits := s.waits[w := id], waiters := s.waiters[id := w]))
  {
    ParkedWait(s, w, id);
  }

  lemma WaitParks(s: State, w: WaitId, id: ReqId)
    requires Inv(s) && w !in s.waits && id in s.asks && id !in s.waiters && id !in s.early
    ensures Kept(s, OnWait(s, w, id))
  {
    ParkedKeeps(s, w, id);
    hide Kept, Inv;
    assert OnWait(s, w, id) == s.(waits := s.waits[w := id], waiters := s.waiters[id := w]);
  }

  lemma {:induction false} FilteredDistinct(keep: Ask -> bool, cards: seq<Ask>)
    requires Distinct(cards)
    ensures Distinct(Collections.Filter(keep, cards))
    decreases |cards|
  {
    if cards != [] {
      FilteredDistinct(keep, cards[1..]);
      Collections.FilterKeeps(keep, cards[1..]);
      assert forall c :: c in cards[1..] ==> c.id != cards[0].id;
      Prepended(cards[0], Collections.Filter(keep, cards[1..]));
    }
  }

  lemma FilteredCards(cards: seq<Ask>, id: ReqId)
    requires Distinct(cards)
    ensures Distinct(NotSynthetic(cards)) && forall c :: c in NotSynthetic(cards) ==> c in cards
    ensures Distinct(Synthetic(cards)) && forall c :: c in Synthetic(cards) ==> c in cards
    ensures Distinct(AllBut(cards, id)) && forall c :: c in AllBut(cards, id) <==> c in cards && c.id != id
  {
    FilteredDistinct(IsReal, cards);
    FilteredDistinct(IsSynthetic, cards);
    FilteredDistinct(HasOtherId(id), cards);
    Collections.FilterKeeps(IsReal, cards);
    Collections.FilterKeeps(IsSynthetic, cards);
    Collections.FilterKeeps(HasOtherId(id), cards);
  }

  lemma Prepended(c: Ask, cards: seq<Ask>)
    requires Distinct(cards) && forall d :: d in cards ==> d.id != c.id
    ensures Distinct([c] + cards)
  {
  }

  lemma Appended(cards: seq<Ask>, c: Ask)
    requires Distinct(cards) && forall d :: d in cards ==> d.id != c.id
    ensures Distinct(cards + [c])
  {
  }

  /** Taking out the card an id finds leaves no card with that id. */
  lemma Spliced(cards: seq<Ask>, id: ReqId)
    requires Distinct(cards) && IndexOf(cards, id) >= 0
    ensures var rest := Splice(cards, IndexOf(cards, id));
            && Distinct(rest) && (forall c :: c in rest ==> c in cards && c.id != id)
            && cards[IndexOf(cards, id)] in cards
  {
    var i := IndexOf(cards, id);
    hide IndexOf;
    var rest := Splice(cards, i);
    forall j | 0 <= j < |rest| ensures rest[j] == cards[if j < i then j else j + 1] {}
    hide Splice;
    forall j, k | 0 <= j < k < |rest| ensures rest[j].id != rest[k].id {}
    forall j | 0 <= j < |rest| ensures rest[j].id != id {
      assert cards[if j < i then j else j + 1].id != cards[i].id;
    }
  }

  lemma DropSlotlessKeeps(s: State, sid: Sid, id: ReqId)
    requires Inv(s)
    ensures Kept(s, DropSlotless(s, sid, id))
    ensures sid in DropSlotless(s, sid, id).slotless ==>
              forall c :: c in DropSlotless(s, sid, id).slotless[sid] ==> c.id != id
  {
    if sid in s.slotless {
      FilteredCards(s.slotless[sid], id);
      SlotlessCardsKeep(s, sid, AllBut(s.slotless[sid], id));
    }
  }

  /** The card an id finds comes off a slot's board. */
  lemma CardLeaves(s: State, sid: Sid, id: ReqId, slot: Slot)
    requires Inv(s) && sid in s.slots && IndexOf(s.slots[sid].pending, id) >= 0
    requires slot.pending == Splice(s.slots[sid].pending, IndexOf(s.slots[sid].pending, id))
    requires slot.planRun ==> sid in s.approved
    ensures Kept(s, WithSlot(s, sid, slot))
  {
    Spliced(s.slots[sid].pending, id);
    SlotCardsKeep(s, sid, slot);
  }

  lemma SlotlessCardLeaves(s: State, sid: Sid, id: ReqId)
    requires Inv(s) && sid in s.slotless && IndexOf(s.slotless[sid], id) >= 0
    ensures Kept(s, s.(slotless := s.slotless[sid := Splice(s.slotless[sid], IndexOf(s.slotless[sid], id))]))
  {
    Spliced(s.slotless[sid], id);
    SlotlessCardsKeep(s, sid, Splice(s.slotless[sid], IndexOf(s.slotless[sid], id)));
  }

  lemma PlanRunApproved(s: State, sid: Sid)
    requires Inv(s) && sid in s.slots && s.slots[sid].planRun
    ensures sid in s.approved
  {
  }

  lemma SlotWithdrawKeeps(s: State, sid: Sid, id: ReqId)
    requires Inv(s) && sid in s.slots && IndexOf(s.slots[sid].pending, id) >= 0
    ensures Kept(s, OnWithdraw(s, sid, id))
  {
    hide Inv, OnlyGrows, IndexOf, Splice;
    var sl := s.slots[sid];
    var slot := sl.(pending := Splice(sl.pending, IndexOf(sl.pending, id)));
    if slot.planRun { PlanRunApproved(s, sid); }
    CardLeaves(s, sid, id, slot);
    var s1 := WithSlot(s, sid, slot);
    UnstashKeeps(s1, id);
    Chain(s, s1, OnWithdraw(s, sid, id));
  }

  lemma SlotlessWithdrawKeeps(s: State, sid: Sid, id: ReqId)
    requires Inv(s) && sid in s.slotless && IndexOf(s.slotless[sid], id) >= 0
    requires sid in s.slots ==> IndexOf(s.slots[sid].pending, id) < 0
    ensures Kept(s, OnWithdraw(s, sid, id))
  {
    hide Inv, OnlyGrows, IndexOf, Splice;
    SlotlessCardLeaves(s, sid, id);
    var s1 := s.(slotless := s.slotless[sid := Splice(s.slotless[sid], IndexOf(s.slotless[sid], id))]);
    UnstashKeeps(s1, id);
    Chain(s, s1, OnWithdraw(s, sid, id));
  }

  lemma WithdrawKeeps(s: State, sid: Sid, id: ReqId)
    requires Inv(s)
    ensures Kept(s, OnWithdraw(s, sid, id))
  {
    hide Inv, OnlyGrows, IndexOf, Splice;
    if sid in s.slots && IndexOf(s.slots[sid].pending, id) >= 0 {
      SlotWithdrawKeeps(s, sid, id);
    } else if sid in s.slotless && IndexOf(s.slotless[sid], id) >= 0 {
      SlotlessWithdrawKeeps(s, sid, id);
    } else {
      Same(s);
    }
  }

  lemma Same(s: State)
    requires Inv(s)
    ensures Kept(s, s)
  {
  }

  // ---- Asking --------------------------------------------------------------------------------

  lemma NewIdNotOnBoard(s: State, id: ReqId)
    requires Inv(s) && id !in s.asks
    ensures forall sid, c :: sid in s.slots && c in s.slots[sid].pending ==> c.id != id
    ensures forall sid, c :: sid in s.slotless && c in s.slotless[sid] ==> c.id != id
  {
  }

  /** The recorded ask goes on its session's board. */
  lemma CardAdded(s: State, card: Ask, sid: Sid)
    requires Inv(s) && CardOk(s.asks, s.responded, card, sid, if sid in s.slots then OnSlot else OnSlotless)
    requires forall x, c :: x in s.slots && c in s.slots[x].pending ==> c.id != card.id
    requires forall x, c :: x in s.slotless && c in s.slotless[x] ==> c.id != card.id
    ensures Kept(s, OnBoard(s, sid, card))
  {
    if sid in s.slots {
      var sl := s.slots[sid];
      Appended(sl.pending, card);
      SlotCardsKeep(s, sid, sl.(pending := sl.pending + [card]));
    } else {
      var cards := if sid in s.slotless then s.slotless[sid] else [];
      Appended(cards, card);
      SlotlessCardsKeep(s, sid, cards + [card]);
    }
  }

  lemma CardRecorded(p: Policy, s: State, r: Request)
    requires Inv(s) && r.id !in s.asks && Gate(p, SlotOf(s, r.sid), r) == Card
    ensures var s1 := s.(early := s.early - {r.id}, asks := s.asks[r.id := RecordOf(p, s, r)]);
            && Kept(s, s1)
            && CardOk(s1.asks, s1.responded, CardFor(p, SlotOf(s, r.sid), r), r.sid,
                      if r.sid in s.slots then OnSlot else OnSlotless)
  {
    hide OnlyGrows;
    GateFits(p, s, r);
    NewAskKeeps(s, r.id, RecordOf(p, s, r));
  }

  lemma CardAskKeeps(p: Policy, s: State, r: Request, reviewId: ReqId)
    requires Inv(s) && r.id !in s.asks && Gate(p, SlotOf(s, r.sid), r) == Card
    ensures Kept(s, OnAsk(p, s, r, reviewId))
  {
    hide Inv, OnlyGrows, Gate, RecordOf, CardOk;
    CardRecorded(p, s, r);
    NewIdNotOnBoard(s, r.id);
    var s1 := s.(early := s.early - {r.id}, asks := s.asks[r.id := RecordOf(p, s, r)]);
    var card := CardFor(p, SlotOf(s, r.sid), r);
    CardAdded(s1, card, r.sid);
    Chain(s, s1, OnBoard(s1, r.sid, card));
  }

  lemma DecidedAskKeeps(p: Policy, s: State, r: Request, reviewId: ReqId)
    requires Inv(s) && r.id !in s.asks
    requires Gate(p, SlotOf(s, r.sid), r).Decide? || Gate(p, SlotOf(s, r.sid), r).RunInBackground?
             || Gate(p, SlotOf(s, r.sid), r).EnterPlan?
    ensures Kept(s, OnAsk(p, s, r, reviewId))
  {
    hide Gate, Inv, OnlyGrows, CardFor;
    GateFits(p, s, r);
    var rec, v := RecordOf(p, s, r), Gate(p, SlotOf(s, r.sid), r);
    assert rec.viaGate && rec.verdict == v && rec.approvedBefore == (r.sid in s.approved);
    hide RecordOf;
    if v == Decide(Allow, ApprovedPlan) { PlanRunApproved(s, r.sid); }
    NewAskKeeps(s, r.id, rec);
    var s1 := s.(early := s.early - {r.id}, asks := s.asks[r.id := rec]);
    match v {
      case Decide(decision, why) =>
        StashKeeps(s1, r.id, Answer(decision, ByGate(why)));
        Chain(s, s1, OnAsk(p, s, r, reviewId));
      case EnterPlan =>
        var s2 := if r.sid in s.slots then WithSlot(s1, r.sid, s.slots[r.sid].(planTurn := true)) else s1;
        if r.sid in s.slots {
          if s.slots[r.sid].planRun { PlanRunApproved(s, r.sid); }
          SlotFlagsKeep(s1, r.sid, s2.slots[r.sid]);
          Chain(s, s1, s2);
        }
        StashKeeps(s2, r.id, Answer(Deny, ByGate(PlanModeEngaged)));
        Chain(s, s2, OnAsk(p, s, r, reviewId));
      case RunInBackground =>
    }
  }

  /** The review takes the place of the session's earlier synthetic asks. */
  lemma ReviewReplaces(s: State, sid: Sid, review: Ask, slot: Slot)
    requires Inv(s) && sid in s.slots && CardOk(s.asks, s.responded, review, sid, OnSlot)
    requires forall c :: c in s.slots[sid].pending ==> c.id != review.id
    requires slot == s.slots[sid].(pending := NotSynthetic(s.slots[sid].pending) + [review])
    ensures Kept(s, WithSlot(s, sid, slot))
  {
    FilteredCards(s.slots[sid].pending, "");
    Appended(NotSynthetic(s.slots[sid].pending), review);
    SlotCardsKeep(s, sid, slot);
  }

  /** Recording the new ask and, after it, its review. */
  lemma ReviewRecorded(p: Policy, s: State, r: Request, reviewId: ReqId)
    requires Inv(s) && r.id !in s.asks && reviewId !in s.asks && reviewId != r.id && r.sid in s.slots
    requires RecordOf(p, s, r).verdict.OpenReview?
    ensures var s2 := s.(early := s.early - {r.id},
                         asks := s.asks[r.id := RecordOf(p, s, r)][reviewId := ReviewRecord(s, r.sid)]);
            && Kept(s, s2) && r.id !in s2.waiters
            && (forall c :: c in s.slots[r.sid].pending ==> c.id != reviewId)
            && CardOk(s2.asks, s2.responded, ReviewAsk(s.slots[r.sid], reviewId), r.sid, OnSlot)
            && ProducedFor(s2.asks, s2.responded, r.id, Answer(Deny, ByGate(PlanSubmitted)))
  {
    hide Inv, OnlyGrows, Gate;
    GateFits(p, s, r);
    var rec, review := RecordOf(p, s, r), ReviewRecord(s, r.sid);
    assert rec.viaGate && RecordOk(rec) && RecordOk(review);
    hide RecordOf, RecordOk;
    NewAskKeeps(s, r.id, rec);
    var s1 := s.(early := s.early - {r.id}, asks := s.asks[r.id := rec]);
    NewIdNotOnBoard(s1, reviewId);
    NotStashed(s1, reviewId);
    NewAskKeeps(s1, reviewId, review);
    assert s1.early - {reviewId} == s1.early;
    Chain(s, s1, s1.(early := s1.early - {reviewId}, asks := s1.asks[reviewId := review]));
  }

  lemma NotStashed(s: State, id: ReqId)
    requires Inv(s) && id !in s.asks
    ensures id !in s.early && id !in s.responded
  {
  }

  lemma ReviewAskKeeps(p: Policy, s: State, r: Request, reviewId: ReqId)
    requires Inv(s) && r.id !in s.asks && reviewId !in s.asks && reviewId != r.id
    requires Gate(p, SlotOf(s, r.sid), r).OpenReview?
    ensures Kept(s, OnAsk(p, s, r, reviewId))
  {
    GateOpens(p, s, r);
    hide Inv, OnlyGrows, Gate, NotSynthetic, CardOk, ProducedFor;
    ReviewRecorded(p, s, r, reviewId);
    var s2 := s.(early := s.early - {r.id},
                 asks := s.asks[r.id := RecordOf(p, s, r)][reviewId := ReviewRecord(s, r.sid)]);
    var sl := s.slots[r.sid];
    var slot := sl.(pending := NotSynthetic(sl.pending) + [ReviewAsk(sl, reviewId)]);
    ReviewReplaces(s2, r.sid, ReviewAsk(sl, reviewId), slot);
    var s3 := WithSlot(s2, r.sid, slot);
    Chain(s, s2, s3);
    StashKeeps(s3, r.id, Answer(Deny, ByGate(PlanSubmitted)));
    Chain(s, s3, Stash(s3, r.id, Answer(Deny, ByGate(PlanSubmitted))));
  }

  lemma GateOpens(p: Policy, s: State, r: Request)
    requires Gate(p, SlotOf(s, r.sid), r).OpenReview?
    ensures r.sid in s.slots
  {
  }

  lemma ControlAskKeeps(p: Policy, s: State, r: Request)
    requires Inv(s) && r.id !in s.asks
    ensures Kept(s, OnControlAsk(p, s, r))
  {
    if r.sid in s.slots {
      var sl := s.slots[r.sid];
      var critical := MarkCritical(p, r.tool, r.input, Some(sl.cwd));
      var rec := Record(r.sid, OnSlot, r.tool, critical, sl.planTurn, false, r.sid in s.approved, Card);
      var card := Ask(r.id, r.tool, sl.driver, critical, false, false);
      var s1 := s.(asks := s.asks[r.id := rec]);
      assert OnControlAsk(p, s, r) == OnBoard(s1, r.sid, card);
      assert RecordOk(rec);
      hide OnControlAsk, OnBoard, MarkCritical, Inv, OnlyGrows;
      NewIdNotOnBoard(s, r.id);
      NewAskKeeps(s, r.id, rec);
      NotStashed(s, r.id);
      assert s.early - {r.id} == s.early;
      assert s.(early := s.early - {r.id}, asks := s.asks[r.id := rec]) == s1;
      CardAdded(s1, card, r.sid);
      Chain(s, s1, OnBoard(s1, r.sid, card));
    } else {
      Same(s);
    }
  }

  // ---- Answering -----------------------------------------------------------------------------

  /** A reply to a card that has just left the board. */
  lemma ReplyKeeps(s: State, id: ReqId, decision: Decision, isPeer: bool)
    requires Inv(s) && id in s.asks && id !in s.responded && (isPeer ==> !s.asks[id].critical)
    requires forall sid, c :: sid in s.slots && c in s.slots[sid].pending ==> c.id != id
    requires forall sid, c :: sid in s.slotless && c in s.slotless[sid] ==> c.id != id
    ensures Kept(s, Responded(s, id, decision, isPeer))
  {
    var t := Responded(s, id, decision, isPeer);
    forall sid | sid in s.slots ensures CardsOk(t.asks, t.responded, s.slots[sid].pending, sid, OnSlot) {
      assert forall c :: c in s.slots[sid].pending ==> CardOk(s.asks, s.responded, c, sid, OnSlot);
    }
    forall sid | sid in s.slotless ensures CardsOk(t.asks, t.responded, s.slotless[sid], sid, OnSlotless) {
      assert forall c :: c in s.slotless[sid] ==> CardOk(s.asks, s.responded, c, sid, OnSlotless);
    }
  }

  /** A card is on one board only. */
  lemma OneBoard(s: State, c: Ask, sid: Sid, home: Home)
    requires Inv(s) && CardOk(s.asks, s.responded, c, sid, home)
    ensures forall sid', d :: sid' in s.slots && d in s.slots[sid'].pending && d.id == c.id ==>
              sid' == sid && home == OnSlot
    ensures forall sid', d :: sid' in s.slotless && d in s.slotless[sid'] && d.id == c.id ==>
              sid' == sid && home == OnSlotless
  {
    forall sid', d | sid' in s.slots && d in s.slots[sid'].pending && d.id == c.id
      ensures sid' == sid && home == OnSlot
    {
      assert CardOk(s.asks, s.responded, d, sid', OnSlot);
    }
    forall sid', d | sid' in s.slotless && d in s.slotless[sid'] && d.id == c.id
      ensures sid' == sid && home == OnSlotless
    {
      assert CardOk(s.asks, s.responded, d, sid', OnSlotless);
    }
  }

  lemma FoundCard(s: State, sid: Sid, id: ReqId)
    requires Inv(s) && sid in s.slots && IndexOf(s.slots[sid].pending, id) >= 0
    ensures var a := s.slots[sid].pending[IndexOf(s.slots[sid].pending, id)];
            && id in s.asks && id !in s.responded && s.asks[id].verdict == Card && s.asks[id].critical == a.critical
  {
    var a := s.slots[sid].pending[IndexOf(s.slots[sid].pending, id)];
    assert a in s.slots[sid].pending;
    assert CardOk(s.asks, s.responded, a, sid, OnSlot);
  }

  /** Once the card found is taken out, no board has one with its id. */
  lemma OffTheBoard(s: State, sid: Sid, id: ReqId, slot: Slot)
    requires Inv(s) && sid in s.slots && IndexOf(s.slots[sid].pending, id) >= 0
    requires slot.pending == Splice(s.slots[sid].pending, IndexOf(s.slots[sid].pending, id))
    ensures var t := WithSlot(s, sid, slot);
            && (forall x, c :: x in t.slots && c in t.slots[x].pending ==> c.id != id)
            && (forall x, c :: x in t.slotless && c in t.slotless[x] ==> c.id != id)
  {
    var a := s.slots[sid].pending[IndexOf(s.slots[sid].pending, id)];
    assert a in s.slots[sid].pending && a.id == id;
    assert CardOk(s.asks, s.responded, a, sid, OnSlot);
    OneBoard(s, a, sid, OnSlot);
    Spliced(s.slots[sid].pending, id);
    hide Inv, CardOk, IndexOf, Splice;
  }

  /** The card found leaves the board, and its reply is recorded. */
  lemma CardAnswered(s: State, sid: Sid, id: ReqId, decision: Decision, always: bool, isPeer: bool)
    requires Inv(s) && sid in s.slots && IndexOf(s.slots[sid].pending, id) >= 0
    requires isPeer ==> !s.slots[sid].pending[IndexOf(s.slots[sid].pending, id)].critical
    ensures var sl := s.slots[sid];
            var a := sl.pending[IndexOf(sl.pending, id)];
            var s0 := WithSlot(s, sid, sl.(pending := Splice(sl.pending, IndexOf(sl.pending, id)),
                                           trusted := TrustedAfter(sl, a, decision, always)));
            var s1 := Responded(s0, id, decision, isPeer);
            Kept(s, s1) && ProducedFor(s1.asks, s1.responded, id, Answer(decision, ByHuman(isPeer)))
  {
    var sl := s.slots[sid];
    hide Inv, OnlyGrows, Splice, TrustedAfter;
    if sl.planRun { PlanRunApproved(s, sid); }
    FoundCard(s, sid, id);
    var a := sl.pending[IndexOf(sl.pending, id)];
    hide IndexOf;
    var slot := sl.(pending := Splice(sl.pending, IndexOf(sl.pending, id)),
                    trusted := TrustedAfter(sl, a, decision, always));
    var s0 := WithSlot(s, sid, slot);
    OffTheBoard(s, sid, id, slot);
    CardLeaves(s, sid, id, slot);
    ReplyKeeps(s0, id, decision, isPeer);
    Chain(s, s0, Responded(s0, id, decision, isPeer));
  }

  /** An answer turn is queued for a session in which a review was allowed. */
  lemma AutoTurnKeeps(s: State, sid: Sid, approved: set<Sid>)
    requires Inv(s) && s.approved <= approved && sid in approved
    ensures Kept(s, s.(autoTurns := Enqueue(s.autoTurns, sid), approved := approved))
  {
  }

  lemma SlotRespondKeeps(s: State, sid: Sid, id: ReqId, decision: Decision, always: bool, isPeer: bool)
    requires Inv(s) && sid in s.slots && !s.slots[sid].expired && IndexOf(s.slots[sid].pending, id) >= 0
    requires isPeer ==> !s.slots[sid].pending[IndexOf(s.slots[sid].pending, id)].critical
    ensures Kept(s, Respond(s, sid, id, decision, always, isPeer))
  {
    hide Inv, OnlyGrows, Splice, IndexOf, ProducedFor, Deliver;
    var sl := s.slots[sid];
    var a := sl.pending[IndexOf(sl.pending, id)];
    if sl.planRun { PlanRunApproved(s, sid); }
    CardAnswered(s, sid, id, decision, always, isPeer);
    var s1 := Responded(WithSlot(s, sid, sl.(pending := Splice(sl.pending, IndexOf(sl.pending, id)),
                                             trusted := TrustedAfter(sl, a, decision, always))), id, decision, isPeer);
    var t := Respond(s, sid, id, decision, always, isPeer);
    if a.synthetic {
      if decision == Allow {
        AutoTurnKeeps(s1, sid, s1.approved + {sid});
        Chain(s, s1, t);
      }
    } else {
      var s2 := Deliver(s1, id, Answer(decision, ByHuman(isPeer)));
      DeliverKeeps(s1, id, Answer(decision, ByHuman(isPeer)));
      Chain(s, s1, s2);
      if t != s2 {
        AutoTurnKeeps(s2, sid, s2.approved);
        Chain(s, s2, t);
      }
    }
  }

  lemma SlotlessCardAnswered(s: State, sid: Sid, id: ReqId, decision: Decision, isPeer: bool)
    requires Inv(s) && sid in s.slotless && IndexOf(s.slotless[sid], id) >= 0
    requires isPeer ==> !s.slotless[sid][IndexOf(s.slotless[sid], id)].critical
    ensures var s1 := Responded(DropSlotless(s, sid, id), id, decision, isPeer);
            Kept(s, s1) && ProducedFor(s1.asks, s1.responded, id, Answer(decision, ByHuman(isPeer)))
  {
    hide OnlyGrows;
    var a := s.slotless[sid][IndexOf(s.slotless[sid], id)];
    assert a in s.slotless[sid];
    OneBoard(s, a, sid, OnSlotless);
    DropSlotlessKeeps(s, sid, id);
    ReplyKeeps(DropSlotless(s, sid, id), id, decision, isPeer);
    Chain(s, DropSlotless(s, sid, id), Responded(DropSlotless(s, sid, id), id, decision, isPeer));
  }

  lemma SlotlessRespondKeeps(s: State, sid: Sid, id: ReqId, decision: Decision, always: bool, isPeer: bool)
    requires Inv(s) && sid !in s.slots && sid in s.slotless && IndexOf(s.slotless[sid], id) >= 0
    requires isPeer ==> !s.slotless[sid][IndexOf(s.slotless[sid], id)].critical
    ensures Kept(s, Respond(s, sid, id, decision, always, isPeer))
  {
    hide Inv, OnlyGrows, IndexOf, DropSlotless, Deliver, ProducedFor;
    SlotlessCardAnswered(s, sid, id, decision, isPeer);
    var s1 := Responded(DropSlotless(s, sid, id), id, decision, isPeer);
    DeliverKeeps(s1, id, Answer(decision, ByHuman(isPeer)));
    Chain(s, s1, Deliver(s1, id, Answer(decision, ByHuman(isPeer))));
  }

  lemma RouteKeeps(s: State, sid: Sid, id: ReqId, decision: Decision, always: bool, g: Guard)
    requires Inv(s)
    ensures Kept(s, OnRoute(s, sid, id, decision, always, g))
  {
    hide Inv, OnlyGrows, IndexOf, Splice, Deliver, TrustedAfter, DropSlotless;
    Same(s);
    if RouteAccepts(s, sid, id, g) {
      var i := IndexOf(PendingOf(s, sid), id);
      if i >= 0 && sid in s.slots && !s.slots[sid].expired {
        hide Respond;
        SlotRespondKeeps(s, sid, id, decision, always && !g.PeerOk?, g.PeerOk?);
      } else if i >= 0 && sid !in s.slots {
        hide Respond;
        SlotlessRespondKeeps(s, sid, id, decision, always && !g.PeerOk?, g.PeerOk?);
      } else {
        assert Respond(s, sid, id, decision, always && !g.PeerOk?, g.PeerOk?) == s;
      }
    }
  }

  // ---- Every step, every run -----------------------------------------------------------------

  lemma SpawnKeeps(s: State, sid: Sid, cwd: string, autoMode: bool)
    requires Inv(s)
    ensures Kept(s, OnSpawn(s, sid, cwd, autoMode))
  {
    if sid in s.slots { FilteredCards(s.slots[sid].pending, ""); }
    SlotCardsKeep(s, sid, OnSpawn(s, sid, cwd, autoMode).slots[sid]);
  }

  lemma EndKeeps(s: State, sid: Sid)
    requires Inv(s)
    ensures Kept(s, s.(slots := s.slots - {sid}))
  {
  }

  /** The events that only set flags of one slot. */
  lemma FlagStepKeeps(p: Policy, s: State, e: Event)
    requires Inv(s)
    requires e.ResultFrame? || e.SetAutoMode? || e.TrustPeer? || e.AssistantText? || e.Expire?
    ensures Kept(s, Step(p, s, e))
  {
    hide Inv, OnlyGrows;
    var t := Step(p, s, e);
    if e.sid in s.slots && t != s {
      if s.slots[e.sid].planRun { PlanRunApproved(s, e.sid); }
      SlotFlagsKeep(s, e.sid, t.slots[e.sid]);
    } else {
      Same(s);
    }
  }

  lemma DequeueKeeps(s: State, sid: Sid)
    requires Inv(s) && Queued(s.autoTurns, sid) > 0
    ensures sid in s.approved && Kept(s, s.(autoTurns := Dequeue(s.autoTurns, sid)))
  {
  }

  lemma TurnStartsKeeps(s: State, sid: Sid, plan: bool, auto: bool, driver: Option<ShareId>)
    requires Inv(s)
    ensures Kept(s, OnTurnStarts(s, sid, plan, auto, driver))
  {
    hide Inv, OnlyGrows, Dequeue;
    if TurnBegins(s, sid, auto) {
      var slot := s.slots[sid].(planTurn := plan, planRun := auto, driver := driver, lastText := "");
      if auto {
        DequeueKeeps(s, sid);
        var s1 := s.(autoTurns := Dequeue(s.autoTurns, sid));
        SlotFlagsKeep(s1, sid, slot);
        Chain(s, s1, WithSlot(s1, sid, slot));
      } else {
        SlotFlagsKeep(s, sid, slot);
      }
    } else {
      Same(s);
    }
  }

  lemma StepKeeps(p: Policy, s: State, e: Event)
    requires Inv(s) && WellUsed(p, s, e)
    ensures Kept(s, Step(p, s, e))
  {
    match e {
      case AskThroughGate(r, reviewId) =>
        match Gate(p, SlotOf(s, r.sid), r) {
          case Card => CardAskKeeps(p, s, r, reviewId);
          case OpenReview => ReviewAskKeeps(p, s, r, reviewId);
          case _ => DecidedAskKeeps(p, s, r, reviewId);
        }
      case ControlAsk(r) => ControlAskKeeps(p, s, r);
      case Wait(w, id) => if id in s.early { WaitConsumesStash(s, w, id); } else { WaitParks(s, w, id); }
      case Timeout(w) => FinishKeeps(s, w, TimedOut);
      case ExpireStash(id) => UnstashKeeps(s, id);
      case PreviewSettled(id) => DeliverKeeps(s, id, Answer(Deny, BySystem));
      case Route(sid, id, decision, always, header, devices, shares) =>
        RouteKeeps(s, sid, id, decision, always, CheckParticipant(header, sid, devices, shares));
      case Withdraw(sid, id) => WithdrawKeeps(s, sid, id);
      case DropStale(sid, id) => DropSlotlessKeeps(s, sid, id);
      case Spawn(sid, cwd, autoMode) => SpawnKeeps(s, sid, cwd, autoMode);
      case End(sid) => EndKeeps(s, sid);
      case TurnStarts(sid, plan, auto, driver) => TurnStartsKeeps(s, sid, plan, auto, driver);
      case _ => FlagStepKeeps(p, s, e);
    }
  }

  lemma {:induction false} RunKeeps(p: Policy, s: State, es: seq<Event>)
    requires Inv(s) && AllWellUsed(p, s, es)
    ensures Kept(s, Run(p, s, es))
    decreases |es|
  {
    if es != [] {
      StepKeeps(p, s, es[0]);
      RunKeeps(p, Step(p, s, es[0]), es[1..]);
    }
  }

  // ---- The theorems --------------------------------------------------------------------------

  /**
   The rendezvous. In every run, a wait that is settled with a decision got one that was produced
   for its own id, and so did whoever peeks; no id is both stashed and waited on; a wait not settled
   yet is the one its id's decision will go to; and records, replies and settled waits are never
   rewritten afterwards.
   */
  lemma Rendezvous(p: Policy, es: seq<Event>, more: seq<Event>)
    requires AllWellUsed(p, Init(), es) && AllWellUsed(p, Run(p, Init(), es), more)
    ensures var s := Run(p, Init(), es);
            && (forall w :: w in s.settled && s.settled[w].Decided? ==>
                  w in s.waits && ProducedFor(s.asks, s.responded, s.waits[w], s.settled[w].answer))
            && (forall id :: Peek(s, id).Some? ==> ProducedFor(s.asks, s.responded, id, Peek(s, id).value))
            && s.waiters.Keys !! s.early.Keys
            && (forall w :: w in s.waits && w !in s.settled ==> s.waits[w] in s.waiters && s.waiters[s.waits[w]] == w)
            && OnlyGrows(s, Run(p, s, more))
  {
    RunKeeps(p, Init(), es);
    RunKeeps(p, Run(p, Init(), es), more);
  }

  /** A wait's timer settles it, and takes nothing else away: the board and the stash stay. */
  lemma TimeoutSettlesAndLeavesTheCard(p: Policy, es: seq<Event>, w: WaitId)
    requires AllWellUsed(p, Init(), es) && w in Run(p, Init(), es).waits
    ensures var s := Run(p, Init(), es);
            OnlySettles(s, Step(p, s, Timeout(w)), w)
  {
    RunKeeps(p, Init(), es);
    hide Inv, OnlyGrows, OnlySettles;
    FinishSettles(Run(p, Init(), es), w);
    assert Step(p, Run(p, Init(), es), Timeout(w)) == Finish(Run(p, Init(), es), w, TimedOut);
  }

  /** From `s` to `t`, wait `w` is settled, by its timer if it was not before, and nobody else's wait goes. */
  ghost predicate OnlySettles(s: State, t: State, w: WaitId) {
    && w in t.settled && (w !in s.settled ==> t.settled[w] == TimedOut)
    && t.slots == s.slots && t.slotless == s.slotless && t.early == s.early
    && t.waiters == map id | id in s.waiters && s.waiters[id] != w :: s.waiters[id]
  }

  lemma FinishSettles(s: State, w: WaitId)
    requires Inv(s) && w in s.waits
    ensures OnlySettles(s, Finish(s, w, TimedOut), w)
  {
    hide Inv;
    WaitersAgree(s);
    var t := Finish(s, w, TimedOut);
    if w in s.settled {
      assert t == s;
      assert forall id :: id in s.waiters ==> s.waiters[id] != w;
    } else {
      assert t == s.(settled := s.settled[w := TimedOut], waiters := s.waiters - {s.waits[w]});
      assert forall id :: id in s.waiters ==> (s.waiters[id] != w <==> id != s.waits[w]);
    }
    hide Finish;
  }

  lemma WaitersAgree(s: State)
    requires Inv(s)
    ensures WaitersOk(s.waiters, s.waits, s.settled)
  {
  }

  /** A reply that finds nobody waiting is what the next wait on that id gets, at once. */
  lemma EarlyReplyIsKept(p: Policy, s: State, e: Event, w: WaitId)
    requires e.Route? && e.sid in s.slots && !s.slots[e.sid].expired && IndexOf(s.slots[e.sid].pending, e.id) >= 0
    requires !s.slots[e.sid].pending[IndexOf(s.slots[e.sid].pending, e.id)].synthetic
    requires RouteAccepts(s, e.sid, e.id, CheckParticipant(e.header, e.sid, e.devices, e.shares))
    requires e.id !in s.waiters && w !in s.waits
    ensures var t := Step(p, Step(p, s, e), Wait(w, e.id));
            && w in t.settled && e.id !in t.early
            && t.settled[w] == Decided(Answer(e.decision,
                 ByHuman(CheckParticipant(e.header, e.sid, e.devices, e.shares).PeerOk?)))
  {
    var isPeer := CheckParticipant(e.header, e.sid, e.devices, e.shares).PeerOk?;
    RouteResponds(p, s, e);
    ReplyIsStashed(s, e.sid, e.id, e.decision, e.always && !isPeer, isPeer);
    var t := Respond(s, e.sid, e.id, e.decision, e.always && !isPeer, isPeer);
    WaitTakesStash(p, t, w, e.id);
    hide RouteAccepts, CheckParticipant, IndexOf, Splice, Respond, Step;
  }

  lemma RouteResponds(p: Policy, s: State, e: Event)
    requires e.Route? && RouteAccepts(s, e.sid, e.id, CheckParticipant(e.header, e.sid, e.devices, e.shares))
    ensures var isPeer := CheckParticipant(e.header, e.sid, e.devices, e.shares).PeerOk?;
            Step(p, s, e) == Respond(s, e.sid, e.id, e.decision, e.always && !isPeer, isPeer)
  {
    hide RouteAccepts, CheckParticipant, Respond;
  }

  lemma WaitTakesStash(p: Policy, s: State, w: WaitId, id: ReqId)
    requires id in s.early && w !in s.waits
    ensures var t := Step(p, s, Wait(w, id));
            w in t.settled && t.settled[w] == Decided(s.early[id]) && id !in t.early
  {
  }

  lemma ReplyIsStashed(s: State, sid: Sid, id: ReqId, decision: Decision, always: bool, isPeer: bool)
    requires sid in s.slots && !s.slots[sid].expired && IndexOf(s.slots[sid].pending, id) >= 0
    requires !s.slots[sid].pending[IndexOf(s.slots[sid].pending, id)].synthetic && id !in s.waiters
    ensures var t := Respond(s, sid, id, decision, always, isPeer);
            id in t.early && t.early[id] == Answer(decision, ByHuman(isPeer)) && t.waits == s.waits
  {
    hide IndexOf, Splice;
  }

  /** What a hook can be told about ask `id`: inline by the peek, or by a wait. */
  ghost predicate ToldTo(s: State, id: ReqId, a: Answer) {
    || Peek(s, id) == Some(a)
    || exists w :: w in s.settled && w in s.waits && s.waits[w] == id && s.settled[w] == Decided(a)
  }

  lemma ToldWhatWasProduced(s: State, id: ReqId, a: Answer)
    requires Inv(s) && ToldTo(s, id, a)
    ensures ProducedFor(s.asks, s.responded, id, a)
  {
  }

  /**
   Critical asks. In every run, if a hook is told "allow", inline or by a wait, on an ask that was
   put on the board with `critical` set, then a participant who is not a peer gave that answer: no
   automatic mode, trusted peer, approved plan or peer reply can have produced it.
   */
  lemma OnlyTheHostAllowsCritical(p: Policy, es: seq<Event>, id: ReqId, a: Answer)
    requires AllWellUsed(p, Init(), es)
    requires var s := Run(p, Init(), es);
             && ToldTo(s, id, a) && a.decision == Allow
             && id in s.asks && s.asks[id].verdict == Card && s.asks[id].critical
    ensures var s := Run(p, Init(), es);
            a.cause == ByHuman(false) && id in s.responded && s.responded[id] == Reply(Allow, false)
  {
    RunKeeps(p, Init(), es);
    ToldWhatWasProduced(Run(p, Init(), es), id, a);
  }

  /**
   Plan turns. In every run, if a hook is told "allow", inline or by a wait, on an ask raised through
   the gate during a plan turn, the ask was for a listed read-only tool and not critical, or a question.
   */
  lemma PlanTurnsOnlyRead(p: Policy, es: seq<Event>, id: ReqId, a: Answer)
    requires AllWellUsed(p, Init(), es)
    requires var s := Run(p, Init(), es);
             && ToldTo(s, id, a) && a.decision == Allow
             && id in s.asks && s.asks[id].viaGate && s.asks[id].planTurn
    ensures var rec := Run(p, Init(), es).asks[id];
            (rec.tool in PLAN_READONLY_TOOLS && !rec.critical) || rec.tool == "AskUserQuestion"
  {
    RunKeeps(p, Init(), es);
    var s := Run(p, Init(), es);
    ToldWhatWasProduced(s, id, a);
    assert RecordOk(s.asks[id]);
  }

  /**
   A reused id. Whatever the state, even one where the id was asked before: right after an ask, the
   peek answers exactly what that ask's own verdict decided, so a decision left over from an earlier
   use is met by nobody. A wait left over under the id is not looked at, so id and decision are both
   parked exactly when there was one and the verdict decides at once.
   */
  lemma ReusedIdMeetsItsOwnVerdict(p: Policy, s: State, r: Request, reviewId: ReqId)
    ensures var t := Step(p, s, AskThroughGate(r, reviewId));
            var own := GateDecision(Gate(p, SlotOf(s, r.sid), r));
            && Peek(t, r.id) == own
            && (forall id :: id != r.id ==> Peek(t, id) == Peek(s, id))
            && (r.id in t.waiters && r.id in t.early <==> r.id in s.waiters && own.Some?)
  {
    var s1 := s.(early := s.early - {r.id}, asks := s.asks[r.id := RecordOf(p, s, r)]);
    var v, card := Gate(p, SlotOf(s, r.sid), r), CardFor(p, SlotOf(s, r.sid), r);
    assert v.OpenReview? ==> r.sid in s.slots;
    VerdictStashes(s1, r, reviewId, v, card);
    hide Gate, AfterVerdict, GateDecision, CardFor, RecordOf;
  }

  lemma BoardStashesNothing(s: State, sid: Sid, card: Ask)
    ensures OnBoard(s, sid, card).early == s.early && OnBoard(s, sid, card).waiters == s.waiters
  {
    if sid in s.slots {
      var slot := s.slots[sid].(pending := s.slots[sid].pending + [card]);
      assert OnBoard(s, sid, card) == WithSlot(s, sid, slot);
    } else {
      var cards := (if sid in s.slotless then s.slotless[sid] else []) + [card];
      assert OnBoard(s, sid, card) == s.(slotless := s.slotless[sid := cards]);
    }
  }

  lemma VerdictStashes(s: State, r: Request, reviewId: ReqId, v: Verdict, card: Ask)
    requires v.OpenReview? ==> r.sid in s.slots
    ensures var t := AfterVerdict(s, r, reviewId, v, card);
            && t.waiters == s.waiters
            && t.early == if GateDecision(v).Some? then s.early[r.id := GateDecision(v).value] else s.early
  {
    BoardStashesNothing(s, r.sid, card);
    hide NotSynthetic, ReviewAsk, ReviewRecord, OnBoard;
  }

  // ---- Approved plans ------------------------------------------------------------------------

  predicate Accepted(s: State, e: Event)
    requires e.Route?
  {
    && RouteAccepts(s, e.sid, e.id, CheckParticipant(e.header, e.sid, e.devices, e.shares))
    && e.sid in s.slots && !s.slots[e.sid].expired && IndexOf(s.slots[e.sid].pending, e.id) >= 0
  }

  function Answered(s: State, e: Event): Ask
    requires e.Route? && Accepted(s, e)
  {
    s.slots[e.sid].pending[IndexOf(s.slots[e.sid].pending, e.id)]
  }

  /** A synthetic plan review of the session is answered "allow". */
  predicate AllowsReview(s: State, e: Event, sid: Sid) {
    e.Route? && e.sid == sid && e.decision == Allow && Accepted(s, e) && Answered(s, e).synthetic
  }

  predicate CarriesWindow(a: Ask, decision: Decision, sl: Slot) {
    !a.synthetic && a.tool == "AskUserQuestion" && decision == Deny && !a.planMode && sl.planRun
  }

  /** A question asked inside an open window is answered; the answer goes on as a turn of its own. */
  predicate RelaysAnswer(s: State, e: Event, sid: Sid) {
    e.Route? && e.sid == sid && Accepted(s, e) && CarriesWindow(Answered(s, e), e.decision, s.slots[sid])
  }

  /** A queued turn starts and opens the window. */
  predicate StartsAuto(s: State, e: Event, sid: Sid) {
    e.TurnStarts? && e.sid == sid && e.auto && TurnBegins(s, sid, true)
  }

  /** A result frame or an ordinary turn ends it; so do a new child and the end of the session. */
  predicate ClosesWindow(s: State, e: Event, sid: Sid) {
    || (e.ResultFrame? && e.sid == sid)
    || (e.TurnStarts? && e.sid == sid && !e.auto && TurnBegins(s, sid, false))
    || (e.Spawn? && e.sid == sid)
    || (e.End? && e.sid == sid)
  }

  predicate WindowOpen(slots: map<Sid, Slot>, sid: Sid) { sid in slots && slots[sid].planRun }

  ghost predicate SameWindows(a: map<Sid, Slot>, b: map<Sid, Slot>) {
    forall sid :: WindowOpen(a, sid) == WindowOpen(b, sid)
  }

  ghost predicate SamePlans(s: State, t: State) {
    t.autoTurns == s.autoTurns && t.approved == s.approved && SameWindows(s.slots, t.slots)
  }

  /** Nothing about plans or asks changes. */
  ghost predicate Quiet(s: State, t: State) { SamePlans(s, t) && t.asks == s.asks }

  lemma FlagsAreQuiet(s: State, sid: Sid, slot: Slot)
    requires sid in s.slots && slot.planRun == s.slots[sid].planRun
    ensures Quiet(s, WithSlot(s, sid, slot))
  {
  }

  lemma FinishIsQuiet(s: State, w: WaitId, r: Settlement)
    ensures Quiet(s, Finish(s, w, r)) && Finish(s, w, r).slots == s.slots
  {
  }

  lemma SlotsAloneAreQuiet(s: State, t: State)
    requires t.slots == s.slots && t.autoTurns == s.autoTurns && t.approved == s.approved && t.asks == s.asks
    ensures Quiet(s, t)
  {
  }

  lemma WaitIsQuiet(s: State, w: WaitId, id: ReqId)
    ensures Quiet(s, OnWait(s, w, id))
  {
    hide Quiet;
    if id in s.early {
      var t := s.(waits := s.waits[w := id], settled := s.settled[w := Decided(s.early[id])], early := s.early - {id});
      assert OnWait(s, w, id) == t;
      SlotsAloneAreQuiet(s, t);
    } else {
      var t := s.(waits := s.waits[w := id], waiters := s.waiters[id := w]);
      assert OnWait(s, w, id) == t;
      SlotsAloneAreQuiet(s, t);
    }
  }

  lemma UnstashIsQuiet(s: State, id: ReqId)
    ensures Quiet(s, s.(early := s.early - {id}))
  {
  }

  lemma DeliverIsQuiet(s: State, id: ReqId, a: Answer)
    ensures Quiet(s, Deliver(s, id, a)) && Deliver(s, id, a).slots == s.slots
  {
    if id in s.waiters {
      FinishIsQuiet(s, s.waiters[id], Decided(a));
      hide Quiet, Finish;
    } else {
      assert Deliver(s, id, a) == Stash(s, id, a);
    }
  }

  lemma DropIsQuiet(s: State, sid: Sid, id: ReqId)
    ensures Quiet(s, DropSlotless(s, sid, id)) && DropSlotless(s, sid, id).slots == s.slots
  {
    hide AllBut;
  }

  lemma SlotWithdrawIsQuiet(s: State, sid: Sid, id: ReqId)
    requires sid in s.slots && IndexOf(s.slots[sid].pending, id) >= 0
    ensures Quiet(s, OnWithdraw(s, sid, id))
  {
    hide IndexOf, Splice;
    var slot := s.slots[sid].(pending := Splice(s.slots[sid].pending, IndexOf(s.slots[sid].pending, id)));
    FlagsAreQuiet(s, sid, slot);
    UnstashIsQuiet(WithSlot(s, sid, slot), id);
    assert OnWithdraw(s, sid, id) == WithSlot(s, sid, slot).(early := s.early - {id});
    hide OnWithdraw, WithSlot;
  }

  lemma WithdrawIsQuiet(s: State, sid: Sid, id: ReqId)
    ensures Quiet(s, OnWithdraw(s, sid, id))
  {
    hide IndexOf, Splice;
    if sid in s.slots && IndexOf(s.slots[sid].pending, id) >= 0 {
      SlotWithdrawIsQuiet(s, sid, id);
    } else {
      var t := OnWithdraw(s, sid, id);
      assert t == s.(slotless := t.slotless, early := t.early);
      hide OnWithdraw;
    }
  }

  lemma BoardIsQuiet(s: State, sid: Sid, card: Ask)
    ensures Quiet(s, OnBoard(s, sid, card))
  {
    if sid in s.slots {
      var slot := s.slots[sid].(pending := s.slots[sid].pending + [card]);
      assert OnBoard(s, sid, card) == WithSlot(s, sid, slot);
    } else {
      var cards := (if sid in s.slotless then s.slotless[sid] else []) + [card];
      assert OnBoard(s, sid, card) == s.(slotless := s.slotless[sid := cards]);
    }
  }

  /** No decision is on record in `asks` but those before, and `rec` for `id`. */
  ghost predicate OnlyDecides(was: Asks, asks: Asks, id: ReqId, rec: Record) {
    forall x :: x in asks && asks[x].verdict.Decide? && (x !in was || x == id) ==> x == id && asks[x] == rec
  }

  lemma VerdictOnlyDecides(s: State, r: Request, reviewId: ReqId, v: Verdict, card: Ask)
    requires v.OpenReview? ==> r.sid in s.slots
    requires r.id in s.asks
    ensures var t := AfterVerdict(s, r, reviewId, v, card);
            SamePlans(s, t) && OnlyDecides(s.asks, t.asks, r.id, s.asks[r.id])
  {
    BoardIsQuiet(s, r.sid, card);
    hide OnBoard;
    match v {
      case Decide(decision, why) =>
      case OpenReview =>
        var sl := s.slots[r.sid];
        var slot := sl.(pending := NotSynthetic(sl.pending) + [ReviewAsk(sl, reviewId)]);
        hide NotSynthetic, ReviewAsk;
        assert AfterVerdict(s, r, reviewId, v, card).slots == WithSlot(s, r.sid, slot).slots;
        assert AfterVerdict(s, r, reviewId, v, card).asks == s.asks[reviewId := ReviewRecord(s, r.sid)];
      case EnterPlan =>
      case RunInBackground =>
      case Card =>
    }
  }

  lemma AskOnlyDecides(p: Policy, s: State, r: Request, reviewId: ReqId)
    ensures var t := OnAsk(p, s, r, reviewId);
            SamePlans(s, t) && OnlyDecides(s.asks, t.asks, r.id, RecordOf(p, s, r))
  {
    hide AfterVerdict, Gate, CardFor, RecordOf;
    var s1 := s.(early := s.early - {r.id}, asks := s.asks[r.id := RecordOf(p, s, r)]);
    var v, card := Gate(p, SlotOf(s, r.sid), r), CardFor(p, SlotOf(s, r.sid), r);
    if v.OpenReview? { GateOpens(p, s, r); }
    assert OnAsk(p, s, r, reviewId) == AfterVerdict(s1, r, reviewId, v, card);
    VerdictOnlyDecides(s1, r, reviewId, v, card);
    hide OnAsk, SlotOf;
  }

  lemma ControlAskOnlyDecides(p: Policy, s: State, r: Request)
    ensures var t := OnControlAsk(p, s, r);
            SamePlans(s, t) && forall x :: x in t.asks && x !in s.asks ==> t.asks[x].verdict == Card
  {
    var t := OnControlAsk(p, s, r);
    if r.sid in s.slots {
      var sl := s.slots[r.sid];
      var critical := MarkCritical(p, r.tool, r.input, Some(sl.cwd));
      hide MarkCritical;
      var slot := sl.(pending := sl.pending + [Ask(r.id, r.tool, sl.driver, critical, false, false)]);
      var rec := Record(r.sid, OnSlot, r.tool, critical, sl.planTurn, false, r.sid in s.approved, Card);
      assert t == WithSlot(s, r.sid, slot).(asks := s.asks[r.id := rec]);
      hide OnControlAsk;
      FlagsAreQuiet(s, r.sid, slot);
    } else {
      assert t == s;
      hide OnControlAsk;
    }
  }

  /** What answering a card does to plans: an allowed review, or a question inside an open window, queues a turn. */
  lemma RespondQueues(s: State, sid: Sid, id: ReqId, decision: Decision, always: bool, isPeer: bool)
    requires sid in s.slots && !s.slots[sid].expired && IndexOf(s.slots[sid].pending, id) >= 0
    ensures var sl := s.slots[sid];
            var a := sl.pending[IndexOf(sl.pending, id)];
            var t := Respond(s, sid, id, decision, always, isPeer);
            && t.asks == s.asks && SameWindows(s.slots, t.slots)
            && t.autoTurns == (if (a.synthetic && decision == Allow) || CarriesWindow(a, decision, sl)
                               then Enqueue(s.autoTurns, sid) else s.autoTurns)
            && t.approved == if a.synthetic && decision == Allow then s.approved + {sid} else s.approved
  {
    hide Deliver, IndexOf, Splice, TrustedAfter, DropSlotless, Enqueue;
    var sl := s.slots[sid];
    var i := IndexOf(sl.pending, id);
    var s1 := Responded(WithSlot(s, sid, sl.(pending := Splice(sl.pending, i),
      trusted := TrustedAfter(sl, sl.pending[i], decision, always))), id, decision, isPeer);
    assert SameWindows(s.slots, s1.slots);
    DeliverIsQuiet(s1, id, Answer(decision, ByHuman(isPeer)));
  }

  lemma SlotlessRespondIsQuiet(s: State, sid: Sid, id: ReqId, decision: Decision, always: bool, isPeer: bool)
    requires sid !in s.slots || s.slots[sid].expired || IndexOf(s.slots[sid].pending, id) < 0
    ensures Quiet(s, Respond(s, sid, id, decision, always, isPeer))
  {
    hide Deliver, IndexOf, Splice, DropSlotless;
    if sid !in s.slots {
      DropIsQuiet(s, sid, id);
      DeliverIsQuiet(Responded(DropSlotless(s, sid, id), id, decision, isPeer), id, Answer(decision, ByHuman(isPeer)));
    }
  }

  lemma RouteIsRespond(p: Policy, s: State, e: Event)
    requires e.Route?
    ensures var g := CheckParticipant(e.header, e.sid, e.devices, e.shares);
            Step(p, s, e) == if RouteAccepts(s, e.sid, e.id, g)
                             then Respond(s, e.sid, e.id, e.decision, e.always && !g.PeerOk?, g.PeerOk?) else s
  {
    hide RouteAccepts, CheckParticipant, Respond;
  }

  lemma RouteAsksNothing(p: Policy, s: State, e: Event)
    requires e.Route?
    ensures Step(p, s, e).asks == s.asks && SameWindows(s.slots, Step(p, s, e).slots)
    ensures !Accepted(s, e) ==> Quiet(s, Step(p, s, e))
  {
    RouteIsRespond(p, s, e);
    hide Step, Respond, RouteAccepts, CheckParticipant, IndexOf, CarriesWindow;
    var g := CheckParticipant(e.header, e.sid, e.devices, e.shares);
    if Accepted(s, e) {
      RespondQueues(s, e.sid, e.id, e.decision, e.always && !g.PeerOk?, g.PeerOk?);
    } else if RouteAccepts(s, e.sid, e.id, g) {
      SlotlessRespondIsQuiet(s, e.sid, e.id, e.decision, e.always && !g.PeerOk?, g.PeerOk?);
    }
  }

  lemma AcceptedRouteQueues(p: Policy, s: State, e: Event)
    requires e.Route? && Accepted(s, e)
    ensures var t := Step(p, s, e);
            && t.autoTurns == (if AllowsReview(s, e, e.sid) || RelaysAnswer(s, e, e.sid)
                               then Enqueue(s.autoTurns, e.sid) else s.autoTurns)
            && t.approved == (if AllowsReview(s, e, e.sid) then s.approved + {e.sid} else s.approved)
            && !(AllowsReview(s, e, e.sid) && RelaysAnswer(s, e, e.sid))
  {
    RouteIsRespond(p, s, e);
    CarriesIsNoReview(Answered(s, e), e.decision, s.slots[e.sid]);
    var g := CheckParticipant(e.header, e.sid, e.devices, e.shares);
    hide Step, Respond, RouteAccepts, CheckParticipant, IndexOf, CarriesWindow, SameWindows;
    RespondQueues(s, e.sid, e.id, e.decision, e.always && !g.PeerOk?, g.PeerOk?);
  }

  lemma CarriesIsNoReview(a: Ask, decision: Decision, sl: Slot)
    ensures CarriesWindow(a, decision, sl) ==> !a.synthetic && decision == Deny
  {
  }

  function One(b: bool): nat { if b then 1 else 0 }

  /** Events that neither ask, answer, nor begin or end a turn or a child. */
  predicate Minor(e: Event) {
    !e.AskThroughGate? && !e.ControlAsk? && !e.Route? && !e.TurnStarts? && !e.ResultFrame? && !e.Spawn? && !e.End?
  }

  lemma MinorStepIsQuiet(p: Policy, s: State, e: Event)
    requires Minor(e)
    ensures Quiet(s, Step(p, s, e))
  {
    hide Quiet, Deliver, Finish, OnWait, OnWithdraw, DropSlotless, WithSlot;
    match e {
      case Wait(w, id) => WaitIsQuiet(s, w, id);
      case Timeout(w) => FinishIsQuiet(s, w, TimedOut);
      case ExpireStash(id) => UnstashIsQuiet(s, id);
      case PreviewSettled(id) => DeliverIsQuiet(s, id, Answer(Deny, BySystem));
      case Withdraw(sid, id) => WithdrawIsQuiet(s, sid, id);
      case DropStale(sid, id) => DropIsQuiet(s, sid, id);
      case SetAutoMode(sid, on) => FlagIsQuiet(p, s, e);
      case TrustPeer(sid, shareId) => FlagIsQuiet(p, s, e);
      case AssistantText(sid, text) => FlagIsQuiet(p, s, e);
      case Expire(sid) => FlagIsQuiet(p, s, e);
    }
  }

  lemma SameIsQuiet(s: State)
    ensures Quiet(s, s)
  {
  }

  lemma FlagIsQuiet(p: Policy, s: State, e: Event)
    requires e.SetAutoMode? || e.TrustPeer? || e.AssistantText? || e.Expire?
    ensures Quiet(s, Step(p, s, e))
  {
    hide Quiet, WithSlot;
    SameIsQuiet(s);
    if e.sid in s.slots {
      var sl := s.slots[e.sid];
      var slot := match e
        case SetAutoMode(_, on) => sl.(autoMode := on)
        case TrustPeer(_, shareId) => sl.(trusted := sl.trusted + {shareId})
        case AssistantText(_, text) => sl.(lastText := text)
        case Expire(_) => sl.(expired := true);
      assert Step(p, s, e) == s || Step(p, s, e) == WithSlot(s, e.sid, slot);
      hide Step;
      FlagsAreQuiet(s, e.sid, slot);
    } else {
      assert Step(p, s, e) == s;
    }
  }

  /** What an event does to a session's queue, window and approval, read off the event. */
  ghost predicate Accounts(s: State, t: State, e: Event, sid: Sid) {
    && Queued(t.autoTurns, sid) + One(StartsAuto(s, e, sid))
       == Queued(s.autoTurns, sid) + One(AllowsReview(s, e, sid)) + One(RelaysAnswer(s, e, sid))
    && (WindowOpen(t.slots, sid) <==>
          StartsAuto(s, e, sid) || (WindowOpen(s.slots, sid) && !ClosesWindow(s, e, sid)))
    && (sid in t.approved <==> sid in s.approved || AllowsReview(s, e, sid))
  }

  lemma QuietAccounts(s: State, t: State, e: Event, sid: Sid)
    requires SamePlans(s, t) && !e.TurnStarts? && !e.ResultFrame? && !e.Spawn? && !e.End?
    requires e.Route? ==> !Accepted(s, e)
    ensures Accounts(s, t, e, sid)
  {
    hide Accepted;
    assert WindowOpen(t.slots, sid) == WindowOpen(s.slots, sid);
  }

  lemma RouteAccounts(p: Policy, s: State, e: Event, sid: Sid)
    requires e.Route? && Accepted(s, e)
    ensures Accounts(s, Step(p, s, e), e, sid)
  {
    hide Step, Accepted, Answered, CarriesWindow, Quiet;
    RouteAsksNothing(p, s, e);
    AcceptedRouteQueues(p, s, e);
    assert WindowOpen(Step(p, s, e).slots, sid) == WindowOpen(s.slots, sid);
    hide SameWindows, WindowOpen;
    assert sid != e.sid ==> !AllowsReview(s, e, sid) && !RelaysAnswer(s, e, sid);
    hide AllowsReview, RelaysAnswer;
  }

  lemma WindowAfter(slots: map<Sid, Slot>, at: Sid, slot: Slot, sid: Sid)
    ensures WindowOpen(slots[at := slot], sid) == if sid == at then slot.planRun else WindowOpen(slots, sid)
  {
  }

  lemma DequeueCounts(autoTurns: map<Sid, nat>, at: Sid, sid: Sid)
    requires Queued(autoTurns, at) > 0
    ensures Queued(Dequeue(autoTurns, at), sid) + One(sid == at) == Queued(autoTurns, sid)
  {
  }

  lemma TurnAccounts(s: State, e: Event, sid: Sid)
    requires e.TurnStarts? && TurnBegins(s, e.sid, e.auto)
    ensures Accounts(s, OnTurnStarts(s, e.sid, e.plan, e.auto, e.driver), e, sid)
  {
    var t := OnTurnStarts(s, e.sid, e.plan, e.auto, e.driver);
    hide AllowsReview, RelaysAnswer, WindowOpen, Dequeue, Queued, Accounts;
    var slot := s.slots[e.sid].(planTurn := e.plan, planRun := e.auto, driver := e.driver, lastText := "");
    assert t.slots == s.slots[e.sid := slot] && t.approved == s.approved;
    assert t.autoTurns == if e.auto then Dequeue(s.autoTurns, e.sid) else s.autoTurns;
    hide OnTurnStarts;
    TurnEffect(s, t, e, slot, sid);
  }

  lemma TurnEffect(s: State, t: State, e: Event, slot: Slot, sid: Sid)
    requires e.TurnStarts? && TurnBegins(s, e.sid, e.auto) && slot.planRun == e.auto
    requires t.slots == s.slots[e.sid := slot] && t.approved == s.approved
    requires t.autoTurns == if e.auto then Dequeue(s.autoTurns, e.sid) else s.autoTurns
    ensures Accounts(s, t, e, sid)
  {
    hide WindowOpen, Dequeue, Queued, Accepted;
    WindowAfter(s.slots, e.sid, slot, sid);
    if e.auto { DequeueCounts(s.autoTurns, e.sid, sid); }
  }

  lemma NoTurnAccounts(s: State, e: Event, sid: Sid)
    requires e.TurnStarts? && !TurnBegins(s, e.sid, e.auto)
    ensures Accounts(s, OnTurnStarts(s, e.sid, e.plan, e.auto, e.driver), e, sid)
  {
    hide WindowOpen, Queued, Accepted;
  }

  lemma SpawnAccounts(s: State, e: Event, sid: Sid)
    requires e.Spawn?
    ensures Accounts(s, OnSpawn(s, e.sid, e.cwd, e.autoMode), e, sid)
  {
    hide Synthetic;
  }

  lemma ClosingAccounts(p: Policy, s: State, e: Event, sid: Sid)
    requires e.ResultFrame? || e.End?
    ensures Accounts(s, Step(p, s, e), e, sid)
  {
    var t := Step(p, s, e);
    if e.End? {
      assert t == s.(slots := s.slots - {e.sid});
    } else if e.sid in s.slots {
      var slot := s.slots[e.sid].(planTurn := false, planRun := false);
      assert t == s.(slots := s.slots[e.sid := slot]);
    } else {
      assert t == s;
    }
    hide Step;
  }

  lemma PlanStep(p: Policy, s: State, e: Event, sid: Sid)
    ensures Accounts(s, Step(p, s, e), e, sid)
  {
    hide Accounts, Accepted, OnAsk, OnControlAsk, OnRoute, OnTurnStarts, OnSpawn, OnWait, Finish, Deliver,
         OnWithdraw, DropSlotless, OnlyDecides, SamePlans;
    if Minor(e) {
      MinorStepIsQuiet(p, s, e);
      hide Step;
      QuietAccounts(s, Step(p, s, e), e, sid);
    } else {
      match e {
        case AskThroughGate(r, reviewId) =>
          AskOnlyDecides(p, s, r, reviewId);
          QuietAccounts(s, Step(p, s, e), e, sid);
        case ControlAsk(r) =>
          ControlAskOnlyDecides(p, s, r);
          QuietAccounts(s, Step(p, s, e), e, sid);
        case Route(_, _, _, _, _, _, _) =>
          RouteAsksNothing(p, s, e);
          hide Step;
          if Accepted(s, e) { RouteAccounts(p, s, e, sid); } else { QuietAccounts(s, Step(p, s, e), e, sid); }
        case TurnStarts(_, _, _, _) =>
          if TurnBegins(s, e.sid, e.auto) { TurnAccounts(s, e, sid); } else { NoTurnAccounts(s, e, sid); }
        case ResultFrame(_) => ClosingAccounts(p, s, e, sid);
        case Spawn(_, _, _) => SpawnAccounts(s, e, sid);
        case End(_) => ClosingAccounts(p, s, e, sid);
      }
    }
  }

  /** How often in a run a session's reviews were allowed, answers relayed, and queued turns started. */
  datatype Tally = Tally(reviews: nat, relays: nat, starts: nat)

  function Tallied(p: Policy, s: State, es: seq<Event>, sid: Sid): Tally
    decreases |es|
  {
    if es == [] then Tally(0, 0, 0)
    else
      var rest := Tallied(p, Step(p, s, es[0]), es[1..], sid);
      Tally(rest.reviews + One(AllowsReview(s, es[0], sid)), rest.relays + One(RelaysAnswer(s, es[0], sid)),
            rest.starts + One(StartsAuto(s, es[0], sid)))
  }

  lemma {:induction false} QueueBalances(p: Policy, s: State, es: seq<Event>, sid: Sid)
    ensures var n := Tallied(p, s, es, sid);
            n.starts + Queued(Run(p, s, es).autoTurns, sid) == Queued(s.autoTurns, sid) + n.reviews + n.relays
    decreases |es|
  {
    if es != [] {
      PlanStep(p, s, es[0], sid);
      QueueBalances(p, Step(p, s, es[0]), es[1..], sid);
      hide Step, StartsAuto, AllowsReview, RelaysAnswer;
    }
  }

  /**
   Every turn that runs under an approved plan is paid for. In every run, the auto turns a session
   started, with those still queued, are exactly the reviews it had allowed and the questions answered
   inside an open window: one approval, without a question, is good for one turn.
   */
  lemma AutoTurnsAreAccounted(p: Policy, es: seq<Event>, sid: Sid)
    ensures var n := Tallied(p, Init(), es, sid);
            && n.starts + Queued(Run(p, Init(), es).autoTurns, sid) == n.reviews + n.relays
            && n.starts <= n.reviews + n.relays
  {
    QueueBalances(p, Init(), es, sid);
  }

  /** The state before event `k` of a run. */
  function At(p: Policy, es: seq<Event>, k: nat): State
    requires k <= |es|
  {
    Run(p, Init(), es[..k])
  }

  lemma {:induction false} RunSnoc(p: Policy, s: State, es: seq<Event>, e: Event)
    ensures Run(p, s, es + [e]) == Step(p, Run(p, s, es), e)
    decreases |es|
  {
    hide Step;
    if es == [] {
      assert [] + [e] == [e] && [e][1..] == [];
    } else {
      assert (es + [e])[1..] == es[1..] + [e];
      RunSnoc(p, Step(p, s, es[0]), es[1..], e);
    }
  }

  lemma AtNext(p: Policy, es: seq<Event>, k: nat)
    requires k < |es|
    ensures At(p, es, k + 1) == Step(p, At(p, es, k), es[k])
  {
    hide Step, Run;
    assert es[..k + 1] == es[..k] + [es[k]];
    RunSnoc(p, Init(), es[..k], es[k]);
  }

  /** The window is open before event `n`: some turn opened it, and nothing closed it since. */
  ghost predicate OpenedAt(p: Policy, es: seq<Event>, sid: Sid, i: nat, n: nat)
    requires n <= |es|
  {
    && i < n && StartsAuto(At(p, es, i), es[i], sid)
    && forall m :: i < m < n ==> !ClosesWindow(At(p, es, m), es[m], sid)
  }

  lemma OpenedNext(p: Policy, es: seq<Event>, sid: Sid, i: nat, n: nat)
    requires 0 < n <= |es| && !StartsAuto(At(p, es, n - 1), es[n - 1], sid)
    ensures OpenedAt(p, es, sid, i, n)
            <==> OpenedAt(p, es, sid, i, n - 1) && !ClosesWindow(At(p, es, n - 1), es[n - 1], sid)
  {
    hide At, StartsAuto, ClosesWindow;
  }

  lemma {:induction false} WindowIsOneTurnUpTo(p: Policy, es: seq<Event>, sid: Sid, n: nat)
    requires n <= |es|
    ensures WindowOpen(At(p, es, n).slots, sid) <==> exists i: nat :: OpenedAt(p, es, sid, i, n)
    decreases n
  {
    hide Step, Run, StartsAuto, ClosesWindow;
    if n == 0 {
      AtStart(p, es);
    } else {
      WindowIsOneTurnUpTo(p, es, sid, n - 1);
      AtNext(p, es, n - 1);
      PlanStep(p, At(p, es, n - 1), es[n - 1], sid);
      if StartsAuto(At(p, es, n - 1), es[n - 1], sid) {
        assert OpenedAt(p, es, sid, n - 1, n);
      } else if WindowOpen(At(p, es, n).slots, sid) {
        var i: nat :| OpenedAt(p, es, sid, i, n - 1);
        OpenedNext(p, es, sid, i, n);
      } else {
        forall i: nat ensures !OpenedAt(p, es, sid, i, n) { OpenedNext(p, es, sid, i, n); }
      }
    }
  }

  lemma AtStart(p: Policy, es: seq<Event>)
    ensures At(p, es, 0) == Init()
  {
    assert es[..0] == [];
  }

  /**
   The window is exactly one turn. In every run, a session's approved-plan window is open if and only
   if a queued turn of it started and since then no result frame came, no ordinary turn began, and the
   session got no new child and was not ended.
   */
  lemma WindowIsOneTurn(p: Policy, es: seq<Event>, sid: Sid)
    ensures WindowOpen(Run(p, Init(), es).slots, sid) <==> exists i: nat :: OpenedAt(p, es, sid, i, |es|)
  {
    WindowIsOneTurnUpTo(p, es, sid, |es|);
    assert es[..|es|] == es;
  }

  /** Nothing is queued and no window is open before a review was allowed. */
  lemma {:induction false} ReviewComesFirst(p: Policy, es: seq<Event>, sid: Sid, n: nat)
    requires n <= |es|
    requires forall k :: 0 <= k < n ==> !AllowsReview(At(p, es, k), es[k], sid)
    ensures Queued(At(p, es, n).autoTurns, sid) == 0 && !WindowOpen(At(p, es, n).slots, sid)
    decreases n
  {
    if n == 0 {
      AtStart(p, es);
    } else {
      var s, e := At(p, es, n - 1), es[n - 1];
      ReviewComesFirst(p, es, sid, n - 1);
      assert !AllowsReview(s, e, sid);
      AtNext(p, es, n - 1);
      PlanStep(p, s, e, sid);
      hide Step, Run, ClosesWindow, AllowsReview, Accepted, Answered;
      NothingToStart(s, e, sid);
    }
  }

  lemma NothingToStart(s: State, e: Event, sid: Sid)
    requires Queued(s.autoTurns, sid) == 0 && !WindowOpen(s.slots, sid)
    ensures !StartsAuto(s, e, sid) && !RelaysAnswer(s, e, sid)
  {
  }

  /** A new record with a decision is one ask's own. */
  lemma NewDecision(p: Policy, s: State, e: Event, id: ReqId)
    requires id !in s.asks && id in Step(p, s, e).asks && Step(p, s, e).asks[id].verdict.Decide?
    ensures e.AskThroughGate? && e.request.id == id && Step(p, s, e).asks[id] == RecordOf(p, s, e.request)
  {
    hide OnAsk, OnControlAsk, OnRoute, OnWait, Finish, Deliver, OnWithdraw, DropSlotless, OnTurnStarts, OnSpawn,
         RecordOf, SamePlans, Accepted;
    if Minor(e) {
      MinorStepIsQuiet(p, s, e);
    } else {
      match e {
        case AskThroughGate(r, reviewId) => AskOnlyDecides(p, s, r, reviewId);
        case ControlAsk(r) => ControlAskOnlyDecides(p, s, r);
        case Route(_, _, _, _, _, _, _) => RouteAsksNothing(p, s, e);
        case TurnStarts(at, plan, auto, driver) => TurnAsksNothing(s, at, plan, auto, driver);
        case ResultFrame(at) =>
        case Spawn(at, cwd, autoMode) => SpawnAsksNothing(s, at, cwd, autoMode);
        case End(at) =>
      }
    }
  }

  lemma TurnAsksNothing(s: State, sid: Sid, plan: bool, auto: bool, driver: Option<ShareId>)
    ensures OnTurnStarts(s, sid, plan, auto, driver).asks == s.asks
  {
  }

  lemma SpawnAsksNothing(s: State, sid: Sid, cwd: string, autoMode: bool)
    ensures OnSpawn(s, sid, cwd, autoMode).asks == s.asks
  {
    hide Synthetic;
  }

  /** The event that raised an ask which was decided at once. */
  lemma {:induction false} AskedAt(p: Policy, es: seq<Event>, id: ReqId, n: nat) returns (j: nat)
    requires n <= |es| && AllWellUsed(p, Init(), es)
    requires id in At(p, es, n).asks && At(p, es, n).asks[id].verdict.Decide?
    ensures j < n && es[j].AskThroughGate? && es[j].request.id == id
    ensures At(p, es, n).asks[id] == RecordOf(p, At(p, es, j), es[j].request)
    decreases n
  {
    AtStart(p, es);
    if n > 0 {
      AtNext(p, es, n - 1);
      WellUsedBefore(p, es, n - 1);
      var s := At(p, es, n - 1);
      hide At, Step, RecordOf, Inv, WellUsed, AllWellUsed;
      if id in s.asks {
        StepKeeps(p, s, es[n - 1]);
        RecordStays(s, At(p, es, n), id);
        hide Kept;
        j := AskedAt(p, es, id, n - 1);
      } else {
        NewDecision(p, s, es[n - 1], id);
        j := n - 1;
      }
    }
  }

  lemma WellUsedBefore(p: Policy, es: seq<Event>, k: nat)
    requires AllWellUsed(p, Init(), es) && k < |es|
    ensures Inv(At(p, es, k)) && WellUsed(p, At(p, es, k), es[k])
  {
    WellUsedAt(p, Init(), es, k);
  }

  lemma RecordStays(s: State, t: State, id: ReqId)
    requires Kept(s, t) && id in s.asks
    ensures id in t.asks && t.asks[id] == s.asks[id]
  {
  }

  lemma {:induction false} WellUsedAt(p: Policy, s: State, es: seq<Event>, k: nat)
    requires Inv(s) && AllWellUsed(p, s, es) && k < |es|
    ensures Inv(Run(p, s, es[..k])) && WellUsed(p, Run(p, s, es[..k]), es[k])
    decreases |es|
  {
    hide Step, WellUsed, Inv, OnlyGrows;
    if k > 0 {
      StepKeeps(p, s, es[0]);
      assert es[..k][1..] == es[1..][..k - 1] && es[..k][0] == es[0];
      WellUsedAt(p, Step(p, s, es[0]), es[1..], k - 1);
    }
  }

  /** Event `k` allows a review of the session, event `i` opens the window, and event `j` asks inside it. */
  ghost predicate AskedInWindow(p: Policy, es: seq<Event>, sid: Sid, id: ReqId, k: nat, i: nat, j: nat) {
    && k < i < j < |es|
    && AllowsReview(At(p, es, k), es[k], sid)
    && OpenedAt(p, es, sid, i, j)
    && es[j].AskThroughGate? && es[j].request.id == id
  }

  /**
   Approved plans. In every run, an "approved plan" auto-allow is for an ask raised in an open window
   of its session: an event before it started a queued turn and nothing closed the window since, and an
   event before that one is the route answering "allow" to a synthetic review of that very session.
   */
  lemma ApprovedPlanWasApproved(p: Policy, es: seq<Event>, id: ReqId)
    requires AllWellUsed(p, Init(), es)
    requires id in Run(p, Init(), es).asks && Run(p, Init(), es).asks[id].verdict == Decide(Allow, ApprovedPlan)
    ensures exists k: nat, i: nat, j: nat ::
              AskedInWindow(p, es, Run(p, Init(), es).asks[id].sid, id, k, i, j)
  {
    assert es[..|es|] == es;
    var j := AskedAt(p, es, id, |es|);
    var r := es[j].request;
    var sid := Run(p, Init(), es).asks[id].sid;
    GateFits(p, At(p, es, j), r);
    assert sid == r.sid && WindowOpen(At(p, es, j).slots, sid);
    hide Step, Run, RecordOf, Gate, AllWellUsed, GateDecision, StartsAuto, ClosesWindow, AllowsReview;
    WindowIsOneTurnUpTo(p, es, sid, j);
    var i: nat :| OpenedAt(p, es, sid, i, j);
    StartsWhatWasQueued(At(p, es, i), es[i], sid);
    if forall k :: 0 <= k < i ==> !AllowsReview(At(p, es, k), es[k], sid) {
      ReviewComesFirst(p, es, sid, i);
      assert false;
    }
    var k: nat :| k < i && AllowsReview(At(p, es, k), es[k], sid);
    assert AskedInWindow(p, es, sid, id, k, i, j);
  }

  lemma StartsWhatWasQueued(s: State, e: Event, sid: Sid)
    requires StartsAuto(s, e, sid)
    ensures Queued(s.autoTurns, sid) > 0
  {
  }

  /** A session counts as approved only once a synthetic review on its board is answered "allow". */
  lemma ApprovedOnlyByReview(p: Policy, s: State, e: Event, sid: Sid)
    requires sid !in s.approved && sid in Step(p, s, e).approved
    ensures e.Route? && e.sid == sid && e.decision == Allow && sid in s.slots
    ensures var i := IndexOf(s.slots[sid].pending, e.id);
            i >= 0 && s.slots[sid].pending[i].synthetic
  {
    hide Step, IndexOf, RouteAccepts, CheckParticipant;
    PlanStep(p, s, e, sid);
  }

  // ---- One reply to an ask -------------------------------------------------------------------

  /** The route takes a reply to a card of a session without a slot. */
  predicate AcceptedSlotless(s: State, e: Event)
    requires e.Route?
  {
    && RouteAccepts(s, e.sid, e.id, CheckParticipant(e.header, e.sid, e.devices, e.shares))
    && e.sid !in s.slots && e.sid in s.slotless && IndexOf(s.slotless[e.sid], e.id) >= 0
  }

  predicate TakesReply(s: State, e: Event) { e.Route? && (Accepted(s, e) || AcceptedSlotless(s, e)) }

  lemma FinishKeepsReplies(s: State, w: WaitId, r: Settlement)
    ensures Finish(s, w, r).responded == s.responded
  {
  }

  lemma DeliverKeepsReplies(s: State, id: ReqId, a: Answer)
    ensures Deliver(s, id, a).responded == s.responded
  {
    if id in s.waiters { FinishKeepsReplies(s, s.waiters[id], Decided(a)); }
    hide Finish;
  }

  lemma SlotRespondRecords(s: State, sid: Sid, id: ReqId, decision: Decision, always: bool, isPeer: bool)
    requires sid in s.slots && !s.slots[sid].expired && IndexOf(s.slots[sid].pending, id) >= 0
    ensures id in Respond(s, sid, id, decision, always, isPeer).responded
  {
    hide IndexOf, Splice, Deliver, TrustedAfter, Enqueue;
    var sl := s.slots[sid];
    var i := IndexOf(sl.pending, id);
    var s1 := Responded(WithSlot(s, sid, sl.(pending := Splice(sl.pending, i),
      trusted := TrustedAfter(sl, sl.pending[i], decision, always))), id, decision, isPeer);
    assert id in s1.responded;
    DeliverKeepsReplies(s1, id, Answer(decision, ByHuman(isPeer)));
  }

  lemma SlotlessRespondRecords(s: State, sid: Sid, id: ReqId, decision: Decision, always: bool, isPeer: bool)
    requires sid !in s.slots && sid in s.slotless && IndexOf(s.slotless[sid], id) >= 0
    ensures id in Respond(s, sid, id, decision, always, isPeer).responded
  {
    hide IndexOf, Deliver, DropSlotless;
    var s1 := Responded(DropSlotless(s, sid, id), id, decision, isPeer);
    assert id in s1.responded;
    DeliverKeepsReplies(s1, id, Answer(decision, ByHuman(isPeer)));
  }

  lemma ReplyIsRecorded(p: Policy, s: State, e: Event)
    requires TakesReply(s, e)
    ensures e.id in Step(p, s, e).responded
  {
    RouteIsRespond(p, s, e);
    var isPeer := CheckParticipant(e.header, e.sid, e.devices, e.shares).PeerOk?;
    hide Step, CheckParticipant, RouteAccepts, IndexOf, Respond;
    if Accepted(s, e) {
      SlotRespondRecords(s, e.sid, e.id, e.decision, e.always && !isPeer, isPeer);
    } else {
      SlotlessRespondRecords(s, e.sid, e.id, e.decision, e.always && !isPeer, isPeer);
    }
  }

  /** Only a card nobody has answered yet takes a reply, and a card is what the gate left open. */
  lemma OpenCardTakesReply(s: State, e: Event)
    requires Inv(s) && TakesReply(s, e)
    ensures e.id in s.asks && e.id !in s.responded
    ensures s.asks[e.id].verdict == Card && s.asks[e.id].sid == e.sid
  {
    hide RouteAccepts, CheckParticipant;
    var cards := if e.sid in s.slots then s.slots[e.sid].pending else s.slotless[e.sid];
    var home := if e.sid in s.slots then OnSlot else OnSlotless;
    var c := cards[IndexOf(cards, e.id)];
    assert c in cards && c.id == e.id;
    assert CardsOk(s.asks, s.responded, cards, e.sid, home);
    assert CardOk(s.asks, s.responded, c, e.sid, home);
  }

  lemma NextKeeps(p: Policy, es: seq<Event>, k: nat)
    requires AllWellUsed(p, Init(), es) && k < |es|
    ensures Inv(At(p, es, k)) && Kept(At(p, es, k), At(p, es, k + 1))
  {
    hide *;
    AtNext(p, es, k);
    WellUsedBefore(p, es, k);
    StepKeeps(p, At(p, es, k), es[k]);
  }

  lemma ReplyStays(s: State, t: State, id: ReqId)
    requires Kept(s, t) && id in s.responded
    ensures id in t.responded
  {
  }

  lemma {:induction false} RepliesStay(p: Policy, es: seq<Event>, id: ReqId, i: nat, j: nat)
    requires AllWellUsed(p, Init(), es) && i <= j <= |es| && id in At(p, es, i).responded
    ensures id in At(p, es, j).responded
    decreases j
  {
    hide *;
    if i < j {
      RepliesStay(p, es, id, i, j - 1);
      NextKeeps(p, es, j - 1);
      ReplyStays(At(p, es, j - 1), At(p, es, j), id);
    }
  }

  /**
   No ask is decided twice. In every run no two accepted replies, with the same decision or not, are
   to the same ask, on the board of a session or on the board of one without a slot; and no accepted
   reply is to an ask the gate decided itself.
   */
  lemma NoAskIsDecidedTwice(p: Policy, es: seq<Event>, i: nat, j: nat)
    requires AllWellUsed(p, Init(), es) && i < j < |es|
    requires TakesReply(At(p, es, i), es[i]) && TakesReply(At(p, es, j), es[j])
    ensures es[i].id != es[j].id
    ensures var s := At(p, es, j);
            es[j].id in s.asks && s.asks[es[j].id].verdict == Card && s.asks[es[j].id].sid == es[j].sid
  {
    ReplyIsRecorded(p, At(p, es, i), es[i]);
    AtNext(p, es, i);
    WellUsedBefore(p, es, j);
    OpenCardTakesReply(At(p, es, j), es[j]);
    hide At, Step, Inv, WellUsed, AllWellUsed, Accepted, AcceptedSlotless;
    if es[i].id == es[j].id { RepliesStay(p, es, es[i].id, i + 1, j); }
  }

  // ---- The module's own maps, changed in place -----------------------------------------------

  class PermissionBoard {
    var slots: map<Sid, Slot>
    var slotless: map<Sid, seq<Ask>>
    var early: map<ReqId, Answer>
    var waiters: map<ReqId, WaitId>
    var waits: map<WaitId, ReqId>
    var settled: map<WaitId, Settlement>
    var autoTurns: map<Sid, nat>
    ghost var asks: map<ReqId, Record>
    ghost var responded: map<ReqId, Reply>
    ghost var approved: set<Sid>

    constructor ()
      ensures Abs() == Init()
    {
      slots, slotless, early, waiters, waits, settled, autoTurns := map[], map[], map[], map[], map[], map[], map[];
      asks, responded, approved := map[], map[], {};
    }

    ghost function Abs(): State
      reads this
    {
      State(slots, slotless, early, waiters, waits, settled, autoTurns, asks, responded, approved)
    }

    method DecideNow(id: ReqId, decision: Decision, why: Why)
      modifies `early
      ensures Abs() == Stash(old(Abs()), id, Answer(decision, ByGate(why)))
    {
      early := early[id := Answer(decision, ByGate(why))];
    }

    /** `pushPlanReview`: one review per session, the newest. */
    method PushPlanReview(sid: Sid, reviewId: ReqId)
      requires sid in slots
      modifies `slots, `asks
      ensures asks == old(asks)[reviewId := ReviewRecord(old(Abs()), sid)]
      ensures slots == old(slots)[sid := old(slots[sid]).(pending :=
                NotSynthetic(old(slots[sid].pending)) + [ReviewAsk(old(slots[sid]), reviewId)])]
    {
      var sl := slots[sid];
      asks := asks[reviewId := ReviewRecord(Abs(), sid)];
      slots := slots[sid := sl.(pending := NotSynthetic(sl.pending) + [ReviewAsk(sl, reviewId)])];
    }

    /** The branches of `createPermissionRequest`, in its order; the first that returns decides. */
    method Judge(p: Policy, slot: Option<Slot>, r: Request) returns (v: Verdict)
      ensures v == Gate(p, slot, r)
    {
      hide HooopTool, IsPlanSubmit, IsEnterPlan, IsAsk, IsSharePreview, IsOtherPreview, IsPageTool, JsText.IsBlank;
      var cwd := if slot.Some? then Some(slot.value.cwd) else None;
      var shareId := if r.shareId.Some? then r.shareId else if slot.Some? then slot.value.driver else None;
      if IsPlanSubmit(r.tool) {
        var planText := if r.input.plan.Some? && !JsText.IsBlank(r.input.plan.value) then r.input.plan.value
                        else if slot.Some? then slot.value.lastText else "";
        if slot.Some? && !JsText.IsBlank(planText) { return OpenReview; }
        return Decide(Deny, NoPlanCaptured);
      }
      if IsEnterPlan(r.tool) { return EnterPlan; }
      var planTurn := slot.Some? && slot.value.planTurn;
      if planTurn && !IsAsk(r.tool) {
        if r.tool !in PLAN_READONLY_TOOLS { return Decide(Deny, PlanModeDenied); }
        if p.criticalTool(r.tool, r.input, cwd) { return Decide(Deny, PlanModeDenied); }
        return Decide(Allow, PlanModeRead);
      }
      if IsOtherPreview(r.tool) || IsPageTool(r.tool) { return RunInBackground; }
      if IsSharePreview(r.tool) && r.target.NotShareable? { return Decide(Deny, NothingToShare); }
      if r.tool in READ_FAST_LANE_TOOLS && !p.criticalTool(r.tool, r.input, cwd) { return Decide(Allow, AutoRead); }
      if r.tool == "Bash" && !(r.input.command.Some? && p.criticalBash(r.input.command.value)) {
        return Decide(Allow, AutoBash);
      }
      var tool := Normalized(r.tool);
      var critical := p.criticalTool(tool, r.input, cwd) || IsSharePreview(tool);
      var isAsk := IsAsk(r.tool);
      if slot.Some? && slot.value.planRun && !critical && !isAsk { return Decide(Allow, ApprovedPlan); }
      var trusted := slot.Some? && shareId.Some? && shareId.value != "" && shareId.value in slot.value.trusted;
      if trusted && !critical && !isAsk { return Decide(Allow, TrustedPeer); }
      if slot.Some? && slot.value.autoMode && !isAsk && !critical { return Decide(Allow, AutoMode); }
      return Card;
    }

    method CreatePermissionRequest(p: Policy, r: Request, reviewId: ReqId)
      modifies this
      ensures Abs() == OnAsk(p, old(Abs()), r, reviewId)
    {
      hide Gate, CardFor, RecordOf, NotSynthetic, ReviewAsk, ReviewRecord;
      var slot := if r.sid in slots then Some(slots[r.sid]) else None;
      var verdict := Judge(p, slot, r);
      if verdict.OpenReview? { GateOpens(p, Abs(), r); }
      var card := CardFor(p, slot, r);
      asks := asks[r.id := RecordOf(p, Abs(), r)];
      early := early - {r.id};
      match verdict {
        case Decide(decision, why) =>
          DecideNow(r.id, decision, why);
        case OpenReview =>
          PushPlanReview(r.sid, reviewId);
          DecideNow(r.id, Deny, PlanSubmitted);
        case EnterPlan =>
          if slot.Some? { slots := slots[r.sid := slot.value.(planTurn := true)]; }
          DecideNow(r.id, Deny, PlanModeEngaged);
        case RunInBackground =>
        case Card =>
          if slot.Some? {
            slots := slots[r.sid := slot.value.(pending := slot.value.pending + [card])];
          } else {
            var list := if r.sid in slotless then slotless[r.sid] else [];
            slotless := slotless[r.sid := list + [card]];
          }
      }
    }

    /** `awaitPermissionDecision` up to its first suspension. */
    method AwaitDecision(w: WaitId, id: ReqId)
      modifies this
      ensures Abs() == OnWait(old(Abs()), w, id)
    {
      waits := waits[w := id];
      if id in early {
        settled := settled[w := Decided(early[id])];
        early := early - {id};
      } else {
        waiters := waiters[id := w];
      }
    }

    method PeekDecision(id: ReqId) returns (r: Option<Answer>)
      ensures r == Peek(Abs(), id)
    {
      r := if id in early then Some(early[id]) else None;
    }

    /** The closure a wait registers; its timer calls it with `TimedOut`. */
    method Resolve(w: WaitId, r: Settlement)
      modifies `settled, `waiters
      ensures Abs() == Finish(old(Abs()), w, r)
    {
      if w in settled || w !in waits { return; }
      settled := settled[w := r];
      waiters := waiters - {waits[w]};
    }

    method Notify(id: ReqId, a: Answer)
      modifies `settled, `waiters, `early
      ensures Abs() == Deliver(old(Abs()), id, a)
    {
      if id in waiters {
        Resolve(waiters[id], Decided(a));
      } else {
        early := early[id := a];
      }
    }

    method DropSlotlessPending(sid: Sid, id: ReqId)
      modifies `slotless
      ensures Abs() == DropSlotless(old(Abs()), sid, id)
    {
      if sid !in slotless { return; }
      var next := AllBut(slotless[sid], id);
      if next != [] {
        slotless := slotless[sid := next];
      } else {
        slotless := slotless - {sid};
      }
    }

    method RespondToPermission(sid: Sid, id: ReqId, decision: Decision, always: bool, isPeer: bool)
      returns (ok: bool)
      modifies this
      ensures Abs() == Respond(old(Abs()), sid, id, decision, always, isPeer)
      ensures !ok ==> Abs() == old(Abs())
    {
      hide IndexOf, Splice, TrustedAfter, Enqueue, Deliver, DropSlotless;
      if sid in slots {
        var sl := slots[sid];
        var i := IndexOf(sl.pending, id);
        if sl.expired || i < 0 { return false; }
        var pending := sl.pending[i];
        slots := slots[sid := sl.(pending := Splice(sl.pending, i),
                                  trusted := TrustedAfter(sl, pending, decision, always))];
        responded := responded[id := Reply(decision, isPeer)];
        if pending.synthetic {
          if decision == Allow {
            autoTurns, approved := Enqueue(autoTurns, sid), approved + {sid};
          }
          return true;
        }
        Notify(id, Answer(decision, ByHuman(isPeer)));
        if pending.tool == "AskUserQuestion" && decision == Deny && !pending.planMode && slots[sid].planRun {
          autoTurns := Enqueue(autoTurns, sid);
        }
      } else {
        if sid !in slotless || IndexOf(slotless[sid], id) < 0 { return false; }
        DropSlotlessPending(sid, id);
        responded := responded[id := Reply(decision, isPeer)];
        Notify(id, Answer(decision, ByHuman(isPeer)));
      }
      return true;
    }

    /** The permission route: `checkParticipant`, then what a peer may decide, then the answer itself. */
    method AnswerRoute(sid: Sid, id: ReqId, decision: Decision, always: bool, header: Header,
                       devices: set<string>, shares: map<ShareId, Share>)
      returns (ok: bool)
      modifies this
      ensures Abs() == OnRoute(old(Abs()), sid, id, decision, always, CheckParticipant(header, sid, devices, shares))
      ensures !ok ==> Abs() == old(Abs())
    {
      hide Respond, IndexOf;
      ok := false;
      if header == Host || (header.Device? && header.id != "" && header.id in devices) {
        ok := RespondToPermission(sid, id, decision, always, false);
      } else if header.Peer? && header.shareId in shares && shares[header.shareId].sessionId == sid {
        var capability := shares[header.shareId].capability;
        if capability == Spectate { return; }
        var pending := if sid in slots then slots[sid].pending else if sid in slotless then slotless[sid] else [];
        var i := IndexOf(pending, id);
        if i >= 0 && pending[i].critical { return; }
        if !(i >= 0 && pending[i].tool == "AskUserQuestion") && capability != Full { return; }
        ok := RespondToPermission(sid, id, decision, false, true);
      }
    }

    /** The part of `writeUserTurn` that rewrites the per-turn flags. */
    method BeginTurn(sid: Sid, plan: bool, auto: bool, driver: Option<ShareId>)
      modifies `slots, `autoTurns
      ensures Abs() == OnTurnStarts(old(Abs()), sid, plan, auto, driver)
    {
      if sid !in slots || slots[sid].expired || (auto && Queued(autoTurns, sid) == 0) { return; }
      if auto { autoTurns := Dequeue(autoTurns, sid); }
      slots := slots[sid := slots[sid].(planTurn := plan, lastText := "", planRun := auto, driver := driver)];
    }

    method WithdrawPermissionRequest(sid: Sid, id: ReqId) returns (ok: bool)
      modifies `slots, `slotless, `early
      ensures Abs() == OnWithdraw(old(Abs()), sid, id)
      ensures !ok ==> Abs() == old(Abs())
    {
      ok := false;
      if sid in slots {
        var sl := slots[sid];
        var i := IndexOf(sl.pending, id);
        if i >= 0 {
          slots := slots[sid := sl.(pending := Splice(sl.pending, i))];
          ok := true;
        }
      }
      if !ok && sid in slotless {
        var i := IndexOf(slotless[sid], id);
        if i >= 0 {
          slotless := slotless[sid := Splice(slotless[sid], i)];
          ok := true;
        }
      }
      if ok { early := early - {id}; }
    }
  }
}
