/**
 Reconstructing sub-agent runs from the event log (sandbox/lib/agents.ts, `computeAgentRuns`).

 A row comes with its payload decoded. An id that is absent and an empty id are treated alike by
 the source, so both are "". Timestamps are in milliseconds.
*/
module AgentRuns {
  import opened Wrappers

  datatype Input = Input(subagentType: Option<string>, prompt: Option<string>, description: Option<string>)

  /** What is read out of a tool response that is not null. */
  datatype Response = Response(
    agentId: string, isAsync: bool, model: Option<string>, text: string, toolUses: Option<int>, durationMs: Option<int>)

  datatype Row =
    | Pre(id: nat, ts: int, sessionId: Option<string>, toolUse: string, issuer: string, input: Input)
    | Post(id: nat, ts: int, toolUse: string, response: Option<Response>)
    | Notice(id: nat, ts: int, toolUse: string, task: string, durationMs: Option<int>, toolUses: Option<int>,
             result: Option<string>)
    | OtherRow(id: nat)

  datatype Status = Running | Completed | Interrupted

  datatype Run = Run(
    id: nat, sessionId: Option<string>, input: Input, startTs: int, model: Option<string>, endTs: Option<int>,
    durationMs: Option<int>, toolUses: Option<int>, result: Option<string>, parent: Option<nat>, status: Status)

  /** The source's four maps. `launchedBy` also remembers the launch's own tool-use id, which no step reads. */
  datatype Launch = Launch(issuer: string, toolUse: string)
  datatype State = State(
    runs: map<nat, Run>, byToolUse: map<string, nat>, byAgent: map<string, nat>, launchedBy: map<nat, Launch>)

  const START := State(map[], map[], map[], map[])
  const STUCK_GRACE_MS := 5 * 60_000

  // ---- One row -------------------------------------------------------------------------------

  function Take(text: string): string { if |text| <= 4000 then text else text[..4000] }

  function Or(x: Option<int>, y: int): int { if x.Some? then x.value else y }

  function Launched(row: Row): Run
    requires row.Pre?
  {
    Run(row.id, row.sessionId, row.input, row.ts, None, None, None, None, None, None, Running)
  }

  function AfterPost(run: Run, row: Row): Run
    requires row.Post?
  {
    match row.response
    case None => run.(endTs := Some(row.ts), status := Completed, durationMs := Some(row.ts - run.startTs))
    case Some(r) =>
      if r.isAsync then run.(model := if r.model.Some? then r.model else run.model)
      else run.(endTs := Some(row.ts), status := Completed, durationMs := Some(Or(r.durationMs, row.ts - run.startTs)),
           result := Some(Take(r.text)), model := r.model, toolUses := r.toolUses)
  }

  function AfterNotice(run: Run, row: Row): Run
    requires row.Notice?
  {
    run.(status := Completed, endTs := Some(row.ts), durationMs := Some(Or(row.durationMs, row.ts - run.startTs)),
    toolUses := if row.toolUses.Some? then row.toolUses else run.toolUses,
    result := if row.result.Some? then Some(Take(row.result.value)) else run.result)
  }

  function Exposed(row: Row): string { if row.Post? && row.response.Some? then row.response.value.agentId else "" }

  /** The run a notice resolves: by tool-use id, else by agent id. */
  function Noticed(s: State, row: Row): Option<nat>
    requires row.Notice?
  {
    if row.toolUse != "" && row.toolUse in s.byToolUse then Some(s.byToolUse[row.toolUse])
    else if row.task != "" && row.task in s.byAgent then Some(s.byAgent[row.task])
    else None
  }

  function Step(s: State, row: Row): State {
    match row
    case Pre(id, _, _, toolUse, issuer, _) =>
      State(s.runs[id := Launched(row)], if toolUse != "" then s.byToolUse[toolUse := id] else s.byToolUse,
            s.byAgent, s.launchedBy[id := Launch(issuer, toolUse)])
    case Post(_, _, toolUse, _) =>
      if toolUse == "" || toolUse !in s.byToolUse || s.byToolUse[toolUse] !in s.runs then s
      else
        var id := s.byToolUse[toolUse];
        s.(runs := s.runs[id := AfterPost(s.runs[id], row)],
        byAgent := if Exposed(row) != "" then s.byAgent[Exposed(row) := id] else s.byAgent)
    case Notice(_, _, _, _, _, _, _) =>
      var id := Noticed(s, row);
      if id.None? || id.value !in s.runs then s
      else s.(runs := s.runs[id.value := AfterNotice(s.runs[id.value], row)])
    case OtherRow(_) => s
  }

  function After(log: seq<Row>): State {
    if log == [] then START else Step(After(log[..|log| - 1]), log[|log| - 1])
  }

  // ---- The passes at the end -----------------------------------------------------------------

  function ParentOf(s: State, id: nat): Option<nat> {
    if id in s.launchedBy && s.launchedBy[id].issuer != "" && s.launchedBy[id].issuer in s.byAgent
    then Some(s.byAgent[s.launchedBy[id].issuer]) else None
  }

  /** A run still going in a session that is gone is stuck, after a grace period. */
  function Judged(run: Run, alive: set<string>, now: int): Run {
    var dead := run.sessionId.None? || run.sessionId.value == "" || run.sessionId.value !in alive;
    if run.status == Running && dead && now - run.startTs > STUCK_GRACE_MS
    then run.(status := Interrupted, durationMs := Some(now - run.startTs)) else run
  }

  function Compute(log: seq<Row>, alive: set<string>, now: int): map<nat, Run> {
    var s := After(log);
    map id | id in s.runs :: Judged(s.runs[id].(parent := ParentOf(s, id)), alive, now)
  }

  // ---- A well-formed log ---------------------------------------------------------------------

  /** The log has a response to tool use `u` that exposes agent `a`. */
  ghost predicate Exposes(log: seq<Row>, u: string, a: string) {
    exists i :: 0 <= i < |log| && log[i].Post? && log[i].toolUse == u && Exposed(log[i]) == a
  }

  /** Row ids and tool-use ids are not given twice, and an agent id belongs to one tool use. */
  ghost predicate DistinctIds(log: seq<Row>) {
    && (forall i, j :: 0 <= i < j < |log| && log[i].Pre? && log[j].Pre? ==>
          log[i].id != log[j].id && (log[i].toolUse != "" ==> log[i].toolUse != log[j].toolUse))
    && (forall u, v, a :: a != "" && Exposes(log, u, a) && Exposes(log, v, a) ==> u == v)
    && (forall i, u :: 0 <= i < |log| && log[i].Notice? && log[i].toolUse != "" && log[i].task != "" ==>
          Exposes(log, u, log[i].task) ==> log[i].toolUse == u)
  }

  lemma ExposesMore(log: seq<Row>, row: Row, u: string, a: string)
    ensures Exposes(log + [row], u, a) <==> Exposes(log, u, a) || (row.Post? && row.toolUse == u && Exposed(row) == a)
  {
    var l := log + [row];
    if Exposes(log, u, a) {
      var i :| 0 <= i < |log| && log[i].Post? && log[i].toolUse == u && Exposed(log[i]) == a;
      assert l[i] == log[i];
    }
    if row.Post? && row.toolUse == u && Exposed(row) == a { assert l[|log|] == row; }
    if Exposes(l, u, a) {
      var i :| 0 <= i < |l| && l[i].Post? && l[i].toolUse == u && Exposed(l[i]) == a;
      if i < |log| { assert log[i] == l[i]; }
    }
  }

  lemma DistinctPrefix(log: seq<Row>, row: Row)
    requires DistinctIds(log + [row])
    ensures DistinctIds(log)
  {
    var l := log + [row];
    forall i | 0 <= i < |log| ensures log[i] == l[i] {}
    forall u, a | Exposes(log, u, a) ensures Exposes(l, u, a) { ExposesMore(log, row, u, a); }
  }

  // ---- One run on its own --------------------------------------------------------------------

  /** The run launched under one tool-use id, and the agent ids its responses exposed. */
  datatype Solo = Solo(run: Option<Run>, agents: set<string>)

  /** Does a row say anything about the run of tool use `u`, whose agent ids are `agents`? */
  predicate Concerns(row: Row, u: string, agents: set<string>) {
    match row
    case Pre(_, _, _, toolUse, _, _) => toolUse == u
    case Post(_, _, toolUse, _) => toolUse == u
    case Notice(_, _, toolUse, task, _, _, _) => toolUse == u || (toolUse == "" && task != "" && task in agents)
    case OtherRow(_) => false
  }

  function SoloStep(x: Solo, row: Row, u: string): Solo {
    if !Concerns(row, u, x.agents) then x
    else if row.Pre? then Solo(Some(Launched(row)), {})
    else if x.run.None? then x
    else if row.Post? then
      Solo(Some(AfterPost(x.run.value, row)), x.agents + if Exposed(row) != "" then {Exposed(row)} else {})
    else if row.Notice? then x.(run := Some(AfterNotice(x.run.value, row)))
    else x
  }

  /** The run of `u`, from the rows that concern it and nothing else. */
  function Alone(log: seq<Row>, u: string): Solo {
    if log == [] then Solo(None, {}) else SoloStep(Alone(log[..|log| - 1], u), log[|log| - 1], u)
  }

  /** What the maps say of tool use `u`. */
  function RunOf(s: State, u: string): Option<Run> {
    if u in s.byToolUse && s.byToolUse[u] in s.runs then Some(s.runs[s.byToolUse[u]]) else None
  }

  ghost predicate Shape(s: State, log: seq<Row>) {
    && s.launchedBy.Keys == s.runs.Keys
    && (forall v :: v in s.byToolUse ==>
          v != "" && s.byToolUse[v] in s.runs && s.launchedBy[s.byToolUse[v]].toolUse == v)
    && (forall a :: a in s.byAgent ==>
          a != "" && s.byAgent[a] in s.runs && Exposes(log, s.launchedBy[s.byAgent[a]].toolUse, a))
    && (forall id :: id in s.runs ==> exists i :: 0 <= i < |log| && log[i].Pre? && log[i].id == id)
  }

  ghost predicate Matches(s: State, x: Solo, u: string) {
    && x.run == RunOf(s, u)
    && (u in s.byToolUse <==> x.run.Some?)
    && (forall a :: a != "" ==>
          (a in x.agents <==> u in s.byToolUse && a in s.byAgent && s.byAgent[a] == s.byToolUse[u]))
    && "" !in x.agents
  }

  lemma PreKeepsShape(s: State, log: seq<Row>, row: Row)
    requires Shape(s, log) && row.Pre? && DistinctIds(log + [row])
    ensures Shape(Step(s, row), log + [row]) && row.id !in s.runs
  {
    var l := log + [row];
    forall i | 0 <= i < |log| && log[i].Pre? ensures log[i].id != row.id {
      assert l[i] == log[i] && l[|log|] == row;
    }
    var t := Step(s, row);
    forall a | a in t.byAgent ensures Exposes(l, t.launchedBy[t.byAgent[a]].toolUse, a) {
      ExposesMore(log, row, s.launchedBy[s.byAgent[a]].toolUse, a);
    }
    forall id | id in t.runs ensures exists i :: 0 <= i < |l| && l[i].Pre? && l[i].id == id {
      if id == row.id {
        assert l[|log|] == row;
      } else {
        var i :| 0 <= i < |log| && log[i].Pre? && log[i].id == id;
        assert l[i] == log[i];
      }
    }
  }

  /** What the log says stays said when it grows. */
  lemma MoreLogKeepsShape(s: State, log: seq<Row>, row: Row)
    requires Shape(s, log)
    ensures Shape(s, log + [row])
  {
    var l := log + [row];
    forall a | a in s.byAgent ensures Exposes(l, s.launchedBy[s.byAgent[a]].toolUse, a) {
      ExposesMore(log, row, s.launchedBy[s.byAgent[a]].toolUse, a);
    }
    forall id | id in s.runs ensures exists i :: 0 <= i < |l| && l[i].Pre? && l[i].id == id {
      var i :| 0 <= i < |log| && log[i].Pre? && log[i].id == id;
      assert l[i] == log[i];
    }
  }

  lemma PostKeepsShape(s: State, log: seq<Row>, row: Row)
    requires Shape(s, log + [row]) && row.Post?
    ensures Shape(Step(s, row), log + [row])
  {
    hide AfterPost;
    if row.toolUse != "" && row.toolUse in s.byToolUse && s.byToolUse[row.toolUse] in s.runs {
      ExposesMore(log, row, row.toolUse, Exposed(row));
      hide Exposes, Exposed;
    }
  }

  lemma NoticeKeepsShape(s: State, log: seq<Row>, row: Row)
    requires Shape(s, log) && row.Notice?
    ensures Shape(Step(s, row), log)
  {
    hide AfterNotice, Exposes;
  }

  lemma OtherKeepsShape(s: State, log: seq<Row>, row: Row)
    requires Shape(s, log) && !row.Pre?
    ensures Shape(Step(s, row), log + [row])
  {
    MoreLogKeepsShape(s, log, row);
    hide Shape;
    if row.Post? { PostKeepsShape(s, log, row); }
    else if row.Notice? { NoticeKeepsShape(s, log + [row], row); }
  }

  lemma PreMatches(s: State, log: seq<Row>, row: Row, x: Solo, u: string)
    requires u != "" && Shape(s, log) && Matches(s, x, u) && row.Pre? && row.id !in s.runs
    ensures Matches(Step(s, row), SoloStep(x, row, u), u)
  {
    hide Exposes;
  }

  lemma PostMatches(s: State, log: seq<Row>, row: Row, x: Solo, u: string)
    requires u != "" && Shape(s, log) && Matches(s, x, u) && DistinctIds(log + [row]) && row.Post?
    ensures Matches(Step(s, row), SoloStep(x, row, u), u)
  {
    if Exposed(row) in x.agents && row.toolUse in s.byToolUse {
      ExposesMore(log, row, u, Exposed(row));
      ExposesMore(log, row, row.toolUse, Exposed(row));
    }
    hide Exposes, Exposed, AfterPost;
  }

  lemma NoticeMatches(s: State, log: seq<Row>, row: Row, x: Solo, u: string)
    requires u != "" && Shape(s, log) && Matches(s, x, u) && DistinctIds(log + [row]) && row.Notice?
    ensures Matches(Step(s, row), SoloStep(x, row, u), u)
  {
    assert (log + [row])[|log|] == row;
    if row.task in x.agents { ExposesMore(log, row, u, row.task); }
    hide Exposes, AfterNotice;
  }

  lemma StepMatches(s: State, log: seq<Row>, row: Row, x: Solo, u: string)
    requires u != "" && Shape(s, log) && Matches(s, x, u) && DistinctIds(log + [row])
    requires row.Pre? ==> row.id !in s.runs
    ensures Matches(Step(s, row), SoloStep(x, row, u), u)
  {
    hide Shape, Matches, DistinctIds;
    match row {
      case Pre(_, _, _, _, _, _) => PreMatches(s, log, row, x, u);
      case Post(_, _, _, _) => PostMatches(s, log, row, x, u);
      case Notice(_, _, _, _, _, _, _) => NoticeMatches(s, log, row, x, u);
      case OtherRow(_) =>
    }
  }

  lemma {:induction false} AloneIsRight(log: seq<Row>, u: string)
    requires u != "" && DistinctIds(log)
    ensures Shape(After(log), log) && Matches(After(log), Alone(log, u), u)
    decreases |log|
  {
    if log != [] {
      var init, row := log[..|log| - 1], log[|log| - 1];
      assert log == init + [row];
      DistinctPrefix(init, row);
      AloneIsRight(init, u);
      hide DistinctIds, Shape, Matches, Step, SoloStep;
      if row.Pre? { PreKeepsShape(After(init), init, row); } else { OtherKeepsShape(After(init), init, row); }
      StepMatches(After(init), init, row, Alone(init, u), u);
    }
  }

  // ---- Deleting other rows -------------------------------------------------------------------

  function Kept(log: seq<Row>, keep: Row -> bool): seq<Row> {
    if log == [] then []
    else Kept(log[..|log| - 1], keep) + if keep(log[|log| - 1]) then [log[|log| - 1]] else []
  }

  /** Row `row` carries tool use `u` or one of its agent ids. */
  ghost predicate Own(log: seq<Row>, row: Row, u: string) {
    match row
    case Pre(_, _, _, toolUse, _, _) => toolUse == u
    case Post(_, _, toolUse, _) => toolUse == u
    case Notice(_, _, toolUse, task, _, _, _) => toolUse == u || (task != "" && Exposes(log, u, task))
    case OtherRow(_) => false
  }

  lemma {:induction false} AgentsAreExposed(log: seq<Row>, u: string)
    ensures forall a :: a in Alone(log, u).agents ==> Exposes(log, u, a)
    decreases |log|
  {
    if log != [] {
      var init, row := log[..|log| - 1], log[|log| - 1];
      assert log == init + [row];
      AgentsAreExposed(init, u);
      forall a | a in Alone(log, u).agents ensures Exposes(log, u, a) { ExposesMore(init, row, u, a); }
    }
  }

  lemma {:induction false} AloneIgnoresOthers(log: seq<Row>, part: seq<Row>, keep: Row -> bool, u: string)
    requires part <= log && forall row :: row in log && Own(log, row, u) ==> keep(row)
    ensures Alone(Kept(part, keep), u) == Alone(part, u)
    decreases |part|
  {
    if part != [] {
      var init, row := part[..|part| - 1], part[|part| - 1];
      AloneIgnoresOthers(log, init, keep, u);
      var k := Kept(init, keep);
      if keep(row) {
        assert Kept(part, keep) == k + [row];
        assert (k + [row])[..|k|] == k;
        hide Kept, SoloStep;
      } else {
        assert Kept(part, keep) == k;
        DroppedRowIsSilent(log, part, u);
        hide Kept, SoloStep;
      }
    }
  }

  /** The last row of a prefix says nothing about `u` when it is none of its own. */
  lemma DroppedRowIsSilent(log: seq<Row>, part: seq<Row>, u: string)
    requires part != [] && part <= log && !Own(log, part[|part| - 1], u)
    ensures Alone(part, u) == Alone(part[..|part| - 1], u)
  {
    var init, row := part[..|part| - 1], part[|part| - 1];
    AgentsAreExposed(init, u);
    assert log[|part| - 1] == row;
    if row.Notice? && row.task in Alone(init, u).agents {
      var i :| 0 <= i < |init| && init[i].Post? && init[i].toolUse == u && Exposed(init[i]) == row.task;
      assert log[i] == init[i];
    }
  }

  /** Two rows that were kept stand in the log in the same order. */
  lemma {:induction false} KeptRows(log: seq<Row>, keep: Row -> bool, i: nat, i': nat) returns (j: nat, j': nat)
    requires i <= i' < |Kept(log, keep)|
    ensures j <= j' < |log| && (i < i' ==> j < j')
    ensures log[j] == Kept(log, keep)[i] && log[j'] == Kept(log, keep)[i']
    decreases |log|
  {
    var init, k := log[..|log| - 1], Kept(log[..|log| - 1], keep);
    if i' < |k| {
      j, j' := KeptRows(init, keep, i, i');
    } else {
      j' := |log| - 1;
      if i < |k| {
        var _, j0 := KeptRows(init, keep, i, i);
        j := j0;
      } else {
        j := |log| - 1;
      }
    }
  }

  lemma KeptExposes(log: seq<Row>, keep: Row -> bool, u: string, a: string)
    requires Exposes(Kept(log, keep), u, a)
    ensures Exposes(log, u, a)
  {
    var k := Kept(log, keep);
    var i :| 0 <= i < |k| && k[i].Post? && k[i].toolUse == u && Exposed(k[i]) == a;
    var j, _ := KeptRows(log, keep, i, i);
  }

  lemma KeptIsDistinct(log: seq<Row>, keep: Row -> bool)
    requires DistinctIds(log)
    ensures DistinctIds(Kept(log, keep))
  {
    var k := Kept(log, keep);
    forall i, i' | 0 <= i < i' < |k| && k[i].Pre? && k[i'].Pre?
      ensures k[i].id != k[i'].id && (k[i].toolUse != "" ==> k[i].toolUse != k[i'].toolUse)
    {
      var j, j' := KeptRows(log, keep, i, i');
    }
    forall u, v, a | a != "" && Exposes(k, u, a) && Exposes(k, v, a) ensures u == v {
      KeptExposes(log, keep, u, a);
      KeptExposes(log, keep, v, a);
    }
    forall i, u | 0 <= i < |k| && k[i].Notice? && k[i].toolUse != "" && k[i].task != "" && Exposes(k, u, k[i].task)
      ensures k[i].toolUse == u
    {
      var j, _ := KeptRows(log, keep, i, i);
      KeptExposes(log, keep, u, k[i].task);
    }
  }

  // ---- The theorems --------------------------------------------------------------------------

  /**
   Parallel and nested launches do not disturb each other: the maps' record of a launch is what its
   own rows alone make of it, however they are interleaved with others.
   */
  lemma RecordIsItsOwnRows(log: seq<Row>, u: string)
    requires u != "" && DistinctIds(log)
    ensures RunOf(After(log), u) == Alone(log, u).run
  {
    AloneIsRight(log, u);
  }

  /**
   The record of a run depends only on rows that carry its tool-use id or one of its agent ids:
   deleting any other rows, of any kind and anywhere, leaves it unchanged, but for its parent link.
   */
  lemma OtherRowsDoNotMatter(log: seq<Row>, keep: Row -> bool, u: string, alive: set<string>, now: int)
    requires u != "" && DistinctIds(log) && forall row :: row in log && Own(log, row, u) ==> keep(row)
    ensures var all, few := After(log), After(Kept(log, keep));
            && (u in all.byToolUse <==> u in few.byToolUse)
            && (u in all.byToolUse ==>
                  var id := all.byToolUse[u];
                  && few.byToolUse[u] == id
                  && id in Compute(log, alive, now) && id in Compute(Kept(log, keep), alive, now)
                  && Compute(log, alive, now)[id].(parent := None)
                  == Compute(Kept(log, keep), alive, now)[id].(parent := None))
  {
    AloneIsRight(log, u);
    KeptIsDistinct(log, keep);
    AloneIsRight(Kept(log, keep), u);
    AloneIgnoresOthers(log, log, keep, u);
    IdsOfRuns(log);
    IdsOfRuns(Kept(log, keep));
    SameRecord(After(log), After(Kept(log, keep)), Alone(log, u), u, alive, now);
    hide *;
  }

  lemma SameRecord(all: State, few: State, x: Solo, u: string, alive: set<string>, now: int)
    requires Matches(all, x, u) && Matches(few, x, u)
    requires forall id :: id in all.runs ==> all.runs[id].id == id
    requires forall id :: id in few.runs ==> few.runs[id].id == id
    ensures u in all.byToolUse <==> u in few.byToolUse
    ensures u in all.byToolUse ==>
              var id := all.byToolUse[u];
              && few.byToolUse[u] == id && id in all.runs && id in few.runs
              && Judged(all.runs[id].(parent := ParentOf(all, id)), alive, now).(parent := None)
              == Judged(few.runs[id].(parent := ParentOf(few, id)), alive, now).(parent := None)
  {
    if x.run.Some? {
      var id := all.byToolUse[u];
      JudgedWithoutParent(x.run.value, ParentOf(all, id), alive, now);
      JudgedWithoutParent(x.run.value, ParentOf(few, id), alive, now);
    }
  }

  lemma JudgedWithoutParent(run: Run, parent: Option<nat>, alive: set<string>, now: int)
    ensures Judged(run.(parent := parent), alive, now).(parent := None) == Judged(run.(parent := None), alive, now)
  {
  }

  lemma {:induction false} IdsOfRuns(log: seq<Row>)
    ensures forall id :: id in After(log).runs ==> After(log).runs[id].id == id
    decreases |log|
  {
    if log != [] { IdsOfRuns(log[..|log| - 1]); }
  }

  /** Run `j` was launched, and later in the log a response to its launch exposed agent `a`. */
  ghost predicate Runs(log: seq<Row>, a: string, j: nat) {
    exists p, q :: 0 <= p < q < |log| && log[p].Pre? && log[p].id == j && log[p].toolUse != ""
                   && log[q].Post? && log[q].toolUse == log[p].toolUse && Exposed(log[q]) == a
  }

  /** What one row does to the map of tool uses; no run is ever taken out. */
  lemma StepMaps(s: State, row: Row)
    ensures var t := Step(s, row);
            && t.byToolUse == (if row.Pre? && row.toolUse != "" then s.byToolUse[row.toolUse := row.id]
                               else s.byToolUse)
            && s.runs.Keys <= t.runs.Keys && (row.Pre? ==> row.id in t.runs)
  {
    hide Launched, AfterPost, AfterNotice, Exposed;
  }

  /** Every mapped tool use has a launch of the run it is mapped to. */
  lemma {:induction false} MappedWereLaunched(log: seq<Row>)
    ensures forall v :: v in After(log).byToolUse ==>
              After(log).byToolUse[v] in After(log).runs && Launches(log, v, After(log).byToolUse[v])
    decreases |log|
  {
    if log != [] {
      var init, row := log[..|log| - 1], log[|log| - 1];
      assert log == init + [row];
      assert After(log) == Step(After(init), row);
      hide After;
      MappedWereLaunched(init);
      LaunchesMore(init, row);
      StepMaps(After(init), row);
      hide Step, Launches;
    }
  }

  lemma NewToolUse(log: seq<Row>, row: Row, p: nat)
    requires DistinctIds(log + [row]) && row.Pre? && p < |log| && log[p].Pre? && log[p].toolUse != ""
    ensures log[p].toolUse != row.toolUse
  {
    assert (log + [row])[p] == log[p] && (log + [row])[|log|] == row;
  }

  /** A launch is mapped under its tool use, and stays so. */
  lemma {:induction false} LaunchIsMapped(log: seq<Row>, p: nat)
    requires DistinctIds(log) && p < |log| && log[p].Pre? && log[p].toolUse != ""
    ensures log[p].toolUse in After(log).byToolUse && After(log).byToolUse[log[p].toolUse] == log[p].id
    decreases |log|
  {
    var init, row := log[..|log| - 1], log[|log| - 1];
    assert log == init + [row];
    assert After(log) == Step(After(init), row);
    StepMaps(After(init), row);
    hide After, Step;
    if p < |init| {
      DistinctPrefix(init, row);
      if row.Pre? { NewToolUse(init, row, p); }
      hide DistinctIds;
      LaunchIsMapped(init, p);
    }
  }

  lemma LaunchesAreMapped(log: seq<Row>)
    requires DistinctIds(log)
    ensures forall p :: 0 <= p < |log| && log[p].Pre? && log[p].toolUse != "" ==>
              log[p].toolUse in After(log).byToolUse && After(log).byToolUse[log[p].toolUse] == log[p].id
    ensures forall v :: v in After(log).byToolUse ==>
              After(log).byToolUse[v] in After(log).runs && Launches(log, v, After(log).byToolUse[v])
  {
    hide *;
    MappedWereLaunched(log);
    forall p | 0 <= p < |log| && log[p].Pre? && log[p].toolUse != ""
      ensures log[p].toolUse in After(log).byToolUse && After(log).byToolUse[log[p].toolUse] == log[p].id
    {
      LaunchIsMapped(log, p);
    }
  }

  /** What one row does to the map of agent ids. */
  lemma StepAgents(s: State, row: Row)
    ensures Step(s, row).byAgent ==
            if row.Post? && row.toolUse != "" && row.toolUse in s.byToolUse && s.byToolUse[row.toolUse] in s.runs
               && Exposed(row) != ""
            then s.byAgent[Exposed(row) := s.byToolUse[row.toolUse]] else s.byAgent
  {
    hide Launched, AfterPost, AfterNotice, Exposed;
  }

  /** Agent ids lead to the runs whose launches exposed them. */
  lemma {:induction false} AgentsLeadToRuns(log: seq<Row>, a: string, j: nat)
    requires a != "" && DistinctIds(log)
    ensures (a in After(log).byAgent && After(log).byAgent[a] == j) <==> Runs(log, a, j)
    decreases |log|
  {
    hide Step, DistinctIds, Launches, Exposed;
    if log != [] {
      var init, row := log[..|log| - 1], log[|log| - 1];
      assert log == init + [row];
      assert After(log) == Step(After(init), row);
      hide After, Runs;
      DistinctPrefix(init, row);
      AgentsLeadToRuns(init, a, j);
      LaunchesAreMapped(init);
      RunsMore(init, row, a, j);
      if row.Post? && Exposed(row) == a && Runs(init, a, j) { SameToolUse(init, row, a, j); }
      LaunchIsUnique(init, row, j);
      StepAgents(After(init), row);
    }
  }

  /** A mapped tool use has one launch. */
  lemma LaunchIsUnique(log: seq<Row>, row: Row, j: nat)
    requires forall p :: 0 <= p < |log| && log[p].Pre? && log[p].toolUse != "" ==>
               log[p].toolUse in After(log).byToolUse && After(log).byToolUse[log[p].toolUse] == log[p].id
    requires forall v :: v in After(log).byToolUse ==> Launches(log, v, After(log).byToolUse[v])
    ensures row.Post? && row.toolUse != "" ==>
              (Launches(log, row.toolUse, j) <==>
                 row.toolUse in After(log).byToolUse && After(log).byToolUse[row.toolUse] == j)
  {
    hide After;
  }

  ghost predicate Launches(log: seq<Row>, v: string, id: nat) {
    exists p :: 0 <= p < |log| && log[p].Pre? && log[p].toolUse == v && log[p].id == id
  }

  lemma LaunchesMore(log: seq<Row>, row: Row)
    ensures forall v, id ::
              Launches(log + [row], v, id) <==> Launches(log, v, id) || (row.Pre? && row.toolUse == v && row.id == id)
  {
    var l := log + [row];
    forall v, id | Launches(log, v, id) ensures Launches(l, v, id) {
      var p :| 0 <= p < |log| && log[p].Pre? && log[p].toolUse == v && log[p].id == id;
      assert l[p] == log[p];
    }
    forall v, id | row.Pre? && row.toolUse == v && row.id == id ensures Launches(l, v, id) { assert l[|log|] == row; }
    forall v, id | Launches(l, v, id) ensures Launches(log, v, id) || (row.Pre? && row.toolUse == v && row.id == id) {
      var p :| 0 <= p < |l| && l[p].Pre? && l[p].toolUse == v && l[p].id == id;
      if p < |log| { assert log[p] == l[p]; }
    }
  }

  lemma RunsMore(log: seq<Row>, row: Row, a: string, j: nat)
    ensures Runs(log + [row], a, j) <==>
            Runs(log, a, j) || (row.Post? && row.toolUse != "" && Exposed(row) == a && Launches(log, row.toolUse, j))
  {
    var l := log + [row];
    if Runs(log, a, j) {
      var p, q :| 0 <= p < q < |log| && log[p].Pre? && log[p].id == j && log[p].toolUse != ""
                  && log[q].Post? && log[q].toolUse == log[p].toolUse && Exposed(log[q]) == a;
      assert l[p] == log[p] && l[q] == log[q];
    }
    if row.Post? && row.toolUse != "" && Exposed(row) == a && Launches(log, row.toolUse, j) {
      var p :| 0 <= p < |log| && log[p].Pre? && log[p].toolUse == row.toolUse && log[p].id == j;
      assert l[p] == log[p] && l[|log|] == row;
    }
    if Runs(l, a, j) {
      var p, q :| 0 <= p < q < |l| && l[p].Pre? && l[p].id == j && l[p].toolUse != ""
                  && l[q].Post? && l[q].toolUse == l[p].toolUse && Exposed(l[q]) == a;
      assert log[p] == l[p];
      if q < |log| { assert log[q] == l[q]; }
    }
  }

  /** A second response that exposes the same agent is to the same launch. */
  lemma SameToolUse(log: seq<Row>, row: Row, a: string, j: nat)
    requires DistinctIds(log + [row]) && row.Post? && Exposed(row) == a && a != "" && Runs(log, a, j)
    ensures Launches(log, row.toolUse, j)
  {
    var p, q :| 0 <= p < q < |log| && log[p].Pre? && log[p].id == j && log[p].toolUse != ""
                && log[q].Post? && log[q].toolUse == log[p].toolUse && Exposed(log[q]) == a;
    var l := log + [row];
    assert l[q] == log[q] && l[|log|] == row;
    assert Exposes(l, log[p].toolUse, a) && Exposes(l, row.toolUse, a);
  }

  /** Row `p` launches run `j`, and the later row `q` answers that launch with agent id `a`. */
  ghost predicate Introduces(log: seq<Row>, p: int, q: int, a: string, j: nat) {
    && 0 <= p < q < |log| && log[p].Pre? && log[p].id == j && log[p].toolUse != ""
    && log[q].Post? && log[q].toolUse == log[p].toolUse && log[q].response.Some? && log[q].response.value.agentId == a
  }

  /**
   Parent links. A run's parent is exactly the run whose launch exposed the agent id that issued it;
   where that response stands, before or after the child or its completion, makes no difference.
   */
  lemma ParentIsTheIssuersRun(log: seq<Row>, c: nat, j: nat, alive: set<string>, now: int)
    requires DistinctIds(log) && c < |log| && log[c].Pre?
    ensures log[c].id in Compute(log, alive, now)
    ensures Compute(log, alive, now)[log[c].id].parent == Some(j)
            <==> log[c].issuer != "" && exists p, q :: Introduces(log, p, q, log[c].issuer, j)
  {
    LaunchIsRemembered(log, c);
    if log[c].issuer != "" {
      AgentsLeadToRuns(log, log[c].issuer, j);
      assert forall p, q :: Introduces(log, p, q, log[c].issuer, j) ==> Exposed(log[q]) == log[c].issuer;
      if Runs(log, log[c].issuer, j) {
        var p, q :| 0 <= p < q < |log| && log[p].Pre? && log[p].id == j && log[p].toolUse != ""
                    && log[q].Post? && log[q].toolUse == log[p].toolUse && Exposed(log[q]) == log[c].issuer;
        assert Introduces(log, p, q, log[c].issuer, j);
      }
    }
  }

  lemma {:induction false} LaunchIsRemembered(log: seq<Row>, c: nat)
    requires DistinctIds(log) && c < |log| && log[c].Pre?
    ensures var s := After(log);
            log[c].id in s.runs && log[c].id in s.launchedBy && s.launchedBy[log[c].id].issuer == log[c].issuer
    decreases |log|
  {
    var init, row := log[..|log| - 1], log[|log| - 1];
    if c < |init| {
      assert log == init + [row];
      DistinctPrefix(init, row);
      LaunchIsRemembered(init, c);
      assert row.Pre? ==> row.id != log[c].id;
    }
  }

  // ---- The loops -----------------------------------------------------------------------------

  lemma NextRow(log: seq<Row>, n: nat)
    requires n < |log|
    ensures After(log[..n + 1]) == Step(After(log[..n]), log[n])
  {
    assert log[..n + 1][..n] == log[..n];
  }

  /** The pass over `launchedBy`, once all rows have been seen. */
  method LinkParents(s: State) returns (linked: map<nat, Run>)
    ensures linked == map id | id in s.runs :: s.runs[id].(parent := ParentOf(s, id))
  {
    linked := s.runs;
    var todo := s.runs.Keys;
    while todo != {}
      invariant todo <= s.runs.Keys == linked.Keys
      invariant forall id :: id in s.runs ==>
                  linked[id] == if id in todo then s.runs[id] else s.runs[id].(parent := ParentOf(s, id))
      decreases |todo|
    {
      var id :| id in todo;
      var parent: Option<nat> := None;
      if id in s.launchedBy && s.launchedBy[id].issuer != "" && s.launchedBy[id].issuer in s.byAgent {
        parent := Some(s.byAgent[s.launchedBy[id].issuer]);
      }
      linked := linked[id := linked[id].(parent := parent)];
      todo := todo - {id};
    }
  }

  /** The pass that finds stuck runs. */
  method JudgeRuns(runs: map<nat, Run>, alive: set<string>, now: int) returns (judged: map<nat, Run>)
    ensures judged == map id | id in runs :: Judged(runs[id], alive, now)
  {
    judged := runs;
    var todo := runs.Keys;
    while todo != {}
      invariant todo <= runs.Keys == judged.Keys
      invariant forall id :: id in runs ==> judged[id] == if id in todo then runs[id] else Judged(runs[id], alive, now)
      decreases |todo|
    {
      hide Judged;
      var id :| id in todo;
      judged := judged[id := Judged(judged[id], alive, now)];
      todo := todo - {id};
    }
  }

  method ComputeAgentRuns(log: seq<Row>, alive: set<string>, now: int) returns (result: map<nat, Run>)
    ensures result == Compute(log, alive, now)
  {
    var runs: map<nat, Run>, byToolUse: map<string, nat>, byAgent: map<string, nat>, launchedBy: map<nat, Launch> :=
      map[], map[], map[], map[];
    var n := 0;
    while n < |log|
      invariant 0 <= n <= |log|
      invariant State(runs, byToolUse, byAgent, launchedBy) == After(log[..n])
    {
      ghost var s := State(runs, byToolUse, byAgent, launchedBy);
      hide After, Launched, AfterPost, AfterNotice, Exposed;
      NextRow(log, n);
      var row := log[n];
      match row {
        case Pre(id, _, _, toolUse, issuer, _) =>
          runs := runs[id := Launched(row)];
          launchedBy := launchedBy[id := Launch(issuer, toolUse)];
          if toolUse != "" { byToolUse := byToolUse[toolUse := id]; }
        case Post(_, _, toolUse, _) =>
          if toolUse != "" && toolUse in byToolUse && byToolUse[toolUse] in runs {
            var id := byToolUse[toolUse];
            if Exposed(row) != "" { byAgent := byAgent[Exposed(row) := id]; }
            runs := runs[id := AfterPost(runs[id], row)];
          }
        case Notice(_, _, toolUse, task, _, _, _) =>
          var id: Option<nat> := None;
          if toolUse != "" && toolUse in byToolUse { id := Some(byToolUse[toolUse]); }
          if id.None? && task != "" && task in byAgent { id := Some(byAgent[task]); }
          if id.Some? && id.value in runs { runs := runs[id.value := AfterNotice(runs[id.value], row)]; }
        case OtherRow(_) =>
      }
      assert State(runs, byToolUse, byAgent, launchedBy) == Step(s, row);
      n := n + 1;
    }
    assert log[..n] == log;
    hide After, Step, Judged;
    var linked := LinkParents(State(runs, byToolUse, byAgent, launchedBy));
    result := JudgeRuns(linked, alive, now);
  }
}
