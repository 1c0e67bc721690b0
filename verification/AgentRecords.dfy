/**
 What the record of a sub-agent run says, read off the rows of the event log (sandbox/lib/agents.ts).

 `AgentRuns` shows that a launch's record is made by its own rows alone. Here each field of the final
 record is said in terms of those rows: the last one that has a say in the field decides it.
*/
module AgentRecords {
  import opened Wrappers
  import opened AgentRuns

  // ---- The rows of one launch ----------------------------------------------------------------

  ghost predicate IsLaunch(log: seq<Row>, c: nat) { c < |log| && log[c].Pre? }

  /** Row `j` is a response to the launch in row `c`. */
  ghost predicate Responds(log: seq<Row>, c: nat, j: nat)
    requires IsLaunch(log, c)
  {
    c < j < |log| && log[c].toolUse != "" && log[j].Post? && log[j].toolUse == log[c].toolUse
  }

  /** A response to the launch, before row `j`, gave this agent id. */
  ghost predicate GaveAgent(log: seq<Row>, c: nat, j: nat, a: string)
    requires IsLaunch(log, c) && j <= |log|
  {
    exists q: nat :: q < j && Responds(log, c, q) && log[q].response.Some? && log[q].response.value.agentId == a
  }

  /** Row `j` is a completion notice for it: by its tool use, or by an agent id it was given before. */
  ghost predicate Notifies(log: seq<Row>, c: nat, j: nat)
    requires IsLaunch(log, c)
  {
    && c < j < |log| && log[c].toolUse != "" && log[j].Notice?
    && (log[j].toolUse == log[c].toolUse
        || (log[j].toolUse == "" && log[j].task != "" && GaveAgent(log, c, j, log[j].task)))
  }

  /** A response that only acknowledges an asynchronous launch. */
  predicate Acknowledges(row: Row) { row.Post? && row.response.Some? && row.response.value.isAsync }

  /** A response with content that is no acknowledgement. */
  predicate Reports(row: Row) { row.Post? && row.response.Some? && !row.response.value.isAsync }

  ghost predicate Ends(log: seq<Row>, c: nat, j: nat)
    requires IsLaunch(log, c)
  {
    (Responds(log, c, j) && !Acknowledges(log[j])) || Notifies(log, c, j)
  }

  // ---- Who has a say in a field --------------------------------------------------------------

  datatype Field = EndTime | Duration | ResultText | ToolCount | Model

  ghost predicate Decides(log: seq<Row>, c: nat, j: nat, f: Field)
    requires IsLaunch(log, c)
  {
    match f
    case EndTime => Ends(log, c, j)
    case Duration => Ends(log, c, j)
    case ResultText =>
      (Responds(log, c, j) && Reports(log[j])) || (Notifies(log, c, j) && log[j].result.Some?)
    case ToolCount =>
      (Responds(log, c, j) && Reports(log[j])) || (Notifies(log, c, j) && log[j].toolUses.Some?)
    case Model =>
      Responds(log, c, j) && log[j].response.Some? && (Reports(log[j]) || log[j].response.value.model.Some?)
  }

  /** A text is kept up to 4000 characters. */
  predicate KeptText(text: string, kept: string) { kept <= text && |kept| == if |text| < 4000 then |text| else 4000 }

  /** What a run says after row `row` of its launch decided field `f`. */
  predicate Says(run: Run, f: Field, launch: Row, row: Row) {
    launch.Pre? && (row.Post? || row.Notice?) &&
    match f
    case EndTime => run.endTs == Some(row.ts)
    case Duration =>
      var told := if row.Notice? then row.durationMs
                  else if row.response.Some? then row.response.value.durationMs else None;
      run.durationMs == if told.Some? then told else Some(row.ts - launch.ts)
    case ResultText =>
      var text := if row.Notice? then row.result
                  else if row.response.Some? then Some(row.response.value.text) else None;
      text.Some? && run.result.Some? && KeptText(text.value, run.result.value)
    case ToolCount =>
      run.toolUses == if row.Notice? then row.toolUses
                      else if row.response.Some? then row.response.value.toolUses else None
    case Model => row.Post? && run.model == if row.response.Some? then row.response.value.model else None
  }

  predicate Empty(run: Run, f: Field) {
    match f
    case EndTime => run.endTs.None?
    case Duration => run.durationMs.None?
    case ResultText => run.result.None?
    case ToolCount => run.toolUses.None?
    case Model => run.model.None?
  }

  /** Field `f` is what the last row before `n` with a say in it makes of it, or empty when there is none. */
  ghost predicate FieldOk(log: seq<Row>, c: nat, n: nat, run: Run, f: Field)
    requires IsLaunch(log, c) && n <= |log|
  {
    && (forall j: nat :: j < n && Decides(log, c, j, f) && NoneLater(log, c, j, n, f) ==>
          Says(run, f, log[c], log[j]))
    && ((forall j: nat :: j < n ==> !Decides(log, c, j, f)) ==> Empty(run, f))
  }

  ghost predicate NoneLater(log: seq<Row>, c: nat, j: nat, n: nat, f: Field)
    requires IsLaunch(log, c)
  {
    forall k: nat :: j < k < n ==> !Decides(log, c, k, f)
  }

  /** What is known of a launch's record after the first `n` rows. */
  ghost predicate RecordOk(log: seq<Row>, c: nat, n: nat, x: Solo)
    requires IsLaunch(log, c) && n <= |log|
  {
    && x.run.Some?
    && var run := x.run.value;
    && run.id == log[c].id && run.sessionId == log[c].sessionId && run.input == log[c].input
    && run.startTs == log[c].ts && run.parent.None?
    && (run.status == Completed <==> exists j: nat :: j < n && Ends(log, c, j))
    && run.status != Interrupted
    && (forall f :: FieldOk(log, c, n, run, f))
    && (forall a :: a != "" ==> (a in x.agents <==> GaveAgent(log, c, n, a)))
  }

  // ---- One more row --------------------------------------------------------------------------

  /** A row that has no say leaves a field as it was, one that has decides it. */
  lemma FieldStep(log: seq<Row>, c: nat, n: nat, run: Run, run': Run, f: Field)
    requires IsLaunch(log, c) && n < |log| && FieldOk(log, c, n, run, f)
    requires Decides(log, c, n, f) ==> Says(run', f, log[c], log[n])
    requires !Decides(log, c, n, f) ==> SameField(run, run', f)
    ensures FieldOk(log, c, n + 1, run', f)
  {
    hide Decides;
    forall j: nat | j < n + 1 && Decides(log, c, j, f) && NoneLater(log, c, j, n + 1, f)
      ensures Says(run', f, log[c], log[j])
    {
      if j < n {
        assert !Decides(log, c, n, f);
        assert NoneLater(log, c, j, n, f);
        SameSays(run, run', f, log[c], log[j]);
      }
    }
    if forall j: nat :: j < n + 1 ==> !Decides(log, c, j, f) {
      assert !Decides(log, c, n, f);
    }
  }

  predicate SameField(run: Run, run': Run, f: Field) {
    match f
    case EndTime => run'.endTs == run.endTs
    case Duration => run'.durationMs == run.durationMs
    case ResultText => run'.result == run.result
    case ToolCount => run'.toolUses == run.toolUses
    case Model => run'.model == run.model
  }

  lemma SameSays(run: Run, run': Run, f: Field, launch: Row, row: Row)
    requires SameField(run, run', f)
    ensures Says(run', f, launch, row) == Says(run, f, launch, row)
  {
  }

  /** What a row of the launch does to a record. */
  lemma ResponseStep(log: seq<Row>, c: nat, n: nat, run: Run, f: Field)
    requires IsLaunch(log, c) && Responds(log, c, n) && run.startTs == log[c].ts
    ensures Decides(log, c, n, f) ==> Says(AfterPost(run, log[n]), f, log[c], log[n])
    ensures !Decides(log, c, n, f) ==> SameField(run, AfterPost(run, log[n]), f)
  {
    assert !Notifies(log, c, n);
    hide GaveAgent;
  }

  lemma NoticeStep(log: seq<Row>, c: nat, n: nat, run: Run, f: Field)
    requires IsLaunch(log, c) && Notifies(log, c, n) && run.startTs == log[c].ts
    ensures Decides(log, c, n, f) ==> Says(AfterNotice(run, log[n]), f, log[c], log[n])
    ensures !Decides(log, c, n, f) ==> SameField(run, AfterNotice(run, log[n]), f)
  {
    assert !Responds(log, c, n);
    hide GaveAgent;
  }

  lemma OtherStep(log: seq<Row>, c: nat, n: nat, f: Field)
    requires IsLaunch(log, c) && n < |log| && !Responds(log, c, n) && !Notifies(log, c, n)
    ensures !Decides(log, c, n, f) && !Ends(log, c, n)
  {
    hide Responds, Notifies;
  }

  lemma GaveStep(log: seq<Row>, c: nat, n: nat, a: string)
    requires IsLaunch(log, c) && n < |log|
    ensures GaveAgent(log, c, n + 1, a) <==>
            GaveAgent(log, c, n, a)
            || (Responds(log, c, n) && log[n].response.Some? && log[n].response.value.agentId == a)
  {
    if GaveAgent(log, c, n, a) {
      var q: nat :| q < n && Responds(log, c, q) && log[q].response.Some? && log[q].response.value.agentId == a;
      assert q < n + 1;
    }
  }

  lemma EndsStep(log: seq<Row>, c: nat, n: nat)
    requires IsLaunch(log, c) && n < |log|
    ensures (exists j: nat :: j < n + 1 && Ends(log, c, j))
            <==> (exists j: nat :: j < n && Ends(log, c, j)) || Ends(log, c, n)
  {
    hide Ends;
  }

  /** With the agents known, a row concerns the launch exactly when it responds to it or notifies it. */
  lemma ConcernsExactly(log: seq<Row>, c: nat, n: nat, agents: set<string>)
    requires IsLaunch(log, c) && c < n < |log| && log[c].toolUse != "" && DistinctIds(log)
    requires forall a :: a != "" ==> (a in agents <==> GaveAgent(log, c, n, a))
    ensures Concerns(log[n], log[c].toolUse, agents) <==> Responds(log, c, n) || Notifies(log, c, n)
  {
    hide GaveAgent;
  }

  lemma {:induction false} RecordAfter(log: seq<Row>, c: nat, n: nat)
    requires IsLaunch(log, c) && log[c].toolUse != "" && DistinctIds(log) && c < n <= |log|
    ensures RecordOk(log, c, n, Alone(log[..n], log[c].toolUse))
    decreases n
  {
    var u := log[c].toolUse;
    var init, row := log[..n - 1], log[n - 1];
    assert log[..n][..n - 1] == init;
    assert Alone(log[..n], u) == SoloStep(Alone(init, u), row, u);
    if n == c + 1 {
      hide Alone;
      JustLaunched(log, c, Alone(init, u));
    } else {
      hide Alone;
      RecordAfter(log, c, n - 1);
      RecordStep(log, c, n - 1, Alone(init, u));
    }
  }

  lemma JustLaunched(log: seq<Row>, c: nat, x: Solo)
    requires IsLaunch(log, c) && log[c].toolUse != ""
    ensures RecordOk(log, c, c + 1, SoloStep(x, log[c], log[c].toolUse))
  {
    var run := Launched(log[c]);
    assert SoloStep(x, log[c], log[c].toolUse) == Solo(Some(run), {});
    assert forall j: nat :: j < c + 1 ==> !Ends(log, c, j);
    var m := c + 1;
    forall f ensures FieldOk(log, c, m, run, f) {
      assert forall j: nat :: j < m ==> !Decides(log, c, j, f);
    }
    assert forall a :: !GaveAgent(log, c, m, a);
  }

  lemma RecordStep(log: seq<Row>, c: nat, n: nat, x: Solo)
    requires IsLaunch(log, c) && c < n < |log| && log[c].toolUse != "" && DistinctIds(log)
    requires RecordOk(log, c, n, x)
    ensures RecordOk(log, c, n + 1, SoloStep(x, log[n], log[c].toolUse))
  {
    var run := x.run.value;
    var y := SoloStep(x, log[n], log[c].toolUse);
    ConcernsExactly(log, c, n, x.agents);
    EndsStep(log, c, n);
    RowKind(log, c, n);
    if Responds(log, c, n) {
      assert y.run == Some(AfterPost(run, log[n]));
      AnsweredRecord(log, c, n, x, y);
    } else if Notifies(log, c, n) {
      assert y == x.(run := Some(AfterNotice(run, log[n])));
      NotifiedRecord(log, c, n, x, y);
    } else {
      assert y == x;
      UntouchedRecord(log, c, n, x);
    }
  }

  lemma RowKind(log: seq<Row>, c: nat, n: nat)
    requires IsLaunch(log, c) && n < |log|
    ensures Responds(log, c, n) ==> log[n].Post? && !Notifies(log, c, n)
    ensures Notifies(log, c, n) ==> log[n].Notice?
  {
    hide GaveAgent;
  }

  lemma AnsweredRecord(log: seq<Row>, c: nat, n: nat, x: Solo, y: Solo)
    requires IsLaunch(log, c) && c < n < |log| && Responds(log, c, n) && RecordOk(log, c, n, x)
    requires y.run == Some(AfterPost(x.run.value, log[n]))
    requires y.agents == x.agents + if Exposed(log[n]) != "" then {Exposed(log[n])} else {}
    ensures RecordOk(log, c, n + 1, y)
  {
    hide Responds, Notifies, FieldOk, GaveAgent, Decides;
    var run := x.run.value;
    EndsStep(log, c, n);
    RowKind(log, c, n);
    var m := n + 1;
    forall f ensures FieldOk(log, c, m, y.run.value, f) {
      ResponseStep(log, c, n, run, f);
      FieldStep(log, c, n, run, y.run.value, f);
    }
    forall a | a != "" ensures a in y.agents <==> GaveAgent(log, c, m, a) { GaveStep(log, c, n, a); }
  }

  lemma NotifiedRecord(log: seq<Row>, c: nat, n: nat, x: Solo, y: Solo)
    requires IsLaunch(log, c) && c < n < |log| && Notifies(log, c, n) && RecordOk(log, c, n, x) && log[n].Notice?
    requires y == x.(run := Some(AfterNotice(x.run.value, log[n])))
    ensures RecordOk(log, c, n + 1, y)
  {
    hide Responds, Notifies, FieldOk, GaveAgent, Decides;
    var run := x.run.value;
    EndsStep(log, c, n);
    RowKind(log, c, n);
    var m := n + 1;
    forall f ensures FieldOk(log, c, m, y.run.value, f) {
      NoticeStep(log, c, n, run, f);
      FieldStep(log, c, n, run, y.run.value, f);
    }
    forall a | a != "" ensures a in y.agents <==> GaveAgent(log, c, m, a) { GaveStep(log, c, n, a); }
  }

  lemma UntouchedRecord(log: seq<Row>, c: nat, n: nat, x: Solo)
    requires IsLaunch(log, c) && c < n < |log| && !Responds(log, c, n) && !Notifies(log, c, n)
    requires RecordOk(log, c, n, x)
    ensures RecordOk(log, c, n + 1, x)
  {
    hide Responds, Notifies, FieldOk, GaveAgent, Decides, Ends;
    EndsStep(log, c, n);
    var m := n + 1;
    forall f ensures FieldOk(log, c, m, x.run.value, f) {
      OtherStep(log, c, n, f);
      FieldStep(log, c, n, x.run.value, x.run.value, f);
    }
    OtherStep(log, c, n, EndTime);
    forall a | a != "" ensures a in x.agents <==> GaveAgent(log, c, m, a) { GaveStep(log, c, n, a); }
  }

  // ---- A launch without a tool use -----------------------------------------------------------

  /** The maps lead only to launches that have a tool use. */
  ghost predicate MapsAreNamed(s: State) {
    && (forall v :: v in s.byToolUse ==>
          v != "" && s.byToolUse[v] in s.launchedBy && s.launchedBy[s.byToolUse[v]].toolUse != "")
    && (forall a :: a in s.byAgent ==>
          s.byAgent[a] in s.launchedBy && s.launchedBy[s.byAgent[a]].toolUse != "")
  }

  lemma NamedStep(s: State, row: Row)
    requires MapsAreNamed(s) && (row.Pre? ==> row.id !in s.launchedBy)
    ensures MapsAreNamed(Step(s, row))
  {
    hide Launched, AfterPost, AfterNotice, Exposed;
  }

  lemma {:induction false} LaunchesAreRows(log: seq<Row>)
    ensures forall id :: id in After(log).launchedBy ==> exists i :: 0 <= i < |log| && log[i].Pre? && log[i].id == id
    decreases |log|
  {
    hide Launched, AfterPost, AfterNotice, Exposed, Noticed;
    if log != [] {
      var init := log[..|log| - 1];
      LaunchesAreRows(init);
      forall id | id in After(log).launchedBy ensures exists i :: 0 <= i < |log| && log[i].Pre? && log[i].id == id {
        if id in After(init).launchedBy {
          var i :| 0 <= i < |init| && init[i].Pre? && init[i].id == id;
          assert log[i] == init[i];
        } else {
          assert log[|log| - 1].Pre? && log[|log| - 1].id == id;
        }
      }
    }
  }

  lemma {:induction false} MapsStayNamed(log: seq<Row>)
    requires DistinctIds(log)
    ensures MapsAreNamed(After(log))
    decreases |log|
  {
    if log != [] {
      var init, row := log[..|log| - 1], log[|log| - 1];
      assert log == init + [row];
      assert After(log) == Step(After(init), row);
      DistinctPrefix(init, row);
      hide After, Step, MapsAreNamed;
      MapsStayNamed(init);
      LaunchesAreRows(init);
      NewLaunchId(log, init, row);
      NamedStep(After(init), row);
    }
  }

  lemma NewLaunchId(log: seq<Row>, init: seq<Row>, row: Row)
    requires DistinctIds(log) && log == init + [row]
    requires forall id :: id in After(init).launchedBy ==>
               exists i :: 0 <= i < |init| && init[i].Pre? && init[i].id == id
    ensures row.Pre? ==> row.id !in After(init).launchedBy
  {
    hide After;
    forall i | 0 <= i < |init| && init[i].Pre? && row.Pre? ensures init[i].id != row.id {
      assert log[i] == init[i] && log[|init|] == row;
    }
  }

  lemma UnnamedStep(s: State, row: Row, id: nat)
    requires MapsAreNamed(s) && id in s.launchedBy && s.launchedBy[id].toolUse == "" && id in s.runs
    requires row.Pre? ==> row.id != id
    ensures var t := Step(s, row);
            id in t.runs && t.runs[id] == s.runs[id] && id in t.launchedBy && t.launchedBy[id].toolUse == ""
  {
    hide Launched, AfterPost, AfterNotice, Exposed;
  }

  lemma {:induction false} UnnamedStays(log: seq<Row>, c: nat)
    requires IsLaunch(log, c) && log[c].toolUse == "" && DistinctIds(log)
    ensures var s := After(log);
            var id := log[c].id;
            && id in s.runs && s.runs[id] == Launched(log[c])
            && id in s.launchedBy && s.launchedBy[id].toolUse == ""
    decreases |log|
  {
    var init, row := log[..|log| - 1], log[|log| - 1];
    assert log == init + [row];
    assert After(log) == Step(After(init), row);
    if c < |init| {
      DistinctPrefix(init, row);
      hide After, Step, Launched;
      UnnamedStays(init, c);
      MapsStayNamed(init);
      assert row.Pre? ==> row.id != log[c].id;
      UnnamedStep(After(init), row, log[c].id);
    }
  }

  /** There is a record for every launch and for nothing else. */
  lemma {:induction false} RecordsAreLaunches(log: seq<Row>, alive: set<string>, now: int, id: nat)
    ensures id in Compute(log, alive, now) <==> exists i :: 0 <= i < |log| && log[i].Pre? && log[i].id == id
    decreases |log|
  {
    if log != [] {
      var init, row := log[..|log| - 1], log[|log| - 1];
      assert After(log) == Step(After(init), row);
      assert id in Compute(log, alive, now) <==> id in After(log).runs;
      assert id in Compute(init, alive, now) <==> id in After(init).runs;
      hide After, Compute;
      RecordsAreLaunches(init, alive, now, id);
      RunKeys(After(init), row);
      hide Step;
      forall i | 0 <= i < |init| ensures init[i] == log[i] {}
    }
  }

  lemma RunKeys(s: State, row: Row)
    ensures Step(s, row).runs.Keys == if row.Pre? then s.runs.Keys + {row.id} else s.runs.Keys
  {
    hide Launched, AfterPost, AfterNotice, Exposed;
  }

  // ---- The theorem ---------------------------------------------------------------------------

  /** The session of the run is known to be alive. */
  predicate InLiveSession(run: Run, alive: set<string>) {
    run.sessionId.Some? && run.sessionId.value != "" && run.sessionId.value in alive
  }

  /** What the record of launch `c` says in the end. */
  ghost predicate RecordSays(log: seq<Row>, c: nat, run: Run, alive: set<string>, now: int)
    requires IsLaunch(log, c)
  {
    var n := |log|;
    var ended := exists j: nat :: j < n && Ends(log, c, j);
    && run.id == log[c].id && run.sessionId == log[c].sessionId && run.input == log[c].input
    && run.startTs == log[c].ts
    && (run.status == Completed <==> ended)
    && (run.status == Interrupted <==> !ended && !InLiveSession(run, alive) && now - log[c].ts > 5 * 60 * 1000)
    && (forall f :: f != Duration ==> FieldOk(log, c, n, run, f))
    && (ended ==> FieldOk(log, c, n, run, Duration))
    && (!ended ==> run.durationMs == if run.status == Interrupted then Some(now - log[c].ts) else None)
  }

  /**
   The final record of every launch, from the rows of the log. It is completed exactly when, after the
   launch, a response other than an acknowledgement of an asynchronous start, or a notice for it, stands
   in the log; interrupted exactly when neither came, its session is not alive and five minutes have
   passed; running otherwise. End time, duration, result, tool count and model are what the last row
   with a say in each gives, with its fallback; the rest is the launch row's.
   */
  lemma RecordFromItsRows(log: seq<Row>, c: nat, alive: set<string>, now: int)
    requires DistinctIds(log) && IsLaunch(log, c)
    ensures log[c].id in Compute(log, alive, now)
    ensures RecordSays(log, c, Compute(log, alive, now)[log[c].id], alive, now)
  {
    var id, u := log[c].id, log[c].toolUse;
    var s := After(log);
    if u == "" {
      UnnamedStays(log, c);
      assert Compute(log, alive, now)[id] == Judged(s.runs[id].(parent := ParentOf(s, id)), alive, now);
      hide After, Compute;
      UnnamedIsEmpty(log, c);
      JudgedSays(log, c, s.runs[id], ParentOf(s, id), alive, now);
    } else {
      RecordIsItsOwnRows(log, u);
      LaunchIsMapped(log, c);
      assert log[..|log|] == log;
      RecordAfter(log, c, |log|);
      assert RunOf(s, u) == Some(s.runs[id]);
      assert Compute(log, alive, now)[id] == Judged(s.runs[id].(parent := ParentOf(s, id)), alive, now);
      hide After, Compute, Alone, FieldOk, Ends, GaveAgent;
      JudgedSays(log, c, s.runs[id], ParentOf(s, id), alive, now);
    }
  }

  /** The record of a launch before the last passes. */
  ghost predicate Unjudged(log: seq<Row>, c: nat, run: Run)
    requires IsLaunch(log, c)
  {
    && run.id == log[c].id && run.sessionId == log[c].sessionId && run.input == log[c].input
    && run.startTs == log[c].ts && run.status != Interrupted
    && (run.status == Completed <==> exists j: nat :: j < |log| && Ends(log, c, j))
    && (forall f :: FieldOk(log, c, |log|, run, f))
  }

  lemma UnnamedIsEmpty(log: seq<Row>, c: nat)
    requires IsLaunch(log, c) && log[c].toolUse == ""
    ensures Unjudged(log, c, Launched(log[c]))
  {
    assert forall j: nat :: j < |log| ==> !Ends(log, c, j);
    forall f ensures FieldOk(log, c, |log|, Launched(log[c]), f) {
      assert forall j: nat :: j < |log| ==> !Decides(log, c, j, f);
    }
  }

  lemma JudgedSays(log: seq<Row>, c: nat, run: Run, parent: Option<nat>, alive: set<string>, now: int)
    requires IsLaunch(log, c) && Unjudged(log, c, run)
    ensures RecordSays(log, c, Judged(run.(parent := parent), alive, now), alive, now)
  {
    var done := Judged(run.(parent := parent), alive, now);
    forall f | f != Duration ensures FieldOk(log, c, |log|, done, f) { FieldCarries(log, c, run, done, f); }
    var ended := exists j: nat :: j < |log| && Ends(log, c, j);
    if ended {
      FieldCarries(log, c, run, done, Duration);
    } else {
      assert forall j: nat :: j < |log| ==> !Decides(log, c, j, Duration);
      assert FieldOk(log, c, |log|, run, Duration);
    }
    hide FieldOk, Ends;
  }

  lemma FieldCarries(log: seq<Row>, c: nat, run: Run, run': Run, f: Field)
    requires IsLaunch(log, c) && FieldOk(log, c, |log|, run, f) && SameField(run, run', f)
    ensures FieldOk(log, c, |log|, run', f)
  {
    hide Decides, NoneLater;
    forall j: nat | j < |log| && Decides(log, c, j, f) && NoneLater(log, c, j, |log|, f)
      ensures Says(run', f, log[c], log[j])
    {
      DecidersAreRows(log, c, j, f);
      SameSays(run, run', f, log[c], log[j]);
    }
  }

  lemma DecidersAreRows(log: seq<Row>, c: nat, j: nat, f: Field)
    requires IsLaunch(log, c) && j < |log| && Decides(log, c, j, f)
    ensures log[j].Post? || log[j].Notice?
  {
  }
}
