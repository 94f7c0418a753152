/** What a completed import has written, and which files it takes, in terms of the file and the rows alone
    (server/src/rivulets/workspace_yaml.py:343-741). */
module ImportEffects {
  import opened Prelude
  import opened Merge
  import opened MergeAgain
  import opened WorkspaceYaml
  import opened ImportSteps
  import opened ImportSafety
  import opened ImportResults

  // ----- where an item goes -----

  lemma {:induction false} TwoMembers(s: set<Id>)
    ensures |s| > 1 <==> exists x, y :: x in s && y in s && x != y
  {
    if |s| > 1 {
      var x :| x in s;
      assert |s - {x}| > 0;
      var y :| y in s - {x};
      assert y in s && x != y;
    }
    if x, y :| x in s && y in s && x != y {
      SubsetSize({x, y}, s);
    }
  }

  ghost predicate OneNamed<R>(table: Table<R>, key: R -> Option<string>, name: string) {
    exists i :: i in table && key(table[i]) == Some(name) && forall j :: j in table && j != i ==> key(table[j]) != Some(name)
  }

  ghost predicate SomeNamed<R>(table: Table<R>, key: R -> Option<string>, name: string) {
    exists i :: i in table && key(table[i]) == Some(name)
  }

  lemma CountNamed<R>(table: Table<R>, key: R -> Option<string>, name: string)
    ensures Named(table, key, name) != {} <==> SomeNamed(table, key, name)
    ensures |Named(table, key, name)| == 1 <==> OneNamed(table, key, name)
  {
    var named := Named(table, key, name);
    if SomeNamed(table, key, name) {
      var i :| i in table && key(table[i]) == Some(name);
      assert i in named;
    }
    if OneNamed(table, key, name) {
      var i :| i in table && key(table[i]) == Some(name) && forall j :: j in table && j != i ==> key(table[j]) != Some(name);
      assert named == {i};
    }
    if |named| == 1 {
      LoneIsOneNamed(table, key, name);
    }
  }

  lemma LoneIsOneNamed<R>(table: Table<R>, key: R -> Option<string>, name: string)
    requires |Named(table, key, name)| == 1
    ensures OneNamed(table, key, name)
  {
    var named := Named(table, key, name);
    TwoMembers(named);
    var i :| i in named;
    forall j | j in table && j != i ensures key(table[j]) != Some(name) {
      assert j !in named;
    }
  }

  /** The four ways of an item: by its id, refused as deleted, by a name that one row has, or as a new row under its
      own id if it has one; where several rows have the name, none. */
  lemma FourWays<R>(table: Table<R>, key: R -> Option<string>, history: set<Id>, item: Ref, newId: Id, pick: Pick)
    requires PicksMembers(pick)
    ensures var t := Resolve(table, key, history, item, newId, pick);
            if item.id.Some? && item.id.value in table then t == Update(item.id.value)
            else if item.id.Some? && item.id.value in history then t == Skipped
            else if OneNamed(table, key, item.name) then t.Update? && t.id in table && key(table[t.id]) == Some(item.name)
            else if SomeNamed(table, key, item.name) then t == Ambiguous
            else t == Create(if item.id.Some? && item.id.value != "" then item.id.value else newId)
  {
    CountNamed(table, key, item.name);
  }

  // ----- what a team reference of the file means -----

  /** The j-th team of the file is the one that ref names, by its id in the file or by the id of its row here. */
  ghost predicate StandsFor(items: seq<TeamItem>, ts: seq<Target>, j: nat, ref: Id)
    requires |items| == |ts|
  {
    j < |items| && (items[j].id == Some(ref) || (Writes(ts[j]) && ts[j].id == ref))
  }

  ghost predicate LastFor(items: seq<TeamItem>, ts: seq<Target>, j: nat, ref: Id)
    requires |items| == |ts|
  {
    StandsFor(items, ts, j, ref) && forall i: nat :: j < i ==> !StandsFor(items, ts, i, ref)
  }

  /** The last team of the file that ref names tells: its row, or nothing if it is skipped. A reference that names no team
      of the file is the id of a row. */
  ghost predicate Means(items: seq<TeamItem>, ts: seq<Target>, ref: Id, team: Id)
    requires |items| == |ts|
  {
    || (exists j: nat :: LastFor(items, ts, j, ref) && Writes(ts[j]) && ts[j].id == team)
    || (team == ref && forall j: nat :: !StandsFor(items, ts, j, ref))
  }

  lemma {:induction false} LastTeamMaps(items: seq<TeamItem>, ts: seq<Target>, j: nat, ref: Id)
    requires |items| == |ts| && LastFor(items, ts, j, ref)
    ensures ref in TeamMap(items, ts) && TeamMap(items, ts)[ref] == if Writes(ts[j]) then Some(ts[j].id) else None
  {
    var n := |items| - 1;
    if j < n {
      PrefixStands(items, ts, n, ref);
      LastTeamMaps(items[..n], ts[..n], j, ref);
      assert !StandsFor(items, ts, n, ref);
    }
  }

  lemma PrefixStands(items: seq<TeamItem>, ts: seq<Target>, n: nat, ref: Id)
    requires |items| == |ts| && n <= |items|
    ensures forall i: nat :: StandsFor(items[..n], ts[..n], i, ref) <==> i < n && StandsFor(items, ts, i, ref)
  {
  }

  lemma {:induction false} UnnamedIsUnmapped(items: seq<TeamItem>, ts: seq<Target>, ref: Id)
    requires |items| == |ts| && forall j: nat :: !StandsFor(items, ts, j, ref)
    ensures ref !in TeamMap(items, ts)
  {
    if items != [] {
      var n := |items| - 1;
      PrefixStands(items, ts, n, ref);
      UnnamedIsUnmapped(items[..n], ts[..n], ref);
      assert !StandsFor(items, ts, n, ref);
    }
  }

  lemma {:induction false} LastNamed(items: seq<TeamItem>, ts: seq<Target>, ref: Id, i: nat) returns (j: nat)
    requires |items| == |ts| && StandsFor(items, ts, i, ref)
    ensures LastFor(items, ts, j, ref)
  {
    var n := |items| - 1;
    if StandsFor(items, ts, n, ref) {
      j := n;
    } else {
      PrefixStands(items, ts, n, ref);
      j := LastNamed(items[..n], ts[..n], ref, i);
    }
  }

  lemma MeansIsMapped(items: seq<TeamItem>, ts: seq<Target>, ref: Id, team: Id)
    requires |items| == |ts|
    ensures Means(items, ts, ref, team) <==> LocalTeam(TeamMap(items, ts), ref) == Some(team)
    ensures ref in TeamMap(items, ts) <==> exists j: nat :: StandsFor(items, ts, j, ref)
  {
    if i: nat :| StandsFor(items, ts, i, ref) {
      var j := LastNamed(items, ts, ref, i);
      LastTeamMaps(items, ts, j, ref);
      forall k: nat | LastFor(items, ts, k, ref) ensures k == j {
        assert !(j < k) && !(k < j);
      }
    } else {
      UnnamedIsUnmapped(items, ts, ref);
    }
  }

  lemma TeamIdsMean(items: seq<TeamItem>, ts: seq<Target>, refs: seq<Id>, x: Id)
    requires |items| == |ts|
    ensures x in TeamIds(TeamMap(items, ts), refs) <==> exists i :: 0 <= i < |refs| && Means(items, ts, refs[i], x)
  {
    var m := TeamMap(items, ts);
    forall r ensures Means(items, ts, r, x) <==> LocalTeam(m, r) == Some(x) {
      MeansIsMapped(items, ts, r, x);
    }
    if x in TeamIds(m, refs) {
      var r :| r in refs && LocalTeam(m, r).Some? && LocalTeam(m, r).value == x;
      var i :| 0 <= i < |refs| && refs[i] == r;
      assert Means(items, ts, refs[i], x);
    }
    if i :| 0 <= i < |refs| && Means(items, ts, refs[i], x) {
      assert refs[i] in refs && LocalTeam(m, refs[i]) == Some(x);
    }
  }

  // ----- the rows of a completed import -----

  lemma RowsOfKinds(db: Db, h: History, doc: Document, env: Env)
    requires Import(db, h, doc, env).1.Completed?
    ensures var after := Import(db, h, doc, env).0;
            var p := Planned(db, h, doc, env);
            && PutAll(db.teams, TeamKey(), false, p.teams, TeamRows(doc.teams)) == (after.teams, true)
            && PutAll(db.tools, ToolKey(), true, p.tools, ToolRows(doc.tools)) == (after.tools, true)
            && PutAll(db.agents, AgentKey(), true, p.agents, AgentRows(doc.agents)) == (after.agents, true)
            && PutAll(db.channels, ChannelKey(), true, p.channels, ChannelRows(TeamMap(doc.teams, p.teams), doc.channels)) == (after.channels, true)
  {
    var p := Planned(db, h, doc, env);
    var s := CompletedRuns(db, h, doc, env);
    TeamsArePutAll(db, p.teams, doc.teams);
    ToolsArePutAll(s.afterTeams, p.tools, doc.tools);
    AgentsArePutAll(s.afterTools, p.agents, doc.agents, TeamMap(doc.teams, p.teams), env.pick);
    ChannelsArePutAll(s.afterAgents, p.channels, doc.channels, TeamMap(doc.teams, p.teams));
    SettingsOnly(s.afterChannels, doc.settings, env);
  }

  /** A team has the name and the description of the last item that goes to it. */
  lemma ImportedTeam(db: Db, h: History, doc: Document, env: Env, k: nat)
    requires Import(db, h, doc, env).1.Completed? && LastWriter(PlanTeams(db, h, doc, env), k)
    ensures var after := Import(db, h, doc, env).0;
            var t := PlanTeams(db, h, doc, env)[k].id;
            t in after.teams && after.teams[t].name == doc.teams[k].name && after.teams[t].description == doc.teams[k].description
  {
    RowsOfKinds(db, h, doc, env);
    PutAllWrites(db.teams, TeamKey(), false, PlanTeams(db, h, doc, env), TeamRows(doc.teams), k);
  }

  /** A tool has the name and the description of the last item that goes to it, and is a custom tool. */
  lemma ImportedTool(db: Db, h: History, doc: Document, env: Env, k: nat)
    requires Import(db, h, doc, env).1.Completed? && LastWriter(PlanTools(db, h, doc, env), k)
    ensures var after := Import(db, h, doc, env).0;
            var t := PlanTools(db, h, doc, env)[k].id;
            && t in after.tools && after.tools[t].name == doc.tools[k].name && after.tools[t].description == doc.tools[k].description
            && after.tools[t].toolType == "custom"
  {
    RowsOfKinds(db, h, doc, env);
    PutAllWrites(db.tools, ToolKey(), true, PlanTools(db, h, doc, env), ToolRows(doc.tools), k);
  }

  /** The i-th thing of the file goes to row id and carries what `carries` marks. */
  ghost predicate Brings(ts: seq<Target>, carries: seq<bool>, i: nat, id: Id) {
    i < |ts| == |carries| && Writes(ts[i]) && ts[i].id == id && carries[i]
  }

  ghost predicate BringsLast(ts: seq<Target>, carries: seq<bool>, k: nat, id: Id) {
    Brings(ts, carries, k, id) && forall j: nat :: k < j ==> !Brings(ts, carries, j, id)
  }

  lemma {:induction false} FinalIsLast<T>(ts: seq<Target>, values: seq<Option<T>>, carries: seq<bool>, k: nat, id: Id, start: T)
    requires |ts| == |values| == |carries| && forall i :: 0 <= i < |ts| ==> carries[i] == values[i].Some?
    requires BringsLast(ts, carries, k, id)
    ensures values[k].Some? && Final(ts, values, id, start) == values[k].value
  {
    var n := |ts| - 1;
    if k < n {
      assert !Brings(ts, carries, n, id);
      assert forall i: nat :: Brings(ts[..n], carries[..n], i, id) ==> Brings(ts, carries, i, id);
      assert Brings(ts[..n], carries[..n], k, id);
      FinalIsLast(ts[..n], values[..n], carries[..n], k, id, start);
    }
  }

  lemma {:induction false} FinalIsStart<T>(ts: seq<Target>, values: seq<Option<T>>, carries: seq<bool>, id: Id, start: T)
    requires |ts| == |values| == |carries| && forall i :: 0 <= i < |ts| ==> carries[i] == values[i].Some?
    requires forall i: nat :: !Brings(ts, carries, i, id)
    ensures Final(ts, values, id, start) == start
  {
    if ts != [] {
      var n := |ts| - 1;
      assert !Brings(ts, carries, n, id);
      assert forall i: nat :: Brings(ts[..n], carries[..n], i, id) ==> Brings(ts, carries, i, id);
      FinalIsStart(ts[..n], values[..n], carries[..n], id, start);
    }
  }

  function WithSource(items: seq<ToolItem>): (r: seq<bool>)
    ensures |r| == |items| && forall i :: 0 <= i < |items| ==> r[i] == (items[i].source != "")
  {
    seq(|items|, i requires 0 <= i < |items| => items[i].source != "")
  }

  function WithRules(items: seq<AgentItem>): (r: seq<bool>)
    ensures |r| == |items| && forall i :: 0 <= i < |items| ==> r[i] == items[i].rules.Some?
  {
    seq(|items|, i requires 0 <= i < |items| => items[i].rules.Some?)
  }

  lemma SourcesOfImport(db: Db, h: History, doc: Document, env: Env, t: Id)
    requires Import(db, h, doc, env).1.Completed?
    ensures SourceOf(Import(db, h, doc, env).0.sources, t) ==
            Final(PlanTools(db, h, doc, env), SourceValues(doc.tools), t, SourceOf(db.sources, t))
  {
    var p := Planned(db, h, doc, env);
    var m := TeamMap(doc.teams, p.teams);
    var s := CompletedRuns(db, h, doc, env);
    TeamsArePutAll(db, p.teams, doc.teams);
    SourcesEndUp(s.afterTeams, p.tools, doc.tools, t);
    AgentsArePutAll(s.afterTools, p.agents, doc.agents, m, env.pick);
    ChannelsArePutAll(s.afterAgents, p.channels, doc.channels, m);
    SettingsOnly(s.afterChannels, doc.settings, env);
  }

  lemma FinalSource(ts: seq<Target>, items: seq<ToolItem>, k: nat, t: Id, start: Option<string>)
    requires |ts| == |items| && BringsLast(ts, WithSource(items), k, t)
    ensures Final(ts, SourceValues(items), t, start) == Some(items[k].source)
  {
    FinalIsLast(ts, SourceValues(items), WithSource(items), k, t, start);
  }

  /** The source file of a tool is that of the last item with source that goes to it. */
  lemma ImportedSource(db: Db, h: History, doc: Document, env: Env, k: nat, t: Id)
    requires Import(db, h, doc, env).1.Completed?
    requires BringsLast(PlanTools(db, h, doc, env), WithSource(doc.tools), k, t)
    ensures var after := Import(db, h, doc, env).0; t in after.sources && after.sources[t] == doc.tools[k].source
  {
    SourcesOfImport(db, h, doc, env, t);
    FinalSource(PlanTools(db, h, doc, env), doc.tools, k, t, SourceOf(db.sources, t));
  }

  /** Without such an item it is left alone. */
  lemma SourceKept(db: Db, h: History, doc: Document, env: Env, t: Id)
    requires Import(db, h, doc, env).1.Completed?
    requires forall i: nat :: !Brings(PlanTools(db, h, doc, env), WithSource(doc.tools), i, t)
    ensures var after := Import(db, h, doc, env).0;
            (t in after.sources <==> t in db.sources) && (t in db.sources ==> after.sources[t] == db.sources[t])
  {
    SourcesOfImport(db, h, doc, env, t);
    FinalIsStart(PlanTools(db, h, doc, env), SourceValues(doc.tools), WithSource(doc.tools), t, SourceOf(db.sources, t));
  }

  /** The fields of an item, one by one; an empty fallback or schema is stored as none. */
  ghost predicate HasFields(row: Agent, item: AgentItem) {
    && row.name == item.name && row.description == item.description && row.instructions == item.instructions
    && row.model == item.model && row.approved == item.approved
    && row.fallback == (if |item.fallback| == 0 then None else Some(item.fallback))
    && row.schema == (if item.schema == Some(map[]) then None else item.schema)
  }

  lemma AgentRowHasFields(item: AgentItem)
    ensures HasFields(AgentRow(item), item)
  {
  }

  /** An agent has the fields of the last item that goes to it. */
  lemma ImportedAgent(db: Db, h: History, doc: Document, env: Env, k: nat)
    requires Import(db, h, doc, env).1.Completed? && LastWriter(PlanAgents(db, h, doc, env), k)
    ensures var after := Import(db, h, doc, env).0;
            var a := PlanAgents(db, h, doc, env)[k].id;
            a in after.agents && HasFields(after.agents[a], doc.agents[k])
  {
    AgentRowHasFields(doc.agents[k]);
    RowsOfKinds(db, h, doc, env);
    PutAllWrites(db.agents, AgentKey(), true, PlanAgents(db, h, doc, env), AgentRows(doc.agents), k);
  }

  /** The joins and rules of an agent, after the phases that follow. */
  lemma JoinsOfImport(db: Db, h: History, doc: Document, env: Env, a: Id)
    requires Import(db, h, doc, env).1.Completed?
    ensures var after := Import(db, h, doc, env).0;
            var ts, m := PlanAgents(db, h, doc, env), TeamMap(doc.teams, PlanTeams(db, h, doc, env));
            && Of(after.agentTools, a) == Final(ts, ToolValues(after.tools, doc.agents, env.pick), a, Of(db.agentTools, a))
            && Of(after.agentTeams, a) == Final(ts, TeamValues(m, doc.agents), a, Of(db.agentTeams, a))
            && Of(after.agentScopes, a) == Final(ts, ScopeValues(doc.agents), a, Of(db.agentScopes, a))
            && RulesOf(after, a) == Final(ts, RuleValues(doc.agents), a, RulesOf(db, a))
            && (a in after.rules <==> a in db.rules || Targeted(ts, a))
  {
    var p := Planned(db, h, doc, env);
    var m := TeamMap(doc.teams, p.teams);
    var s := CompletedRuns(db, h, doc, env);
    TeamsArePutAll(db, p.teams, doc.teams);
    ToolsArePutAll(s.afterTeams, p.tools, doc.tools);
    AgentsEndUp(s.afterTools, p.agents, doc.agents, m, env.pick, a);
    ToolsUntouched(s.afterTools, p.agents, doc.agents, m, env.pick);
    ChannelsArePutAll(s.afterAgents, p.channels, doc.channels, m);
    SettingsOnly(s.afterChannels, doc.settings, env);
  }

  /** An agent is in exactly the teams that the last item that goes to it means. */
  lemma ImportedAgentTeams(db: Db, h: History, doc: Document, env: Env, k: nat, x: Id)
    requires Import(db, h, doc, env).1.Completed? && LastWriter(PlanAgents(db, h, doc, env), k)
    ensures (PlanAgents(db, h, doc, env)[k].id, x) in Import(db, h, doc, env).0.agentTeams <==>
            exists i :: 0 <= i < |doc.agents[k].teams| && Means(doc.teams, PlanTeams(db, h, doc, env), doc.agents[k].teams[i], x)
  {
    var ts, us := PlanAgents(db, h, doc, env), PlanTeams(db, h, doc, env);
    var a := ts[k].id;
    JoinsOfImport(db, h, doc, env, a);
    FinalAtLast(ts, TeamValues(TeamMap(doc.teams, us), doc.agents), k, Of(db.agentTeams, a));
    TeamIdsMean(doc.teams, us, doc.agents[k].teams, x);
    InOf(Import(db, h, doc, env).0.agentTeams, a, x);
  }

  /** The tools that a reference may mean. */
  function Candidates(tools: map<Id, Tool>, ref: ToolRef): set<Id> {
    set t | t in tools && tools[t].toolType == ref.toolType && tools[t].name == ref.name
  }

  /** An agent has, for each tool reference of that item, the one tool of that type and name that the database returns,
      if there is any, and no other tool. */
  lemma ImportedAgentTools(db: Db, h: History, doc: Document, env: Env, k: nat, x: Id)
    requires Import(db, h, doc, env).1.Completed? && LastWriter(PlanAgents(db, h, doc, env), k)
    ensures var after := Import(db, h, doc, env).0;
            (PlanAgents(db, h, doc, env)[k].id, x) in after.agentTools <==>
            exists i :: 0 <= i < |doc.agents[k].tools| && Candidates(after.tools, doc.agents[k].tools[i]) != {}
                        && x == env.pick(Candidates(after.tools, doc.agents[k].tools[i]))
  {
    var ts := PlanAgents(db, h, doc, env);
    var a := ts[k].id;
    var after := Import(db, h, doc, env).0;
    JoinsOfImport(db, h, doc, env, a);
    FinalAtLast(ts, ToolValues(after.tools, doc.agents, env.pick), k, Of(db.agentTools, a));
    InOf(after.agentTools, a, x);
    ToolIdsMean(after.tools, doc.agents[k].tools, env.pick, x);
  }

  lemma ToolIdsMean(tools: map<Id, Tool>, refs: seq<ToolRef>, pick: Pick, x: Id)
    ensures x in ToolIds(tools, refs, pick) <==>
            exists i :: 0 <= i < |refs| && Candidates(tools, refs[i]) != {} && x == pick(Candidates(tools, refs[i]))
  {
    forall r ensures ToolMatches(tools, r) == Candidates(tools, r) {
    }
    if x in ToolIds(tools, refs, pick) {
      var r :| r in refs && ToolMatches(tools, r) != {} && x == pick(ToolMatches(tools, r));
      var i :| 0 <= i < |refs| && refs[i] == r;
      assert Candidates(tools, refs[i]) != {};
    }
    if i :| 0 <= i < |refs| && Candidates(tools, refs[i]) != {} && x == pick(Candidates(tools, refs[i])) {
      assert refs[i] in refs && ToolMatches(tools, refs[i]) != {};
    }
  }

  /** Its scopes are those of that item. */
  lemma ImportedAgentScopes(db: Db, h: History, doc: Document, env: Env, k: nat, x: string)
    requires Import(db, h, doc, env).1.Completed? && LastWriter(PlanAgents(db, h, doc, env), k)
    ensures (PlanAgents(db, h, doc, env)[k].id, x) in Import(db, h, doc, env).0.agentScopes <==> x in doc.agents[k].scopes
  {
    var ts := PlanAgents(db, h, doc, env);
    JoinsOfImport(db, h, doc, env, ts[k].id);
    FinalAtLast(ts, ScopeValues(doc.agents), k, Of(db.agentScopes, ts[k].id));
    InOf(Import(db, h, doc, env).0.agentScopes, ts[k].id, x);
  }

  lemma RulesOfImport(db: Db, h: History, doc: Document, env: Env, a: Id)
    requires Import(db, h, doc, env).1.Completed?
    ensures var after := Import(db, h, doc, env).0;
            var ts := PlanAgents(db, h, doc, env);
            && RulesOf(after, a) == Final(ts, RuleValues(doc.agents), a, RulesOf(db, a))
            && (a in after.rules <==> a in db.rules || Targeted(ts, a))
  {
    JoinsOfImport(db, h, doc, env, a);
  }

  lemma FinalRules(ts: seq<Target>, items: seq<AgentItem>, k: nat, a: Id, start: multiset<Rule>)
    requires |ts| == |items| && BringsLast(ts, WithRules(items), k, a)
    ensures Targeted(ts, a) && items[k].rules.Some?
    ensures Final(ts, RuleValues(items), a, start) == multiset(items[k].rules.value)
  {
    FinalIsLast(ts, RuleValues(items), WithRules(items), k, a, start);
  }

  /** Its rules are those of the last item with rules that goes to it, with their multiplicities. */
  lemma ImportedRules(db: Db, h: History, doc: Document, env: Env, k: nat, a: Id)
    requires Import(db, h, doc, env).1.Completed?
    requires BringsLast(PlanAgents(db, h, doc, env), WithRules(doc.agents), k, a)
    ensures var after := Import(db, h, doc, env).0;
            doc.agents[k].rules.Some? && a in after.rules && after.rules[a] == multiset(doc.agents[k].rules.value)
  {
    var ts := PlanAgents(db, h, doc, env);
    RulesOfImport(db, h, doc, env, a);
    FinalRules(ts, doc.agents, k, a, RulesOf(db, a));
  }

  /** Where no item that goes to an agent carries rules, they stay; an agent without any has none. */
  lemma RulesKept(db: Db, h: History, doc: Document, env: Env, a: Id)
    requires Import(db, h, doc, env).1.Completed? && (a in db.rules || Targeted(PlanAgents(db, h, doc, env), a))
    requires forall i: nat :: !Brings(PlanAgents(db, h, doc, env), WithRules(doc.agents), i, a)
    ensures var after := Import(db, h, doc, env).0;
            a in after.rules && after.rules[a] == if a in db.rules then db.rules[a] else multiset{}
  {
    RulesOfImport(db, h, doc, env, a);
    FinalIsStart(PlanAgents(db, h, doc, env), RuleValues(doc.agents), WithRules(doc.agents), a, RulesOf(db, a));
  }

  /** A channel has the fields of the last item that goes to it, and is with the team that its reference means. */
  lemma ImportedChannel(db: Db, h: History, doc: Document, env: Env, k: nat)
    requires Import(db, h, doc, env).1.Completed? && LastWriter(PlanChannels(db, h, doc, env), k)
    ensures var after := Import(db, h, doc, env).0;
            var c := PlanChannels(db, h, doc, env)[k].id;
            var item := doc.channels[k];
            && c in after.channels && after.channels[c].name == item.name && after.channels[c].description == item.description
            && after.channels[c].position == item.position && after.channels[c].archived == item.archived
            && (item.teamId.None? ==> after.channels[c].teamId == None)
            && (item.teamId.Some? ==> forall x :: after.channels[c].teamId == Some(x) <==>
                                                  Means(doc.teams, PlanTeams(db, h, doc, env), item.teamId.value, x))
  {
    var us := PlanTeams(db, h, doc, env);
    var m := TeamMap(doc.teams, us);
    RowsOfKinds(db, h, doc, env);
    PutAllWrites(db.channels, ChannelKey(), true, PlanChannels(db, h, doc, env), ChannelRows(m, doc.channels), k);
    if doc.channels[k].teamId.Some? {
      forall x ensures LocalTeam(m, doc.channels[k].teamId.value) == Some(x) <==> Means(doc.teams, us, doc.channels[k].teamId.value, x) {
        MeansIsMapped(doc.teams, us, doc.channels[k].teamId.value, x);
      }
    }
  }

  // ----- what it leaves alone -----

  ghost predicate SameAt<R>(before: map<Id, R>, after: map<Id, R>, id: Id) {
    (id in after <==> id in before) && (id in before ==> after[id] == before[id])
  }

  /** A row that no item goes to stays as it was. */
  lemma OtherRowsStay(db: Db, h: History, doc: Document, env: Env, id: Id)
    requires Import(db, h, doc, env).1.Completed?
    ensures var after := Import(db, h, doc, env).0;
            && (!Targeted(PlanTeams(db, h, doc, env), id) ==> SameAt(db.teams, after.teams, id))
            && (!Targeted(PlanTools(db, h, doc, env), id) ==> SameAt(db.tools, after.tools, id))
            && (!Targeted(PlanAgents(db, h, doc, env), id) ==> SameAt(db.agents, after.agents, id))
            && (!Targeted(PlanChannels(db, h, doc, env), id) ==> SameAt(db.channels, after.channels, id))
  {
    RowsOfKinds(db, h, doc, env);
    var p := Planned(db, h, doc, env);
    PutAllRows(db.teams, TeamKey(), false, p.teams, TeamRows(doc.teams));
    PutAllRows(db.tools, ToolKey(), true, p.tools, ToolRows(doc.tools));
    PutAllRows(db.agents, AgentKey(), true, p.agents, AgentRows(doc.agents));
    PutAllRows(db.channels, ChannelKey(), true, p.channels, ChannelRows(TeamMap(doc.teams, p.teams), doc.channels));
  }

  /** So do the joins and rules of an agent that no item goes to. */
  lemma OtherAgentsStay(db: Db, h: History, doc: Document, env: Env, a: Id, x: string)
    requires Import(db, h, doc, env).1.Completed? && !Targeted(PlanAgents(db, h, doc, env), a)
    ensures var after := Import(db, h, doc, env).0;
            && ((a, x) in after.agentTeams <==> (a, x) in db.agentTeams)
            && ((a, x) in after.agentTools <==> (a, x) in db.agentTools)
            && ((a, x) in after.agentScopes <==> (a, x) in db.agentScopes)
            && SameAt(db.rules, after.rules, a)
  {
    var ts, after := PlanAgents(db, h, doc, env), Import(db, h, doc, env).0;
    JoinsOfImport(db, h, doc, env, a);
    FinalElsewhere(ts, ToolValues(after.tools, doc.agents, env.pick), a, Of(db.agentTools, a));
    FinalElsewhere(ts, TeamValues(TeamMap(doc.teams, PlanTeams(db, h, doc, env)), doc.agents), a, Of(db.agentTeams, a));
    FinalElsewhere(ts, ScopeValues(doc.agents), a, Of(db.agentScopes, a));
    FinalElsewhere(ts, RuleValues(doc.agents), a, RulesOf(db, a));
    InOf(after.agentTeams, a, x);
    InOf(db.agentTeams, a, x);
    InOf(after.agentTools, a, x);
    InOf(db.agentTools, a, x);
    InOf(after.agentScopes, a, x);
    InOf(db.agentScopes, a, x);
  }

  // ----- settings -----

  /** The i-th setting of the file is about this key, and the import takes it. */
  ghost predicate Sets(settings: seq<Setting>, env: Env, i: nat, key: string) {
    i < |settings| && settings[i].key == key && key in env.knownSettings && key !in env.localSettings
  }

  ghost predicate SetsLast(settings: seq<Setting>, env: Env, i: nat, key: string) {
    Sets(settings, env, i, key) && forall j: nat :: i < j ==> !Sets(settings, env, j, key)
  }

  lemma PrefixSets(settings: seq<Setting>, env: Env, n: nat, key: string)
    requires n <= |settings|
    ensures forall i: nat :: Sets(settings[..n], env, i, key) <==> i < n && Sets(settings, env, i, key)
  {
  }

  lemma {:induction false} LastSettingWins(db: Db, settings: seq<Setting>, env: Env, i: nat, key: string)
    requires SetsLast(settings, env, i, key)
    ensures var d := PutSettings(db, settings, env); key in d.settings && d.settings[key] == settings[i].value
  {
    var n := |settings| - 1;
    if i < n {
      PrefixSets(settings, env, n, key);
      LastSettingWins(db, settings[..n], env, i, key);
      assert !Sets(settings, env, n, key);
    }
  }

  lemma {:induction false} UnsetStays(db: Db, settings: seq<Setting>, env: Env, key: string)
    requires forall i: nat :: !Sets(settings, env, i, key)
    ensures SameAt(db.settings, PutSettings(db, settings, env).settings, key)
  {
    if settings != [] {
      var n := |settings| - 1;
      PrefixSets(settings, env, n, key);
      UnsetStays(db, settings[..n], env, key);
      assert !Sets(settings, env, n, key);
    }
  }

  /** A known setting that is not the node's own has the last value the file gives it; every other stays. */
  lemma ImportedSettings(db: Db, h: History, doc: Document, env: Env, key: string)
    requires Import(db, h, doc, env).1.Completed?
    ensures var after := Import(db, h, doc, env).0;
            && (forall i: nat :: SetsLast(doc.settings, env, i, key) ==> key in after.settings && after.settings[key] == doc.settings[i].value)
            && ((forall i: nat :: !Sets(doc.settings, env, i, key)) ==> SameAt(db.settings, after.settings, key))
  {
    var p := Planned(db, h, doc, env);
    var m := TeamMap(doc.teams, p.teams);
    var s := CompletedRuns(db, h, doc, env);
    TeamsArePutAll(db, p.teams, doc.teams);
    ToolsArePutAll(s.afterTeams, p.tools, doc.tools);
    AgentsArePutAll(s.afterTools, p.agents, doc.agents, m, env.pick);
    ChannelsArePutAll(s.afterAgents, p.channels, doc.channels, m);
    forall i: nat | SetsLast(doc.settings, env, i, key)
      ensures var d := PutSettings(s.afterChannels, doc.settings, env); key in d.settings && d.settings[key] == doc.settings[i].value
    {
      LastSettingWins(s.afterChannels, doc.settings, env, i, key);
    }
    if forall i: nat :: !Sets(doc.settings, env, i, key) {
      UnsetStays(s.afterChannels, doc.settings, env, key);
    }
  }

  // ----- what is published -----

  ghost predicate WritesTo(ts: seq<Target>, id: Id) {
    exists i :: 0 <= i < |ts| && Writes(ts[i]) && ts[i].id == id
  }

  /** What gains sync history is exactly the rows that the file goes to, that are there and whose publication works. */
  lemma PublishedExactlyWhen(h: History, db: Db, p: Plans, env: Env, kind: Kind, id: Id)
    ensures (kind, id) in Published(h, db, p, env) <==>
            || (kind, id) in h
            || (env.publishes(kind, id) &&
                match kind
                case TeamKind => WritesTo(p.teams, id) && id in db.teams
                case ToolKind => WritesTo(p.tools, id) && id in db.tools
                case AgentKind => WritesTo(p.agents, id) && id in db.agents
                case ChannelKind => WritesTo(p.channels, id) && id in db.channels)
  {
  }

  // ----- which files are taken -----

  /** A letter or underscore, then letters, digits and underscores, and at most a line feed behind them. */
  ghost predicate NamesTool(name: string) {
    exists n: nat :: NamesToolUpTo(name, n)
  }

  ghost predicate NamesToolUpTo(name: string, n: nat) {
    && 1 <= n && (n == |name| || (n + 1 == |name| && name[n] == '\n'))
    && ('A' <= name[0] <= 'Z' || 'a' <= name[0] <= 'z' || name[0] == '_')
    && forall i :: 0 <= i < n ==> 'A' <= name[i] <= 'Z' || 'a' <= name[i] <= 'z' || '0' <= name[i] <= '9' || name[i] == '_'
  }

  lemma ToolNamePattern(name: string)
    ensures ToolNameOk(name) <==> NamesTool(name)
  {
    if ToolNameOk(name) {
      assert NamesToolUpTo(name, if name[|name| - 1] == '\n' then |name| - 1 else |name|);
    }
    if n: nat :| NamesToolUpTo(name, n) {
      assert name[n - 1] != '\n';
    }
  }

  /** The form of a file: field lengths, and in each kind no name twice, archived channels apart. */
  ghost predicate FitForm(doc: Document) {
    && doc.version == 1
    && (forall i :: 0 <= i < |doc.teams| ==> |doc.teams[i].name| >= 1)
    && (forall i :: 0 <= i < |doc.agents| ==> 2 <= |doc.agents[i].name| <= 64 && 10 <= |doc.agents[i].description| <= 500)
    && (forall i :: 0 <= i < |doc.channels| ==> 3 <= |doc.channels[i].name| <= 80)
    && (forall i, j :: 0 <= i < j < |doc.teams| ==> doc.teams[i].name != doc.teams[j].name)
    && (forall i, j :: 0 <= i < j < |doc.tools| ==> doc.tools[i].name != doc.tools[j].name)
    && (forall i, j :: 0 <= i < j < |doc.agents| ==> doc.agents[i].name != doc.agents[j].name)
    && (forall i, j :: 0 <= i < j < |doc.channels| && !doc.channels[i].archived && !doc.channels[j].archived ==>
          doc.channels[i].name != doc.channels[j].name)
  }

  lemma FormFits(doc: Document)
    ensures FormAccepted(doc) <==> FitForm(doc)
  {
    ShapeFits(doc);
    NamesFit(doc);
  }

  lemma ShapeFits(doc: Document)
    ensures WellShaped(doc) <==>
            && doc.version == 1
            && (forall i :: 0 <= i < |doc.teams| ==> |doc.teams[i].name| >= 1)
            && (forall i :: 0 <= i < |doc.agents| ==> 2 <= |doc.agents[i].name| <= 64 && 10 <= |doc.agents[i].description| <= 500)
            && (forall i :: 0 <= i < |doc.channels| ==> 3 <= |doc.channels[i].name| <= 80)
  {
    assert forall i :: 0 <= i < |doc.teams| ==> doc.teams[i] in doc.teams;
    assert forall i :: 0 <= i < |doc.agents| ==> doc.agents[i] in doc.agents;
    assert forall i :: 0 <= i < |doc.channels| ==> doc.channels[i] in doc.channels;
  }

  lemma NamesFit(doc: Document)
    ensures Distinct(TeamNames(doc.teams)) <==> forall i, j :: 0 <= i < j < |doc.teams| ==> doc.teams[i].name != doc.teams[j].name
    ensures Distinct(ToolNames(doc.tools)) <==> forall i, j :: 0 <= i < j < |doc.tools| ==> doc.tools[i].name != doc.tools[j].name
    ensures Distinct(AgentNames(doc.agents)) <==> forall i, j :: 0 <= i < j < |doc.agents| ==> doc.agents[i].name != doc.agents[j].name
    ensures Distinct(ActiveChannelNames(doc.channels)) <==>
            forall i, j :: 0 <= i < j < |doc.channels| && !doc.channels[i].archived && !doc.channels[j].archived ==>
              doc.channels[i].name != doc.channels[j].name
  {
    DistinctNames(TeamNames(doc.teams));
    DistinctNames(ToolNames(doc.tools));
    DistinctNames(AgentNames(doc.agents));
    DistinctNames(ActiveChannelNames(doc.channels));
  }

  lemma DistinctNames(names: seq<Option<string>>)
    ensures Distinct(names) <==> forall i, j :: 0 <= i < j < |names| && names[i].Some? && names[j].Some? ==> names[i].value != names[j].value
  {
  }

  /** A team reference names a team of the file or a row. */
  ghost predicate NamesTeam(db: Db, items: seq<TeamItem>, ts: seq<Target>, ref: Id)
    requires |items| == |ts|
  {
    ref in db.teams || exists j: nat :: StandsFor(items, ts, j, ref)
  }

  /** A custom tool that a reference names is here, or is written by the file. */
  ghost predicate CustomTool(db: Db, items: seq<ToolItem>, ts: seq<Target>, name: string)
    requires |items| == |ts|
  {
    || (exists t :: t in db.tools && db.tools[t].toolType == "custom" && db.tools[t].name == name)
    || (exists j :: 0 <= j < |items| && Writes(ts[j]) && items[j].name == name)
  }

  ghost predicate FitTool(db: Db, env: Env, item: ToolItem, t: Target) {
    && NamesTool(item.name) && (item.source != "" ==> env.compiles(item.source)) && t != Ambiguous
    && (t.Update? && t.id in db.tools ==> db.tools[t.id].toolType == "custom")
  }

  ghost predicate FitAgent(db: Db, doc: Document, p: Plans, env: Env, item: AgentItem, t: Target)
    requires |p.teams| == |doc.teams| && |p.tools| == |doc.tools|
  {
    && (forall s :: s in item.scopes ==> s in env.scopes)
    && (forall r :: r in item.tools ==> r.toolType == "builtin" || r.toolType == "mcp" || (r.toolType == "custom" && CustomTool(db, doc.tools, p.tools, r.name)))
    && (forall r :: r in item.teams ==> NamesTeam(db, doc.teams, p.teams, r))
    && t != Ambiguous
  }

  ghost predicate FitChannel(db: Db, doc: Document, p: Plans, item: ChannelItem, t: Target)
    requires |p.teams| == |doc.teams|
  {
    (item.teamId.Some? ==> NamesTeam(db, doc.teams, p.teams, item.teamId.value)) && t != Ambiguous
  }

  ghost predicate FitItems(db: Db, doc: Document, p: Plans, env: Env)
    requires |p.teams| == |doc.teams| && |p.tools| == |doc.tools| && |p.agents| == |doc.agents| && |p.channels| == |doc.channels|
  {
    && (forall i :: 0 <= i < |doc.teams| ==> p.teams[i] != Ambiguous)
    && (forall i :: 0 <= i < |doc.tools| ==> FitTool(db, env, doc.tools[i], p.tools[i]))
    && (forall i :: 0 <= i < |doc.agents| ==> FitAgent(db, doc, p, env, doc.agents[i], p.agents[i]))
    && (forall i :: 0 <= i < |doc.channels| ==> FitChannel(db, doc, p, doc.channels[i], p.channels[i]))
  }

  ghost predicate FitSettings(settings: seq<Setting>, env: Env) {
    forall i :: 0 <= i < |settings| && settings[i].key !in env.localSettings ==>
      settings[i].key in env.knownSettings && env.serializes(settings[i].value)
  }

  /** What a file must meet. */
  ghost predicate Fit(db: Db, h: History, doc: Document, env: Env) {
    FitForm(doc) && FitSettings(doc.settings, env) && FitItems(db, doc, Planned(db, h, doc, env), env)
  }

  lemma ToolFits(db: Db, env: Env, item: ToolItem, t: Target)
    ensures ToolAccepted(db, env, item, t) <==> FitTool(db, env, item, t)
  {
    ToolNamePattern(item.name);
  }

  lemma TeamRefFits(db: Db, items: seq<TeamItem>, ts: seq<Target>, ref: Id)
    requires |items| == |ts|
    ensures TeamKnown(db, TeamMap(items, ts), ref) <==> NamesTeam(db, items, ts, ref)
  {
    MeansIsMapped(items, ts, ref, ref);
  }

  lemma FileNames(db: Db, env: Env, items: seq<ToolItem>, ts: seq<Target>, name: string)
    requires |items| == |ts| && AllToolsAccepted(db, env, items, ts)
    ensures name in FileToolNames(db, env, items, ts) <==> exists j :: 0 <= j < |items| && Writes(ts[j]) && items[j].name == name
  {
    forall j | 0 <= j < |items| ensures ToolProblems(db, env, items[j], ts[j]) == [] {
      ToolHasNoProblems(db, env, items[j], ts[j]);
    }
  }

  lemma AgentFits(db: Db, doc: Document, p: Plans, env: Env, item: AgentItem, t: Target)
    requires |p.teams| == |doc.teams| && |p.tools| == |doc.tools| && AllToolsAccepted(db, env, doc.tools, p.tools)
    ensures AgentAccepted(db, env, TeamMap(doc.teams, p.teams), FileToolNames(db, env, doc.tools, p.tools), item, t) <==>
            FitAgent(db, doc, p, env, item, t)
  {
    var m, names := TeamMap(doc.teams, p.teams), FileToolNames(db, env, doc.tools, p.tools);
    forall r: ToolRef ensures ToolKnown(db, names, r) <==>
      r.toolType == "builtin" || r.toolType == "mcp" || (r.toolType == "custom" && CustomTool(db, doc.tools, p.tools, r.name))
    {
      FileNames(db, env, doc.tools, p.tools, r.name);
    }
    forall r ensures TeamKnown(db, m, r) <==> NamesTeam(db, doc.teams, p.teams, r) {
      TeamRefFits(db, doc.teams, p.teams, r);
    }
    assert forall i :: 0 <= i < |item.tools| ==> item.tools[i] in item.tools;
    assert forall i :: 0 <= i < |item.teams| ==> item.teams[i] in item.teams;
    assert forall i :: 0 <= i < |item.scopes| ==> item.scopes[i] in item.scopes;
  }

  lemma ItemsFit(db: Db, doc: Document, p: Plans, env: Env)
    requires |p.teams| == |doc.teams| && |p.tools| == |doc.tools| && |p.agents| == |doc.agents| && |p.channels| == |doc.channels|
    ensures ItemsAccepted(db, doc, p, env) <==> FitItems(db, doc, p, env)
  {
    forall i | 0 <= i < |doc.tools| {
      ToolFits(db, env, doc.tools[i], p.tools[i]);
    }
    assert AllToolsAccepted(db, env, doc.tools, p.tools) <==> forall i :: 0 <= i < |doc.tools| ==> FitTool(db, env, doc.tools[i], p.tools[i]);
    if AllToolsAccepted(db, env, doc.tools, p.tools) {
      forall i | 0 <= i < |doc.agents| {
        AgentFits(db, doc, p, env, doc.agents[i], p.agents[i]);
      }
    }
    forall i | 0 <= i < |doc.channels| && doc.channels[i].teamId.Some? {
      TeamRefFits(db, doc.teams, p.teams, doc.channels[i].teamId.value);
    }
  }

  lemma SettingsFit(settings: seq<Setting>, env: Env)
    ensures SettingsAccepted(settings, env) <==> FitSettings(settings, env)
  {
  }

  /** A file is refused, with no write at all, exactly when it does not meet this. */
  lemma TakenExactlyWhen(db: Db, h: History, doc: Document, env: Env)
    ensures Import(db, h, doc, env).1.Invalid? <==> !Fit(db, h, doc, env)
    ensures !Fit(db, h, doc, env) ==> Import(db, h, doc, env).0 == db
  {
    RefusedExactlyWhen(db, h, doc, env);
    FormFits(doc);
    SettingsFit(doc.settings, env);
    ItemsFit(db, doc, Planned(db, h, doc, env), env);
  }
}
