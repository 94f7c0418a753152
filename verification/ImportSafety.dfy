/** What an import never does (server/src/rivulets/workspace_yaml.py:389-752): write anything for a file with a problem,
    bring back a deleted row, leave a reference that leads nowhere, or break a unique index. */
module ImportSafety {
  import opened Prelude
  import opened Merge
  import opened WorkspaceYaml
  import opened ImportSteps

  // ----- which files are accepted -----

  lemma {:induction false} GatherIsEmpty(n: nat, f: nat -> seq<Problem>)
    ensures Gather(n, f) == [] <==> forall i: nat :: i < n ==> f(i) == []
  {
    if n > 0 {
      GatherIsEmpty(n - 1, f);
    }
  }

  ghost predicate SettingsAccepted(settings: seq<Setting>, env: Env) {
    forall i :: 0 <= i < |settings| ==>
      settings[i].key in env.localSettings || (settings[i].key in env.knownSettings && env.serializes(settings[i].value))
  }

  ghost predicate Distinct(names: seq<Option<string>>) {
    forall i, j :: 0 <= i < j < |names| && names[j].Some? ==> names[i] != names[j]
  }

  ghost predicate Unambiguous(ts: seq<Target>) {
    forall i :: 0 <= i < |ts| ==> !ts[i].Ambiguous?
  }

  ghost predicate ToolAccepted(db: Db, env: Env, item: ToolItem, t: Target) {
    && ToolNameOk(item.name) && (item.source == "" || env.compiles(item.source)) && !t.Ambiguous?
    && (t.Update? && t.id in db.tools ==> db.tools[t.id].toolType == "custom")
  }

  ghost predicate TeamKnown(db: Db, m: map<Id, Option<Id>>, ref: Id) {
    ref in m || ref in db.teams
  }

  /** A custom tool must be here or in the file; another may be missing. */
  ghost predicate ToolKnown(db: Db, fileNames: set<string>, ref: ToolRef) {
    && ref.toolType in TOOL_TYPES
    && (ref.toolType == "custom" ==> ref.name in fileNames || exists t :: t in db.tools && db.tools[t].toolType == "custom" && db.tools[t].name == ref.name)
  }

  ghost predicate AgentAccepted(db: Db, env: Env, m: map<Id, Option<Id>>, fileNames: set<string>, item: AgentItem, t: Target) {
    && (forall i :: 0 <= i < |item.scopes| ==> item.scopes[i] in env.scopes)
    && (forall i :: 0 <= i < |item.tools| ==> ToolKnown(db, fileNames, item.tools[i]))
    && (forall i :: 0 <= i < |item.teams| ==> TeamKnown(db, m, item.teams[i]))
    && !t.Ambiguous?
  }

  ghost predicate ChannelAccepted(db: Db, m: map<Id, Option<Id>>, item: ChannelItem, t: Target) {
    (item.teamId.Some? ==> TeamKnown(db, m, item.teamId.value)) && !t.Ambiguous?
  }

  ghost predicate AllToolsAccepted(db: Db, env: Env, items: seq<ToolItem>, ts: seq<Target>)
    requires |items| == |ts|
  {
    forall i :: 0 <= i < |items| ==> ToolAccepted(db, env, items[i], ts[i])
  }

  ghost predicate AllAgentsAccepted(db: Db, env: Env, m: map<Id, Option<Id>>, fileNames: set<string>, items: seq<AgentItem>, ts: seq<Target>)
    requires |items| == |ts|
  {
    forall i :: 0 <= i < |items| ==> AgentAccepted(db, env, m, fileNames, items[i], ts[i])
  }

  ghost predicate AllChannelsAccepted(db: Db, m: map<Id, Option<Id>>, items: seq<ChannelItem>, ts: seq<Target>)
    requires |items| == |ts|
  {
    forall i :: 0 <= i < |items| ==> ChannelAccepted(db, m, items[i], ts[i])
  }

  ghost predicate ItemsAccepted(db: Db, doc: Document, p: Plans, env: Env)
    requires |p.teams| == |doc.teams| && |p.tools| == |doc.tools| && |p.agents| == |doc.agents| && |p.channels| == |doc.channels|
  {
    var m := TeamMap(doc.teams, p.teams);
    var fileNames := FileToolNames(db, env, doc.tools, p.tools);
    && Unambiguous(p.teams) && AllToolsAccepted(db, env, doc.tools, p.tools)
    && AllAgentsAccepted(db, env, m, fileNames, doc.agents, p.agents) && AllChannelsAccepted(db, m, doc.channels, p.channels)
  }

  /** What can be told without the database: field lengths, and no name twice; archived channels may share one. */
  ghost predicate FormAccepted(doc: Document) {
    && WellShaped(doc)
    && Distinct(TeamNames(doc.teams)) && Distinct(ToolNames(doc.tools)) && Distinct(AgentNames(doc.agents))
    && Distinct(ActiveChannelNames(doc.channels))
  }

  ghost predicate Accepted(db: Db, h: History, doc: Document, env: Env) {
    && FormAccepted(doc) && SettingsAccepted(doc.settings, env)
    && ItemsAccepted(db, doc, Planned(db, h, doc, env), env)
  }

  lemma NoDuplicateProblems(kind: Kind, names: seq<Option<string>>)
    ensures Gather(|names|, DuplicateAt(kind, names)) == [] <==> Distinct(names)
  {
    GatherIsEmpty(|names|, DuplicateAt(kind, names));
    if Distinct(names) {
      forall i: nat | i < |names| && names[i].Some? ensures names[i] !in names[..i] {
      }
    } else {
      var i, j :| 0 <= i < j < |names| && names[j].Some? && names[i] == names[j];
      assert names[..j][i] == names[j];
      assert DuplicateAt(kind, names)(j) != [];
    }
  }

  lemma ToolRefAccepted(db: Db, fileNames: set<string>, ref: ToolRef)
    ensures ToolRefProblems(db, fileNames, ref) == [] <==> ToolKnown(db, fileNames, ref)
  {
    if t :| t in db.tools && db.tools[t].toolType == ref.toolType && db.tools[t].name == ref.name {
      assert t in ToolMatches(db.tools, ref);
    }
  }

  lemma ToolRefsAccepted(db: Db, fileNames: set<string>, refs: seq<ToolRef>)
    ensures Gather(|refs|, ToolRefAt(db, fileNames, refs)) == [] <==> forall i :: 0 <= i < |refs| ==> ToolKnown(db, fileNames, refs[i])
  {
    var f := ToolRefAt(db, fileNames, refs);
    GatherIsEmpty(|refs|, f);
    forall i: nat | i < |refs| ensures f(i) == [] <==> ToolKnown(db, fileNames, refs[i]) {
      ToolRefAccepted(db, fileNames, refs[i]);
    }
  }

  lemma TeamRefsAccepted(db: Db, m: map<Id, Option<Id>>, refs: seq<Id>)
    ensures Gather(|refs|, TeamRefAt(db, m, refs)) == [] <==> forall i :: 0 <= i < |refs| ==> TeamKnown(db, m, refs[i])
  {
    var f := TeamRefAt(db, m, refs);
    GatherIsEmpty(|refs|, f);
    assert forall i: nat :: i < |refs| ==> (f(i) == [] <==> TeamKnown(db, m, refs[i]));
  }

  lemma ScopesAccepted(env: Env, scopes: seq<string>)
    ensures Gather(|scopes|, ScopeAt(env, scopes)) == [] <==> forall i :: 0 <= i < |scopes| ==> scopes[i] in env.scopes
  {
    var f := ScopeAt(env, scopes);
    GatherIsEmpty(|scopes|, f);
    assert forall i: nat :: i < |scopes| ==> (f(i) == [] <==> scopes[i] in env.scopes);
  }

  lemma AgentHasNoProblems(db: Db, env: Env, m: map<Id, Option<Id>>, fileNames: set<string>, item: AgentItem, t: Target)
    ensures AgentProblems(db, env, m, fileNames, item, t) == [] <==> AgentAccepted(db, env, m, fileNames, item, t)
  {
    ScopesAccepted(env, item.scopes);
    ToolRefsAccepted(db, fileNames, item.tools);
    TeamRefsAccepted(db, m, item.teams);
  }

  lemma AgentsAccepted(db: Db, env: Env, m: map<Id, Option<Id>>, fileNames: set<string>, items: seq<AgentItem>, ts: seq<Target>)
    requires |items| == |ts|
    ensures Gather(|items|, AgentAt(db, env, m, fileNames, items, ts)) == [] <==> AllAgentsAccepted(db, env, m, fileNames, items, ts)
  {
    var f := AgentAt(db, env, m, fileNames, items, ts);
    GatherIsEmpty(|items|, f);
    forall i: nat | i < |items| ensures f(i) == [] <==> AgentAccepted(db, env, m, fileNames, items[i], ts[i]) {
      AgentHasNoProblems(db, env, m, fileNames, items[i], ts[i]);
    }
  }

  lemma ChannelHasNoProblems(db: Db, m: map<Id, Option<Id>>, item: ChannelItem, t: Target)
    ensures ChannelProblems(db, m, item, t) == [] <==> ChannelAccepted(db, m, item, t)
  {
  }

  lemma ToolHasNoProblems(db: Db, env: Env, item: ToolItem, t: Target)
    ensures ToolProblems(db, env, item, t) == [] <==> ToolAccepted(db, env, item, t)
  {
  }

  lemma ChannelsAccepted(db: Db, m: map<Id, Option<Id>>, items: seq<ChannelItem>, ts: seq<Target>)
    requires |items| == |ts|
    ensures Gather(|items|, ChannelAt(db, m, items, ts)) == [] <==> AllChannelsAccepted(db, m, items, ts)
  {
    var f := ChannelAt(db, m, items, ts);
    GatherIsEmpty(|items|, f);
    forall i: nat | i < |items| ensures f(i) == [] <==> ChannelAccepted(db, m, items[i], ts[i]) {
      ChannelHasNoProblems(db, m, items[i], ts[i]);
    }
  }

  lemma ToolsAccepted(db: Db, env: Env, items: seq<ToolItem>, ts: seq<Target>)
    requires |items| == |ts|
    ensures Gather(|items|, ToolAt(db, env, items, ts)) == [] <==> AllToolsAccepted(db, env, items, ts)
  {
    var f := ToolAt(db, env, items, ts);
    GatherIsEmpty(|items|, f);
    forall i: nat | i < |items| ensures f(i) == [] <==> ToolAccepted(db, env, items[i], ts[i]) {
      ToolHasNoProblems(db, env, items[i], ts[i]);
    }
  }

  lemma TeamsAccepted(items: seq<TeamItem>, ts: seq<Target>)
    requires |items| == |ts|
    ensures Gather(|items|, TeamAt(items, ts)) == [] <==> Unambiguous(ts)
  {
    var f := TeamAt(items, ts);
    GatherIsEmpty(|items|, f);
    assert forall i: nat :: i < |items| ==> (f(i) == [] <==> !ts[i].Ambiguous?);
  }

  lemma SettingsHaveNoProblems(settings: seq<Setting>, env: Env)
    ensures Gather(|settings|, SettingAt(env, settings)) == [] <==> SettingsAccepted(settings, env)
  {
    var f := SettingAt(env, settings);
    GatherIsEmpty(|settings|, f);
    assert forall i: nat :: i < |settings| ==> (f(i) == [] <==>
      (settings[i].key in env.localSettings || (settings[i].key in env.knownSettings && env.serializes(settings[i].value))));
  }

  lemma NoDuplicatesIn(doc: Document)
    ensures DuplicatesIn(doc) == [] <==>
            Distinct(TeamNames(doc.teams)) && Distinct(ToolNames(doc.tools)) && Distinct(AgentNames(doc.agents)) &&
            Distinct(ActiveChannelNames(doc.channels))
  {
    NoDuplicateProblems(TeamKind, TeamNames(doc.teams));
    NoDuplicateProblems(ToolKind, ToolNames(doc.tools));
    NoDuplicateProblems(AgentKind, AgentNames(doc.agents));
    NoDuplicateProblems(ChannelKind, ActiveChannelNames(doc.channels));
  }

  lemma ItemsHaveNoProblems(db: Db, doc: Document, p: Plans, env: Env)
    requires |p.teams| == |doc.teams| && |p.tools| == |doc.tools| && |p.agents| == |doc.agents| && |p.channels| == |doc.channels|
    ensures ItemProblems(db, doc, p, env) == [] <==> ItemsAccepted(db, doc, p, env)
  {
    TeamsAccepted(doc.teams, p.teams);
    ToolsAccepted(db, env, doc.tools, p.tools);
    AgentsAccepted(db, env, TeamMap(doc.teams, p.teams), FileToolNames(db, env, doc.tools, p.tools), doc.agents, p.agents);
    ChannelsAccepted(db, TeamMap(doc.teams, p.teams), doc.channels, p.channels);
  }

  /** A file is refused exactly when one of the listed conditions fails, and then nothing at all is written. */
  lemma RefusedExactlyWhen(db: Db, h: History, doc: Document, env: Env)
    ensures Import(db, h, doc, env).1.Invalid? <==> !Accepted(db, h, doc, env)
    ensures !Accepted(db, h, doc, env) ==> Import(db, h, doc, env).0 == db
    ensures Problems(db, h, doc, env) == [] <==> Accepted(db, h, doc, env)
  {
    SettingsHaveNoProblems(doc.settings, env);
    NoDuplicatesIn(doc);
    ItemsHaveNoProblems(db, doc, Planned(db, h, doc, env), env);
  }

  // ----- the tables after an import, however it ends -----

  /** Each table is as it was, or has had its run of upserts, in part if a write was refused. */
  ghost predicate Written(db: Db, doc: Document, p: Plans, after: Db)
    requires |p.teams| == |doc.teams| && |p.tools| == |doc.tools| && |p.agents| == |doc.agents| && |p.channels| == |doc.channels|
  {
    && after.teams == PutAll(db.teams, TeamKey(), false, p.teams, TeamRows(doc.teams)).0
    && (after.tools == db.tools || after.tools == PutAll(db.tools, ToolKey(), true, p.tools, ToolRows(doc.tools)).0)
    && (after.agents == db.agents || after.agents == PutAll(db.agents, AgentKey(), true, p.agents, AgentRows(doc.agents)).0)
    && (after.channels == db.channels ||
        after.channels == PutAll(db.channels, ChannelKey(), true, p.channels, ChannelRows(TeamMap(doc.teams, p.teams), doc.channels)).0)
  }

  lemma EntitiesAreWritten(db: Db, doc: Document, p: Plans, pick: Pick)
    requires |p.teams| == |doc.teams| && |p.tools| == |doc.tools| && |p.agents| == |doc.agents| && |p.channels| == |doc.channels|
    ensures Written(db, doc, p, PutEntities(db, doc, p, pick).0)
  {
    var m := TeamMap(doc.teams, p.teams);
    var (d1, ok1) := PutTeams(db, p.teams, doc.teams);
    TeamsArePutAll(db, p.teams, doc.teams);
    if ok1 {
      var (d2, ok2) := PutTools(d1, p.tools, doc.tools);
      ToolsArePutAll(d1, p.tools, doc.tools);
      if ok2 {
        var (d3, ok3) := PutAgents(d2, p.agents, doc.agents, m, pick);
        AgentsArePutAll(d2, p.agents, doc.agents, m, pick);
        if ok3 {
          ChannelsArePutAll(d3, p.channels, doc.channels, m);
        }
      }
    }
  }

  lemma ImportIsWritten(db: Db, h: History, doc: Document, env: Env)
    requires !Import(db, h, doc, env).1.Invalid?
    ensures Written(db, doc, Planned(db, h, doc, env), Import(db, h, doc, env).0)
  {
    var p := Planned(db, h, doc, env);
    EntitiesAreWritten(db, doc, p, env.pick);
    SettingsOnly(PutEntities(db, doc, p, env.pick).0, doc.settings, env);
  }

  // ----- no resurrection -----

  /** The ids that the import makes up for new rows are used nowhere. */
  ghost predicate NewIdsAreFresh(db: Db, h: History, doc: Document, env: Env) {
    && FreshIds(db.teams, Known(h, TeamKind), TeamRefs(doc.teams), NewIds(env, TeamKind))
    && FreshIds(db.tools, Known(h, ToolKind), ToolRefs(doc.tools), NewIds(env, ToolKind))
    && FreshIds(db.agents, Known(h, AgentKind), AgentRefs(doc.agents), NewIds(env, AgentKind))
    && FreshIds(db.channels, Known(h, ChannelKind), ChannelRefs(doc.channels), NewIds(env, ChannelKind))
  }

  ghost predicate AddsNoneOf(before: set<Id>, after: set<Id>, known: set<Id>) {
    forall id :: id in after && id !in before ==> id !in known
  }

  lemma TableAddsNoneOf<R>(table: Table<R>, key: R -> Option<string>, unique: bool, history: set<Id>, items: seq<Ref>,
                           newId: nat -> Id, pick: Pick, rows: seq<R>)
    requires FreshIds(table, history, items, newId) && PicksMembers(pick) && |rows| == |items|
    ensures AddsNoneOf(table.Keys, PutAll(table, key, unique, ResolveAll(table, key, history, items, newId, pick), rows).0.Keys, history)
  {
    var after := PutAll(table, key, unique, ResolveAll(table, key, history, items, newId, pick), rows).0;
    forall id | id in after && id !in table ensures id !in history {
      AddedHasNoHistory(table, key, unique, history, items, newId, pick, rows, id);
    }
  }

  /** However an import ends, no row appears under an id with sync history. */
  lemma NothingIsResurrected(db: Db, h: History, doc: Document, env: Env)
    requires NewIdsAreFresh(db, h, doc, env) && PicksMembers(env.pick)
    ensures var after := Import(db, h, doc, env).0;
            && AddsNoneOf(db.teams.Keys, after.teams.Keys, Known(h, TeamKind))
            && AddsNoneOf(db.tools.Keys, after.tools.Keys, Known(h, ToolKind))
            && AddsNoneOf(db.agents.Keys, after.agents.Keys, Known(h, AgentKind))
            && AddsNoneOf(db.channels.Keys, after.channels.Keys, Known(h, ChannelKind))
  {
    if !Import(db, h, doc, env).1.Invalid? {
      ImportIsWritten(db, h, doc, env);
      var m := TeamMap(doc.teams, PlanTeams(db, h, doc, env));
      TableAddsNoneOf(db.teams, TeamKey(), false, Known(h, TeamKind), TeamRefs(doc.teams), NewIds(env, TeamKind), env.pick, TeamRows(doc.teams));
      TableAddsNoneOf(db.tools, ToolKey(), true, Known(h, ToolKind), ToolRefs(doc.tools), NewIds(env, ToolKind), env.pick, ToolRows(doc.tools));
      TableAddsNoneOf(db.agents, AgentKey(), true, Known(h, AgentKind), AgentRefs(doc.agents), NewIds(env, AgentKind), env.pick, AgentRows(doc.agents));
      TableAddsNoneOf(db.channels, ChannelKey(), true, Known(h, ChannelKind), ChannelRefs(doc.channels), NewIds(env, ChannelKind), env.pick, ChannelRows(m, doc.channels));
    }
  }

  // ----- unique indexes -----

  lemma IndexesHold(db: Db, h: History, doc: Document, env: Env)
    requires Indexed(db)
    ensures Indexed(Import(db, h, doc, env).0)
  {
    if !Import(db, h, doc, env).1.Invalid? {
      ImportIsWritten(db, h, doc, env);
      var p := Planned(db, h, doc, env);
      PutAllKeepsUnique(db.tools, ToolKey(), p.tools, ToolRows(doc.tools));
      PutAllKeepsUnique(db.agents, AgentKey(), p.agents, AgentRows(doc.agents));
      PutAllKeepsUnique(db.channels, ChannelKey(), p.channels, ChannelRows(TeamMap(doc.teams, p.teams), doc.channels));
    }
  }

  // ----- references -----

  ghost predicate PairsLead(pairs: set<(Id, Id)>, agents: map<Id, Agent>, others: set<Id>) {
    forall p :: p in pairs ==> p.0 in agents && p.1 in others
  }

  ghost predicate TeamsLead(channels: map<Id, Channel>, teams: set<Id>) {
    forall c :: c in channels && channels[c].teamId.Some? ==> channels[c].teamId.value in teams
  }

  /** Every reference between rows leads to a row. */
  ghost predicate NoDangling(db: Db) {
    && PairsLead(db.agentTools, db.agents, db.tools.Keys)
    && PairsLead(db.agentTeams, db.agents, db.teams.Keys)
    && (forall p :: p in db.agentScopes ==> p.0 in db.agents)
    && db.rules.Keys == db.agents.Keys
    && TeamsLead(db.channels, db.teams.Keys)
  }

  /** What the team references of the file stand for are rows. */
  ghost predicate MapLeads(m: map<Id, Option<Id>>, teams: set<Id>) {
    forall r :: r in m && m[r].Some? ==> m[r].value in teams
  }

  lemma {:induction false} TeamMapIsTargets(items: seq<TeamItem>, ts: seq<Target>)
    requires |items| == |ts|
    ensures forall r :: r in TeamMap(items, ts) && TeamMap(items, ts)[r].Some? ==> Targeted(ts, TeamMap(items, ts)[r].value)
  {
    if items != [] {
      var n := |items| - 1;
      TeamMapIsTargets(items[..n], ts[..n]);
      forall id | Targeted(ts[..n], id) ensures Targeted(ts, id) {
        var i :| 0 <= i < n && Writes(ts[..n][i]) && ts[..n][i].id == id;
        assert ts[i] == ts[..n][i];
      }
      assert Writes(ts[n]) ==> Targeted(ts, ts[n].id);
    }
  }

  lemma TeamPhaseLeads(db: Db, ts: seq<Target>, items: seq<TeamItem>)
    requires |ts| == |items| && NoDangling(db)
    ensures var (d, ok) := PutTeams(db, ts, items);
            NoDangling(d) && db.teams.Keys <= d.teams.Keys && (ok ==> MapLeads(TeamMap(items, ts), d.teams.Keys))
  {
    TeamsArePutAll(db, ts, items);
    PutAllRows(db.teams, TeamKey(), false, ts, TeamRows(items));
    TeamMapIsTargets(items, ts);
  }

  lemma ToolPhaseLeads(db: Db, ts: seq<Target>, items: seq<ToolItem>)
    requires |ts| == |items| && NoDangling(db)
    ensures var d := PutTools(db, ts, items).0; NoDangling(d) && d.teams == db.teams
  {
    ToolsArePutAll(db, ts, items);
    PutAllRows(db.tools, ToolKey(), true, ts, ToolRows(items));
  }

  lemma TeamIdsLead(db: Db, m: map<Id, Option<Id>>, refs: seq<Id>)
    requires MapLeads(m, db.teams.Keys) && forall i :: 0 <= i < |refs| ==> TeamKnown(db, m, refs[i])
    ensures TeamIds(m, refs) <= db.teams.Keys
  {
  }

  lemma ToolIdsLead(tools: map<Id, Tool>, refs: seq<ToolRef>, pick: Pick)
    requires PicksMembers(pick)
    ensures ToolIds(tools, refs, pick) <= tools.Keys
  {
    forall r | r in refs && ToolMatches(tools, r) != {} ensures pick(ToolMatches(tools, r)) in tools {
      assert pick(ToolMatches(tools, r)) in ToolMatches(tools, r);
    }
  }

  lemma SetJoinLeads(join: set<(Id, Id)>, a: Id, xs: set<Id>, agents: map<Id, Agent>, row: Agent, others: set<Id>)
    requires PairsLead(join, agents, others) && xs <= others
    ensures PairsLead(SetJoin(join, a, xs), agents[a := row], others)
  {
  }

  lemma AgentStepLeads(db: Db, t: Target, item: AgentItem, m: map<Id, Option<Id>>, pick: Pick)
    requires NoDangling(db) && MapLeads(m, db.teams.Keys) && PicksMembers(pick)
    requires forall i :: 0 <= i < |item.teams| ==> TeamKnown(db, m, item.teams[i])
    ensures var d := AgentStep(db, t, item, m, pick).0; NoDangling(d) && d.teams == db.teams
  {
    var (d, ok) := AgentStep(db, t, item, m, pick);
    if ok && Writes(t) {
      TeamIdsLead(db, m, item.teams);
      ToolIdsLead(db.tools, item.tools, pick);
      SetJoinLeads(db.agentTools, t.id, ToolIds(db.tools, item.tools, pick), db.agents, AgentRow(item), db.tools.Keys);
      SetJoinLeads(db.agentTeams, t.id, TeamIds(m, item.teams), db.agents, AgentRow(item), db.teams.Keys);
      assert forall p :: p in d.agentScopes ==> p.0 in d.agents;
      assert d.rules.Keys == d.agents.Keys;
    }
  }

  lemma {:induction false} AgentPhaseLeads(db: Db, ts: seq<Target>, items: seq<AgentItem>, m: map<Id, Option<Id>>, pick: Pick)
    requires |ts| == |items| && NoDangling(db) && MapLeads(m, db.teams.Keys) && PicksMembers(pick)
    requires forall k, i :: 0 <= k < |items| && 0 <= i < |items[k].teams| ==> TeamKnown(db, m, items[k].teams[i])
    ensures var d := PutAgents(db, ts, items, m, pick).0; NoDangling(d) && d.teams == db.teams
  {
    if ts != [] {
      var n := |ts| - 1;
      AgentPhaseLeads(db, ts[..n], items[..n], m, pick);
      var (d, ok) := PutAgents(db, ts[..n], items[..n], m, pick);
      if ok {
        AgentStepLeads(d, ts[n], items[n], m, pick);
      }
    }
  }

  lemma {:induction false} ChannelPhaseLeads(db: Db, ts: seq<Target>, items: seq<ChannelItem>, m: map<Id, Option<Id>>)
    requires |ts| == |items| && NoDangling(db) && MapLeads(m, db.teams.Keys)
    requires forall k :: 0 <= k < |items| && items[k].teamId.Some? ==> TeamKnown(db, m, items[k].teamId.value)
    ensures var d := PutChannels(db, ts, items, m).0; NoDangling(d) && d.teams == db.teams
  {
    if ts != [] {
      var n := |ts| - 1;
      ChannelPhaseLeads(db, ts[..n], items[..n], m);
    }
  }

  lemma EntitiesLead(db: Db, doc: Document, p: Plans, pick: Pick)
    requires |p.teams| == |doc.teams| && |p.tools| == |doc.tools| && |p.agents| == |doc.agents| && |p.channels| == |doc.channels|
    requires NoDangling(db) && PicksMembers(pick)
    requires forall k, i :: 0 <= k < |doc.agents| && 0 <= i < |doc.agents[k].teams| ==> TeamKnown(db, TeamMap(doc.teams, p.teams), doc.agents[k].teams[i])
    requires forall k :: 0 <= k < |doc.channels| && doc.channels[k].teamId.Some? ==> TeamKnown(db, TeamMap(doc.teams, p.teams), doc.channels[k].teamId.value)
    ensures NoDangling(PutEntities(db, doc, p, pick).0)
  {
    var m := TeamMap(doc.teams, p.teams);
    var (d1, ok1) := PutTeams(db, p.teams, doc.teams);
    TeamPhaseLeads(db, p.teams, doc.teams);
    if ok1 {
      var (d2, ok2) := PutTools(d1, p.tools, doc.tools);
      ToolPhaseLeads(d1, p.tools, doc.tools);
      if ok2 {
        var (d3, ok3) := PutAgents(d2, p.agents, doc.agents, m, pick);
        AgentPhaseLeads(d2, p.agents, doc.agents, m, pick);
        if ok3 {
          ChannelPhaseLeads(d3, p.channels, doc.channels, m);
        }
      }
    }
  }

  lemma AcceptedTeamsAreKnown(db: Db, doc: Document, p: Plans, env: Env)
    requires |p.teams| == |doc.teams| && |p.tools| == |doc.tools| && |p.agents| == |doc.agents| && |p.channels| == |doc.channels|
    requires ItemsAccepted(db, doc, p, env)
    ensures forall k, i :: 0 <= k < |doc.agents| && 0 <= i < |doc.agents[k].teams| ==> TeamKnown(db, TeamMap(doc.teams, p.teams), doc.agents[k].teams[i])
    ensures forall k :: 0 <= k < |doc.channels| && doc.channels[k].teamId.Some? ==> TeamKnown(db, TeamMap(doc.teams, p.teams), doc.channels[k].teamId.value)
  {
    var m := TeamMap(doc.teams, p.teams);
    forall k, i | 0 <= k < |doc.agents| && 0 <= i < |doc.agents[k].teams| ensures TeamKnown(db, m, doc.agents[k].teams[i]) {
      assert AgentAccepted(db, env, m, FileToolNames(db, env, doc.tools, p.tools), doc.agents[k], p.agents[k]);
    }
    forall k | 0 <= k < |doc.channels| && doc.channels[k].teamId.Some? ensures TeamKnown(db, m, doc.channels[k].teamId.value) {
      assert ChannelAccepted(db, m, doc.channels[k], p.channels[k]);
    }
  }

  /** However an import ends, every reference between rows still leads to a row: an agent's tools and teams, a scope or
      rule's agent, a channel's team. */
  lemma NothingDangles(db: Db, h: History, doc: Document, env: Env)
    requires NoDangling(db) && PicksMembers(env.pick)
    ensures NoDangling(Import(db, h, doc, env).0)
  {
    var p := Planned(db, h, doc, env);
    RefusedExactlyWhen(db, h, doc, env);
    if Accepted(db, h, doc, env) {
      AcceptedTeamsAreKnown(db, doc, p, env);
      EntitiesLead(db, doc, p, env.pick);
      SettingsOnly(PutEntities(db, doc, p, env.pick).0, doc.settings, env);
    }
  }
}
