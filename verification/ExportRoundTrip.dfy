/** A workspace's own export, imported again and into an empty workspace (server/src/rivulets/workspace_yaml.py:171-268,
    389-752). */
module ExportRoundTrip {
  import opened Prelude
  import opened Merge
  import opened WorkspaceYaml
  import opened ImportSteps
  import opened ImportSafety
  import opened ImportResults
  import opened WorkspaceExport

  // ----- the workspace itself -----

  /** Empty fallbacks and schemas are stored as none. */
  ghost predicate Canonical(db: Db) {
    forall a :: a in db.agents ==> db.agents[a].fallback != Some([]) && db.agents[a].schema != Some(map[])
  }

  /** A tool that an agent has is the only one of its type and name. */
  ghost predicate AssignedAreClear(db: Db) {
    forall p :: p in db.agentTools && p.1 in db.tools ==>
      |ToolMatches(db.tools, ToolRef(db.tools[p.1].toolType, db.tools[p.1].name))| <= 1
  }

  /** Team references stand for themselves. */
  ghost predicate MapsToSelf(m: map<Id, Option<Id>>) {
    forall r :: r in m ==> m[r] == Some(r)
  }

  lemma {:induction false} OwnTeamMap(items: seq<TeamItem>, ts: seq<Target>)
    requires |items| == |ts|
    requires forall i :: 0 <= i < |items| ==> Writes(ts[i]) && items[i].id == Some(ts[i].id)
    ensures MapsToSelf(TeamMap(items, ts))
    ensures forall i :: 0 <= i < |items| ==> items[i].id.Some? && items[i].id.value in TeamMap(items, ts)
  {
    if items != [] {
      OwnTeamMap(items[..|items| - 1], ts[..|items| - 1]);
      assert forall i :: 0 <= i < |items| - 1 ==> items[..|items| - 1][i] == items[i] && ts[..|items| - 1][i] == ts[i];
    }
  }

  function RefOf(tools: map<Id, Tool>, t: Id): ToolRef
    requires t in tools
  {
    ToolRef(tools[t].toolType, tools[t].name)
  }

  /** An agent's tools survive the way through the file exactly when the database, asked for the type and name of each
      of them, returns that tool. */
  lemma OwnRefsExactlyWhen(db: Db, a: Id, item: AgentItem, pick: Pick)
    requires a in db.agents && AgentExported(db, a, db.agents[a], item)
    requires PairsLead(db.agentTools, db.agents, db.tools.Keys) && PicksMembers(pick)
    ensures ToolIds(db.tools, item.tools, pick) == Of(db.agentTools, a) <==>
            forall t :: (a, t) in db.agentTools ==> pick(ToolMatches(db.tools, RefOf(db.tools, t))) == t
  {
    var ids := ToolIds(db.tools, item.tools, pick);
    forall t ensures t in Of(db.agentTools, a) <==> (a, t) in db.agentTools {
      InOf(db.agentTools, a, t);
    }
    if ids == Of(db.agentTools, a) {
      forall t | (a, t) in db.agentTools ensures pick(ToolMatches(db.tools, RefOf(db.tools, t))) == t {
        PickedUnderOwnRef(db.tools, item.tools, pick, t);
      }
    }
    if forall t :: (a, t) in db.agentTools ==> pick(ToolMatches(db.tools, RefOf(db.tools, t))) == t {
      OwnRefs(db, a, item, pick);
    }
  }

  lemma PickedUnderOwnRef(tools: map<Id, Tool>, refs: seq<ToolRef>, pick: Pick, t: Id)
    requires PicksMembers(pick) && t in ToolIds(tools, refs, pick)
    ensures t in tools && pick(ToolMatches(tools, RefOf(tools, t))) == t
  {
    var r :| r in refs && ToolMatches(tools, r) != {} && t == pick(ToolMatches(tools, r));
    assert t in ToolMatches(tools, r);
    assert RefOf(tools, t) == r;
  }

  lemma OwnRefs(db: Db, a: Id, item: AgentItem, pick: Pick)
    requires a in db.agents && AgentExported(db, a, db.agents[a], item)
    requires PairsLead(db.agentTools, db.agents, db.tools.Keys)
    requires forall t :: (a, t) in db.agentTools ==> pick(ToolMatches(db.tools, RefOf(db.tools, t))) == t
    ensures ToolIds(db.tools, item.tools, pick) == Of(db.agentTools, a)
  {
    var ids := ToolIds(db.tools, item.tools, pick);
    forall t | t in ids ensures (a, t) in db.agentTools {
      var r :| r in item.tools && ToolMatches(db.tools, r) != {} && t == pick(ToolMatches(db.tools, r));
      assert r in AssignedRefs(db, a);
      var p :| p in db.agentTools && p.0 == a && p.1 in db.tools && r == ToolRef(db.tools[p.1].toolType, db.tools[p.1].name);
      assert p == (a, p.1) && r == RefOf(db.tools, p.1);
    }
    forall t | (a, t) in db.agentTools ensures t in ids {
      assert (a, t).1 == t;
      assert RefOf(db.tools, t) in AssignedRefs(db, a);
      assert RefOf(db.tools, t) in item.tools;
      assert t in ToolMatches(db.tools, RefOf(db.tools, t));
    }
    forall t ensures t in Of(db.agentTools, a) <==> (a, t) in db.agentTools {
      InOf(db.agentTools, a, t);
    }
  }

  lemma ClearIsPicked(db: Db, a: Id, t: Id, pick: Pick)
    requires AssignedAreClear(db) && PicksMembers(pick) && (a, t) in db.agentTools && t in db.tools
    ensures pick(ToolMatches(db.tools, RefOf(db.tools, t))) == t
  {
    assert (a, t).1 == t;
    OnlyOne(ToolMatches(db.tools, RefOf(db.tools, t)), t, pick);
  }

  lemma OwnTeamIds(m: map<Id, Option<Id>>, refs: seq<Id>)
    requires MapsToSelf(m)
    ensures TeamIds(m, refs) == Elements(refs)
  {
    assert forall r :: r in refs ==> LocalTeam(m, r) == Some(r);
    forall r | r in refs ensures r in TeamIds(m, refs) {
      assert LocalTeam(m, r).value in TeamIds(m, refs);
    }
  }

  lemma OwnAgentIsSettled(db: Db, a: Id, item: AgentItem, m: map<Id, Option<Id>>, pick: Pick)
    requires a in db.agents && AgentExported(db, a, db.agents[a], item) && NoDangling(db)
    requires AssignedAreClear(db) && PicksMembers(pick) && MapsToSelf(m)
    ensures AgentSettled(db, a, item, m, pick)
  {
    forall t | (a, t) in db.agentTools ensures pick(ToolMatches(db.tools, RefOf(db.tools, t))) == t {
      ClearIsPicked(db, a, t, pick);
    }
    OwnRefs(db, a, item, pick);
    OwnTeamIds(m, item.teams);
  }

  lemma OwnTeams(db: Db, h: History, doc: Document, env: Env)
    requires TeamsExported(db, doc.teams)
    ensures var ts := PlanTeams(db, h, doc, env);
            && (forall i :: 0 <= i < |doc.teams| ==> ts[i] == Update(doc.teams[i].id.value))
            && PutTeams(db, ts, doc.teams) == (db, true) && MapsToSelf(TeamMap(doc.teams, ts))
            && forall t :: t in db.teams ==> t in TeamMap(doc.teams, ts)
  {
    var ts := PlanTeams(db, h, doc, env);
    forall i | 0 <= i < |doc.teams| ensures TeamRows(doc.teams)[i] == db.teams[TeamRefs(doc.teams)[i].id.value] {
      assert TeamRefs(doc.teams)[i].id.Some?;
    }
    OwnRowsAreIdentity(db.teams, TeamKey(), false, Known(h, TeamKind), TeamRefs(doc.teams), NewIds(env, TeamKind), env.pick, TeamRows(doc.teams));
    TeamsArePutAll(db, ts, doc.teams);
    OwnTeamMap(doc.teams, ts);
    forall t | t in db.teams ensures t in TeamMap(doc.teams, ts) {
      assert Mentions(TeamRefs(doc.teams), t);
    }
  }

  lemma OwnTools(db: Db, h: History, doc: Document, env: Env)
    requires ToolsExported(db, doc.tools) && UniqueKeys(db.tools, ToolKey())
    ensures var ts := PlanTools(db, h, doc, env);
            && (forall i :: 0 <= i < |doc.tools| ==> ts[i] == Update(doc.tools[i].id.value))
            && PutTools(db, ts, doc.tools) == (db, true)
  {
    var ts := PlanTools(db, h, doc, env);
    forall i | 0 <= i < |doc.tools| ensures ts[i] == Update(doc.tools[i].id.value) && ToolRow(doc.tools[i]) == db.tools[ts[i].id] {
      assert ToolRefs(doc.tools)[i].id.value in Customs(db.tools);
    }
    ToolsAlreadyThere(db, ts, doc.tools);
  }

  lemma OwnAgentIsThere(db: Db, h: History, doc: Document, env: Env, m: map<Id, Option<Id>>, i: nat)
    requires AgentsExported(db, doc.agents) && NoDangling(db) && Canonical(db)
    requires AssignedAreClear(db) && PicksMembers(env.pick) && MapsToSelf(m) && i < |doc.agents|
    ensures var t := PlanAgents(db, h, doc, env)[i];
            && doc.agents[i].id.Some? && t == Update(doc.agents[i].id.value)
            && AgentIsThere(db, t, doc.agents[i], m, env.pick)
  {
    assert AgentRefs(doc.agents)[i].id.value in db.agents;
    OwnAgentIsSettled(db, doc.agents[i].id.value, doc.agents[i], m, env.pick);
  }

  lemma OwnAgents(db: Db, h: History, doc: Document, env: Env, m: map<Id, Option<Id>>)
    requires AgentsExported(db, doc.agents) && UniqueKeys(db.agents, AgentKey()) && NoDangling(db) && Canonical(db)
    requires AssignedAreClear(db) && PicksMembers(env.pick) && MapsToSelf(m)
    ensures var ts := PlanAgents(db, h, doc, env);
            && (forall i :: 0 <= i < |doc.agents| ==> ts[i] == Update(doc.agents[i].id.value))
            && PutAgents(db, ts, doc.agents, m, env.pick) == (db, true)
  {
    var ts := PlanAgents(db, h, doc, env);
    forall i | 0 <= i < |doc.agents|
      ensures ts[i] == Update(doc.agents[i].id.value) && AgentIsThere(db, ts[i], doc.agents[i], m, env.pick)
    {
      OwnAgentIsThere(db, h, doc, env, m, i);
    }
    AgentsAlreadyThere(db, ts, doc.agents, m, env.pick);
  }

  lemma OwnChannels(db: Db, h: History, doc: Document, env: Env, m: map<Id, Option<Id>>)
    requires ChannelsExported(db, doc.channels) && UniqueKeys(db.channels, ChannelKey()) && MapsToSelf(m)
    ensures var ts := PlanChannels(db, h, doc, env);
            && (forall i :: 0 <= i < |doc.channels| ==> ts[i] == Update(doc.channels[i].id.value))
            && PutChannels(db, ts, doc.channels, m) == (db, true)
  {
    var ts := PlanChannels(db, h, doc, env);
    forall i | 0 <= i < |doc.channels| ensures ChannelRows(m, doc.channels)[i] == db.channels[ChannelRefs(doc.channels)[i].id.value] {
      assert ChannelRefs(doc.channels)[i].id.Some?;
    }
    OwnRowsAreIdentity(db.channels, ChannelKey(), true, Known(h, ChannelKind), ChannelRefs(doc.channels), NewIds(env, ChannelKind), env.pick,
                       ChannelRows(m, doc.channels));
    ChannelsArePutAll(db, ts, doc.channels, m);
  }

  /** A workspace's own export, if accepted, goes to the rows it came from and changes nothing but settings. */
  lemma OwnExportIsIdentity(db: Db, h: History, settings: seq<Setting>, doc: Document, env: Env)
    requires IsExport(db, settings, doc) && Indexed(db) && NoDangling(db) && Canonical(db) && AssignedAreClear(db)
    requires PicksMembers(env.pick) && Accepted(db, h, doc, env)
    ensures var (after, outcome) := Import(db, h, doc, env);
            && after == db.(settings := after.settings) && after.settings == PutSettings(db, settings, env).settings
            && outcome == Completed(Planned(db, h, doc, env))
  {
    RefusedExactlyWhen(db, h, doc, env);
    OwnTeams(db, h, doc, env);
    var m := TeamMap(doc.teams, PlanTeams(db, h, doc, env));
    OwnTools(db, h, doc, env);
    OwnAgents(db, h, doc, env, m);
    OwnChannels(db, h, doc, env, m);
    SettingsOnly(db, settings, env);
  }

  // ----- settings -----

  /** The settings in force: the stored ones over the defaults. */
  function Effective(defaults: map<string, Json>, stored: map<string, Json>): map<string, Json> {
    defaults + stored
  }

  /** The settings an export carries: those in force, without the node's own. */
  ghost predicate SettingsExported(defaults: map<string, Json>, local: set<string>, stored: map<string, Json>, settings: seq<Setting>) {
    && IsMapping(settings)
    && forall s :: s in settings <==>
         s.key in Effective(defaults, stored) && s.key !in local && s.value == Effective(defaults, stored)[s.key]
  }

  lemma {:induction false} StoredAfter(db: Db, settings: seq<Setting>, env: Env)
    ensures var d := PutSettings(db, settings, env).settings;
            && (forall k :: k in db.settings ==> k in d)
            && (forall k :: k in d ==> (k in db.settings && d[k] == db.settings[k]) || Setting(k, d[k]) in settings)
  {
    if settings != [] {
      var n := |settings| - 1;
      StoredAfter(db, settings[..n], env);
      assert forall s :: s in settings[..n] ==> s in settings;
      assert settings[n] in settings && settings[n] == Setting(settings[n].key, settings[n].value);
    }
  }

  /** Importing the exported settings leaves the settings in force as they are. */
  lemma OwnSettingsStay(db: Db, defaults: map<string, Json>, settings: seq<Setting>, env: Env)
    requires SettingsExported(defaults, env.localSettings, db.settings, settings)
    ensures Effective(defaults, PutSettings(db, settings, env).settings) == Effective(defaults, db.settings)
  {
    StoredAfter(db, settings, env);
  }

  // ----- when the own export is accepted -----

  /** The rows meet the file schema, and no two teams share a name. */
  ghost predicate FormImportable(db: Db) {
    && (forall t :: t in db.teams ==> |db.teams[t].name| >= 1)
    && (forall a :: a in db.agents ==> 2 <= |db.agents[a].name| <= 64 && 10 <= |db.agents[a].description| <= 500)
    && (forall c :: c in db.channels ==> 3 <= |db.channels[c].name| <= 80)
    && UniqueKeys(db.teams, TeamKey())
  }

  /** Custom tools are named and written as the checks want, scopes and tool types are known. */
  ghost predicate ContentsImportable(db: Db, env: Env) {
    && AllToolsImportable(db, env)
    && (forall p :: p in db.agentScopes ==> p.1 in env.scopes)
    && (forall p :: p in db.agentTools && p.1 in db.tools ==> db.tools[p.1].toolType in TOOL_TYPES)
  }

  /** What the file schema and the checks ask of the rows themselves. */
  ghost predicate Importable(db: Db, settings: seq<Setting>, env: Env) {
    FormImportable(db) && ContentsImportable(db, env) && SettingsAccepted(settings, env)
  }

  ghost predicate AllToolsImportable(db: Db, env: Env) {
    forall t :: t in Customs(db.tools) ==> ToolImportable(db, t, env)
  }

  ghost predicate ToolImportable(db: Db, t: Id, env: Env)
    requires t in db.tools
  {
    ToolNameOk(db.tools[t].name) && (t in db.sources && db.sources[t] != "" ==> env.compiles(db.sources[t]))
  }

  lemma NamesAreDistinct<R>(table: Table<R>, key: R -> Option<string>, refs: seq<Ref>, ids: set<Id>, names: seq<Option<string>>)
    requires Covers(refs, ids) && ids <= table.Keys && UniqueKeys(table, key)
    requires |names| == |refs| && forall i :: 0 <= i < |refs| ==> names[i] == key(table[refs[i].id.value])
    ensures Distinct(names)
  {
    forall i, j | 0 <= i < j < |names| && names[j].Some? ensures names[i] != names[j] {
      assert refs[i].id.value in table && refs[j].id.value in table && refs[i].id != refs[j].id;
    }
  }

  lemma DistinctNamesAreUnique<R>(table: Table<R>, key: R -> Option<string>, refs: seq<Ref>, names: seq<Option<string>>)
    requires Covers(refs, table.Keys) && Distinct(names)
    requires |names| == |refs| && forall i :: 0 <= i < |refs| ==> names[i] == key(table[refs[i].id.value])
    ensures UniqueKeys(table, key)
  {
    forall x, y | x in table && y in table && x != y && key(table[x]).Some? ensures key(table[x]) != key(table[y]) {
      assert Mentions(refs, x) && Mentions(refs, y);
      var i :| 0 <= i < |refs| && refs[i].id == Some(x);
      var j :| 0 <= j < |refs| && refs[j].id == Some(y);
      assert names[i] == key(table[x]) && names[j] == key(table[y]);
    }
  }

  lemma OwnNames(db: Db, settings: seq<Setting>, doc: Document)
    requires IsExport(db, settings, doc) && Indexed(db)
    ensures Distinct(TeamNames(doc.teams)) <==> UniqueKeys(db.teams, TeamKey())
    ensures Distinct(ToolNames(doc.tools)) && Distinct(AgentNames(doc.agents)) && Distinct(ActiveChannelNames(doc.channels))
  {
    if UniqueKeys(db.teams, TeamKey()) {
      NamesAreDistinct(db.teams, TeamKey(), TeamRefs(doc.teams), db.teams.Keys, TeamNames(doc.teams));
    } else if Distinct(TeamNames(doc.teams)) {
      DistinctNamesAreUnique(db.teams, TeamKey(), TeamRefs(doc.teams), TeamNames(doc.teams));
    }
    OwnToolNames(db, doc);
    NamesAreDistinct(db.agents, AgentKey(), AgentRefs(doc.agents), db.agents.Keys, AgentNames(doc.agents));
    NamesAreDistinct(db.channels, ChannelKey(), ChannelRefs(doc.channels), db.channels.Keys, ActiveChannelNames(doc.channels));
  }

  lemma OwnToolNames(db: Db, doc: Document)
    requires ToolsExported(db, doc.tools) && UniqueKeys(db.tools, ToolKey())
    ensures Distinct(ToolNames(doc.tools))
  {
    forall i | 0 <= i < |doc.tools| ensures ToolNames(doc.tools)[i] == ToolKey()(db.tools[ToolRefs(doc.tools)[i].id.value]) {
      assert ToolRefs(doc.tools)[i].id.value in Customs(db.tools);
    }
    NamesAreDistinct(db.tools, ToolKey(), ToolRefs(doc.tools), Customs(db.tools), ToolNames(doc.tools));
  }

  lemma OwnTeamShape(db: Db, items: seq<TeamItem>)
    requires TeamsExported(db, items)
    ensures (forall x :: x in items ==> |x.name| >= 1) <==> (forall t :: t in db.teams ==> |db.teams[t].name| >= 1)
  {
    if forall x :: x in items ==> |x.name| >= 1 {
      forall t | t in db.teams ensures |db.teams[t].name| >= 1 {
        assert Mentions(TeamRefs(items), t);
        var i :| 0 <= i < |items| && TeamRefs(items)[i].id == Some(t);
        assert items[i] in items;
      }
    }
    forall x | x in items ensures exists t :: t in db.teams && x.name == db.teams[t].name {
      var i :| 0 <= i < |items| && items[i] == x;
      assert TeamRefs(items)[i].id.value in db.teams;
    }
  }

  lemma OwnAgentShape(db: Db, items: seq<AgentItem>)
    requires AgentsExported(db, items)
    ensures (forall x :: x in items ==> 2 <= |x.name| <= 64 && 10 <= |x.description| <= 500) <==>
            (forall a :: a in db.agents ==> 2 <= |db.agents[a].name| <= 64 && 10 <= |db.agents[a].description| <= 500)
  {
    if forall x :: x in items ==> 2 <= |x.name| <= 64 && 10 <= |x.description| <= 500 {
      forall a | a in db.agents ensures 2 <= |db.agents[a].name| <= 64 && 10 <= |db.agents[a].description| <= 500 {
        assert Mentions(AgentRefs(items), a);
        var i :| 0 <= i < |items| && AgentRefs(items)[i].id == Some(a);
        assert items[i] in items;
      }
    }
    forall x | x in items ensures exists a :: a in db.agents && x.name == db.agents[a].name && x.description == db.agents[a].description {
      var i :| 0 <= i < |items| && items[i] == x;
      assert AgentRefs(items)[i].id.value in db.agents;
    }
  }

  lemma OwnChannelShape(db: Db, items: seq<ChannelItem>)
    requires ChannelsExported(db, items)
    ensures (forall x :: x in items ==> 3 <= |x.name| <= 80) <==> (forall c :: c in db.channels ==> 3 <= |db.channels[c].name| <= 80)
  {
    if forall x :: x in items ==> 3 <= |x.name| <= 80 {
      forall c | c in db.channels ensures 3 <= |db.channels[c].name| <= 80 {
        assert Mentions(ChannelRefs(items), c);
        var i :| 0 <= i < |items| && ChannelRefs(items)[i].id == Some(c);
        assert items[i] in items;
      }
    }
    forall x | x in items ensures exists c :: c in db.channels && x.name == db.channels[c].name {
      var i :| 0 <= i < |items| && items[i] == x;
      assert ChannelRefs(items)[i].id.value in db.channels;
    }
  }

  lemma OwnToolsAccepted(db: Db, h: History, doc: Document, env: Env)
    requires ToolsExported(db, doc.tools)
    requires forall i :: 0 <= i < |doc.tools| ==> PlanTools(db, h, doc, env)[i] == Update(doc.tools[i].id.value)
    ensures AllToolsAccepted(db, env, doc.tools, PlanTools(db, h, doc, env)) <==> AllToolsImportable(db, env)
  {
    var ts := PlanTools(db, h, doc, env);
    forall i | 0 <= i < |doc.tools|
      ensures doc.tools[i].id.value in Customs(db.tools)
      ensures ToolAccepted(db, env, doc.tools[i], ts[i]) <==> ToolImportable(db, doc.tools[i].id.value, env)
    {
      assert ToolRefs(doc.tools)[i].id.value in Customs(db.tools);
    }
    forall t | t in Customs(db.tools) ensures exists i :: 0 <= i < |doc.tools| && doc.tools[i].id == Some(t) {
      assert Mentions(ToolRefs(doc.tools), t);
    }
  }

  /** The joins of one agent pass the checks. */
  ghost predicate JoinsImportable(db: Db, a: Id, env: Env) {
    && (forall x :: x in Of(db.agentScopes, a) ==> x in env.scopes)
    && (forall r :: r in AssignedRefs(db, a) ==> r.toolType in TOOL_TYPES)
  }

  ghost predicate AllJoinsImportable(db: Db, env: Env) {
    forall a :: a in db.agents ==> JoinsImportable(db, a, env)
  }

  lemma OwnAgentAccepted(db: Db, env: Env, m: map<Id, Option<Id>>, fileNames: set<string>, a: Id, item: AgentItem, t: Target)
    requires a in db.agents && AgentExported(db, a, db.agents[a], item) && NoDangling(db) && t.Update?
    ensures AgentAccepted(db, env, m, fileNames, item, t) <==> JoinsImportable(db, a, env)
  {
    forall i | 0 <= i < |item.teams| ensures TeamKnown(db, m, item.teams[i]) {
      assert item.teams[i] in Elements(item.teams);
      InOf(db.agentTeams, a, item.teams[i]);
      assert (a, item.teams[i]) in db.agentTeams;
    }
    forall x ensures x in item.scopes <==> x in Of(db.agentScopes, a) {
      assert x in item.scopes <==> x in Elements(item.scopes);
    }
    forall r ensures r in item.tools <==> r in AssignedRefs(db, a) {
      assert r in item.tools <==> r in set q | q in item.tools;
    }
    forall r | r in item.tools ensures ToolKnown(db, fileNames, r) <==> r.toolType in TOOL_TYPES {
      assert r in AssignedRefs(db, a);
    }
  }

  lemma JoinsOfAll(db: Db, env: Env)
    requires NoDangling(db)
    ensures AllJoinsImportable(db, env) <==>
            && (forall p :: p in db.agentScopes ==> p.1 in env.scopes)
            && (forall p :: p in db.agentTools && p.1 in db.tools ==> db.tools[p.1].toolType in TOOL_TYPES)
  {
    if AllJoinsImportable(db, env) {
      forall p | p in db.agentScopes ensures p.1 in env.scopes {
        InOf(db.agentScopes, p.0, p.1);
        assert p == (p.0, p.1) && JoinsImportable(db, p.0, env);
      }
      forall p | p in db.agentTools && p.1 in db.tools ensures db.tools[p.1].toolType in TOOL_TYPES {
        assert ToolRef(db.tools[p.1].toolType, db.tools[p.1].name) in AssignedRefs(db, p.0);
        assert JoinsImportable(db, p.0, env);
      }
    }
  }

  ghost function OwnAgentAt(doc: Document, i: nat): Id
    requires i < |doc.agents|
  {
    if doc.agents[i].id.Some? then doc.agents[i].id.value else ""
  }

  lemma OwnAgentAcceptedAt(db: Db, h: History, doc: Document, env: Env, m: map<Id, Option<Id>>, fileNames: set<string>, i: nat)
    requires AgentsExported(db, doc.agents) && NoDangling(db) && i < |doc.agents|
    ensures OwnAgentAt(doc, i) in db.agents
    ensures AgentAccepted(db, env, m, fileNames, doc.agents[i], PlanAgents(db, h, doc, env)[i]) <==> JoinsImportable(db, OwnAgentAt(doc, i), env)
  {
    assert AgentRefs(doc.agents)[i].id.value in db.agents;
    OwnAgentAccepted(db, env, m, fileNames, OwnAgentAt(doc, i), doc.agents[i], PlanAgents(db, h, doc, env)[i]);
  }

  lemma OwnAgentsAccepted(db: Db, h: History, doc: Document, env: Env, m: map<Id, Option<Id>>, fileNames: set<string>)
    requires AgentsExported(db, doc.agents) && NoDangling(db)
    ensures AllAgentsAccepted(db, env, m, fileNames, doc.agents, PlanAgents(db, h, doc, env)) <==> AllJoinsImportable(db, env)
  {
    var ts := PlanAgents(db, h, doc, env);
    if AllAgentsAccepted(db, env, m, fileNames, doc.agents, ts) {
      forall a | a in db.agents ensures JoinsImportable(db, a, env) {
        var i := IndexOfAgent(db, doc, a);
        OwnAgentAcceptedAt(db, h, doc, env, m, fileNames, i);
      }
    }
    if AllJoinsImportable(db, env) {
      forall i | 0 <= i < |doc.agents| ensures AgentAccepted(db, env, m, fileNames, doc.agents[i], ts[i]) {
        OwnAgentAcceptedAt(db, h, doc, env, m, fileNames, i);
      }
    }
  }

  lemma IndexOfAgent(db: Db, doc: Document, a: Id) returns (i: nat)
    requires AgentsExported(db, doc.agents) && a in db.agents
    ensures i < |doc.agents| && OwnAgentAt(doc, i) == a
  {
    assert Mentions(AgentRefs(doc.agents), a);
    i :| 0 <= i < |doc.agents| && AgentRefs(doc.agents)[i].id == Some(a);
  }

  lemma OwnChannelsAccepted(db: Db, h: History, doc: Document, env: Env, m: map<Id, Option<Id>>)
    requires ChannelsExported(db, doc.channels) && NoDangling(db)
    ensures AllChannelsAccepted(db, m, doc.channels, PlanChannels(db, h, doc, env))
  {
    forall i | 0 <= i < |doc.channels| ensures ChannelAccepted(db, m, doc.channels[i], PlanChannels(db, h, doc, env)[i]) {
      assert ChannelRefs(doc.channels)[i].id.value in db.channels;
    }
  }

  lemma OwnForm(db: Db, settings: seq<Setting>, doc: Document)
    requires IsExport(db, settings, doc) && Indexed(db)
    ensures FormAccepted(doc) <==> FormImportable(db)
  {
    OwnTeamShape(db, doc.teams);
    OwnAgentShape(db, doc.agents);
    OwnChannelShape(db, doc.channels);
    OwnNames(db, settings, doc);
  }

  lemma OwnItemsAccepted(db: Db, h: History, settings: seq<Setting>, doc: Document, env: Env)
    requires IsExport(db, settings, doc) && Indexed(db) && NoDangling(db)
    ensures ItemsAccepted(db, doc, Planned(db, h, doc, env), env) <==> ContentsImportable(db, env)
  {
    var p := Planned(db, h, doc, env);
    var m := TeamMap(doc.teams, p.teams);
    OwnTeams(db, h, doc, env);
    OwnTools(db, h, doc, env);
    OwnToolsAccepted(db, h, doc, env);
    OwnAgentsAccepted(db, h, doc, env, m, FileToolNames(db, env, doc.tools, p.tools));
    JoinsOfAll(db, env);
    OwnChannelsAccepted(db, h, doc, env, m);
  }

  /** A workspace's own export is accepted exactly when its rows meet the file schema, no two teams share a name, and
      tools, scopes and settings pass the checks made of any file. */
  lemma OwnExportAcceptedExactlyWhen(db: Db, h: History, settings: seq<Setting>, doc: Document, env: Env)
    requires IsExport(db, settings, doc) && Indexed(db) && NoDangling(db)
    ensures Accepted(db, h, doc, env) <==> Importable(db, settings, env)
  {
    OwnForm(db, settings, doc);
    OwnItemsAccepted(db, h, settings, doc, env);
  }

  /** The round trip: a workspace that can import its own export gets back what it had, down to the settings in force. */
  lemma OwnExportRoundTrip(db: Db, h: History, defaults: map<string, Json>, settings: seq<Setting>, doc: Document, env: Env)
    requires IsExport(db, settings, doc) && SettingsExported(defaults, env.localSettings, db.settings, settings)
    requires Indexed(db) && NoDangling(db) && Canonical(db) && AssignedAreClear(db) && PicksMembers(env.pick)
    requires Importable(db, settings, env)
    ensures var (after, outcome) := Import(db, h, doc, env);
            && outcome.Completed? && after == db.(settings := after.settings)
            && Effective(defaults, after.settings) == Effective(defaults, db.settings)
  {
    OwnExportAcceptedExactlyWhen(db, h, settings, doc, env);
    OwnExportIsIdentity(db, h, settings, doc, env);
    OwnSettingsStay(db, defaults, settings, env);
  }
}
