/** A workspace's export, imported into a workspace that has no teams, custom tools, agents or channels yet
    (server/src/rivulets/workspace_yaml.py:171-268, 389-752). */
module ExportToEmpty {
  import opened Prelude
  import opened Merge
  import opened MergeAgain
  import opened WorkspaceYaml
  import opened ImportSteps
  import opened ImportSafety
  import opened ImportResults
  import opened ImportConvergence
  import opened WorkspaceExport
  import opened ExportRoundTrip

  // ----- creating rows under their ids -----

  /** Every item is a new row under its own id, and gets the row that table src has there. */
  ghost predicate CreatesAll<R>(table: Table<R>, key: R -> Option<string>, src: Table<R>, ts: seq<Target>, rows: seq<R>) {
    && |ts| == |rows|
    && (forall i :: 0 <= i < |ts| ==> ts[i].Create? && ts[i].id in src && ts[i].id !in table && rows[i] == src[ts[i].id])
    && (forall i, j :: 0 <= i < j < |ts| ==> ts[i].id != ts[j].id)
    && (forall j :: j in table ==> key(table[j]).None?)
  }

  /** The rows of table, and those of src at the targets. */
  ghost predicate AddedTo<R>(after: Table<R>, table: Table<R>, src: Table<R>, ts: seq<Target>) {
    forall id :: (id in after <==> id in table || Targeted(ts, id)) &&
                 (id in after && id in table && !Targeted(ts, id) ==> after[id] == table[id]) &&
                 (id in after && Targeted(ts, id) && id in src ==> after[id] == src[id])
  }

  lemma CreateIsNotRefused<R>(before: Table<R>, table: Table<R>, key: R -> Option<string>, unique: bool, src: Table<R>,
                              us: seq<Target>, t: Target, row: R)
    requires AddedTo(before, table, src, us) && forall id :: Targeted(us, id) ==> id in src
    requires t.Create? && t.id in src && t.id !in table && !Targeted(us, t.id) && row == src[t.id]
    requires (forall j :: j in table ==> key(table[j]).None?) && (unique ==> UniqueKeys(src, key))
    ensures !Refused(before, key, unique, t, row)
  {
    forall j | j in before && j != t.id && key(row).Some? && unique ensures key(before[j]) != key(row) {
      if Targeted(us, j) {
        assert before[j] == src[j];
      } else {
        assert before[j] == table[j];
      }
    }
  }

  lemma AddedOneMore<R>(before: Table<R>, table: Table<R>, src: Table<R>, ts: seq<Target>)
    requires ts != [] && AddedTo(before, table, src, ts[..|ts| - 1])
    requires Writes(ts[|ts| - 1]) && ts[|ts| - 1].id in src
    ensures var id := ts[|ts| - 1].id; AddedTo(before[id := src[id]], table, src, ts)
  {
    TargetedLast(ts);
  }

  lemma {:induction false} PutAllCreates<R>(table: Table<R>, key: R -> Option<string>, unique: bool, src: Table<R>,
                                            ts: seq<Target>, rows: seq<R>)
    requires CreatesAll(table, key, src, ts, rows) && (unique ==> UniqueKeys(src, key))
    ensures var (after, ok) := PutAll(table, key, unique, ts, rows); ok && AddedTo(after, table, src, ts)
  {
    if ts != [] {
      var n := |ts| - 1;
      var us := ts[..n];
      assert forall i :: 0 <= i < n ==> us[i] == ts[i] && rows[..n][i] == rows[i];
      PutAllCreates(table, key, unique, src, us, rows[..n]);
      var before := PutAll(table, key, unique, us, rows[..n]).0;
      CreateIsNotRefused(before, table, key, unique, src, us, ts[n], rows[n]);
      AddedOneMore(before, table, src, ts);
    }
  }

  /** The plan for items that are found neither by id nor by name. */
  lemma ResolvesToCreate<R>(table: Table<R>, key: R -> Option<string>, history: set<Id>, refs: seq<Ref>, newId: nat -> Id,
                            pick: Pick, ids: set<Id>)
    requires Covers(refs, ids) && ids !! table.Keys && ids !! history && "" !in ids
    requires forall j :: j in table ==> key(table[j]).None?
    ensures var ts := ResolveAll(table, key, history, refs, newId, pick);
            && (forall i :: 0 <= i < |refs| ==> ts[i] == Create(refs[i].id.value))
            && (forall id :: Targeted(ts, id) <==> id in ids)
  {
    var ts := ResolveAll(table, key, history, refs, newId, pick);
    forall i | 0 <= i < |refs| ensures ts[i] == Create(refs[i].id.value) {
      assert Named(table, key, refs[i].name) == {};
      assert refs[i].id.value in ids;
    }
    forall id | id in ids ensures Targeted(ts, id) {
      assert Mentions(refs, id);
      var i :| 0 <= i < |refs| && refs[i].id == Some(id);
      assert ts[i].id == id;
    }
  }

  /** The rows of table, and those of src with the given ids. */
  function With<R>(table: Table<R>, src: Table<R>, ids: set<Id>): Table<R>
    requires ids <= src.Keys
  {
    table + map id | id in ids :: src[id]
  }

  /** Importing items that stand for the rows of src with the given ids adds exactly these rows. */
  lemma AddsRows<R>(table: Table<R>, key: R -> Option<string>, unique: bool, history: set<Id>, refs: seq<Ref>, newId: nat -> Id,
                    pick: Pick, src: Table<R>, ids: set<Id>, rows: seq<R>)
    requires Covers(refs, ids) && ids <= src.Keys && ids !! table.Keys && ids !! history && "" !in ids
    requires forall j :: j in table ==> key(table[j]).None?
    requires |rows| == |refs| && forall i :: 0 <= i < |refs| ==> rows[i] == src[refs[i].id.value]
    requires unique ==> UniqueKeys(src, key)
    ensures var ts := ResolveAll(table, key, history, refs, newId, pick);
            && PutAll(table, key, unique, ts, rows) == (With(table, src, ids), true)
            && (forall i :: 0 <= i < |refs| ==> ts[i] == Create(refs[i].id.value))
            && DistinctTargets(ts)
  {
    var ts := ResolveAll(table, key, history, refs, newId, pick);
    ResolvesToCreate(table, key, history, refs, newId, pick, ids);
    TargetsAreIds(refs, ids, ts);
    forall i | 0 <= i < |ts| ensures ts[i].id in src && ts[i].id !in table && rows[i] == src[ts[i].id] {
      assert refs[i].id.value in ids;
    }
    PutAllCreates(table, key, unique, src, ts, rows);
    SameAsWith(PutAll(table, key, unique, ts, rows).0, table, src, ids, ts);
  }

  lemma TargetsAreIds(refs: seq<Ref>, ids: set<Id>, ts: seq<Target>)
    requires Covers(refs, ids) && |ts| == |refs| && forall i :: 0 <= i < |refs| ==> ts[i] == Create(refs[i].id.value)
    ensures forall i, j :: 0 <= i < j < |ts| ==> ts[i].id != ts[j].id
  {
    forall i, j | 0 <= i < j < |ts| ensures ts[i].id != ts[j].id {
      assert refs[i].id != refs[j].id;
    }
  }

  lemma SameAsWith<R>(after: Table<R>, table: Table<R>, src: Table<R>, ids: set<Id>, ts: seq<Target>)
    requires ids <= src.Keys && AddedTo(after, table, src, ts) && forall id :: Targeted(ts, id) <==> id in ids
    ensures after == With(table, src, ids)
  {
  }

  // ----- the empty workspace -----

  /** No teams, custom tools, agents or channels; builtin and server tools may be there, and none of the ids of the
      other workspace is known. */
  ghost predicate Blank(here: Db, h: History, db: Db) {
    && here.teams == map[] && here.agents == map[] && here.channels == map[] && here.rules == map[]
    && here.agentTools == {} && here.agentTeams == {} && here.agentScopes == {}
    && (forall t :: t in here.tools ==> here.tools[t].toolType != "custom")
    && Customs(db.tools) !! here.tools.Keys
    && "" !in db.teams && "" !in Customs(db.tools) && "" !in db.agents && "" !in db.channels
    && db.teams.Keys !! Known(h, TeamKind) && Customs(db.tools) !! Known(h, ToolKind)
    && db.agents.Keys !! Known(h, AgentKind) && db.channels.Keys !! Known(h, ChannelKind)
  }

  lemma WithAll<R>(src: Table<R>)
    ensures With(map[], src, src.Keys) == src
  {
  }

  lemma TeamsCreated(here: Db, h: History, db: Db, doc: Document, env: Env)
    requires Blank(here, h, db) && TeamsExported(db, doc.teams)
    ensures var ts := PlanTeams(here, h, doc, env);
            && PutTeams(here, ts, doc.teams) == (here.(teams := db.teams), true)
            && MapsToSelf(TeamMap(doc.teams, ts))
  {
    forall i | 0 <= i < |doc.teams| ensures TeamRows(doc.teams)[i] == db.teams[TeamRefs(doc.teams)[i].id.value] {
      assert TeamRefs(doc.teams)[i].id.value in db.teams;
    }
    AddsRows(here.teams, TeamKey(), false, Known(h, TeamKind), TeamRefs(doc.teams), NewIds(env, TeamKind), env.pick,
             db.teams, db.teams.Keys, TeamRows(doc.teams));
    WithAll(db.teams);
    var ts := PlanTeams(here, h, doc, env);
    TeamsArePutAll(here, ts, doc.teams);
    OwnTeamMap(doc.teams, ts);
  }

  /** The tools that are here, and the custom ones of the other workspace. */
  function WithCustoms(here: map<Id, Tool>, tools: map<Id, Tool>): map<Id, Tool> {
    With(here, tools, Customs(tools))
  }

  lemma ToolRowsAreRows(db: Db, items: seq<ToolItem>, i: nat)
    requires ToolsExported(db, items) && i < |items|
    ensures ToolRows(items)[i] == db.tools[ToolRefs(items)[i].id.value]
  {
    assert ToolRefs(items)[i].id.value in Customs(db.tools);
  }

  lemma ToolTableCreated(here: Db, h: History, db: Db, doc: Document, env: Env)
    requires Blank(here, h, db) && ToolsExported(db, doc.tools) && UniqueKeys(db.tools, ToolKey())
    ensures var ts := PlanTools(here, h, doc, env);
            && PutAll(here.tools, ToolKey(), true, ts, ToolRows(doc.tools)) == (WithCustoms(here.tools, db.tools), true)
            && (forall i :: 0 <= i < |ts| ==> doc.tools[i].id.Some? && ts[i] == Create(doc.tools[i].id.value)) && DistinctTargets(ts)
  {
    forall i | 0 <= i < |doc.tools| ensures ToolRows(doc.tools)[i] == db.tools[ToolRefs(doc.tools)[i].id.value] {
      ToolRowsAreRows(db, doc.tools, i);
    }
    AddsRows(here.tools, ToolKey(), true, Known(h, ToolKind), ToolRefs(doc.tools), NewIds(env, ToolKind), env.pick,
             db.tools, Customs(db.tools), ToolRows(doc.tools));
  }

  lemma AgentRowsAreRows(db: Db, items: seq<AgentItem>, i: nat)
    requires AgentsExported(db, items) && i < |items| && Canonical(db)
    ensures AgentRows(items)[i] == db.agents[AgentRefs(items)[i].id.value]
  {
    assert AgentRefs(items)[i].id.value in db.agents;
  }

  lemma AgentTableCreated(here: Db, h: History, db: Db, doc: Document, env: Env)
    requires Blank(here, h, db) && AgentsExported(db, doc.agents) && UniqueKeys(db.agents, AgentKey()) && Canonical(db)
    ensures var ts := PlanAgents(here, h, doc, env);
            && PutAll(here.agents, AgentKey(), true, ts, AgentRows(doc.agents)) == (db.agents, true)
            && (forall i :: 0 <= i < |ts| ==> doc.agents[i].id.Some? && ts[i] == Create(doc.agents[i].id.value)) && DistinctTargets(ts)
  {
    forall i | 0 <= i < |doc.agents| ensures AgentRows(doc.agents)[i] == db.agents[AgentRefs(doc.agents)[i].id.value] {
      AgentRowsAreRows(db, doc.agents, i);
    }
    AddsRows(here.agents, AgentKey(), true, Known(h, AgentKind), AgentRefs(doc.agents), NewIds(env, AgentKind), env.pick,
             db.agents, db.agents.Keys, AgentRows(doc.agents));
    WithAll(db.agents);
  }

  lemma ChannelRowsAreRows(db: Db, items: seq<ChannelItem>, m: map<Id, Option<Id>>, i: nat)
    requires ChannelsExported(db, items) && i < |items| && MapsToSelf(m)
    ensures ChannelRows(m, items)[i] == db.channels[ChannelRefs(items)[i].id.value]
  {
    assert ChannelRefs(items)[i].id.value in db.channels;
  }

  lemma ChannelTableCreated(here: Db, h: History, db: Db, doc: Document, env: Env, m: map<Id, Option<Id>>)
    requires Blank(here, h, db) && ChannelsExported(db, doc.channels) && UniqueKeys(db.channels, ChannelKey()) && MapsToSelf(m)
    ensures PutAll(here.channels, ChannelKey(), true, PlanChannels(here, h, doc, env), ChannelRows(m, doc.channels)) == (db.channels, true)
  {
    forall i | 0 <= i < |doc.channels| ensures ChannelRows(m, doc.channels)[i] == db.channels[ChannelRefs(doc.channels)[i].id.value] {
      ChannelRowsAreRows(db, doc.channels, m, i);
    }
    AddsRows(here.channels, ChannelKey(), true, Known(h, ChannelKind), ChannelRefs(doc.channels), NewIds(env, ChannelKind), env.pick,
             db.channels, db.channels.Keys, ChannelRows(m, doc.channels));
    WithAll(db.channels);
  }

  // ----- the whole import -----

  lemma DistinctAreLast(ts: seq<Target>, k: nat)
    requires DistinctTargets(ts) && k < |ts| && Writes(ts[k])
    ensures LastWriter(ts, k)
  {
  }

  /** Sources, joins and rules are what the items say. */
  ghost predicate Settled(doc: Document, p: Plans, after: Db, pick: Pick)
    requires Sized(doc, p)
  {
    && (forall k :: 0 <= k < |doc.tools| && Writes(p.tools[k]) && doc.tools[k].source != "" ==>
          p.tools[k].id in after.sources && after.sources[p.tools[k].id] == doc.tools[k].source)
    && (forall k :: 0 <= k < |doc.agents| && Writes(p.agents[k]) ==>
          AgentSettled(after, p.agents[k].id, doc.agents[k], TeamMap(doc.teams, p.teams), pick))
  }

  lemma RunsSettle(db: Db, doc: Document, p: Plans, env: Env, s: Phases)
    requires Sized(doc, p) && Runs(db, doc, p, TeamMap(doc.teams, p.teams), env, s)
    requires DistinctTargets(p.tools) && DistinctTargets(p.agents)
    ensures Settled(doc, p, s.afterChannels, env.pick)
  {
    var m := TeamMap(doc.teams, p.teams);
    RunsWriteTables(db, doc, p, m, env, s);
    forall k | 0 <= k < |doc.tools| && Writes(p.tools[k]) && doc.tools[k].source != ""
      ensures p.tools[k].id in s.afterChannels.sources && s.afterChannels.sources[p.tools[k].id] == doc.tools[k].source
    {
      DistinctAreLast(p.tools, k);
      SourcesSettle(s.afterTeams, p.tools, doc.tools, k);
    }
    forall k | 0 <= k < |doc.agents| && Writes(p.agents[k])
      ensures AgentSettled(s.afterChannels, p.agents[k].id, doc.agents[k], m, env.pick)
    {
      DistinctAreLast(p.agents, k);
      AgentsSettle(s.afterTools, p.agents, doc.agents, m, env.pick, k);
    }
  }

  lemma SettledIgnoresSettings(doc: Document, p: Plans, d: Db, after: Db, pick: Pick)
    requires Sized(doc, p) && Settled(doc, p, d, pick) && after == d.(settings := after.settings)
    ensures Settled(doc, p, after, pick)
  {
    forall k | 0 <= k < |doc.agents| && Writes(p.agents[k])
      ensures AgentSettled(after, p.agents[k].id, doc.agents[k], TeamMap(doc.teams, p.teams), pick)
    {
      assert AgentSettled(d, p.agents[k].id, doc.agents[k], TeamMap(doc.teams, p.teams), pick);
    }
  }

  lemma BlankIsSound(here: Db, h: History, db: Db)
    requires Blank(here, h, db)
    ensures NoDangling(here) && Indexed(here)
  {
  }

  /** The state between the phases of the import. */
  lemma RunsFromBlank(here: Db, h: History, db: Db, settings: seq<Setting>, doc: Document, env: Env) returns (s: Phases)
    requires Blank(here, h, db) && IsExport(db, settings, doc) && Indexed(db) && Canonical(db)
    ensures var p := Planned(here, h, doc, env);
            && Runs(here, doc, p, TeamMap(doc.teams, p.teams), env, s) && MapsToSelf(TeamMap(doc.teams, p.teams))
            && s.afterChannels.teams == db.teams && s.afterChannels.agents == db.agents && s.afterChannels.channels == db.channels
            && s.afterChannels.tools == WithCustoms(here.tools, db.tools)
  {
    var p := Planned(here, h, doc, env);
    var m := TeamMap(doc.teams, p.teams);
    TeamsCreated(here, h, db, doc, env);
    ToolTableCreated(here, h, db, doc, env);
    AgentTableCreated(here, h, db, doc, env);
    ChannelTableCreated(here, h, db, doc, env, m);
    var d1 := PutTeams(here, p.teams, doc.teams).0;
    ToolsArePutAll(d1, p.tools, doc.tools);
    var d2 := PutTools(d1, p.tools, doc.tools).0;
    AgentsArePutAll(d2, p.agents, doc.agents, m, env.pick);
    var d3 := PutAgents(d2, p.agents, doc.agents, m, env.pick).0;
    ChannelsArePutAll(d3, p.channels, doc.channels, m);
    s := Phases(d1, d2, d3, PutChannels(d3, p.channels, doc.channels, m).0);
  }

  /** The import completes, in a state where each agent of the other workspace is settled as its item says. */
  lemma CompletesFromBlank(here: Db, h: History, db: Db, settings: seq<Setting>, doc: Document, env: Env)
    requires Blank(here, h, db) && IsExport(db, settings, doc) && Indexed(db) && Canonical(db) && Accepted(here, h, doc, env)
    ensures var p := Planned(here, h, doc, env);
            var (after, outcome) := Import(here, h, doc, env);
            && outcome == Completed(p) && Settled(doc, p, after, env.pick) && MapsToSelf(TeamMap(doc.teams, p.teams))
            && after.teams == db.teams && after.agents == db.agents && after.channels == db.channels
            && after.tools == WithCustoms(here.tools, db.tools)
  {
    var p := Planned(here, h, doc, env);
    var s := RunsFromBlank(here, h, db, settings, doc, env);
    RefusedExactlyWhen(here, h, doc, env);
    RunsCompletes(here, h, doc, env, s);
    ToolTableCreated(here, h, db, doc, env);
    AgentTableCreated(here, h, db, doc, env);
    RunsSettle(here, doc, p, env, s);
    SettingsOnly(s.afterChannels, doc.settings, env);
    SettledIgnoresSettings(doc, p, s.afterChannels, PutSettings(s.afterChannels, doc.settings, env), env.pick);
  }

  /** What one agent of the other workspace gets: its teams, scopes and rules, and of its tools the custom ones. */
  ghost predicate AgentCarriedOver(db: Db, after: Db, a: Id) {
    && Of(after.agentTeams, a) == Of(db.agentTeams, a)
    && Of(after.agentScopes, a) == Of(db.agentScopes, a)
    && a in after.rules && after.rules[a] == RulesOf(db, a)
    && forall t :: t in Customs(db.tools) ==> (t in Of(after.agentTools, a) <==> t in Of(db.agentTools, a))
  }

  lemma CustomToolsCarriedOver(db: Db, after: Db, here: map<Id, Tool>, a: Id, item: AgentItem, pick: Pick, t: Id)
    requires a in db.agents && AgentExported(db, a, db.agents[a], item) && UniqueKeys(db.tools, ToolKey())
    requires after.tools == WithCustoms(here, db.tools) && UniqueKeys(after.tools, ToolKey()) && PicksMembers(pick)
    requires t in Customs(db.tools)
    ensures t in ToolIds(after.tools, item.tools, pick) <==> t in Of(db.agentTools, a)
  {
    var r := ToolRef("custom", db.tools[t].name);
    assert after.tools[t] == db.tools[t];
    assert ToolMatches(after.tools, r) == {t} by {
      forall x | x in ToolMatches(after.tools, r) ensures x == t {
        assert ToolKey()(after.tools[x]) == ToolKey()(after.tools[t]) == Some(r.name);
      }
    }
    assert pick({t}) in {t};
    InOf(db.agentTools, a, t);
    if (a, t) in db.agentTools {
      assert (a, t).1 == t;
      assert r in AssignedRefs(db, a);
      assert r in item.tools;
    }
    if t in ToolIds(after.tools, item.tools, pick) {
      var q :| q in item.tools && ToolMatches(after.tools, q) != {} && t == pick(ToolMatches(after.tools, q));
      assert t in ToolMatches(after.tools, q);
      assert q in AssignedRefs(db, a);
      var p :| p in db.agentTools && p.0 == a && p.1 in db.tools && q == ToolRef(db.tools[p.1].toolType, db.tools[p.1].name);
      assert ToolKey()(db.tools[p.1]) == ToolKey()(db.tools[t]) == Some(q.name);
      assert p == (a, t);
    }
  }

  lemma AgentIsCarriedOver(here: map<Id, Tool>, db: Db, after: Db, a: Id, item: AgentItem, m: map<Id, Option<Id>>, pick: Pick)
    requires a in db.agents && AgentExported(db, a, db.agents[a], item) && UniqueKeys(db.tools, ToolKey())
    requires after.tools == WithCustoms(here, db.tools) && UniqueKeys(after.tools, ToolKey()) && PicksMembers(pick)
    requires AgentSettled(after, a, item, m, pick) && MapsToSelf(m)
    ensures AgentCarriedOver(db, after, a)
  {
    OwnTeamIds(m, item.teams);
    forall t | t in Customs(db.tools) ensures t in Of(after.agentTools, a) <==> t in Of(db.agentTools, a) {
      CustomToolsCarriedOver(db, after, here, a, item, pick, t);
    }
  }

  lemma SameRelation<X>(rel: set<(Id, X)>, other: set<(Id, X)>, ids: set<Id>)
    requires forall p :: p in rel ==> p.0 in ids
    requires forall p :: p in other ==> p.0 in ids
    requires forall a :: a in ids ==> Of(rel, a) == Of(other, a)
    ensures rel == other
  {
    forall p ensures p in rel <==> p in other {
      assert p == (p.0, p.1);
      InOf(rel, p.0, p.1);
      InOf(other, p.0, p.1);
    }
  }

  lemma AllAgentsCarriedOver(db: Db, after: Db)
    requires NoDangling(db) && NoDangling(after) && after.agents == db.agents
    requires forall a :: a in db.agents ==> AgentCarriedOver(db, after, a)
    ensures after.agentTeams == db.agentTeams && after.agentScopes == db.agentScopes && after.rules == db.rules
    ensures forall p: (Id, Id) :: p.1 in Customs(db.tools) ==> (p in after.agentTools <==> p in db.agentTools)
  {
    SameRelation(after.agentTeams, db.agentTeams, db.agents.Keys);
    SameRelation(after.agentScopes, db.agentScopes, db.agents.Keys);
    forall a | a in db.agents ensures a in after.rules && after.rules[a] == db.rules[a] {
      assert AgentCarriedOver(db, after, a);
    }
    forall p: (Id, Id) | p.1 in Customs(db.tools) ensures p in after.agentTools <==> p in db.agentTools {
      CustomPairCarriedOver(db, after, p);
    }
  }

  lemma CustomPairCarriedOver(db: Db, after: Db, p: (Id, Id))
    requires NoDangling(db) && NoDangling(after) && after.agents == db.agents
    requires forall a :: a in db.agents ==> AgentCarriedOver(db, after, a)
    requires p.1 in Customs(db.tools)
    ensures p in after.agentTools <==> p in db.agentTools
  {
    assert p == (p.0, p.1);
    InOf(after.agentTools, p.0, p.1);
    InOf(db.agentTools, p.0, p.1);
    if p.0 in db.agents {
      assert AgentCarriedOver(db, after, p.0);
    }
  }

  lemma SourceCarriedOver(db: Db, after: Db, doc: Document, p: Plans, pick: Pick, t: Id)
    requires Sized(doc, p) && ToolsExported(db, doc.tools) && Settled(doc, p, after, pick)
    requires forall i :: 0 <= i < |doc.tools| ==> doc.tools[i].id.Some? && p.tools[i] == Create(doc.tools[i].id.value)
    requires t in Customs(db.tools) && t in db.sources && db.sources[t] != ""
    ensures t in after.sources && after.sources[t] == db.sources[t]
  {
    assert Mentions(ToolRefs(doc.tools), t);
    var i :| 0 <= i < |doc.tools| && ToolRefs(doc.tools)[i].id == Some(t);
    assert p.tools[i].id == t && doc.tools[i].source == db.sources[t];
  }

  /** An export imported into an empty workspace rebuilds the definition: the same teams, custom tools with their
      source, agents with their teams, scopes, rules and custom tools, and channels, all under the same ids. */
  lemma ExportRebuilds(here: Db, h: History, db: Db, settings: seq<Setting>, doc: Document, env: Env)
    requires Blank(here, h, db) && IsExport(db, settings, doc) && Accepted(here, h, doc, env)
    requires Indexed(db) && NoDangling(db) && Canonical(db) && PicksMembers(env.pick)
    ensures var (after, outcome) := Import(here, h, doc, env);
            && outcome.Completed?
            && after.teams == db.teams && after.agents == db.agents && after.channels == db.channels
            && after.tools == WithCustoms(here.tools, db.tools)
            && (forall t :: t in Customs(db.tools) && t in db.sources && db.sources[t] != "" ==> t in after.sources && after.sources[t] == db.sources[t])
            && after.agentTeams == db.agentTeams && after.agentScopes == db.agentScopes && after.rules == db.rules
            && (forall p: (Id, Id) :: p.1 in Customs(db.tools) ==> (p in after.agentTools <==> p in db.agentTools))
  {
    var after := Import(here, h, doc, env).0;
    CompletesFromBlank(here, h, db, settings, doc, env);
    AgentsFromBlank(here, h, db, settings, doc, env);
    BlankIsSound(here, h, db);
    NothingDangles(here, h, doc, env);
    AllAgentsCarriedOver(db, after);
    ToolTableCreated(here, h, db, doc, env);
    forall t | t in Customs(db.tools) && t in db.sources && db.sources[t] != "" ensures t in after.sources && after.sources[t] == db.sources[t] {
      SourceCarriedOver(db, after, doc, Planned(here, h, doc, env), env.pick, t);
    }
  }

  lemma AgentsFromBlank(here: Db, h: History, db: Db, settings: seq<Setting>, doc: Document, env: Env)
    requires Blank(here, h, db) && IsExport(db, settings, doc) && Accepted(here, h, doc, env)
    requires Indexed(db) && NoDangling(db) && Canonical(db) && PicksMembers(env.pick)
    ensures forall a :: a in db.agents ==> AgentCarriedOver(db, Import(here, h, doc, env).0, a)
  {
    var after := Import(here, h, doc, env).0;
    var p := Planned(here, h, doc, env);
    CompletesFromBlank(here, h, db, settings, doc, env);
    AgentTableCreated(here, h, db, doc, env);
    BlankIsSound(here, h, db);
    IndexesHold(here, h, doc, env);
    forall a | a in db.agents ensures AgentCarriedOver(db, after, a) {
      var i := IndexOfAgent(db, doc, a);
      assert p.agents[i] == Create(a);
      assert AgentSettled(after, a, doc.agents[i], TeamMap(doc.teams, p.teams), env.pick);
      AgentIsCarriedOver(here.tools, db, after, a, doc.agents[i], TeamMap(doc.teams, p.teams), env.pick);
    }
  }

  // ----- when an empty workspace accepts the export -----

  lemma ToolAcceptedFromBlank(here: Db, db: Db, doc: Document, env: Env, i: nat, t: Target)
    requires ToolsExported(db, doc.tools) && i < |doc.tools| && doc.tools[i].id.Some? && t == Create(doc.tools[i].id.value)
    ensures doc.tools[i].id.value in Customs(db.tools)
    ensures ToolAccepted(here, env, doc.tools[i], t) <==> ToolImportable(db, doc.tools[i].id.value, env)
  {
    assert ToolRefs(doc.tools)[i].id.value in Customs(db.tools);
  }

  lemma IndexOfTool(db: Db, doc: Document, t: Id) returns (i: nat)
    requires ToolsExported(db, doc.tools) && t in Customs(db.tools)
    ensures i < |doc.tools| && doc.tools[i].id == Some(t)
  {
    assert Mentions(ToolRefs(doc.tools), t);
    i :| 0 <= i < |doc.tools| && ToolRefs(doc.tools)[i].id == Some(t);
  }

  lemma ToolsAcceptedFromBlank(here: Db, h: History, db: Db, doc: Document, env: Env)
    requires Blank(here, h, db) && ToolsExported(db, doc.tools) && UniqueKeys(db.tools, ToolKey())
    ensures AllToolsAccepted(here, env, doc.tools, PlanTools(here, h, doc, env)) <==> AllToolsImportable(db, env)
  {
    var ts := PlanTools(here, h, doc, env);
    ToolTableCreated(here, h, db, doc, env);
    if AllToolsAccepted(here, env, doc.tools, ts) {
      forall t | t in Customs(db.tools) ensures ToolImportable(db, t, env) {
        var i := IndexOfTool(db, doc, t);
        ToolAcceptedFromBlank(here, db, doc, env, i, ts[i]);
      }
    }
    if AllToolsImportable(db, env) {
      forall i | 0 <= i < |doc.tools| ensures ToolAccepted(here, env, doc.tools[i], ts[i]) {
        ToolAcceptedFromBlank(here, db, doc, env, i, ts[i]);
      }
    }
  }

  /** Once all its tools are accepted, the file has a tool of every name that a custom tool has. */
  lemma FileHasCustoms(here: Db, h: History, db: Db, doc: Document, env: Env, t: Id)
    requires Blank(here, h, db) && ToolsExported(db, doc.tools) && UniqueKeys(db.tools, ToolKey()) && t in Customs(db.tools)
    requires AllToolsAccepted(here, env, doc.tools, PlanTools(here, h, doc, env))
    ensures db.tools[t].name in FileToolNames(here, env, doc.tools, PlanTools(here, h, doc, env))
  {
    var ts := PlanTools(here, h, doc, env);
    ToolTableCreated(here, h, db, doc, env);
    assert Mentions(ToolRefs(doc.tools), t);
    var i :| 0 <= i < |doc.tools| && ToolRefs(doc.tools)[i].id == Some(t);
    assert ToolAccepted(here, env, doc.tools[i], ts[i]);
    ToolHasNoProblems(here, env, doc.tools[i], ts[i]);
    assert Writes(ts[i]) && doc.tools[i].name == db.tools[t].name;
  }

  lemma AgentAcceptedFromBlank(here: Db, db: Db, env: Env, m: map<Id, Option<Id>>, fileNames: set<string>, a: Id, item: AgentItem, t: Target)
    requires a in db.agents && AgentExported(db, a, db.agents[a], item) && NoDangling(db) && t.Create?
    requires FileKnows(db, m, fileNames)
    ensures AgentAccepted(here, env, m, fileNames, item, t) <==> JoinsImportable(db, a, env)
  {
    forall i | 0 <= i < |item.teams| ensures TeamKnown(here, m, item.teams[i]) {
      assert item.teams[i] in Elements(item.teams);
      InOf(db.agentTeams, a, item.teams[i]);
      assert (a, item.teams[i]) in db.agentTeams;
    }
    forall x ensures x in item.scopes <==> x in Of(db.agentScopes, a) {
      assert x in item.scopes <==> x in Elements(item.scopes);
    }
    forall r ensures r in item.tools <==> r in AssignedRefs(db, a) {
      assert r in item.tools <==> r in set q | q in item.tools;
    }
    forall r | r in item.tools ensures ToolKnown(here, fileNames, r) <==> r.toolType in TOOL_TYPES {
      assert r in AssignedRefs(db, a);
    }
  }

  /** The file knows every team and every custom tool of the workspace. */
  ghost predicate FileKnows(db: Db, m: map<Id, Option<Id>>, fileNames: set<string>) {
    (forall x :: x in db.teams ==> x in m) && (forall x :: x in Customs(db.tools) ==> db.tools[x].name in fileNames)
  }

  lemma AgentAcceptedFromBlankAt(here: Db, h: History, db: Db, doc: Document, env: Env, m: map<Id, Option<Id>>, fileNames: set<string>, i: nat)
    requires AgentsExported(db, doc.agents) && NoDangling(db) && i < |doc.agents| && PlanAgents(here, h, doc, env)[i].Create?
    requires FileKnows(db, m, fileNames)
    ensures OwnAgentAt(doc, i) in db.agents
    ensures AgentAccepted(here, env, m, fileNames, doc.agents[i], PlanAgents(here, h, doc, env)[i]) <==> JoinsImportable(db, OwnAgentAt(doc, i), env)
  {
    assert AgentRefs(doc.agents)[i].id.value in db.agents;
    AgentAcceptedFromBlank(here, db, env, m, fileNames, OwnAgentAt(doc, i), doc.agents[i], PlanAgents(here, h, doc, env)[i]);
  }

  lemma AgentsAcceptedFromBlank(here: Db, h: History, db: Db, doc: Document, env: Env, m: map<Id, Option<Id>>, fileNames: set<string>)
    requires AgentsExported(db, doc.agents) && NoDangling(db) && FileKnows(db, m, fileNames)
    requires forall i :: 0 <= i < |doc.agents| ==> PlanAgents(here, h, doc, env)[i].Create?
    ensures AllAgentsAccepted(here, env, m, fileNames, doc.agents, PlanAgents(here, h, doc, env)) <==> AllJoinsImportable(db, env)
  {
    var ts := PlanAgents(here, h, doc, env);
    if AllAgentsAccepted(here, env, m, fileNames, doc.agents, ts) {
      forall a | a in db.agents ensures JoinsImportable(db, a, env) {
        var i := IndexOfAgent(db, doc, a);
        AgentAcceptedFromBlankAt(here, h, db, doc, env, m, fileNames, i);
      }
    }
    if AllJoinsImportable(db, env) {
      forall i | 0 <= i < |doc.agents| ensures AgentAccepted(here, env, m, fileNames, doc.agents[i], ts[i]) {
        AgentAcceptedFromBlankAt(here, h, db, doc, env, m, fileNames, i);
      }
    }
  }

  lemma TeamsFromBlank(here: Db, h: History, db: Db, doc: Document, env: Env)
    requires Blank(here, h, db) && TeamsExported(db, doc.teams)
    ensures var ts := PlanTeams(here, h, doc, env);
            Unambiguous(ts) && forall t :: t in db.teams ==> t in TeamMap(doc.teams, ts)
  {
    var ts := PlanTeams(here, h, doc, env);
    ResolvesToCreate(here.teams, TeamKey(), Known(h, TeamKind), TeamRefs(doc.teams), NewIds(env, TeamKind), env.pick, db.teams.Keys);
    forall i | 0 <= i < |ts| ensures ts[i] == Create(doc.teams[i].id.value) && doc.teams[i].id.Some? {
      assert TeamRefs(doc.teams)[i].id.Some?;
    }
    OwnTeamMap(doc.teams, ts);
    forall t | t in db.teams ensures t in TeamMap(doc.teams, ts) {
      assert Mentions(TeamRefs(doc.teams), t);
    }
  }

  lemma ChannelsAcceptedFromBlank(here: Db, h: History, db: Db, doc: Document, env: Env, m: map<Id, Option<Id>>, i: nat)
    requires Blank(here, h, db) && ChannelsExported(db, doc.channels) && NoDangling(db) && i < |doc.channels|
    requires forall x :: x in db.teams ==> x in m
    ensures ChannelAccepted(here, m, doc.channels[i], PlanChannels(here, h, doc, env)[i])
  {
    ResolvesToCreate(here.channels, ChannelKey(), Known(h, ChannelKind), ChannelRefs(doc.channels), NewIds(env, ChannelKind), env.pick, db.channels.Keys);
    assert ChannelRefs(doc.channels)[i].id.value in db.channels;
  }

  lemma AllChannelsAcceptedFromBlank(here: Db, h: History, db: Db, doc: Document, env: Env)
    requires Blank(here, h, db) && TeamsExported(db, doc.teams) && ChannelsExported(db, doc.channels) && NoDangling(db)
    ensures var m := TeamMap(doc.teams, PlanTeams(here, h, doc, env));
            AllChannelsAccepted(here, m, doc.channels, PlanChannels(here, h, doc, env))
  {
    var m := TeamMap(doc.teams, PlanTeams(here, h, doc, env));
    TeamsFromBlank(here, h, db, doc, env);
    forall i | 0 <= i < |doc.channels| ensures ChannelAccepted(here, m, doc.channels[i], PlanChannels(here, h, doc, env)[i]) {
      ChannelsAcceptedFromBlank(here, h, db, doc, env, m, i);
    }
  }

  lemma FileKnowsAll(here: Db, h: History, db: Db, doc: Document, env: Env)
    requires Blank(here, h, db) && TeamsExported(db, doc.teams) && ToolsExported(db, doc.tools) && UniqueKeys(db.tools, ToolKey())
    requires AllToolsAccepted(here, env, doc.tools, PlanTools(here, h, doc, env))
    ensures FileKnows(db, TeamMap(doc.teams, PlanTeams(here, h, doc, env)), FileToolNames(here, env, doc.tools, PlanTools(here, h, doc, env)))
  {
    TeamsFromBlank(here, h, db, doc, env);
    forall x | x in Customs(db.tools) ensures db.tools[x].name in FileToolNames(here, env, doc.tools, PlanTools(here, h, doc, env)) {
      FileHasCustoms(here, h, db, doc, env, x);
    }
  }

  lemma AllAgentsAcceptedFromBlank(here: Db, h: History, db: Db, doc: Document, env: Env)
    requires Blank(here, h, db) && TeamsExported(db, doc.teams) && ToolsExported(db, doc.tools) && AgentsExported(db, doc.agents)
    requires Indexed(db) && NoDangling(db) && Canonical(db)
    requires AllToolsAccepted(here, env, doc.tools, PlanTools(here, h, doc, env))
    ensures var m := TeamMap(doc.teams, PlanTeams(here, h, doc, env));
            var fileNames := FileToolNames(here, env, doc.tools, PlanTools(here, h, doc, env));
            AllAgentsAccepted(here, env, m, fileNames, doc.agents, PlanAgents(here, h, doc, env)) <==> AllJoinsImportable(db, env)
  {
    var m := TeamMap(doc.teams, PlanTeams(here, h, doc, env));
    var fileNames := FileToolNames(here, env, doc.tools, PlanTools(here, h, doc, env));
    FileKnowsAll(here, h, db, doc, env);
    AgentTableCreated(here, h, db, doc, env);
    AgentsAcceptedFromBlank(here, h, db, doc, env, m, fileNames);
  }

  lemma ItemsAcceptedFromBlank(here: Db, h: History, db: Db, settings: seq<Setting>, doc: Document, env: Env)
    requires Blank(here, h, db) && IsExport(db, settings, doc) && Indexed(db) && NoDangling(db) && Canonical(db)
    ensures ItemsAccepted(here, doc, Planned(here, h, doc, env), env) <==> ContentsImportable(db, env)
  {
    TeamsFromBlank(here, h, db, doc, env);
    ToolsAcceptedFromBlank(here, h, db, doc, env);
    AllChannelsAcceptedFromBlank(here, h, db, doc, env);
    JoinsOfAll(db, env);
    if AllToolsAccepted(here, env, doc.tools, PlanTools(here, h, doc, env)) {
      AllAgentsAcceptedFromBlank(here, h, db, doc, env);
    }
  }

  /** An empty workspace accepts the export exactly when the workspace it came from would. */
  lemma BlankAcceptsExactlyWhen(here: Db, h: History, h2: History, db: Db, settings: seq<Setting>, doc: Document, env: Env)
    requires Blank(here, h, db) && IsExport(db, settings, doc) && Indexed(db) && NoDangling(db) && Canonical(db)
    ensures Accepted(here, h, doc, env) <==> Importable(db, settings, env)
    ensures Accepted(here, h, doc, env) <==> Accepted(db, h2, doc, env)
  {
    OwnForm(db, settings, doc);
    OwnItemsAccepted(db, h2, settings, doc, env);
    ItemsAcceptedFromBlank(here, h, db, settings, doc, env);
  }

  // ----- importing the export twice -----

  lemma StableFromBlank(here: Db, h: History, db: Db, settings: seq<Setting>, doc: Document, env: Env)
    requires Blank(here, h, db) && IsExport(db, settings, doc) && Indexed(db) && Canonical(db)
    ensures var p := Planned(here, h, doc, env);
            StablePlan(doc, p) && ChannelsStable(doc, p.channels, TeamMap(doc.teams, p.teams))
  {
    var p := Planned(here, h, doc, env);
    ResolvesToCreate(here.teams, TeamKey(), Known(h, TeamKind), TeamRefs(doc.teams), NewIds(env, TeamKind), env.pick, db.teams.Keys);
    OwnIdsAreStable(TeamKey(), TeamRefs(doc.teams), p.teams, TeamRows(doc.teams));
    ResolvesToCreate(here.tools, ToolKey(), Known(h, ToolKind), ToolRefs(doc.tools), NewIds(env, ToolKind), env.pick, Customs(db.tools));
    OwnIdsAreStable(ToolKey(), ToolRefs(doc.tools), p.tools, ToolRows(doc.tools));
    ResolvesToCreate(here.agents, AgentKey(), Known(h, AgentKind), AgentRefs(doc.agents), NewIds(env, AgentKind), env.pick, db.agents.Keys);
    OwnIdsAreStable(AgentKey(), AgentRefs(doc.agents), p.agents, AgentRows(doc.agents));
    ResolvesToCreate(here.channels, ChannelKey(), Known(h, ChannelKind), ChannelRefs(doc.channels), NewIds(env, ChannelKind), env.pick, db.channels.Keys);
    OwnIdsAreStable(ChannelKey(), ChannelRefs(doc.channels), p.channels, ChannelRows(TeamMap(doc.teams, p.teams), doc.channels));
  }

  lemma ToolRefStaysKnown(here: Db, db: Db, after: Db, fileNames: set<string>, env: Env, a: Id, item: AgentItem, i: nat)
    requires a in db.agents && AgentExported(db, a, db.agents[a], item) && i < |item.tools| && JoinsImportable(db, a, env)
    requires after.tools == WithCustoms(here.tools, db.tools)
    ensures ToolKnown(after, fileNames, item.tools[i])
  {
    var r := item.tools[i];
    assert r in item.tools;
    assert r in AssignedRefs(db, a);
    var p :| p in db.agentTools && p.0 == a && p.1 in db.tools && r == ToolRef(db.tools[p.1].toolType, db.tools[p.1].name);
    if r.toolType == "custom" {
      assert p.1 in Customs(db.tools);
      assert after.tools[p.1] == db.tools[p.1];
    }
  }

  lemma CustomToolsStayKnown(here: Db, db: Db, after: Db, fileNames: set<string>, settings: seq<Setting>, doc: Document, env: Env)
    requires IsExport(db, settings, doc) && NoDangling(db) && ContentsImportable(db, env)
    requires after.tools == WithCustoms(here.tools, db.tools)
    ensures CustomToolsKnown(after, fileNames, doc.agents)
  {
    JoinsOfAll(db, env);
    forall k, i | 0 <= k < |doc.agents| && 0 <= i < |doc.agents[k].tools| ensures ToolKnown(after, fileNames, doc.agents[k].tools[i]) {
      assert AgentRefs(doc.agents)[k].id.value in db.agents;
      assert JoinsImportable(db, doc.agents[k].id.value, env);
      ToolRefStaysKnown(here, db, after, fileNames, env, doc.agents[k].id.value, doc.agents[k], i);
    }
  }

  /** "Re-importing an export converges instead of duplicating": once an empty workspace has imported it, importing it
      again completes and changes nothing, with whatever new ids and whatever sync history the first import left. */
  lemma ExportConverges(here: Db, h: History, db: Db, settings: seq<Setting>, doc: Document, env: Env, later: History, env2: Env)
    requires Blank(here, h, db) && IsExport(db, settings, doc) && Importable(db, settings, env) && IsMapping(settings)
    requires Indexed(db) && NoDangling(db) && Canonical(db)
    requires NewIdsAreFresh(here, h, doc, env) && PicksMembers(env.pick) && Afresh(env, env2)
    requires var after := Import(here, h, doc, env).0; Follows(h, later, after) && PicksAgree(after.tools, doc.agents, env.pick, env2.pick)
    ensures var (after, outcome) := Import(here, h, doc, env);
            outcome.Completed? && Import(after, later, doc, env2) == (after, Completed(Planned(after, later, doc, env2)))
  {
    BlankAcceptsExactlyWhen(here, h, h, db, settings, doc, env);
    BlankIsSound(here, h, db);
    CompletesFromBlank(here, h, db, settings, doc, env);
    StableFromBlank(here, h, db, settings, doc, env);
    var after := Import(here, h, doc, env).0;
    CustomToolsStayKnown(here, db, after, FileToolNames(here, env, doc.tools, PlanTools(here, h, doc, env)), settings, doc, env);
    AcceptedAgainExactlyWhen(here, h, doc, env, later, env2);
    SecondImportIsIdentity(here, h, doc, env, later, env2);
  }
}
