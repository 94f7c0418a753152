/** Export of a workspace definition and what importing it again does (server/src/rivulets/workspace_yaml.py:171-268,
    389-752; the settings it carries: server/src/rivulets/api/settings.py:83-87, 139-144). */
module WorkspaceExport {
  import opened Prelude
  import opened Merge
  import opened WorkspaceYaml
  import opened ImportSteps
  import opened ImportSafety
  import opened ImportResults

  // ----- the export of each row -----

  function ExportTeam(id: Id, row: Team): TeamItem {
    TeamItem(Some(id), row.name, row.description)
  }

  /** A tool whose file cannot be read is exported without source. */
  function ExportTool(id: Id, row: Tool, sources: map<Id, string>): ToolItem {
    ToolItem(Some(id), row.name, row.description, if id in sources then sources[id] else "")
  }

  function ExportChannel(id: Id, row: Channel): ChannelItem {
    ChannelItem(Some(id), row.name, row.description, row.teamId, row.position, row.archived)
  }

  function AssignedRefs(db: Db, a: Id): set<ToolRef> {
    set p | p in db.agentTools && p.0 == a && p.1 in db.tools :: ToolRef(db.tools[p.1].toolType, db.tools[p.1].name)
  }

  /** The fields come over as they are, the joins as lists of what they hold, tools by type and name. */
  ghost predicate AgentExported(db: Db, id: Id, row: Agent, item: AgentItem) {
    && item == AgentItem(Some(id), row.name, row.description, row.instructions, row.model,
                         if row.fallback.Some? then row.fallback.value else [], row.schema, row.approved,
                         item.tools, item.teams, item.scopes, item.rules)
    && (set r | r in item.tools) == AssignedRefs(db, id)
    && Elements(item.teams) == Of(db.agentTeams, id)
    && Elements(item.scopes) == Of(db.agentScopes, id)
    && item.rules.Some? && multiset(item.rules.value) == RulesOf(db, id)
  }

  function Customs(tools: map<Id, Tool>): set<Id> {
    set t | t in tools && tools[t].toolType == "custom"
  }

  /** Each of the ids once. */
  ghost predicate Covers(refs: seq<Ref>, ids: set<Id>) {
    && (forall i :: 0 <= i < |refs| ==> refs[i].id.Some? && refs[i].id.value in ids)
    && (forall i, j :: 0 <= i < j < |refs| ==> refs[i].id != refs[j].id)
    && (forall id :: id in ids ==> Mentions(refs, id))
  }

  ghost predicate Mentions(refs: seq<Ref>, id: Id) {
    exists i :: 0 <= i < |refs| && refs[i].id == Some(id)
  }

  ghost predicate TeamsExported(db: Db, items: seq<TeamItem>) {
    && Covers(TeamRefs(items), db.teams.Keys)
    && forall i :: 0 <= i < |items| ==> TeamRefs(items)[i].id.value in db.teams && items[i] == ExportTeam(items[i].id.value, db.teams[items[i].id.value])
  }

  ghost predicate ToolsExported(db: Db, items: seq<ToolItem>) {
    && Covers(ToolRefs(items), Customs(db.tools))
    && forall i :: 0 <= i < |items| ==> ToolRefs(items)[i].id.value in db.tools && items[i] == ExportTool(items[i].id.value, db.tools[items[i].id.value], db.sources)
  }

  ghost predicate AgentsExported(db: Db, items: seq<AgentItem>) {
    && Covers(AgentRefs(items), db.agents.Keys)
    && forall i :: 0 <= i < |items| ==> AgentRefs(items)[i].id.value in db.agents && AgentExported(db, items[i].id.value, db.agents[items[i].id.value], items[i])
  }

  ghost predicate ChannelsExported(db: Db, items: seq<ChannelItem>) {
    && Covers(ChannelRefs(items), db.channels.Keys)
    && forall i :: 0 <= i < |items| ==> ChannelRefs(items)[i].id.value in db.channels && items[i] == ExportChannel(items[i].id.value, db.channels[items[i].id.value])
  }

  /** The document is an export of the workspace, in any order of the items. */
  ghost predicate IsExport(db: Db, settings: seq<Setting>, doc: Document) {
    && doc.version == EXPORT_VERSION && doc.settings == settings
    && TeamsExported(db, doc.teams) && ToolsExported(db, doc.tools)
    && AgentsExported(db, doc.agents) && ChannelsExported(db, doc.channels)
  }

  // ----- the export as it runs -----

  method ListOf<T(==)>(s: set<T>) returns (xs: seq<T>)
    ensures (set x | x in xs) == s
    ensures forall i, j :: 0 <= i < j < |xs| ==> xs[i] != xs[j]
  {
    xs := [];
    var rest := s;
    while rest != {}
      invariant rest !! (set x | x in xs) && rest + (set x | x in xs) == s
      invariant forall i, j :: 0 <= i < j < |xs| ==> xs[i] != xs[j]
      decreases |rest|
    {
      var x :| x in rest;
      xs, rest := xs + [x], rest - {x};
    }
  }

  method ListOfRules(rules: multiset<Rule>) returns (xs: seq<Rule>)
    ensures multiset(xs) == rules
  {
    xs := [];
    var rest := rules;
    while rest != multiset{}
      invariant multiset(xs) + rest == rules
      decreases |rest|
    {
      var x :| x in rest;
      xs, rest := xs + [x], rest - multiset{x};
    }
  }

  method ExportToolRefs(db: Db, id: Id) returns (refs: seq<ToolRef>)
    ensures (set r | r in refs) == AssignedRefs(db, id)
  {
    var held := ListOf(Of(db.agentTools, id));
    refs := [];
    for k := 0 to |held|
      invariant forall r :: r in refs <==> exists i :: 0 <= i < k && IsRefTo(db.tools, held[i], r)
    {
      if held[k] in db.tools {
        refs := refs + [ToolRef(db.tools[held[k]].toolType, db.tools[held[k]].name)];
      }
    }
    RefsOfAssigned(db, id, held, refs);
  }

  ghost predicate IsRefTo(tools: map<Id, Tool>, t: Id, r: ToolRef) {
    t in tools && r == ToolRef(tools[t].toolType, tools[t].name)
  }

  lemma RefsOfAssigned(db: Db, id: Id, held: seq<Id>, refs: seq<ToolRef>)
    requires (set x | x in held) == Of(db.agentTools, id)
    requires forall r :: r in refs <==> exists i :: 0 <= i < |held| && IsRefTo(db.tools, held[i], r)
    ensures (set r | r in refs) == AssignedRefs(db, id)
  {
    forall r | r in AssignedRefs(db, id) ensures r in refs {
      var p :| p in db.agentTools && p.0 == id && p.1 in db.tools && r == ToolRef(db.tools[p.1].toolType, db.tools[p.1].name);
      assert p.1 in Of(db.agentTools, id);
      assert p.1 in held;
      var i :| 0 <= i < |held| && held[i] == p.1;
      assert IsRefTo(db.tools, held[i], r);
    }
    forall r | r in refs ensures r in AssignedRefs(db, id) {
      var i :| 0 <= i < |held| && IsRefTo(db.tools, held[i], r);
      assert held[i] in Of(db.agentTools, id);
      InOf(db.agentTools, id, held[i]);
    }
  }

  method ExportAgent(db: Db, id: Id) returns (item: AgentItem)
    requires id in db.agents
    ensures AgentExported(db, id, db.agents[id], item)
  {
    var row := db.agents[id];
    var tools := ExportToolRefs(db, id);
    var teams := ListOf(Of(db.agentTeams, id));
    var scopes := ListOf(Of(db.agentScopes, id));
    var rules := ListOfRules(RulesOf(db, id));
    item := AgentItem(Some(id), row.name, row.description, row.instructions, row.model,
                      if row.fallback.Some? then row.fallback.value else [], row.schema, row.approved,
                      tools, teams, scopes, Some(rules));
  }

  method ExportTeams(db: Db) returns (items: seq<TeamItem>)
    ensures TeamsExported(db, items)
  {
    var ids := ListOf(db.teams.Keys);
    items := [];
    for k := 0 to |ids|
      invariant |items| == k && forall i :: 0 <= i < k ==> items[i] == ExportTeam(ids[i], db.teams[ids[i]])
    {
      items := items + [ExportTeam(ids[k], db.teams[ids[k]])];
    }
    AllListed(TeamRefs(items), ids, db.teams.Keys);
  }

  method ExportTools(db: Db) returns (items: seq<ToolItem>)
    ensures ToolsExported(db, items)
  {
    var ids := ListOf(Customs(db.tools));
    assert forall i :: 0 <= i < |ids| ==> ids[i] in Customs(db.tools);
    items := [];
    for k := 0 to |ids|
      invariant |items| == k && forall i :: 0 <= i < k ==> items[i] == ExportTool(ids[i], db.tools[ids[i]], db.sources)
    {
      items := items + [ExportTool(ids[k], db.tools[ids[k]], db.sources)];
    }
    AllListed(ToolRefs(items), ids, Customs(db.tools));
  }

  method ExportAgents(db: Db) returns (items: seq<AgentItem>)
    ensures AgentsExported(db, items)
  {
    var ids := ListOf(db.agents.Keys);
    items := [];
    for k := 0 to |ids|
      invariant |items| == k && forall i :: 0 <= i < k ==> AgentExported(db, ids[i], db.agents[ids[i]], items[i])
    {
      var item := ExportAgent(db, ids[k]);
      items := items + [item];
    }
    AllListed(AgentRefs(items), ids, db.agents.Keys);
  }

  method ExportChannels(db: Db) returns (items: seq<ChannelItem>)
    ensures ChannelsExported(db, items)
  {
    var ids := ListOf(db.channels.Keys);
    items := [];
    for k := 0 to |ids|
      invariant |items| == k && forall i :: 0 <= i < k ==> items[i] == ExportChannel(ids[i], db.channels[ids[i]])
    {
      items := items + [ExportChannel(ids[k], db.channels[ids[k]])];
    }
    AllListed(ChannelRefs(items), ids, db.channels.Keys);
  }

  lemma AllListed(refs: seq<Ref>, ids: seq<Id>, keys: set<Id>)
    requires |refs| == |ids| && forall i :: 0 <= i < |refs| ==> refs[i].id == Some(ids[i])
    requires (set x | x in ids) == keys && forall i, j :: 0 <= i < j < |ids| ==> ids[i] != ids[j]
    ensures Covers(refs, keys)
  {
    forall id | id in keys ensures Mentions(refs, id) {
      assert id in ids;
      var i :| 0 <= i < |ids| && ids[i] == id;
      assert refs[i].id == Some(id);
    }
    forall i | 0 <= i < |ids| ensures ids[i] in keys {
      assert ids[i] in ids;
    }
  }

  method BuildExport(db: Db, settings: seq<Setting>) returns (doc: Document)
    ensures IsExport(db, settings, doc)
  {
    var teams := ExportTeams(db);
    var tools := ExportTools(db);
    var agents := ExportAgents(db);
    var channels := ExportChannels(db);
    doc := Document(EXPORT_VERSION, settings, teams, tools, agents, channels);
  }
}
