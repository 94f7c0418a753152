/** Files that do not converge when they are imported twice, and one that is refused the second time
    (server/src/rivulets/workspace_yaml.py:352-386, 389-741), each followed through both imports. */
module ImportExamples {
  import opened Prelude
  import opened Merge
  import opened MergeAgain
  import opened WorkspaceYaml
  import opened ImportSteps
  import opened ImportSafety
  import opened ImportConvergence

  const EMPTY := Db(map[], map[], map[], map[], {}, {}, {}, map[], map[], map[])

  function TeamsFile(items: seq<TeamItem>): Document {
    Document(EXPORT_VERSION, [], items, [], [], [])
  }

  function ChannelsFile(items: seq<ChannelItem>): Document {
    Document(EXPORT_VERSION, [], [], [], [], items)
  }

  /** A file of teams only is a run of upserts of teams. */
  lemma TeamsOnly(db: Db, h: History, items: seq<TeamItem>, env: Env)
    requires forall t :: t in items ==> |t.name| >= 1
    requires Distinct(TeamNames(items)) && Unambiguous(PlanTeams(db, h, TeamsFile(items), env))
    ensures var (after, outcome) := Import(db, h, TeamsFile(items), env);
            PutTeams(db, PlanTeams(db, h, TeamsFile(items), env), items) == (after, outcome.Completed?)
  {
    var doc := TeamsFile(items);
    assert Accepted(db, h, doc, env);
    RefusedExactlyWhen(db, h, doc, env);
    var p := Planned(db, h, doc, env);
    assert p.tools == [] && p.agents == [] && p.channels == [];
  }

  lemma ChannelsOnly(db: Db, h: History, items: seq<ChannelItem>, env: Env)
    requires forall c :: c in items ==> 3 <= |c.name| <= 80 && c.teamId.None?
    requires Distinct(ActiveChannelNames(items)) && Unambiguous(PlanChannels(db, h, ChannelsFile(items), env))
    ensures var (after, outcome) := Import(db, h, ChannelsFile(items), env);
            PutChannels(db, PlanChannels(db, h, ChannelsFile(items), env), items, map[]) == (after, outcome.Completed?)
  {
    var doc := ChannelsFile(items);
    var p := Planned(db, h, doc, env);
    assert p.teams == [] && p.tools == [] && p.agents == [];
    assert TeamMap(doc.teams, p.teams) == map[];
    forall i | 0 <= i < |items| ensures ChannelAccepted(db, map[], items[i], p.channels[i]) {
      assert items[i] in items;
    }
    assert Accepted(db, h, doc, env);
    RefusedExactlyWhen(db, h, doc, env);
  }

  /** Two teams that are written in turn. */
  lemma TwoTeams(db: Db, ts: seq<Target>, items: seq<TeamItem>)
    requires |ts| == |items| == 2 && Writes(ts[0]) && Writes(ts[1]) && ts[1].Update?
    requires ts[0].Create? ==> ts[0].id !in db.teams
    ensures PutTeams(db, ts, items) == (db.(teams := db.teams[ts[0].id := TeamRow(items[0])][ts[1].id := TeamRow(items[1])]), true)
  {
    assert ts[..1] == [ts[0]] && items[..1] == [items[0]];
    assert [ts[0]][..0] == [] && [items[0]][..0] == [];
    assert PutTeams(db, [ts[0]], [items[0]]) == (db.(teams := db.teams[ts[0].id := TeamRow(items[0])]), true);
  }

  /** A file of two teams, with the rows they go to. */
  lemma ImportTwoTeams(db: Db, h: History, items: seq<TeamItem>, env: Env, first: Target, second: Target,
                       teams: map<Id, Team>)
    requires |items| == 2 && |items[0].name| >= 1 && |items[1].name| >= 1 && items[0].name != items[1].name
    requires PlanTeams(db, h, TeamsFile(items), env) == [first, second] && Writes(first) && second.Update?
    requires first.Create? ==> first.id !in db.teams
    requires teams == db.teams[first.id := TeamRow(items[0])][second.id := TeamRow(items[1])]
    ensures var (after, outcome) := Import(db, h, TeamsFile(items), env); outcome.Completed? && after.teams == teams
  {
    TeamsOnly(db, h, items, env);
    TwoTeams(db, PlanTeams(db, h, TeamsFile(items), env), items);
  }

  lemma PlanTwoTeams(db: Db, h: History, items: seq<TeamItem>, env: Env, first: Target, second: Target)
    requires |items| == 2
    requires first == Resolve(db.teams, TeamKey(), Known(h, TeamKind), Ref(items[0].id, items[0].name), env.newId(TeamKind, 0), env.pick)
    requires second == Resolve(db.teams, TeamKey(), Known(h, TeamKind), Ref(items[1].id, items[1].name), env.newId(TeamKind, 1), env.pick)
    ensures PlanTeams(db, h, TeamsFile(items), env) == [first, second]
  {
  }

  // ----- two items under one id -----

  ghost predicate Repeated(items: seq<TeamItem>) {
    items == [TeamItem(Some("x"), "b", None), TeamItem(Some("x"), "a", None)]
  }

  lemma RepeatedIdPlan(db: Db, items: seq<TeamItem>, env: Env)
    requires Repeated(items) && PicksMembers(env.pick) && db.teams == map["y" := Team("a", None)]
    ensures PlanTeams(db, {}, TeamsFile(items), env) == [Create("x"), Update("y")]
  {
    assert Named(db.teams, TeamKey(), "b") == {};
    assert Named(db.teams, TeamKey(), "a") == {"y"};
    OnlyOne({"y"}, "y", env.pick);
    PlanTwoTeams(db, {}, items, env, Create("x"), Update("y"));
  }

  lemma RepeatedIdOnce(db: Db, items: seq<TeamItem>, env: Env)
    requires Repeated(items) && PicksMembers(env.pick) && db.teams == map["y" := Team("a", None)]
    ensures var (after, outcome) := Import(db, {}, TeamsFile(items), env);
            outcome.Completed? && after.teams == map["y" := Team("a", None), "x" := Team("b", None)]
  {
    RepeatedIdPlan(db, items, env);
    ImportTwoTeams(db, {}, items, env, Create("x"), Update("y"), map["y" := Team("a", None), "x" := Team("b", None)]);
  }

  lemma RepeatedIdTwice(db: Db, h: History, items: seq<TeamItem>, env: Env)
    requires Repeated(items) && db.teams == map["y" := Team("a", None), "x" := Team("b", None)]
    ensures var (after, outcome) := Import(db, h, TeamsFile(items), env);
            outcome.Completed? && after.teams == map["y" := Team("a", None), "x" := Team("a", None)]
  {
    PlanTwoTeams(db, h, items, env, Update("x"), Update("x"));
    ImportTwoTeams(db, h, items, env, Update("x"), Update("x"), map["y" := Team("a", None), "x" := Team("a", None)]);
  }

  /** The file gives two teams one id; one is matched by name, the other takes the id. Both imports complete. The second
      writes both teams to one row, so the row of "b" becomes a second "a". */
  lemma RepeatedIdDoesNotConverge(db: Db, items: seq<TeamItem>, env: Env, later: History)
    requires Repeated(items) && db == EMPTY.(teams := map["y" := Team("a", None)]) && PicksMembers(env.pick)
    ensures var (after, first) := Import(db, {}, TeamsFile(items), env);
            var (twice, second) := Import(after, later, TeamsFile(items), env);
            && first.Completed? && second.Completed?
            && after.teams == map["y" := Team("a", None), "x" := Team("b", None)]
            && twice.teams == map["y" := Team("a", None), "x" := Team("a", None)]
  {
    RepeatedIdOnce(db, items, env);
    RepeatedIdTwice(Import(db, {}, TeamsFile(items), env).0, later, items, env);
  }

  // ----- two items for one row -----

  ghost predicate Shared(items: seq<TeamItem>) {
    items == [TeamItem(None, "a", None), TeamItem(Some("x"), "b", None)]
  }

  lemma SharedRowPlan(db: Db, items: seq<TeamItem>, env: Env)
    requires Shared(items) && PicksMembers(env.pick) && db.teams == map["x" := Team("a", None)]
    ensures PlanTeams(db, {}, TeamsFile(items), env) == [Update("x"), Update("x")]
  {
    assert Named(db.teams, TeamKey(), "a") == {"x"};
    OnlyOne({"x"}, "x", env.pick);
    PlanTwoTeams(db, {}, items, env, Update("x"), Update("x"));
  }

  lemma SharedRowOnce(db: Db, items: seq<TeamItem>, env: Env)
    requires Shared(items) && PicksMembers(env.pick) && db.teams == map["x" := Team("a", None)]
    ensures var (after, outcome) := Import(db, {}, TeamsFile(items), env); outcome.Completed? && after.teams == map["x" := Team("b", None)]
  {
    SharedRowPlan(db, items, env);
    ImportTwoTeams(db, {}, items, env, Update("x"), Update("x"), map["x" := Team("b", None)]);
  }

  lemma SharedRowTwice(db: Db, h: History, items: seq<TeamItem>, env: Env, n: Id)
    requires Shared(items) && db.teams == map["x" := Team("b", None)] && n == env.newId(TeamKind, 0) != "x"
    ensures var (after, outcome) := Import(db, h, TeamsFile(items), env);
            outcome.Completed? && after.teams == map["x" := Team("b", None), n := Team("a", None)]
  {
    assert Named(db.teams, TeamKey(), "a") == {};
    PlanTwoTeams(db, h, items, env, Create(n), Update("x"));
    ImportTwoTeams(db, h, items, env, Create(n), Update("x"), map["x" := Team("b", None), n := Team("a", None)]);
  }

  /** One team is matched by the name of a row that another renames by id. Both imports complete, and the second adds a
      team. */
  lemma SharedRowIsSplit(db: Db, items: seq<TeamItem>, env: Env, later: History, n: Id)
    requires Shared(items) && db == EMPTY.(teams := map["x" := Team("a", None)]) && PicksMembers(env.pick)
    requires n == env.newId(TeamKind, 0) != "x"
    ensures var (after, first) := Import(db, {}, TeamsFile(items), env);
            var (twice, second) := Import(after, later, TeamsFile(items), env);
            && first.Completed? && second.Completed?
            && after.teams == map["x" := Team("b", None)]
            && twice.teams == map["x" := Team("b", None), n := Team("a", None)]
  {
    SharedRowOnce(db, items, env);
    SharedRowTwice(Import(db, {}, TeamsFile(items), env).0, later, items, env, n);
  }

  // ----- an archived channel that is not under its own id -----

  const ARCHIVED := [ChannelItem(None, "past", None, None, 0, true)]

  lemma ArchivedPlans(db: Db, h: History, env: Env)
    requires forall c :: c in db.channels ==> db.channels[c].archived
    ensures PlanChannels(db, h, ChannelsFile(ARCHIVED), env) == [Create(env.newId(ChannelKind, 0))]
  {
    assert Named(db.channels, ChannelKey(), "past") == {};
  }

  lemma OneChannel(db: Db, id: Id)
    requires id !in db.channels
    ensures PutChannels(db, [Create(id)], ARCHIVED, map[]) == (db.(channels := db.channels[id := Channel("past", None, None, 0, true)]), true)
  {
    assert [Create(id)][..0] == [] && ARCHIVED[..0] == [];
  }

  lemma ArchivedOnce(db: Db, h: History, env: Env)
    requires (forall c :: c in db.channels ==> db.channels[c].archived) && env.newId(ChannelKind, 0) !in db.channels
    ensures var (after, outcome) := Import(db, h, ChannelsFile(ARCHIVED), env);
            outcome.Completed? && after.channels == db.channels[env.newId(ChannelKind, 0) := Channel("past", None, None, 0, true)]
  {
    ArchivedPlans(db, h, env);
    ChannelsOnly(db, h, ARCHIVED, env);
    OneChannel(db, env.newId(ChannelKind, 0));
  }

  /** No name finds an archived channel, so each import of an item without id adds another. */
  lemma ArchivedChannelIsAddedAgain(env: Env, env2: Env, later: History)
    requires env.newId(ChannelKind, 0) != env2.newId(ChannelKind, 0)
    ensures var (after, first) := Import(EMPTY, {}, ChannelsFile(ARCHIVED), env);
            var (twice, second) := Import(after, later, ChannelsFile(ARCHIVED), env2);
            && first.Completed? && second.Completed?
            && after.channels.Keys == {env.newId(ChannelKind, 0)}
            && twice.channels == after.channels[env2.newId(ChannelKind, 0) := Channel("past", None, None, 0, true)]
  {
    ArchivedOnce(EMPTY, {}, env);
    ArchivedOnce(Import(EMPTY, {}, ChannelsFile(ARCHIVED), env).0, later, env2);
  }

  // ----- a custom tool that the file renames -----

  /** The file renames the tool that its agent means by the old name. */
  ghost predicate Renaming(doc: Document) {
    && doc.version == EXPORT_VERSION && doc.settings == [] && doc.teams == [] && doc.channels == []
    && doc.tools == [ToolItem(Some("t"), "new", "", "")]
    && |doc.agents| == 1 && doc.agents[0].id.None? && doc.agents[0].tools == [ToolRef("custom", "old")]
    && 2 <= |doc.agents[0].name| <= 64 && 10 <= |doc.agents[0].description| <= 500
    && doc.agents[0].teams == [] && doc.agents[0].scopes == []
  }

  ghost predicate HasOldTool(db: Db) {
    db == EMPTY.(tools := map["t" := Tool("old", "", "custom")])
  }

  lemma RenamingPlans(db: Db, doc: Document, env: Env)
    requires Renaming(doc) && HasOldTool(db)
    ensures PlanTools(db, {}, doc, env) == [Update("t")] && PlanAgents(db, {}, doc, env) == [Create(env.newId(AgentKind, 0))]
    ensures PlanTeams(db, {}, doc, env) == [] && PlanChannels(db, {}, doc, env) == []
  {
    assert Named(db.agents, AgentKey(), doc.agents[0].name) == {};
  }

  lemma RenamingIsAccepted(db: Db, doc: Document, env: Env)
    requires Renaming(doc) && HasOldTool(db)
    ensures Accepted(db, {}, doc, env)
  {
    RenamingPlans(db, doc, env);
    assert db.tools["t"].toolType == "custom" && db.tools["t"].name == "old";
    assert forall fileNames :: ToolKnown(db, fileNames, doc.agents[0].tools[0]);
    assert FormAccepted(doc);
  }

  lemma OneTool(db: Db, item: ToolItem)
    requires HasOldTool(db) && item.source == ""
    ensures PutTools(db, [Update("t")], [item]) == (db.(tools := map["t" := ToolRow(item)]), true)
  {
    assert [Update("t")][..0] == [] && [item][..0] == [];
    assert db.tools["t" := ToolRow(item)] == map["t" := ToolRow(item)];
  }

  lemma OneAgent(db: Db, item: AgentItem, m: map<Id, Option<Id>>, pick: Pick, n: Id)
    requires db.agents == map[]
    ensures var (d, ok) := PutAgents(db, [Create(n)], [item], m, pick); ok && d.tools == db.tools
  {
    assert [Create(n)][..0] == [] && [item][..0] == [];
  }

  lemma RenamingCompletes(db: Db, doc: Document, env: Env)
    requires Renaming(doc) && HasOldTool(db)
    ensures var (after, outcome) := Import(db, {}, doc, env);
            outcome.Completed? && after.tools == map["t" := Tool("new", "", "custom")]
  {
    RenamingIsAccepted(db, doc, env);
    RefusedExactlyWhen(db, {}, doc, env);
    RenamingPlans(db, doc, env);
    OneTool(db, doc.tools[0]);
    var d := PutTools(db, [Update("t")], doc.tools).0;
    OneAgent(d, doc.agents[0], map[], env.pick, env.newId(AgentKind, 0));
    assert doc.agents == [doc.agents[0]];
  }

  lemma OldNameIsUnknown(after: Db, later: History, doc: Document, env: Env)
    requires Renaming(doc) && after.tools == map["t" := Tool("new", "", "custom")]
    ensures !Accepted(after, later, doc, env)
  {
    var q := Planned(after, later, doc, env);
    var fileNames := FileToolNames(after, env, doc.tools, q.tools);
    assert "old" !in fileNames;
    assert !ToolKnown(after, fileNames, doc.agents[0].tools[0]);
    assert !AgentAccepted(after, env, TeamMap(doc.teams, q.teams), fileNames, doc.agents[0], q.agents[0]);
  }

  /** The file is imported, and then refused, whatever history and choices there are the second time. */
  lemma RenamedToolIsRefused(db: Db, doc: Document, env: Env, later: History, env2: Env)
    requires Renaming(doc) && HasOldTool(db)
    ensures var (after, outcome) := Import(db, {}, doc, env);
            && outcome.Completed? && after.tools == map["t" := Tool("new", "", "custom")]
            && !Accepted(after, later, doc, env2) && Import(after, later, doc, env2).1.Invalid?
  {
    RenamingCompletes(db, doc, env);
    var after := Import(db, {}, doc, env).0;
    OldNameIsUnknown(after, later, doc, env2);
    RefusedExactlyWhen(after, later, doc, env2);
  }
}
