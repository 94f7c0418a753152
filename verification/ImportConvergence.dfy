/** Importing the same file twice (server/src/rivulets/workspace_yaml.py:352-386, 569-741). */
module ImportConvergence {
  import opened Prelude
  import opened Merge
  import opened MergeAgain
  import opened WorkspaceYaml
  import opened ImportSteps
  import opened ImportSafety
  import opened ImportResults

  // ----- one import, table by table -----

  ghost predicate Sized(doc: Document, p: Plans) {
    |p.teams| == |doc.teams| && |p.tools| == |doc.tools| && |p.agents| == |doc.agents| && |p.channels| == |doc.channels|
  }

  /** A completed import from db to after, as runs of upserts. */
  ghost predicate Tables(db: Db, doc: Document, p: Plans, after: Db) {
    && Sized(doc, p)
    && PutAll(db.teams, TeamKey(), false, p.teams, TeamRows(doc.teams)) == (after.teams, true)
    && PutAll(db.tools, ToolKey(), true, p.tools, ToolRows(doc.tools)) == (after.tools, true)
    && PutAll(db.agents, AgentKey(), true, p.agents, AgentRows(doc.agents)) == (after.agents, true)
    && PutAll(db.channels, ChannelKey(), true, p.channels, ChannelRows(TeamMap(doc.teams, p.teams), doc.channels)) == (after.channels, true)
  }

  lemma RunsWriteTables(db: Db, doc: Document, p: Plans, m: map<Id, Option<Id>>, env: Env, s: Phases)
    requires Runs(db, doc, p, m, env, s)
    ensures Tables(db, doc, p, s.afterChannels)
    ensures s.afterChannels == s.afterAgents.(channels := s.afterChannels.channels)
    ensures s.afterAgents.tools == s.afterTools.tools && s.afterAgents.sources == s.afterTools.sources
    ensures s.afterChannels.settings == db.settings
  {
    TeamsArePutAll(db, p.teams, doc.teams);
    ToolsArePutAll(s.afterTeams, p.tools, doc.tools);
    AgentsArePutAll(s.afterTools, p.agents, doc.agents, m, env.pick);
    ChannelsArePutAll(s.afterAgents, p.channels, doc.channels, m);
  }

  /** Between two imports only rows that the first has left may gain sync history. */
  ghost predicate Follows(h: History, later: History, after: Db) {
    && HistoryOfLive(after.teams, Known(h, TeamKind), Known(later, TeamKind))
    && HistoryOfLive(after.tools, Known(h, ToolKind), Known(later, ToolKind))
    && HistoryOfLive(after.agents, Known(h, AgentKind), Known(later, AgentKind))
    && HistoryOfLive(after.channels, Known(h, ChannelKind), Known(later, ChannelKind))
  }

  /** What the import publishes is of that sort. */
  lemma PublishedFollows(h: History, after: Db, p: Plans, env: Env)
    ensures Follows(h, Published(h, after, p, env), after)
  {
    var later := Published(h, after, p, env);
    forall kind, id | id in Known(h, kind) ensures id in Known(later, kind) {
      assert (kind, id) in later;
    }
    forall kind, id | id in Known(later, kind) && id !in Known(h, kind)
      ensures id in match kind case TeamKind => after.teams.Keys case ToolKind => after.tools.Keys case AgentKind => after.agents.Keys case ChannelKind => after.channels.Keys
    {
      assert (kind, id) in later && (kind, id) !in h;
    }
  }

  // The first import, as far as each kind is concerned; later is the history when the second one starts.

  ghost predicate TeamsImported(db: Db, h: History, doc: Document, env: Env, after: Db, later: History) {
    && Imported(db.teams, TeamKey(), false, Known(h, TeamKind), TeamRefs(doc.teams), NewIds(env, TeamKind), env.pick,
                TeamRows(doc.teams), PlanTeams(db, h, doc, env), after.teams)
    && FreshIds(db.teams, Known(h, TeamKind), TeamRefs(doc.teams), NewIds(env, TeamKind)) && PicksMembers(env.pick)
    && DistinctKeys(TeamKey(), TeamRows(doc.teams)) && HistoryOfLive(after.teams, Known(h, TeamKind), Known(later, TeamKind))
  }

  ghost predicate ToolsImported(db: Db, h: History, doc: Document, env: Env, after: Db, later: History) {
    && Imported(db.tools, ToolKey(), true, Known(h, ToolKind), ToolRefs(doc.tools), NewIds(env, ToolKind), env.pick,
                ToolRows(doc.tools), PlanTools(db, h, doc, env), after.tools)
    && FreshIds(db.tools, Known(h, ToolKind), ToolRefs(doc.tools), NewIds(env, ToolKind)) && PicksMembers(env.pick)
    && DistinctKeys(ToolKey(), ToolRows(doc.tools)) && HistoryOfLive(after.tools, Known(h, ToolKind), Known(later, ToolKind))
  }

  ghost predicate AgentsImported(db: Db, h: History, doc: Document, env: Env, after: Db, later: History) {
    && Imported(db.agents, AgentKey(), true, Known(h, AgentKind), AgentRefs(doc.agents), NewIds(env, AgentKind), env.pick,
                AgentRows(doc.agents), PlanAgents(db, h, doc, env), after.agents)
    && FreshIds(db.agents, Known(h, AgentKind), AgentRefs(doc.agents), NewIds(env, AgentKind)) && PicksMembers(env.pick)
    && DistinctKeys(AgentKey(), AgentRows(doc.agents)) && HistoryOfLive(after.agents, Known(h, AgentKind), Known(later, AgentKind))
  }

  ghost predicate ChannelsImported(db: Db, h: History, doc: Document, env: Env, after: Db, later: History, m: map<Id, Option<Id>>) {
    && Imported(db.channels, ChannelKey(), true, Known(h, ChannelKind), ChannelRefs(doc.channels), NewIds(env, ChannelKind), env.pick,
                ChannelRows(m, doc.channels), PlanChannels(db, h, doc, env), after.channels)
    && FreshIds(db.channels, Known(h, ChannelKind), ChannelRefs(doc.channels), NewIds(env, ChannelKind)) && PicksMembers(env.pick)
    && DistinctKeys(ChannelKey(), ChannelRows(m, doc.channels))
    && HistoryOfLive(after.channels, Known(h, ChannelKind), Known(later, ChannelKind))
  }

  lemma KeysAreDistinct(doc: Document, m: map<Id, Option<Id>>)
    requires FormAccepted(doc)
    ensures DistinctKeys(TeamKey(), TeamRows(doc.teams)) && DistinctKeys(ToolKey(), ToolRows(doc.tools))
    ensures DistinctKeys(AgentKey(), AgentRows(doc.agents)) && DistinctKeys(ChannelKey(), ChannelRows(m, doc.channels))
  {
    assert forall i :: 0 <= i < |doc.teams| ==> TeamNames(doc.teams)[i] == TeamKey()(TeamRows(doc.teams)[i]);
    assert forall i :: 0 <= i < |doc.tools| ==> ToolNames(doc.tools)[i] == ToolKey()(ToolRows(doc.tools)[i]);
    assert forall i :: 0 <= i < |doc.agents| ==> AgentNames(doc.agents)[i] == AgentKey()(AgentRows(doc.agents)[i]);
    assert forall i :: 0 <= i < |doc.channels| ==> ActiveChannelNames(doc.channels)[i] == ChannelKey()(ChannelRows(m, doc.channels)[i]);
  }

  lemma AcceptedIsUnambiguous(db: Db, doc: Document, p: Plans, env: Env)
    requires Sized(doc, p) && ItemsAccepted(db, doc, p, env)
    ensures Unambiguous(p.teams) && Unambiguous(p.tools) && Unambiguous(p.agents) && Unambiguous(p.channels)
  {
    var m := TeamMap(doc.teams, p.teams);
    forall i | 0 <= i < |doc.agents| ensures !p.agents[i].Ambiguous? {
      assert AgentAccepted(db, env, m, FileToolNames(db, env, doc.tools, p.tools), doc.agents[i], p.agents[i]);
    }
    forall i | 0 <= i < |doc.channels| ensures !p.channels[i].Ambiguous? {
      assert ChannelAccepted(db, m, doc.channels[i], p.channels[i]);
    }
    forall i | 0 <= i < |doc.tools| ensures !p.tools[i].Ambiguous? {
      assert ToolAccepted(db, env, doc.tools[i], p.tools[i]);
    }
  }

  lemma ImportedByKind(db: Db, h: History, doc: Document, env: Env, after: Db, later: History)
    requires Tables(db, doc, Planned(db, h, doc, env), after) && Accepted(db, h, doc, env) && PicksMembers(env.pick)
    requires NewIdsAreFresh(db, h, doc, env) && Follows(h, later, after)
    ensures TeamsImported(db, h, doc, env, after, later) && ToolsImported(db, h, doc, env, after, later)
    ensures AgentsImported(db, h, doc, env, after, later)
    ensures ChannelsImported(db, h, doc, env, after, later, TeamMap(doc.teams, PlanTeams(db, h, doc, env)))
  {
    AcceptedIsUnambiguous(db, doc, Planned(db, h, doc, env), env);
    KeysAreDistinct(doc, TeamMap(doc.teams, PlanTeams(db, h, doc, env)));
  }

  // ----- which rows the second import goes to -----

  ghost predicate TeamsStable(doc: Document, ts: seq<Target>) {
    Stable(TeamKey(), TeamRefs(doc.teams), ts, TeamRows(doc.teams))
  }

  ghost predicate ToolsStable(doc: Document, ts: seq<Target>) {
    Stable(ToolKey(), ToolRefs(doc.tools), ts, ToolRows(doc.tools))
  }

  ghost predicate AgentsStable(doc: Document, ts: seq<Target>) {
    Stable(AgentKey(), AgentRefs(doc.agents), ts, AgentRows(doc.agents))
  }

  ghost predicate ChannelsStable(doc: Document, ts: seq<Target>, m: map<Id, Option<Id>>) {
    Stable(ChannelKey(), ChannelRefs(doc.channels), ts, ChannelRows(m, doc.channels))
  }

  /** The items that are written are the same. */
  ghost predicate SameWrites(first: seq<Target>, second: seq<Target>) {
    |second| == |first| && forall i :: 0 <= i < |first| ==> (Writes(second[i]) <==> Writes(first[i]))
  }

  lemma TeamsAgain(db: Db, h: History, doc: Document, env: Env, after: Db, later: History, env2: Env)
    requires TeamsImported(db, h, doc, env, after, later) && PicksMembers(env2.pick)
    ensures var ts, us := PlanTeams(db, h, doc, env), PlanTeams(after, later, doc, env2);
            && (SameRows(ts, us) <==> TeamsStable(doc, ts)) && (TeamsStable(doc, ts) ==> PutTeams(after, us, doc.teams) == (after, true))
            && Unambiguous(us) && SameWrites(ts, us)
  {
    var ts, us := PlanTeams(db, h, doc, env), PlanTeams(after, later, doc, env2);
    SameTargetsExactlyWhen(db.teams, TeamKey(), false, Known(h, TeamKind), TeamRefs(doc.teams), NewIds(env, TeamKind), env.pick,
                           TeamRows(doc.teams), ts, after.teams, Known(later, TeamKind), NewIds(env2, TeamKind), env2.pick);
    forall i | 0 <= i < |doc.teams| ensures !us[i].Ambiguous? && (Writes(us[i]) <==> Writes(ts[i])) {
      StaysUnambiguous(db.teams, TeamKey(), false, Known(h, TeamKind), TeamRefs(doc.teams), NewIds(env, TeamKind), env.pick,
                       TeamRows(doc.teams), ts, after.teams, Known(later, TeamKind), NewIds(env2, TeamKind)(i), env2.pick, i);
    }
    if TeamsStable(doc, ts) {
      SameRowsChangeNothing(db.teams, TeamKey(), false, ts, TeamRows(doc.teams), after.teams, us);
      TeamsArePutAll(after, us, doc.teams);
    }
  }

  lemma ToolsAgain(db: Db, h: History, doc: Document, env: Env, after: Db, later: History, env2: Env)
    requires ToolsImported(db, h, doc, env, after, later) && PicksMembers(env2.pick)
    ensures var ts, us := PlanTools(db, h, doc, env), PlanTools(after, later, doc, env2);
            && (SameRows(ts, us) <==> ToolsStable(doc, ts))
            && (ToolsStable(doc, ts) ==> PutAll(after.tools, ToolKey(), true, us, ToolRows(doc.tools)) == (after.tools, true))
            && Unambiguous(us) && SameWrites(ts, us)
  {
    var ts, us := PlanTools(db, h, doc, env), PlanTools(after, later, doc, env2);
    SameTargetsExactlyWhen(db.tools, ToolKey(), true, Known(h, ToolKind), ToolRefs(doc.tools), NewIds(env, ToolKind), env.pick,
                           ToolRows(doc.tools), ts, after.tools, Known(later, ToolKind), NewIds(env2, ToolKind), env2.pick);
    forall i | 0 <= i < |doc.tools| ensures !us[i].Ambiguous? && (Writes(us[i]) <==> Writes(ts[i])) {
      StaysUnambiguous(db.tools, ToolKey(), true, Known(h, ToolKind), ToolRefs(doc.tools), NewIds(env, ToolKind), env.pick,
                       ToolRows(doc.tools), ts, after.tools, Known(later, ToolKind), NewIds(env2, ToolKind)(i), env2.pick, i);
    }
    if ToolsStable(doc, ts) {
      SameRowsChangeNothing(db.tools, ToolKey(), true, ts, ToolRows(doc.tools), after.tools, us);
    }
  }

  lemma AgentsAgain(db: Db, h: History, doc: Document, env: Env, after: Db, later: History, env2: Env)
    requires AgentsImported(db, h, doc, env, after, later) && PicksMembers(env2.pick)
    ensures var ts, us := PlanAgents(db, h, doc, env), PlanAgents(after, later, doc, env2);
            && (SameRows(ts, us) <==> AgentsStable(doc, ts))
            && (AgentsStable(doc, ts) ==> PutAll(after.agents, AgentKey(), true, us, AgentRows(doc.agents)) == (after.agents, true))
            && Unambiguous(us) && SameWrites(ts, us)
  {
    var ts, us := PlanAgents(db, h, doc, env), PlanAgents(after, later, doc, env2);
    SameTargetsExactlyWhen(db.agents, AgentKey(), true, Known(h, AgentKind), AgentRefs(doc.agents), NewIds(env, AgentKind), env.pick,
                           AgentRows(doc.agents), ts, after.agents, Known(later, AgentKind), NewIds(env2, AgentKind), env2.pick);
    forall i | 0 <= i < |doc.agents| ensures !us[i].Ambiguous? && (Writes(us[i]) <==> Writes(ts[i])) {
      StaysUnambiguous(db.agents, AgentKey(), true, Known(h, AgentKind), AgentRefs(doc.agents), NewIds(env, AgentKind), env.pick,
                       AgentRows(doc.agents), ts, after.agents, Known(later, AgentKind), NewIds(env2, AgentKind)(i), env2.pick, i);
    }
    if AgentsStable(doc, ts) {
      SameRowsChangeNothing(db.agents, AgentKey(), true, ts, AgentRows(doc.agents), after.agents, us);
    }
  }

  lemma ChannelsAgain(db: Db, h: History, doc: Document, env: Env, after: Db, later: History, env2: Env, m: map<Id, Option<Id>>)
    requires ChannelsImported(db, h, doc, env, after, later, m) && PicksMembers(env2.pick)
    ensures var ts, us := PlanChannels(db, h, doc, env), PlanChannels(after, later, doc, env2);
            && (SameRows(ts, us) <==> ChannelsStable(doc, ts, m))
            && (ChannelsStable(doc, ts, m) ==> PutChannels(after, us, doc.channels, m) == (after, true))
            && Unambiguous(us)
  {
    var ts, us := PlanChannels(db, h, doc, env), PlanChannels(after, later, doc, env2);
    SameTargetsExactlyWhen(db.channels, ChannelKey(), true, Known(h, ChannelKind), ChannelRefs(doc.channels), NewIds(env, ChannelKind), env.pick,
                           ChannelRows(m, doc.channels), ts, after.channels, Known(later, ChannelKind), NewIds(env2, ChannelKind), env2.pick);
    forall i | 0 <= i < |doc.channels| ensures !us[i].Ambiguous? {
      StaysUnambiguous(db.channels, ChannelKey(), true, Known(h, ChannelKind), ChannelRefs(doc.channels), NewIds(env, ChannelKind), env.pick,
                       ChannelRows(m, doc.channels), ts, after.channels, Known(later, ChannelKind), NewIds(env2, ChannelKind)(i), env2.pick, i);
    }
    if ChannelsStable(doc, ts, m) {
      SameRowsChangeNothing(db.channels, ChannelKey(), true, ts, ChannelRows(m, doc.channels), after.channels, us);
      ChannelsArePutAll(after, us, doc.channels, m);
    }
  }

  // ----- when the file is accepted again -----

  /** Every custom tool that an agent of the file refers to is in the file or here. */
  ghost predicate CustomToolsKnown(db: Db, fileNames: set<string>, items: seq<AgentItem>) {
    forall k, i :: 0 <= k < |items| && 0 <= i < |items[k].tools| ==> ToolKnown(db, fileNames, items[k].tools[i])
  }

  /** A second time, with other new ids and other choices. */
  ghost predicate Afresh(env: Env, env2: Env) {
    PicksMembers(env2.pick) && env2 == env.(newId := env2.newId, pick := env2.pick, publishes := env2.publishes)
  }

  lemma SameFileToolNames(db: Db, env: Env, after: Db, env2: Env, items: seq<ToolItem>, ts: seq<Target>, us: seq<Target>)
    requires |items| == |ts| == |us| && SameWrites(ts, us)
    requires AllToolsAccepted(db, env, items, ts) && AllToolsAccepted(after, env2, items, us)
    ensures FileToolNames(after, env2, items, us) == FileToolNames(db, env, items, ts)
  {
    forall i | 0 <= i < |items| ensures ToolProblems(db, env, items[i], ts[i]) == [] && ToolProblems(after, env2, items[i], us[i]) == [] {
      ToolHasNoProblems(db, env, items[i], ts[i]);
      ToolHasNoProblems(after, env2, items[i], us[i]);
    }
  }

  /** A row that an import has written is a custom tool, and so is one that a name finds. */
  lemma UpdatedIsCustom(db: Db, h: History, doc: Document, env: Env, after: Db, later: History, env2: Env, i: nat)
    requires ToolsImported(db, h, doc, env, after, later) && PicksMembers(env2.pick) && i < |doc.tools|
    requires ToolAccepted(db, env, doc.tools[i], PlanTools(db, h, doc, env)[i])
    ensures var u := PlanTools(after, later, doc, env2)[i]; u.Update? && u.id in after.tools ==> after.tools[u.id].toolType == "custom"
  {
    var ts := PlanTools(db, h, doc, env);
    var u := PlanTools(after, later, doc, env2)[i];
    if u.Update? && u.id in after.tools {
      PutAllRows(db.tools, ToolKey(), true, ts, ToolRows(doc.tools));
      if doc.tools[i].id == Some(u.id) {
        if u.id in db.tools {
          assert ts[i] == Update(u.id);
        }
        assert Targeted(ts, u.id);
        var k := LastWriterOf(ts, u.id);
        PutAllWrites(db.tools, ToolKey(), true, ts, ToolRows(doc.tools), k);
      } else {
        assert u.id in Named(after.tools, ToolKey(), doc.tools[i].name);
      }
    }
  }

  lemma ToolsStayAccepted(db: Db, h: History, doc: Document, env: Env, after: Db, later: History, env2: Env)
    requires ToolsImported(db, h, doc, env, after, later) && Afresh(env, env2)
    requires AllToolsAccepted(db, env, doc.tools, PlanTools(db, h, doc, env))
    ensures var ts, us := PlanTools(db, h, doc, env), PlanTools(after, later, doc, env2);
            && AllToolsAccepted(after, env2, doc.tools, us)
            && FileToolNames(after, env2, doc.tools, us) == FileToolNames(db, env, doc.tools, ts)
  {
    var ts, us := PlanTools(db, h, doc, env), PlanTools(after, later, doc, env2);
    ToolsAgain(db, h, doc, env, after, later, env2);
    forall i | 0 <= i < |doc.tools| ensures ToolAccepted(after, env2, doc.tools[i], us[i]) {
      assert ToolAccepted(db, env, doc.tools[i], ts[i]);
      UpdatedIsCustom(db, h, doc, env, after, later, env2, i);
    }
    SameFileToolNames(db, env, after, env2, doc.tools, ts, us);
  }

  lemma {:induction false} TeamMapHasItems(items: seq<TeamItem>, ts: seq<Target>, ref: Id)
    requires |items| == |ts|
    ensures ref in TeamMap(items, ts) <==> Mentioned(items, ref) || Targeted(ts, ref)
  {
    if items != [] {
      var n := |items| - 1;
      TeamMapHasItems(items[..n], ts[..n], ref);
      TargetedLast(ts);
      if Mentioned(items[..n], ref) {
        var i :| 0 <= i < n && items[..n][i].id == Some(ref);
        assert items[i].id == Some(ref);
      }
      if Mentioned(items, ref) && items[n].id != Some(ref) {
        var i :| 0 <= i < |items| && items[i].id == Some(ref);
        assert items[..n][i].id == Some(ref);
      }
    }
  }

  ghost predicate Mentioned(items: seq<TeamItem>, ref: Id) {
    exists i :: 0 <= i < |items| && items[i].id == Some(ref)
  }

  lemma TeamStaysKnown(db: Db, h: History, doc: Document, env: Env, after: Db, later: History, env2: Env, ref: Id)
    requires TeamsImported(db, h, doc, env, after, later)
    requires TeamKnown(db, TeamMap(doc.teams, PlanTeams(db, h, doc, env)), ref)
    ensures TeamKnown(after, TeamMap(doc.teams, PlanTeams(after, later, doc, env2)), ref)
  {
    TeamMapHasItems(doc.teams, PlanTeams(db, h, doc, env), ref);
    TeamMapHasItems(doc.teams, PlanTeams(after, later, doc, env2), ref);
    PutAllRows(db.teams, TeamKey(), false, PlanTeams(db, h, doc, env), TeamRows(doc.teams));
  }

  lemma AgentStaysAccepted(db: Db, h: History, doc: Document, env: Env, after: Db, later: History, env2: Env, fileNames: set<string>, k: nat)
    requires TeamsImported(db, h, doc, env, after, later) && AgentsImported(db, h, doc, env, after, later) && Afresh(env, env2)
    requires k < |doc.agents|
    requires AgentAccepted(db, env, TeamMap(doc.teams, PlanTeams(db, h, doc, env)), fileNames, doc.agents[k], PlanAgents(db, h, doc, env)[k])
    ensures AgentAccepted(after, env2, TeamMap(doc.teams, PlanTeams(after, later, doc, env2)), fileNames, doc.agents[k], PlanAgents(after, later, doc, env2)[k]) <==>
            forall i :: 0 <= i < |doc.agents[k].tools| ==> ToolKnown(after, fileNames, doc.agents[k].tools[i])
  {
    AgentsAgain(db, h, doc, env, after, later, env2);
    forall i | 0 <= i < |doc.agents[k].teams|
      ensures TeamKnown(after, TeamMap(doc.teams, PlanTeams(after, later, doc, env2)), doc.agents[k].teams[i])
    {
      TeamStaysKnown(db, h, doc, env, after, later, env2, doc.agents[k].teams[i]);
    }
  }

  lemma AgentsStayAccepted(db: Db, h: History, doc: Document, env: Env, after: Db, later: History, env2: Env, fileNames: set<string>)
    requires TeamsImported(db, h, doc, env, after, later) && AgentsImported(db, h, doc, env, after, later) && Afresh(env, env2)
    requires AllAgentsAccepted(db, env, TeamMap(doc.teams, PlanTeams(db, h, doc, env)), fileNames, doc.agents, PlanAgents(db, h, doc, env))
    ensures AllAgentsAccepted(after, env2, TeamMap(doc.teams, PlanTeams(after, later, doc, env2)), fileNames, doc.agents, PlanAgents(after, later, doc, env2)) <==>
            CustomToolsKnown(after, fileNames, doc.agents)
  {
    var m, m2 := TeamMap(doc.teams, PlanTeams(db, h, doc, env)), TeamMap(doc.teams, PlanTeams(after, later, doc, env2));
    forall k | 0 <= k < |doc.agents|
      ensures AgentAccepted(after, env2, m2, fileNames, doc.agents[k], PlanAgents(after, later, doc, env2)[k]) <==>
              forall i :: 0 <= i < |doc.agents[k].tools| ==> ToolKnown(after, fileNames, doc.agents[k].tools[i])
    {
      assert AgentAccepted(db, env, m, fileNames, doc.agents[k], PlanAgents(db, h, doc, env)[k]);
      AgentStaysAccepted(db, h, doc, env, after, later, env2, fileNames, k);
    }
  }

  lemma ChannelsStayAccepted(db: Db, h: History, doc: Document, env: Env, after: Db, later: History, env2: Env)
    requires TeamsImported(db, h, doc, env, after, later) && PicksMembers(env2.pick)
    requires ChannelsImported(db, h, doc, env, after, later, TeamMap(doc.teams, PlanTeams(db, h, doc, env)))
    requires AllChannelsAccepted(db, TeamMap(doc.teams, PlanTeams(db, h, doc, env)), doc.channels, PlanChannels(db, h, doc, env))
    ensures AllChannelsAccepted(after, TeamMap(doc.teams, PlanTeams(after, later, doc, env2)), doc.channels, PlanChannels(after, later, doc, env2))
  {
    var m, m2 := TeamMap(doc.teams, PlanTeams(db, h, doc, env)), TeamMap(doc.teams, PlanTeams(after, later, doc, env2));
    ChannelsAgain(db, h, doc, env, after, later, env2, m);
    forall k | 0 <= k < |doc.channels| ensures ChannelAccepted(after, m2, doc.channels[k], PlanChannels(after, later, doc, env2)[k]) {
      assert ChannelAccepted(db, m, doc.channels[k], PlanChannels(db, h, doc, env)[k]);
      if doc.channels[k].teamId.Some? {
        TeamStaysKnown(db, h, doc, env, after, later, env2, doc.channels[k].teamId.value);
      }
    }
  }

  lemma ItemsAcceptedAgain(db: Db, h: History, doc: Document, env: Env, after: Db, later: History, env2: Env)
    requires TeamsImported(db, h, doc, env, after, later) && ToolsImported(db, h, doc, env, after, later)
    requires AgentsImported(db, h, doc, env, after, later) && Afresh(env, env2)
    requires ItemsAccepted(db, doc, Planned(db, h, doc, env), env)
    requires ChannelsImported(db, h, doc, env, after, later, TeamMap(doc.teams, PlanTeams(db, h, doc, env)))
    ensures ItemsAccepted(after, doc, Planned(after, later, doc, env2), env2) <==>
            CustomToolsKnown(after, FileToolNames(db, env, doc.tools, PlanTools(db, h, doc, env)), doc.agents)
  {
    TeamsAgain(db, h, doc, env, after, later, env2);
    ToolsStayAccepted(db, h, doc, env, after, later, env2);
    AgentsStayAccepted(db, h, doc, env, after, later, env2, FileToolNames(db, env, doc.tools, PlanTools(db, h, doc, env)));
    ChannelsStayAccepted(db, h, doc, env, after, later, env2);
  }

  lemma AcceptedAgainFrom(db: Db, h: History, doc: Document, env: Env, after: Db, later: History, env2: Env)
    requires TeamsImported(db, h, doc, env, after, later) && ToolsImported(db, h, doc, env, after, later)
    requires AgentsImported(db, h, doc, env, after, later) && Afresh(env, env2) && Accepted(db, h, doc, env)
    requires ChannelsImported(db, h, doc, env, after, later, TeamMap(doc.teams, PlanTeams(db, h, doc, env)))
    ensures Accepted(after, later, doc, env2) <==>
            CustomToolsKnown(after, FileToolNames(db, env, doc.tools, PlanTools(db, h, doc, env)), doc.agents)
  {
    ItemsAcceptedAgain(db, h, doc, env, after, later, env2);
    SameSettingsAccepted(doc.settings, env, env2);
  }

  lemma SameSettingsAccepted(settings: seq<Setting>, env: Env, env2: Env)
    requires Afresh(env, env2)
    ensures SettingsAccepted(settings, env2) <==> SettingsAccepted(settings, env)
  {
  }

  /** The state a completed import ends in, table by table. */
  lemma CompletedWritesTables(db: Db, h: History, doc: Document, env: Env)
    requires Import(db, h, doc, env).1.Completed?
    ensures Tables(db, doc, Planned(db, h, doc, env), Import(db, h, doc, env).0) && Accepted(db, h, doc, env)
  {
    var s := CompletedRuns(db, h, doc, env);
    var p := Planned(db, h, doc, env);
    RunsWriteTables(db, doc, p, TeamMap(doc.teams, p.teams), env, s);
    SettingsOnly(s.afterChannels, doc.settings, env);
    RefusedExactlyWhen(db, h, doc, env);
  }

  /** After any completed import the same file is accepted again exactly when every custom tool its agents refer to is
      still known: the file may have renamed the tool that an agent means by its old name. */
  lemma AcceptedAgainExactlyWhen(db: Db, h: History, doc: Document, env: Env, later: History, env2: Env)
    requires Import(db, h, doc, env).1.Completed?
    requires NewIdsAreFresh(db, h, doc, env) && PicksMembers(env.pick) && Afresh(env, env2)
    requires Follows(h, later, Import(db, h, doc, env).0)
    ensures var after := Import(db, h, doc, env).0;
            Accepted(after, later, doc, env2) <==>
            CustomToolsKnown(after, FileToolNames(db, env, doc.tools, PlanTools(db, h, doc, env)), doc.agents)
  {
    var after := Import(db, h, doc, env).0;
    CompletedWritesTables(db, h, doc, env);
    ImportedByKind(db, h, doc, env, after, later);
    AcceptedAgainFrom(db, h, doc, env, after, later, env2);
  }

  // ----- the second import -----

  /** What the plan of a file has to be like for its teams, tools and agents to be found again. */
  ghost predicate StablePlan(doc: Document, p: Plans) {
    TeamsStable(doc, p.teams) && ToolsStable(doc, p.tools) && AgentsStable(doc, p.agents)
  }

  /** After any completed import, the same file goes to the same teams, tools and agents again exactly when its plan was
      stable, and to the same channels exactly when the plan for channels was. */
  lemma SameRowsExactlyWhen(db: Db, h: History, doc: Document, env: Env, later: History, env2: Env)
    requires Import(db, h, doc, env).1.Completed?
    requires NewIdsAreFresh(db, h, doc, env) && PicksMembers(env.pick) && PicksMembers(env2.pick)
    requires Follows(h, later, Import(db, h, doc, env).0)
    ensures var p, q := Planned(db, h, doc, env), Planned(Import(db, h, doc, env).0, later, doc, env2);
            && (SameRows(p.teams, q.teams) && SameRows(p.tools, q.tools) && SameRows(p.agents, q.agents) <==> StablePlan(doc, p))
            && (SameRows(p.channels, q.channels) <==> ChannelsStable(doc, p.channels, TeamMap(doc.teams, p.teams)))
  {
    var after := Import(db, h, doc, env).0;
    CompletedWritesTables(db, h, doc, env);
    ImportedByKind(db, h, doc, env, after, later);
    TeamsAgain(db, h, doc, env, after, later, env2);
    ToolsAgain(db, h, doc, env, after, later, env2);
    AgentsAgain(db, h, doc, env, after, later, env2);
    ChannelsAgain(db, h, doc, env, after, later, env2, TeamMap(doc.teams, PlanTeams(db, h, doc, env)));
  }

  /** Asked for what the agents of the file refer to as (type, name), the database returns the same tools both times. */
  ghost predicate PicksAgree(tools: map<Id, Tool>, items: seq<AgentItem>, pick: Pick, pick2: Pick) {
    forall k, i :: 0 <= k < |items| && 0 <= i < |items[k].tools| && ToolMatches(tools, items[k].tools[i]) != {} ==>
      pick(ToolMatches(tools, items[k].tools[i])) == pick2(ToolMatches(tools, items[k].tools[i]))
  }

  /** So it does if each is one tool at most, as it is for builtin and custom tools. */
  lemma ClearRefsAgree(tools: map<Id, Tool>, items: seq<AgentItem>, pick: Pick, pick2: Pick)
    requires PicksMembers(pick) && PicksMembers(pick2)
    requires forall k, i :: 0 <= k < |items| && 0 <= i < |items[k].tools| ==> |ToolMatches(tools, items[k].tools[i])| <= 1
    ensures PicksAgree(tools, items, pick, pick2)
  {
    forall k, i | 0 <= k < |items| && 0 <= i < |items[k].tools| && ToolMatches(tools, items[k].tools[i]) != {}
      ensures pick(ToolMatches(tools, items[k].tools[i])) == pick2(ToolMatches(tools, items[k].tools[i]))
    {
      var matches := ToolMatches(tools, items[k].tools[i]);
      OnlyOne(matches, pick(matches), pick2);
    }
  }

  lemma SameToolValues(tools: map<Id, Tool>, items: seq<AgentItem>, pick: Pick, pick2: Pick)
    requires PicksAgree(tools, items, pick, pick2)
    ensures ToolValues(tools, items, pick2) == ToolValues(tools, items, pick)
  {
    forall k | 0 <= k < |items| ensures ToolIds(tools, items[k].tools, pick2) == ToolIds(tools, items[k].tools, pick) {
      assert forall r :: r in items[k].tools ==> exists i :: 0 <= i < |items[k].tools| && items[k].tools[i] == r;
    }
  }

  lemma SameSources(sources: map<Id, string>, other: map<Id, string>)
    requires forall t :: SourceOf(sources, t) == SourceOf(other, t)
    ensures sources == other
  {
    forall t ensures t in sources <==> t in other {
      assert SourceOf(sources, t) == SourceOf(other, t);
    }
    forall t | t in sources ensures sources[t] == other[t] {
      assert SourceOf(sources, t) == SourceOf(other, t);
    }
  }

  /** Writing the tools of the file again, to the same rows, leaves rows and sources as they are. */
  lemma ToolPhaseAgain(db: Db, h: History, doc: Document, env: Env, start: Db, after: Db, later: History, env2: Env)
    requires ToolsImported(db, h, doc, env, after, later) && PicksMembers(env2.pick) && ToolsStable(doc, PlanTools(db, h, doc, env))
    requires PutTools(start, PlanTools(db, h, doc, env), doc.tools).1
    requires after.sources == PutTools(start, PlanTools(db, h, doc, env), doc.tools).0.sources
    ensures PutTools(after, PlanTools(after, later, doc, env2), doc.tools) == (after, true)
  {
    var ts, us := PlanTools(db, h, doc, env), PlanTools(after, later, doc, env2);
    ToolsAgain(db, h, doc, env, after, later, env2);
    ToolsArePutAll(after, us, doc.tools);
    var d := PutTools(after, us, doc.tools).0;
    forall t ensures SourceOf(d.sources, t) == SourceOf(after.sources, t) {
      SourcesEndUp(start, ts, doc.tools, t);
      SourcesEndUp(after, us, doc.tools, t);
      FinalAgain(ts, us, SourceValues(doc.tools), t, SourceOf(after.sources, t));
      FinalTwice(ts, SourceValues(doc.tools), t, SourceOf(start.sources, t), SourceOf(start.sources, t));
    }
    SameSources(d.sources, after.sources);
  }

  ghost predicate SameJoins(d: Db, e: Db) {
    d.agentTools == e.agentTools && d.agentTeams == e.agentTeams && d.agentScopes == e.agentScopes && d.rules == e.rules
  }

  lemma JoinsAtAgain(start: Db, ts: seq<Target>, us: seq<Target>, items: seq<AgentItem>, m: map<Id, Option<Id>>, pick: Pick, pick2: Pick,
                     after: Db, a: Id)
    requires |ts| == |items| && SameRows(ts, us) && PutAgents(start, ts, items, m, pick).1 && PutAgents(after, us, items, m, pick2).1
    requires after.tools == start.tools && PicksAgree(start.tools, items, pick, pick2)
    requires SameJoins(after, PutAgents(start, ts, items, m, pick).0)
    ensures var d := PutAgents(after, us, items, m, pick2).0;
            && Of(d.agentTools, a) == Of(after.agentTools, a) && Of(d.agentTeams, a) == Of(after.agentTeams, a)
            && Of(d.agentScopes, a) == Of(after.agentScopes, a)
            && RulesOf(d, a) == RulesOf(after, a) && (a in d.rules <==> a in after.rules)
  {
    AgentsEndUp(start, ts, items, m, pick, a);
    AgentsEndUp(after, us, items, m, pick2, a);
    SameToolValues(start.tools, items, pick, pick2);
    SameRowsTargetSame(ts, us);
    FinalAgain(ts, us, ToolValues(start.tools, items, pick), a, Of(after.agentTools, a));
    FinalAgain(ts, us, TeamValues(m, items), a, Of(after.agentTeams, a));
    FinalAgain(ts, us, ScopeValues(items), a, Of(after.agentScopes, a));
    FinalAgain(ts, us, RuleValues(items), a, RulesOf(after, a));
    FinalTwice(ts, ToolValues(start.tools, items, pick), a, Of(start.agentTools, a), {});
    FinalTwice(ts, TeamValues(m, items), a, Of(start.agentTeams, a), {});
    FinalTwice(ts, ScopeValues(items), a, Of(start.agentScopes, a), {});
    FinalTwice(ts, RuleValues(items), a, RulesOf(start, a), multiset{});
  }

  lemma SameRules(d: Db, e: Db)
    requires forall a :: RulesOf(d, a) == RulesOf(e, a) && (a in d.rules <==> a in e.rules)
    ensures d.rules == e.rules
  {
    forall a | a in d.rules ensures d.rules[a] == e.rules[a] {
      assert RulesOf(d, a) == RulesOf(e, a);
    }
  }

  /** Writing the agents of the file again, to the same rows, leaves rows, joins and rules as they are. */
  lemma AgentPhaseAgain(db: Db, h: History, doc: Document, env: Env, start: Db, after: Db, later: History, env2: Env, m: map<Id, Option<Id>>)
    requires AgentsImported(db, h, doc, env, after, later) && PicksMembers(env2.pick) && AgentsStable(doc, PlanAgents(db, h, doc, env))
    requires PutAgents(start, PlanAgents(db, h, doc, env), doc.agents, m, env.pick).1
    requires SameJoins(after, PutAgents(start, PlanAgents(db, h, doc, env), doc.agents, m, env.pick).0)
    requires after.tools == start.tools && PicksAgree(start.tools, doc.agents, env.pick, env2.pick)
    ensures PutAgents(after, PlanAgents(after, later, doc, env2), doc.agents, m, env2.pick) == (after, true)
  {
    var ts, us := PlanAgents(db, h, doc, env), PlanAgents(after, later, doc, env2);
    AgentsAgain(db, h, doc, env, after, later, env2);
    AgentsArePutAll(after, us, doc.agents, m, env2.pick);
    var d := PutAgents(after, us, doc.agents, m, env2.pick).0;
    forall a
      ensures Of(d.agentTools, a) == Of(after.agentTools, a) && Of(d.agentTeams, a) == Of(after.agentTeams, a)
      ensures Of(d.agentScopes, a) == Of(after.agentScopes, a)
      ensures RulesOf(d, a) == RulesOf(after, a) && (a in d.rules <==> a in after.rules)
    {
      JoinsAtAgain(start, ts, us, doc.agents, m, env.pick, env2.pick, after, a);
    }
    SameJoin(d.agentTools, after.agentTools);
    SameJoin(d.agentTeams, after.agentTeams);
    SameJoin(d.agentScopes, after.agentScopes);
    SameRules(d, after);
  }

  /** The second import of entities: nothing up to the channels changes. */
  lemma EntitiesAgain(db: Db, h: History, doc: Document, env: Env, s: Phases, after: Db, later: History, env2: Env)
    requires TeamsImported(db, h, doc, env, after, later) && ToolsImported(db, h, doc, env, after, later)
    requires AgentsImported(db, h, doc, env, after, later) && PicksMembers(env2.pick) && StablePlan(doc, Planned(db, h, doc, env))
    requires Runs(db, doc, Planned(db, h, doc, env), TeamMap(doc.teams, PlanTeams(db, h, doc, env)), env, s)
    requires after == s.afterChannels.(settings := after.settings) && PicksAgree(after.tools, doc.agents, env.pick, env2.pick)
    ensures PutEntities(after, doc, Planned(after, later, doc, env2), env2.pick)
         == PutChannels(after, PlanChannels(after, later, doc, env2), doc.channels, TeamMap(doc.teams, PlanTeams(db, h, doc, env)))
  {
    var m := TeamMap(doc.teams, PlanTeams(db, h, doc, env));
    RunsWriteTables(db, doc, Planned(db, h, doc, env), m, env, s);
    AgentsArePutAll(s.afterTools, PlanAgents(db, h, doc, env), doc.agents, m, env.pick);
    TeamsAgain(db, h, doc, env, after, later, env2);
    SameTeamMap(doc.teams, PlanTeams(db, h, doc, env), PlanTeams(after, later, doc, env2));
    ToolPhaseAgain(db, h, doc, env, s.afterTeams, after, later, env2);
    AgentPhaseAgain(db, h, doc, env, s.afterTools, after, later, env2, m);
  }

  /** Importing a file again whose plan was stable creates no team, tool or agent, goes to the rows of the first time,
      and leaves teams, tools, sources, agents, their tools, teams, scopes and rules as they are, whatever happens to
      the channels, provided that the lookup of tools by type and name is settled. */
  lemma SecondImportKeepsDefinitions(db: Db, h: History, doc: Document, env: Env, later: History, env2: Env)
    requires Import(db, h, doc, env).1.Completed? && StablePlan(doc, Planned(db, h, doc, env))
    requires NewIdsAreFresh(db, h, doc, env) && PicksMembers(env.pick) && PicksMembers(env2.pick)
    requires var after := Import(db, h, doc, env).0; Follows(h, later, after) && PicksAgree(after.tools, doc.agents, env.pick, env2.pick)
    ensures var after := Import(db, h, doc, env).0;
            var twice := Import(after, later, doc, env2).0;
            twice == after.(channels := twice.channels, settings := twice.settings)
  {
    var s := CompletedRuns(db, h, doc, env);
    var after := Import(db, h, doc, env).0;
    SettingsOnly(s.afterChannels, doc.settings, env);
    CompletedWritesTables(db, h, doc, env);
    ImportedByKind(db, h, doc, env, after, later);
    EntitiesAgain(db, h, doc, env, s, after, later, env2);
    var us := PlanChannels(after, later, doc, env2);
    var m := TeamMap(doc.teams, PlanTeams(db, h, doc, env));
    ChannelsArePutAll(after, us, doc.channels, m);
    SettingsOnly(PutChannels(after, us, doc.channels, m).0, doc.settings, env2);
  }

  /** If the plan for channels was stable too, and the file is accepted again, the second import completes and changes
      nothing at all. */
  lemma SecondImportIsIdentity(db: Db, h: History, doc: Document, env: Env, later: History, env2: Env)
    requires Import(db, h, doc, env).1.Completed? && StablePlan(doc, Planned(db, h, doc, env)) && IsMapping(doc.settings)
    requires ChannelsStable(doc, PlanChannels(db, h, doc, env), TeamMap(doc.teams, PlanTeams(db, h, doc, env)))
    requires NewIdsAreFresh(db, h, doc, env) && PicksMembers(env.pick) && Afresh(env, env2)
    requires var after := Import(db, h, doc, env).0;
             && Follows(h, later, after) && PicksAgree(after.tools, doc.agents, env.pick, env2.pick)
             && Accepted(after, later, doc, env2)
    ensures var after := Import(db, h, doc, env).0;
            Import(after, later, doc, env2) == (after, Completed(Planned(after, later, doc, env2)))
  {
    var s := CompletedRuns(db, h, doc, env);
    var after := Import(db, h, doc, env).0;
    SettingsOnly(s.afterChannels, doc.settings, env);
    CompletedWritesTables(db, h, doc, env);
    ImportedByKind(db, h, doc, env, after, later);
    EntitiesAgain(db, h, doc, env, s, after, later, env2);
    ChannelsAgain(db, h, doc, env, after, later, env2, TeamMap(doc.teams, PlanTeams(db, h, doc, env)));
    ImportedSettingsStay(db, h, doc, env, env2);
    RefusedExactlyWhen(after, later, doc, env2);
  }

  lemma ImportedSettingsStay(db: Db, h: History, doc: Document, env: Env, env2: Env)
    requires Import(db, h, doc, env).1.Completed? && IsMapping(doc.settings) && Afresh(env, env2)
    ensures var after := Import(db, h, doc, env).0; PutSettings(after, doc.settings, env2) == after
  {
    var s := CompletedRuns(db, h, doc, env);
    var after := PutSettings(s.afterChannels, doc.settings, env);
    forall k | 0 <= k < |doc.settings| && Applies(env2, doc.settings[k])
      ensures doc.settings[k].key in after.settings && after.settings[doc.settings[k].key] == doc.settings[k].value
    {
      SettingsSettle(s.afterChannels, doc.settings, env, k);
    }
    SettingsAgain(after, doc.settings, env2);
  }
}
