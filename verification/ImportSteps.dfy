/** What each phase of an import writes (server/src/rivulets/workspace_yaml.py:569-741): a run of upserts in one table,
    the agents' join rows with it, and nothing else. */
module ImportSteps {
  import opened Prelude
  import opened Merge
  import opened WorkspaceYaml

  function TeamRows(items: seq<TeamItem>): (r: seq<Team>)
    ensures |r| == |items| && forall i :: 0 <= i < |items| ==> r[i] == TeamRow(items[i])
  {
    seq(|items|, i requires 0 <= i < |items| => TeamRow(items[i]))
  }

  function ToolRows(items: seq<ToolItem>): (r: seq<Tool>)
    ensures |r| == |items| && forall i :: 0 <= i < |items| ==> r[i] == ToolRow(items[i])
  {
    seq(|items|, i requires 0 <= i < |items| => ToolRow(items[i]))
  }

  function AgentRows(items: seq<AgentItem>): (r: seq<Agent>)
    ensures |r| == |items| && forall i :: 0 <= i < |items| ==> r[i] == AgentRow(items[i])
  {
    seq(|items|, i requires 0 <= i < |items| => AgentRow(items[i]))
  }

  function ChannelRows(m: map<Id, Option<Id>>, items: seq<ChannelItem>): (r: seq<Channel>)
    ensures |r| == |items| && forall i :: 0 <= i < |items| ==> r[i] == ChannelRow(m, items[i])
  {
    seq(|items|, i requires 0 <= i < |items| => ChannelRow(m, items[i]))
  }

  // ----- each phase is a run of upserts -----

  lemma {:induction false} TeamsArePutAll(db: Db, ts: seq<Target>, items: seq<TeamItem>)
    requires |ts| == |items|
    ensures var (d, ok) := PutTeams(db, ts, items);
            d == db.(teams := d.teams) && PutAll(db.teams, TeamKey(), false, ts, TeamRows(items)) == (d.teams, ok)
  {
    if ts != [] {
      var n := |ts| - 1;
      TeamsArePutAll(db, ts[..n], items[..n]);
      assert TeamRows(items)[..n] == TeamRows(items[..n]);
    }
  }

  lemma {:induction false} ToolsArePutAll(db: Db, ts: seq<Target>, items: seq<ToolItem>)
    requires |ts| == |items|
    ensures var (d, ok) := PutTools(db, ts, items);
            && d == db.(tools := d.tools, sources := d.sources)
            && PutAll(db.tools, ToolKey(), true, ts, ToolRows(items)) == (d.tools, ok)
  {
    if ts != [] {
      var n := |ts| - 1;
      ToolsArePutAll(db, ts[..n], items[..n]);
      assert ToolRows(items)[..n] == ToolRows(items[..n]);
    }
  }

  ghost predicate OnlyAgents(db: Db, d: Db) {
    d == db.(agents := d.agents, agentTools := d.agentTools, agentTeams := d.agentTeams, agentScopes := d.agentScopes, rules := d.rules)
  }

  lemma AgentStepIsPut(db: Db, t: Target, item: AgentItem, m: map<Id, Option<Id>>, pick: Pick)
    ensures var (d, ok) := AgentStep(db, t, item, m, pick);
            && OnlyAgents(db, d)
            && (d.agents, ok) == if !Writes(t) then (db.agents, true)
                                 else if Refused(db.agents, AgentKey(), true, t, AgentRow(item)) then (db.agents, false)
                                 else (db.agents[t.id := AgentRow(item)], true)
  {
  }

  lemma {:induction false} AgentsArePutAll(db: Db, ts: seq<Target>, items: seq<AgentItem>, m: map<Id, Option<Id>>, pick: Pick)
    requires |ts| == |items|
    ensures var (d, ok) := PutAgents(db, ts, items, m, pick);
            && OnlyAgents(db, d)
            && PutAll(db.agents, AgentKey(), true, ts, AgentRows(items)) == (d.agents, ok)
  {
    if ts != [] {
      var n := |ts| - 1;
      AgentsArePutAll(db, ts[..n], items[..n], m, pick);
      assert AgentRows(items)[..n] == AgentRows(items[..n]);
      AgentStepIsPut(PutAgents(db, ts[..n], items[..n], m, pick).0, ts[n], items[n], m, pick);
    }
  }

  lemma {:induction false} ChannelsArePutAll(db: Db, ts: seq<Target>, items: seq<ChannelItem>, m: map<Id, Option<Id>>)
    requires |ts| == |items|
    ensures var (d, ok) := PutChannels(db, ts, items, m);
            && d == db.(channels := d.channels)
            && PutAll(db.channels, ChannelKey(), true, ts, ChannelRows(m, items)) == (d.channels, ok)
  {
    if ts != [] {
      var n := |ts| - 1;
      ChannelsArePutAll(db, ts[..n], items[..n], m);
      assert ChannelRows(m, items)[..n] == ChannelRows(m, items[..n]);
    }
  }

  lemma {:induction false} SettingsOnly(db: Db, settings: seq<Setting>, env: Env)
    ensures var d := PutSettings(db, settings, env); d == db.(settings := d.settings)
  {
    if settings != [] {
      SettingsOnly(db, settings[..|settings| - 1], env);
    }
  }

  // ----- the tables after a whole import -----

  /** The states between the phases; a phase that fails is the last. */
  datatype Phases = Phases(afterTeams: Db, afterTools: Db, afterAgents: Db, afterChannels: Db)

  /** The import of a valid file that completes, phase by phase. */
  ghost predicate Runs(db: Db, doc: Document, p: Plans, m: map<Id, Option<Id>>, env: Env, s: Phases) {
    && |p.teams| == |doc.teams| && |p.tools| == |doc.tools| && |p.agents| == |doc.agents| && |p.channels| == |doc.channels|
    && m == TeamMap(doc.teams, p.teams)
    && PutTeams(db, p.teams, doc.teams) == (s.afterTeams, true)
    && PutTools(s.afterTeams, p.tools, doc.tools) == (s.afterTools, true)
    && PutAgents(s.afterTools, p.agents, doc.agents, m, env.pick) == (s.afterAgents, true)
    && PutChannels(s.afterAgents, p.channels, doc.channels, m) == (s.afterChannels, true)
  }

  lemma CompletedRuns(db: Db, h: History, doc: Document, env: Env) returns (s: Phases)
    requires Import(db, h, doc, env).1.Completed?
    ensures var p := Planned(db, h, doc, env);
            && Import(db, h, doc, env) == (PutSettings(s.afterChannels, doc.settings, env), Completed(p))
            && Runs(db, doc, p, TeamMap(doc.teams, p.teams), env, s)
            && Problems(db, h, doc, env) == []
  {
    var p := Planned(db, h, doc, env);
    var m := TeamMap(doc.teams, p.teams);
    var d1 := PutTeams(db, p.teams, doc.teams).0;
    var d2 := PutTools(d1, p.tools, doc.tools).0;
    var d3 := PutAgents(d2, p.agents, doc.agents, m, env.pick).0;
    s := Phases(d1, d2, d3, PutChannels(d3, p.channels, doc.channels, m).0);
  }

  lemma RunsCompletes(db: Db, h: History, doc: Document, env: Env, s: Phases)
    requires Problems(db, h, doc, env) == []
    requires var p := Planned(db, h, doc, env); Runs(db, doc, p, TeamMap(doc.teams, p.teams), env, s)
    ensures Import(db, h, doc, env) == (PutSettings(s.afterChannels, doc.settings, env), Completed(Planned(db, h, doc, env)))
  {
  }
}
