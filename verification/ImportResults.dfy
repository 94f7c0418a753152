/** What the phases of an import leave behind (server/src/rivulets/workspace_yaml.py:586-741, with the set-replacing
    writes of server/src/rivulets/agentos/agent_lifecycle.py:39-188): the sources of tools, the joins and rules of
    agents, the settings. */
module ImportResults {
  import opened Prelude
  import opened Merge
  import opened MergeAgain
  import opened WorkspaceYaml
  import opened ImportSteps
  import opened ImportSafety

  // ----- join rows -----

  lemma OfSetJoin<X>(rel: set<(Id, X)>, a: Id, xs: set<X>, b: Id)
    ensures Of(SetJoin(rel, a, xs), b) == if a == b then xs else Of(rel, b)
  {
    var after := SetJoin(rel, a, xs);
    forall x ensures x in Of(after, b) <==> (b, x) in after {
      InOf(after, b, x);
    }
    forall x ensures x in Of(rel, b) <==> (b, x) in rel {
      InOf(rel, b, x);
    }
    if a == b {
      assert forall x :: (a, x) in after <==> x in xs;
    }
  }

  lemma InOf<X>(rel: set<(Id, X)>, a: Id, x: X)
    ensures x in Of(rel, a) <==> (a, x) in rel
  {
    if (a, x) in rel {
      assert (a, x).1 in Of(rel, a);
    }
  }

  lemma SetJoinSame<X>(rel: set<(Id, X)>, a: Id, xs: set<X>)
    requires Of(rel, a) == xs
    ensures SetJoin(rel, a, xs) == rel
  {
    forall p ensures p in SetJoin(rel, a, xs) <==> p in rel {
      InOf(rel, a, p.1);
      assert p == (p.0, p.1);
    }
  }

  lemma SameJoin<X>(rel: set<(Id, X)>, other: set<(Id, X)>)
    requires forall a :: Of(rel, a) == Of(other, a)
    ensures rel == other
  {
    forall p ensures p in rel <==> p in other {
      assert p == (p.0, p.1) && Of(rel, p.0) == Of(other, p.0);
      InOf(rel, p.0, p.1);
      InOf(other, p.0, p.1);
    }
  }

  // ----- what the tool and agent phases leave behind -----

  function SourceValues(items: seq<ToolItem>): (r: seq<Option<Option<string>>>)
    ensures |r| == |items| && forall i :: 0 <= i < |items| ==> r[i] == if items[i].source != "" then Some(Some(items[i].source)) else None
  {
    seq(|items|, i requires 0 <= i < |items| => if items[i].source != "" then Some(Some(items[i].source)) else None)
  }

  function ToolValues(tools: map<Id, Tool>, items: seq<AgentItem>, pick: Pick): (r: seq<Option<set<Id>>>)
    ensures |r| == |items| && forall i :: 0 <= i < |items| ==> r[i] == Some(ToolIds(tools, items[i].tools, pick))
  {
    seq(|items|, i requires 0 <= i < |items| => Some(ToolIds(tools, items[i].tools, pick)))
  }

  function TeamValues(m: map<Id, Option<Id>>, items: seq<AgentItem>): (r: seq<Option<set<Id>>>)
    ensures |r| == |items| && forall i :: 0 <= i < |items| ==> r[i] == Some(TeamIds(m, items[i].teams))
  {
    seq(|items|, i requires 0 <= i < |items| => Some(TeamIds(m, items[i].teams)))
  }

  function ScopeValues(items: seq<AgentItem>): (r: seq<Option<set<string>>>)
    ensures |r| == |items| && forall i :: 0 <= i < |items| ==> r[i] == Some(Elements(items[i].scopes))
  {
    seq(|items|, i requires 0 <= i < |items| => Some(Elements(items[i].scopes)))
  }

  function RuleValues(items: seq<AgentItem>): (r: seq<Option<multiset<Rule>>>)
    ensures |r| == |items|
    ensures forall i :: 0 <= i < |items| ==> r[i] == if items[i].rules.Some? then Some(multiset(items[i].rules.value)) else None
  {
    seq(|items|, i requires 0 <= i < |items| => if items[i].rules.Some? then Some(multiset(items[i].rules.value)) else None)
  }

  function SourceOf(sources: map<Id, string>, t: Id): Option<string> {
    if t in sources then Some(sources[t]) else None
  }

  /** The file of a tool is that of its last item with source, or as before. */
  lemma {:induction false} SourcesEndUp(db: Db, ts: seq<Target>, items: seq<ToolItem>, t: Id)
    requires |ts| == |items| && PutTools(db, ts, items).1
    ensures SourceOf(PutTools(db, ts, items).0.sources, t) == Final(ts, SourceValues(items), t, SourceOf(db.sources, t))
  {
    if ts != [] {
      var n := |ts| - 1;
      SourcesEndUp(db, ts[..n], items[..n], t);
      assert SourceValues(items)[..n] == SourceValues(items[..n]);
    }
  }

  /** The tools, teams and scopes of an agent are those of its last item, its rules those of its last item with rules,
      or as before. */
  ghost predicate AgentEndsUp(db: Db, ts: seq<Target>, items: seq<AgentItem>, m: map<Id, Option<Id>>, pick: Pick, d: Db, a: Id)
    requires |ts| == |items|
  {
    && Of(d.agentTools, a) == Final(ts, ToolValues(db.tools, items, pick), a, Of(db.agentTools, a))
    && Of(d.agentTeams, a) == Final(ts, TeamValues(m, items), a, Of(db.agentTeams, a))
    && Of(d.agentScopes, a) == Final(ts, ScopeValues(items), a, Of(db.agentScopes, a))
    && RulesEndUp(db, ts, items, d, a)
  }

  ghost predicate RulesEndUp(db: Db, ts: seq<Target>, items: seq<AgentItem>, d: Db, a: Id)
    requires |ts| == |items|
  {
    RulesOf(d, a) == Final(ts, RuleValues(items), a, RulesOf(db, a)) && (a in d.rules <==> a in db.rules || Targeted(ts, a))
  }

  lemma AgentStepJoins(db: Db, t: Target, item: AgentItem, m: map<Id, Option<Id>>, pick: Pick, a: Id)
    requires AgentStep(db, t, item, m, pick).1
    ensures var d := AgentStep(db, t, item, m, pick).0;
            var hit := Writes(t) && t.id == a;
            && Of(d.agentTools, a) == (if hit then ToolIds(db.tools, item.tools, pick) else Of(db.agentTools, a))
            && Of(d.agentTeams, a) == (if hit then TeamIds(m, item.teams) else Of(db.agentTeams, a))
            && Of(d.agentScopes, a) == (if hit then Elements(item.scopes) else Of(db.agentScopes, a))
            && RulesOf(d, a) == (if hit && item.rules.Some? then multiset(item.rules.value) else RulesOf(db, a))
            && (a in d.rules <==> a in db.rules || hit)
            && d.tools == db.tools
  {
    if Writes(t) {
      OfSetJoin(db.agentTools, t.id, ToolIds(db.tools, item.tools, pick), a);
      OfSetJoin(db.agentTeams, t.id, TeamIds(m, item.teams), a);
      OfSetJoin(db.agentScopes, t.id, Elements(item.scopes), a);
    }
  }

  lemma {:induction false} RulesOfAgents(db: Db, ts: seq<Target>, items: seq<AgentItem>, m: map<Id, Option<Id>>, pick: Pick, a: Id)
    requires |ts| == |items| && PutAgents(db, ts, items, m, pick).1
    ensures RulesEndUp(db, ts, items, PutAgents(db, ts, items, m, pick).0, a)
  {
    if ts != [] {
      var n := |ts| - 1;
      RulesOfAgents(db, ts[..n], items[..n], m, pick, a);
      AgentStepJoins(PutAgents(db, ts[..n], items[..n], m, pick).0, ts[n], items[n], m, pick, a);
      ValuesOfPrefix(db.tools, items, m, pick, n);
      TargetedLast(ts);
    }
  }

  lemma {:induction false} AgentsEndUp(db: Db, ts: seq<Target>, items: seq<AgentItem>, m: map<Id, Option<Id>>, pick: Pick, a: Id)
    requires |ts| == |items| && PutAgents(db, ts, items, m, pick).1
    ensures AgentEndsUp(db, ts, items, m, pick, PutAgents(db, ts, items, m, pick).0, a)
  {
    RulesOfAgents(db, ts, items, m, pick, a);
    if ts != [] {
      var n := |ts| - 1;
      AgentsEndUp(db, ts[..n], items[..n], m, pick, a);
      ToolsUntouched(db, ts[..n], items[..n], m, pick);
      AgentStepJoins(PutAgents(db, ts[..n], items[..n], m, pick).0, ts[n], items[n], m, pick, a);
      ValuesOfPrefix(db.tools, items, m, pick, n);
    }
  }

  lemma ToolsUntouched(db: Db, ts: seq<Target>, items: seq<AgentItem>, m: map<Id, Option<Id>>, pick: Pick)
    requires |ts| == |items|
    ensures PutAgents(db, ts, items, m, pick).0.tools == db.tools
  {
    AgentsArePutAll(db, ts, items, m, pick);
  }

  lemma ValuesOfPrefix(tools: map<Id, Tool>, items: seq<AgentItem>, m: map<Id, Option<Id>>, pick: Pick, n: nat)
    requires n <= |items|
    ensures ToolValues(tools, items, pick)[..n] == ToolValues(tools, items[..n], pick)
    ensures TeamValues(m, items)[..n] == TeamValues(m, items[..n])
    ensures ScopeValues(items)[..n] == ScopeValues(items[..n])
    ensures RuleValues(items)[..n] == RuleValues(items[..n])
  {
  }

  /** The agent's join rows and rules are what the item says. */
  ghost predicate AgentSettled(db: Db, a: Id, item: AgentItem, m: map<Id, Option<Id>>, pick: Pick) {
    && Of(db.agentTools, a) == ToolIds(db.tools, item.tools, pick)
    && Of(db.agentTeams, a) == TeamIds(m, item.teams)
    && Of(db.agentScopes, a) == Elements(item.scopes)
    && a in db.rules && (item.rules.Some? ==> db.rules[a] == multiset(item.rules.value))
  }

  /** An agent has the joins of the last item that goes to it, and its rules if it carries some. */
  lemma AgentsSettle(db: Db, ts: seq<Target>, items: seq<AgentItem>, m: map<Id, Option<Id>>, pick: Pick, k: nat)
    requires |ts| == |items| && LastWriter(ts, k) && PutAgents(db, ts, items, m, pick).1
    ensures AgentSettled(PutAgents(db, ts, items, m, pick).0, ts[k].id, items[k], m, pick)
  {
    var a := ts[k].id;
    AgentsEndUp(db, ts, items, m, pick, a);
    AgentsArePutAll(db, ts, items, m, pick);
    assert Targeted(ts, a);
    FinalAtLast(ts, ToolValues(db.tools, items, pick), k, Of(db.agentTools, a));
    FinalAtLast(ts, TeamValues(m, items), k, Of(db.agentTeams, a));
    FinalAtLast(ts, ScopeValues(items), k, Of(db.agentScopes, a));
    if items[k].rules.Some? {
      FinalAtLast(ts, RuleValues(items), k, RulesOf(db, a));
    }
  }

  lemma SourcesSettle(db: Db, ts: seq<Target>, items: seq<ToolItem>, k: nat)
    requires |ts| == |items| && LastWriter(ts, k) && items[k].source != "" && PutTools(db, ts, items).1
    ensures var d := PutTools(db, ts, items).0; ts[k].id in d.sources && d.sources[ts[k].id] == items[k].source
  {
    SourcesEndUp(db, ts, items, ts[k].id);
    FinalAtLast(ts, SourceValues(items), k, SourceOf(db.sources, ts[k].id));
  }

  // ----- doing it again where it is settled -----

  /** The target of the item is a row that is as the item says already. */
  ghost predicate AgentIsThere(db: Db, t: Target, item: AgentItem, m: map<Id, Option<Id>>, pick: Pick) {
    Writes(t) ==> t.Update? && t.id in db.agents && db.agents[t.id] == AgentRow(item) && AgentSettled(db, t.id, item, m, pick)
  }

  lemma AgentAlreadyThere(db: Db, t: Target, item: AgentItem, m: map<Id, Option<Id>>, pick: Pick)
    requires UniqueKeys(db.agents, AgentKey())
    requires AgentIsThere(db, t, item, m, pick)
    ensures AgentStep(db, t, item, m, pick) == (db, true)
  {
    if Writes(t) {
      SetJoinSame(db.agentTools, t.id, ToolIds(db.tools, item.tools, pick));
      SetJoinSame(db.agentTeams, t.id, TeamIds(m, item.teams));
      SetJoinSame(db.agentScopes, t.id, Elements(item.scopes));
      assert db.agents[t.id := AgentRow(item)] == db.agents;
      assert db.rules[t.id := NewRules(db, t.id, item.rules)] == db.rules;
    }
  }

  lemma {:induction false} AgentsAlreadyThere(db: Db, ts: seq<Target>, items: seq<AgentItem>, m: map<Id, Option<Id>>, pick: Pick)
    requires |ts| == |items| && UniqueKeys(db.agents, AgentKey())
    requires forall k :: 0 <= k < |ts| ==> AgentIsThere(db, ts[k], items[k], m, pick)
    ensures PutAgents(db, ts, items, m, pick) == (db, true)
  {
    if ts != [] {
      var n := |ts| - 1;
      assert forall k :: 0 <= k < n ==> ts[..n][k] == ts[k] && items[..n][k] == items[k];
      AgentsAlreadyThere(db, ts[..n], items[..n], m, pick);
      AgentAlreadyThere(db, ts[n], items[n], m, pick);
    }
  }

  lemma {:induction false} ToolsAlreadyThere(db: Db, ts: seq<Target>, items: seq<ToolItem>)
    requires |ts| == |items| && UniqueKeys(db.tools, ToolKey())
    requires forall k :: 0 <= k < |ts| && Writes(ts[k]) ==>
      && ts[k].Update? && ts[k].id in db.tools && db.tools[ts[k].id] == ToolRow(items[k])
      && (items[k].source != "" ==> ts[k].id in db.sources && db.sources[ts[k].id] == items[k].source)
    ensures PutTools(db, ts, items) == (db, true)
  {
    if ts != [] {
      var n := |ts| - 1;
      assert forall k :: 0 <= k < n ==> ts[..n][k] == ts[k] && items[..n][k] == items[k];
      ToolsAlreadyThere(db, ts[..n], items[..n]);
      if Writes(ts[n]) {
        assert db.tools[ts[n].id := ToolRow(items[n])] == db.tools;
        assert items[n].source != "" ==> db.sources[ts[n].id := items[n].source] == db.sources;
      }
    }
  }

  /** The team references of the file stand for the same teams. */
  lemma {:induction false} SameTeamMap(items: seq<TeamItem>, ts: seq<Target>, us: seq<Target>)
    requires |items| == |ts| == |us| && forall i :: 0 <= i < |ts| ==> us[i] == Again(ts[i])
    ensures TeamMap(items, us) == TeamMap(items, ts)
  {
    if items != [] {
      var n := |items| - 1;
      SameTeamMap(items[..n], ts[..n], us[..n]);
    }
  }

  // ----- settings -----

  /** The settings of a file are a mapping: no key twice. */
  ghost predicate IsMapping(settings: seq<Setting>) {
    forall i, j :: 0 <= i < j < |settings| ==> settings[i].key != settings[j].key
  }

  predicate Applies(env: Env, s: Setting) {
    s.key !in env.localSettings && s.key in env.knownSettings
  }

  lemma {:induction false} SettingsSettle(db: Db, settings: seq<Setting>, env: Env, k: nat)
    requires IsMapping(settings) && k < |settings| && Applies(env, settings[k])
    ensures var d := PutSettings(db, settings, env); settings[k].key in d.settings && d.settings[settings[k].key] == settings[k].value
  {
    var n := |settings| - 1;
    if k < n {
      assert settings[..n][k] == settings[k];
      SettingsSettle(db, settings[..n], env, k);
    }
  }

  lemma {:induction false} SettingsAgain(db: Db, settings: seq<Setting>, env: Env)
    requires forall k :: 0 <= k < |settings| && Applies(env, settings[k]) ==>
      settings[k].key in db.settings && db.settings[settings[k].key] == settings[k].value
    ensures PutSettings(db, settings, env) == db
  {
    if settings != [] {
      var n := |settings| - 1;
      assert forall k :: 0 <= k < n ==> settings[..n][k] == settings[k];
      SettingsAgain(db, settings[..n], env);
      if Applies(env, settings[n]) {
        assert db.settings[settings[n].key := settings[n].value] == db.settings;
      }
    }
  }
}
