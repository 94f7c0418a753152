/** Import of a workspace definition (server/src/rivulets/workspace_yaml.py, with the set-replacing writes of
    server/src/rivulets/agentos/agent_lifecycle.py): validate the whole document against the live rows, then write
    teams, tools, agents, channels and settings, one commit per item. */
module WorkspaceYaml {
  import opened Prelude
  import opened Merge

  type Json = string

  // ----- rows -----

  datatype Team = Team(name: string, description: Option<string>)

  datatype Tool = Tool(name: string, description: string, toolType: string)

  datatype Agent = Agent(name: string, description: string, instructions: string, model: string,
                         fallback: Option<seq<string>>, schema: Option<map<string, Json>>, approved: bool)

  datatype Channel = Channel(name: string, description: Option<string>, teamId: Option<Id>, position: int, archived: bool)

  datatype Rule = Rule(ruleType: string, pattern: string, priority: int)

  /** The tables an import reads or writes; sources holds the source files of the custom tools, the join tables are
      sets of pairs that start with the agent, and rules has an entry, empty if need be, for each agent. */
  datatype Db = Db(teams: map<Id, Team>, tools: map<Id, Tool>, sources: map<Id, string>, agents: map<Id, Agent>,
                   agentTools: set<(Id, Id)>, agentTeams: set<(Id, Id)>, agentScopes: set<(Id, string)>,
                   rules: map<Id, multiset<Rule>>, channels: map<Id, Channel>, settings: map<string, Json>)

  datatype Kind = TeamKind | ToolKind | AgentKind | ChannelKind

  /** Which ids have sync history: they were published once, or their deletion is queued. */
  type History = set<(Kind, Id)>

  function Known(h: History, kind: Kind): set<Id> {
    set p | p in h && p.0 == kind :: p.1
  }

  // ----- the document -----

  datatype TeamItem = TeamItem(id: Option<Id>, name: string, description: Option<string>)

  datatype ToolItem = ToolItem(id: Option<Id>, name: string, description: string, source: string)

  datatype ToolRef = ToolRef(toolType: string, name: string)

  datatype AgentItem = AgentItem(id: Option<Id>, name: string, description: string, instructions: string, model: string,
                                 fallback: seq<string>, schema: Option<map<string, Json>>, approved: bool,
                                 tools: seq<ToolRef>, teams: seq<Id>, scopes: seq<string>, rules: Option<seq<Rule>>)

  datatype ChannelItem = ChannelItem(id: Option<Id>, name: string, description: Option<string>, teamId: Option<Id>,
                                     position: int, archived: bool)

  datatype Setting = Setting(key: string, value: Json)

  datatype Document = Document(version: int, settings: seq<Setting>, teams: seq<TeamItem>, tools: seq<ToolItem>,
                               agents: seq<AgentItem>, channels: seq<ChannelItem>)

  const EXPORT_VERSION := 1

  /** What lies outside: ids for new rows, which row of several a query returns, which sources compile and which values
      serialize, the known settings and scopes, and which writes reach the sync layer. */
  datatype Env = Env(newId: (Kind, nat) -> Id, pick: Pick, compiles: string -> bool, serializes: Json -> bool,
                     knownSettings: set<string>, localSettings: set<string>, scopes: set<string>,
                     publishes: (Kind, Id) -> bool)

  function NewIds(env: Env, kind: Kind): nat -> Id {
    (i: nat) => env.newId(kind, i)
  }

  // ----- the names under which rows are matched, and unique -----

  function TeamKey(): Team -> Option<string> {
    (r: Team) => Some(r.name)
  }

  function ToolKey(): Tool -> Option<string> {
    (r: Tool) => if r.toolType == "custom" then Some(r.name) else None
  }

  function AgentKey(): Agent -> Option<string> {
    (r: Agent) => Some(r.name)
  }

  function ChannelKey(): Channel -> Option<string> {
    (r: Channel) => if r.archived then None else Some(r.name)
  }

  /** The unique indexes of the database. Team names have none. */
  ghost predicate Indexed(db: Db) {
    UniqueKeys(db.tools, ToolKey()) && UniqueKeys(db.agents, AgentKey()) && UniqueKeys(db.channels, ChannelKey())
  }

  function TeamRefs(items: seq<TeamItem>): (r: seq<Ref>)
    ensures |r| == |items| && forall i :: 0 <= i < |items| ==> r[i] == Ref(items[i].id, items[i].name)
  {
    seq(|items|, i requires 0 <= i < |items| => Ref(items[i].id, items[i].name))
  }

  function ToolRefs(items: seq<ToolItem>): (r: seq<Ref>)
    ensures |r| == |items| && forall i :: 0 <= i < |items| ==> r[i] == Ref(items[i].id, items[i].name)
  {
    seq(|items|, i requires 0 <= i < |items| => Ref(items[i].id, items[i].name))
  }

  function AgentRefs(items: seq<AgentItem>): (r: seq<Ref>)
    ensures |r| == |items| && forall i :: 0 <= i < |items| ==> r[i] == Ref(items[i].id, items[i].name)
  {
    seq(|items|, i requires 0 <= i < |items| => Ref(items[i].id, items[i].name))
  }

  function ChannelRefs(items: seq<ChannelItem>): (r: seq<Ref>)
    ensures |r| == |items| && forall i :: 0 <= i < |items| ==> r[i] == Ref(items[i].id, items[i].name)
  {
    seq(|items|, i requires 0 <= i < |items| => Ref(items[i].id, items[i].name))
  }

  // ----- planning -----

  datatype Plans = Plans(teams: seq<Target>, tools: seq<Target>, agents: seq<Target>, channels: seq<Target>)

  function PlanTeams(db: Db, h: History, doc: Document, env: Env): (ts: seq<Target>)
    ensures |ts| == |doc.teams|
  {
    ResolveAll(db.teams, TeamKey(), Known(h, TeamKind), TeamRefs(doc.teams), NewIds(env, TeamKind), env.pick)
  }

  function PlanTools(db: Db, h: History, doc: Document, env: Env): (ts: seq<Target>)
    ensures |ts| == |doc.tools|
  {
    ResolveAll(db.tools, ToolKey(), Known(h, ToolKind), ToolRefs(doc.tools), NewIds(env, ToolKind), env.pick)
  }

  function PlanAgents(db: Db, h: History, doc: Document, env: Env): (ts: seq<Target>)
    ensures |ts| == |doc.agents|
  {
    ResolveAll(db.agents, AgentKey(), Known(h, AgentKind), AgentRefs(doc.agents), NewIds(env, AgentKind), env.pick)
  }

  function PlanChannels(db: Db, h: History, doc: Document, env: Env): (ts: seq<Target>)
    ensures |ts| == |doc.channels|
  {
    ResolveAll(db.channels, ChannelKey(), Known(h, ChannelKind), ChannelRefs(doc.channels), NewIds(env, ChannelKind), env.pick)
  }

  function Planned(db: Db, h: History, doc: Document, env: Env): Plans {
    Plans(PlanTeams(db, h, doc, env), PlanTools(db, h, doc, env), PlanAgents(db, h, doc, env), PlanChannels(db, h, doc, env))
  }

  /** team_id_map: what the team ids of the file stand for here; None for a team that is skipped. */
  function TeamMap(items: seq<TeamItem>, ts: seq<Target>): map<Id, Option<Id>>
    requires |items| == |ts|
  {
    if items == [] then map[]
    else
      var n := |items| - 1;
      var m := TeamMap(items[..n], ts[..n]);
      if !Writes(ts[n]) then if items[n].id.Some? then m[items[n].id.value := None] else m
      else
        var own := if items[n].id.Some? then m[items[n].id.value := Some(ts[n].id)] else m;
        own[ts[n].id := Some(ts[n].id)]
  }

  /** What a team reference of the file becomes: dropped, mapped, or taken as a local id. */
  function LocalTeam(m: map<Id, Option<Id>>, ref: Id): Option<Id> {
    if ref in m then m[ref] else Some(ref)
  }

  // ----- problems -----

  datatype Problem =
    | BadDocument
    | UnknownSetting(key: string)
    | UnserializableSetting(key: string)
    | DuplicateName(kind: Kind, name: string)
    | AmbiguousName(kind: Kind, name: string)
    | BadToolName(name: string)
    | BadSource(name: string)
    | NotCustom(name: string)
    | UnknownScope(scope: string)
    | UnknownToolType(toolType: string)
    | MissingCustomTool(name: string)
    | UnknownTeam(ref: Id)

  /** The problems of n things in turn. */
  function Gather(n: nat, f: nat -> seq<Problem>): seq<Problem> {
    if n == 0 then [] else Gather(n - 1, f) + f(n - 1)
  }

  /** The field constraints of the file schema. */
  predicate WellShaped(doc: Document) {
    && doc.version == EXPORT_VERSION
    && (forall t :: t in doc.teams ==> |t.name| >= 1)
    && (forall a :: a in doc.agents ==> 2 <= |a.name| <= 64 && 10 <= |a.description| <= 500)
    && (forall c :: c in doc.channels ==> 3 <= |c.name| <= 80)
  }

  predicate NameStart(c: char) {
    'A' <= c <= 'Z' || 'a' <= c <= 'z' || c == '_'
  }

  predicate NameRest(c: char) {
    NameStart(c) || '0' <= c <= '9'
  }

  /** ^[A-Za-z_][A-Za-z0-9_]*$ of a language whose $ also matches before a final line feed. */
  predicate ToolNameOk(name: string) {
    var n := if name != "" && name[|name| - 1] == '\n' then |name| - 1 else |name|;
    n >= 1 && NameStart(name[0]) && forall i :: 1 <= i < n ==> NameRest(name[i])
  }

  function SettingProblems(env: Env, s: Setting): seq<Problem> {
    if s.key in env.localSettings then []
    else if s.key !in env.knownSettings then [UnknownSetting(s.key)]
    else if !env.serializes(s.value) then [UnserializableSetting(s.key)]
    else []
  }

  /** The names a duplicate check goes through: None for an item it leaves out. */
  function DuplicateProblems(kind: Kind, names: seq<Option<string>>, i: nat): seq<Problem> {
    if i < |names| && names[i].Some? && names[i] in names[..i] then [DuplicateName(kind, names[i].value)] else []
  }

  function TeamNames(items: seq<TeamItem>): (r: seq<Option<string>>)
    ensures |r| == |items| && forall i :: 0 <= i < |items| ==> r[i] == Some(items[i].name)
  {
    seq(|items|, i requires 0 <= i < |items| => Some(items[i].name))
  }

  function ToolNames(items: seq<ToolItem>): (r: seq<Option<string>>)
    ensures |r| == |items| && forall i :: 0 <= i < |items| ==> r[i] == Some(items[i].name)
  {
    seq(|items|, i requires 0 <= i < |items| => Some(items[i].name))
  }

  function AgentNames(items: seq<AgentItem>): (r: seq<Option<string>>)
    ensures |r| == |items| && forall i :: 0 <= i < |items| ==> r[i] == Some(items[i].name)
  {
    seq(|items|, i requires 0 <= i < |items| => Some(items[i].name))
  }

  function ActiveChannelNames(items: seq<ChannelItem>): (r: seq<Option<string>>)
    ensures |r| == |items| && forall i :: 0 <= i < |items| ==> r[i] == if items[i].archived then None else Some(items[i].name)
  {
    seq(|items|, i requires 0 <= i < |items| => if items[i].archived then None else Some(items[i].name))
  }

  function TargetProblems(kind: Kind, name: string, t: Target): seq<Problem> {
    if t.Ambiguous? then [AmbiguousName(kind, name)] else []
  }

  function ToolProblems(db: Db, env: Env, item: ToolItem, t: Target): seq<Problem> {
    if !ToolNameOk(item.name) then [BadToolName(item.name)]
    else if item.source != "" && !env.compiles(item.source) then [BadSource(item.name)]
    else if t.Ambiguous? then [AmbiguousName(ToolKind, item.name)]
    else if t.Update? && t.id in db.tools && db.tools[t.id].toolType != "custom" then [NotCustom(item.name)]
    else []
  }

  /** The custom tools an agent of the file may refer to before they exist. */
  function FileToolNames(db: Db, env: Env, items: seq<ToolItem>, ts: seq<Target>): set<string>
    requires |items| == |ts|
  {
    set i | 0 <= i < |items| && Writes(ts[i]) && ToolProblems(db, env, items[i], ts[i]) == [] :: items[i].name
  }

  function ToolMatches(tools: map<Id, Tool>, ref: ToolRef): set<Id> {
    set t | t in tools && tools[t].toolType == ref.toolType && tools[t].name == ref.name
  }

  const TOOL_TYPES := {"builtin", "custom", "mcp"}

  function ToolRefProblems(db: Db, fileNames: set<string>, ref: ToolRef): seq<Problem> {
    if ref.toolType !in TOOL_TYPES then [UnknownToolType(ref.toolType)]
    else if ToolMatches(db.tools, ref) != {} then []
    else if ref.toolType == "custom" && ref.name !in fileNames then [MissingCustomTool(ref.name)]
    else []
  }

  function TeamRefProblems(db: Db, m: map<Id, Option<Id>>, ref: Id): seq<Problem> {
    if ref in m || ref in db.teams then [] else [UnknownTeam(ref)]
  }

  // The check of the i-th thing of a list; nothing beyond its end.

  function ScopeAt(env: Env, scopes: seq<string>): nat -> seq<Problem> {
    (i: nat) => if i < |scopes| && scopes[i] !in env.scopes then [UnknownScope(scopes[i])] else []
  }

  function ToolRefAt(db: Db, fileNames: set<string>, refs: seq<ToolRef>): nat -> seq<Problem> {
    (i: nat) => if i < |refs| then ToolRefProblems(db, fileNames, refs[i]) else []
  }

  function TeamRefAt(db: Db, m: map<Id, Option<Id>>, refs: seq<Id>): nat -> seq<Problem> {
    (i: nat) => if i < |refs| then TeamRefProblems(db, m, refs[i]) else []
  }

  function AgentProblems(db: Db, env: Env, m: map<Id, Option<Id>>, fileNames: set<string>, item: AgentItem, t: Target)
    : seq<Problem>
  {
    Gather(|item.scopes|, ScopeAt(env, item.scopes)) +
    Gather(|item.tools|, ToolRefAt(db, fileNames, item.tools)) +
    Gather(|item.teams|, TeamRefAt(db, m, item.teams)) +
    TargetProblems(AgentKind, item.name, t)
  }

  function ChannelProblems(db: Db, m: map<Id, Option<Id>>, item: ChannelItem, t: Target): seq<Problem> {
    (if item.teamId.Some? then TeamRefProblems(db, m, item.teamId.value) else []) + TargetProblems(ChannelKind, item.name, t)
  }

  function SettingAt(env: Env, settings: seq<Setting>): nat -> seq<Problem> {
    (i: nat) => if i < |settings| then SettingProblems(env, settings[i]) else []
  }

  function DuplicateAt(kind: Kind, names: seq<Option<string>>): nat -> seq<Problem> {
    (i: nat) => DuplicateProblems(kind, names, i)
  }

  function TeamAt(items: seq<TeamItem>, ts: seq<Target>): nat -> seq<Problem>
    requires |items| == |ts|
  {
    (i: nat) => if i < |items| then TargetProblems(TeamKind, items[i].name, ts[i]) else []
  }

  function ToolAt(db: Db, env: Env, items: seq<ToolItem>, ts: seq<Target>): nat -> seq<Problem>
    requires |items| == |ts|
  {
    (i: nat) => if i < |items| then ToolProblems(db, env, items[i], ts[i]) else []
  }

  function AgentAt(db: Db, env: Env, m: map<Id, Option<Id>>, fileNames: set<string>, items: seq<AgentItem>, ts: seq<Target>)
    : nat -> seq<Problem>
    requires |items| == |ts|
  {
    (i: nat) => if i < |items| then AgentProblems(db, env, m, fileNames, items[i], ts[i]) else []
  }

  function ChannelAt(db: Db, m: map<Id, Option<Id>>, items: seq<ChannelItem>, ts: seq<Target>): nat -> seq<Problem>
    requires |items| == |ts|
  {
    (i: nat) => if i < |items| then ChannelProblems(db, m, items[i], ts[i]) else []
  }

  function DuplicatesIn(doc: Document): seq<Problem> {
    Gather(|doc.teams|, DuplicateAt(TeamKind, TeamNames(doc.teams))) +
    Gather(|doc.tools|, DuplicateAt(ToolKind, ToolNames(doc.tools))) +
    Gather(|doc.agents|, DuplicateAt(AgentKind, AgentNames(doc.agents))) +
    Gather(|doc.channels|, DuplicateAt(ChannelKind, ActiveChannelNames(doc.channels)))
  }

  function ItemProblems(db: Db, doc: Document, p: Plans, env: Env): seq<Problem>
    requires |p.teams| == |doc.teams| && |p.tools| == |doc.tools| && |p.agents| == |doc.agents| && |p.channels| == |doc.channels|
  {
    var m := TeamMap(doc.teams, p.teams);
    var fileNames := FileToolNames(db, env, doc.tools, p.tools);
    Gather(|doc.teams|, TeamAt(doc.teams, p.teams)) +
    Gather(|doc.tools|, ToolAt(db, env, doc.tools, p.tools)) +
    Gather(|doc.agents|, AgentAt(db, env, m, fileNames, doc.agents, p.agents)) +
    Gather(|doc.channels|, ChannelAt(db, m, doc.channels, p.channels))
  }

  /** Everything the validation phase has to say, in its order. */
  function Problems(db: Db, h: History, doc: Document, env: Env): seq<Problem> {
    if !WellShaped(doc) then [BadDocument]
    else Gather(|doc.settings|, SettingAt(env, doc.settings)) + DuplicatesIn(doc) + ItemProblems(db, doc, Planned(db, h, doc, env), env)
  }

  // ----- applying -----

  /** The rows of a join table for one agent are replaced as a set. */
  function SetJoin<X>(rel: set<(Id, X)>, a: Id, xs: set<X>): set<(Id, X)> {
    (set p | p in rel && p.0 != a) + (set x | x in xs :: (a, x))
  }

  function Of<X>(rel: set<(Id, X)>, a: Id): set<X> {
    set p | p in rel && p.0 == a :: p.1
  }

  function RulesOf(db: Db, a: Id): multiset<Rule> {
    if a in db.rules then db.rules[a] else multiset{}
  }

  /** A file that carries no rules leaves those of the agent. */
  function NewRules(db: Db, a: Id, rules: Option<seq<Rule>>): multiset<Rule> {
    if rules.Some? then multiset(rules.value) else RulesOf(db, a)
  }

  function TeamRow(item: TeamItem): Team {
    Team(item.name, item.description)
  }

  function ToolRow(item: ToolItem): Tool {
    Tool(item.name, item.description, "custom")
  }

  function AgentRow(item: AgentItem): Agent {
    Agent(item.name, item.description, item.instructions, item.model,
          if item.fallback == [] then None else Some(item.fallback),
          if item.schema.None? || item.schema.value == map[] then None else item.schema,
          item.approved)
  }

  function ChannelRow(m: map<Id, Option<Id>>, item: ChannelItem): Channel {
    Channel(item.name, item.description, if item.teamId.Some? then LocalTeam(m, item.teamId.value) else None,
            item.position, item.archived)
  }

  function TeamStep(db: Db, t: Target, item: TeamItem): (Db, bool) {
    if !Writes(t) then (db, true)
    else if Refused(db.teams, TeamKey(), false, t, TeamRow(item)) then (db, false)
    else (db.(teams := db.teams[t.id := TeamRow(item)]), true)
  }

  /** An item without source leaves the tool's file alone. */
  function ToolStep(db: Db, t: Target, item: ToolItem): (Db, bool) {
    if !Writes(t) then (db, true)
    else if Refused(db.tools, ToolKey(), true, t, ToolRow(item)) then (db, false)
    else (db.(tools := db.tools[t.id := ToolRow(item)],
              sources := if item.source != "" then db.sources[t.id := item.source] else db.sources), true)
  }

  function ToolIds(tools: map<Id, Tool>, refs: seq<ToolRef>, pick: Pick): set<Id> {
    set r | r in refs && ToolMatches(tools, r) != {} :: pick(ToolMatches(tools, r))
  }

  function TeamIds(m: map<Id, Option<Id>>, refs: seq<Id>): set<Id> {
    set r | r in refs && LocalTeam(m, r).Some? :: LocalTeam(m, r).value
  }

  function Elements(xs: seq<string>): set<string> {
    set x | x in xs
  }

  function AgentStep(db: Db, t: Target, item: AgentItem, m: map<Id, Option<Id>>, pick: Pick): (Db, bool) {
    if !Writes(t) then (db, true)
    else if Refused(db.agents, AgentKey(), true, t, AgentRow(item)) then (db, false)
    else
      (db.(agents := db.agents[t.id := AgentRow(item)],
           agentTools := SetJoin(db.agentTools, t.id, ToolIds(db.tools, item.tools, pick)),
           agentTeams := SetJoin(db.agentTeams, t.id, TeamIds(m, item.teams)),
           agentScopes := SetJoin(db.agentScopes, t.id, Elements(item.scopes)),
           rules := db.rules[t.id := NewRules(db, t.id, item.rules)]), true)
  }

  function ChannelStep(db: Db, t: Target, item: ChannelItem, m: map<Id, Option<Id>>): (Db, bool) {
    if !Writes(t) then (db, true)
    else if Refused(db.channels, ChannelKey(), true, t, ChannelRow(m, item)) then (db, false)
    else (db.(channels := db.channels[t.id := ChannelRow(m, item)]), true)
  }

  function SettingStep(db: Db, s: Setting, env: Env): Db {
    if s.key in env.localSettings || s.key !in env.knownSettings then db
    else db.(settings := db.settings[s.key := s.value])
  }

  function PutTeams(db: Db, ts: seq<Target>, items: seq<TeamItem>): (Db, bool)
    requires |ts| == |items|
  {
    if ts == [] then (db, true)
    else
      var n := |ts| - 1;
      var (d, ok) := PutTeams(db, ts[..n], items[..n]);
      if ok then TeamStep(d, ts[n], items[n]) else (d, false)
  }

  function PutTools(db: Db, ts: seq<Target>, items: seq<ToolItem>): (Db, bool)
    requires |ts| == |items|
  {
    if ts == [] then (db, true)
    else
      var n := |ts| - 1;
      var (d, ok) := PutTools(db, ts[..n], items[..n]);
      if ok then ToolStep(d, ts[n], items[n]) else (d, false)
  }

  function PutAgents(db: Db, ts: seq<Target>, items: seq<AgentItem>, m: map<Id, Option<Id>>, pick: Pick): (Db, bool)
    requires |ts| == |items|
  {
    if ts == [] then (db, true)
    else
      var n := |ts| - 1;
      var (d, ok) := PutAgents(db, ts[..n], items[..n], m, pick);
      if ok then AgentStep(d, ts[n], items[n], m, pick) else (d, false)
  }

  function PutChannels(db: Db, ts: seq<Target>, items: seq<ChannelItem>, m: map<Id, Option<Id>>): (Db, bool)
    requires |ts| == |items|
  {
    if ts == [] then (db, true)
    else
      var n := |ts| - 1;
      var (d, ok) := PutChannels(db, ts[..n], items[..n], m);
      if ok then ChannelStep(d, ts[n], items[n], m) else (d, false)
  }

  function PutSettings(db: Db, settings: seq<Setting>, env: Env): Db {
    if settings == [] then db
    else SettingStep(PutSettings(db, settings[..|settings| - 1], env), settings[|settings| - 1], env)
  }

  function PutEntities(db: Db, doc: Document, p: Plans, pick: Pick): (Db, bool)
    requires |p.teams| == |doc.teams| && |p.tools| == |doc.tools| && |p.agents| == |doc.agents| && |p.channels| == |doc.channels|
  {
    var m := TeamMap(doc.teams, p.teams);
    var (d1, ok1) := PutTeams(db, p.teams, doc.teams);
    if !ok1 then (d1, false) else
    var (d2, ok2) := PutTools(d1, p.tools, doc.tools);
    if !ok2 then (d2, false) else
    var (d3, ok3) := PutAgents(d2, p.agents, doc.agents, m, pick);
    if !ok3 then (d3, false) else
    PutChannels(d3, p.channels, doc.channels, m)
  }

  /** Invalid: refused with its problems. Broken: a unique index refused a write half-way, earlier commits stay.
      Completed: with the rows each item went to. */
  datatype Outcome = Invalid(problems: seq<Problem>) | Broken | Completed(plans: Plans)

  function Import(db: Db, h: History, doc: Document, env: Env): (Db, Outcome) {
    var problems := Problems(db, h, doc, env);
    if problems != [] then (db, Invalid(problems))
    else
      var p := Planned(db, h, doc, env);
      var (d, ok) := PutEntities(db, doc, p, env.pick);
      if ok then (PutSettings(d, doc.settings, env), Completed(p)) else (d, Broken)
  }

  /** The rows an import has written and whose publication reached the sync layer gain history. */
  function Published(h: History, db: Db, p: Plans, env: Env): History {
    h +
    (set i | 0 <= i < |p.teams| && Writes(p.teams[i]) && p.teams[i].id in db.teams && env.publishes(TeamKind, p.teams[i].id) :: (TeamKind, p.teams[i].id)) +
    (set i | 0 <= i < |p.tools| && Writes(p.tools[i]) && p.tools[i].id in db.tools && env.publishes(ToolKind, p.tools[i].id) :: (ToolKind, p.tools[i].id)) +
    (set i | 0 <= i < |p.agents| && Writes(p.agents[i]) && p.agents[i].id in db.agents && env.publishes(AgentKind, p.agents[i].id) :: (AgentKind, p.agents[i].id)) +
    (set i | 0 <= i < |p.channels| && Writes(p.channels[i]) && p.channels[i].id in db.channels && env.publishes(ChannelKind, p.channels[i].id) :: (ChannelKind, p.channels[i].id))
  }

  // ----- the same, as it runs -----

  method PlanEntities<R>(table: Table<R>, key: R -> Option<string>, history: set<Id>, items: seq<Ref>,
                         newId: nat -> Id, pick: Pick) returns (ts: seq<Target>)
    ensures ts == ResolveAll(table, key, history, items, newId, pick)
  {
    ts := [];
    for i := 0 to |items|
      invariant |ts| == i && forall j :: 0 <= j < i ==> ts[j] == Resolve(table, key, history, items[j], newId(j), pick)
    {
      ts := ts + [Resolve(table, key, history, items[i], newId(i), pick)];
    }
  }

  method PlanAll(db: Db, h: History, doc: Document, env: Env) returns (p: Plans)
    ensures p == Planned(db, h, doc, env)
  {
    var teams := PlanEntities(db.teams, TeamKey(), Known(h, TeamKind), TeamRefs(doc.teams), NewIds(env, TeamKind), env.pick);
    var tools := PlanEntities(db.tools, ToolKey(), Known(h, ToolKind), ToolRefs(doc.tools), NewIds(env, ToolKind), env.pick);
    var agents := PlanEntities(db.agents, AgentKey(), Known(h, AgentKind), AgentRefs(doc.agents), NewIds(env, AgentKind), env.pick);
    var channels := PlanEntities(db.channels, ChannelKey(), Known(h, ChannelKind), ChannelRefs(doc.channels), NewIds(env, ChannelKind), env.pick);
    p := Plans(teams, tools, agents, channels);
  }

  method BuildTeamMap(items: seq<TeamItem>, ts: seq<Target>) returns (m: map<Id, Option<Id>>)
    requires |items| == |ts|
    ensures m == TeamMap(items, ts)
  {
    m := map[];
    for i := 0 to |items|
      invariant m == TeamMap(items[..i], ts[..i])
    {
      assert items[..i + 1][..i] == items[..i] && ts[..i + 1][..i] == ts[..i];
      if !Writes(ts[i]) {
        if items[i].id.Some? {
          m := m[items[i].id.value := None];
        }
      } else {
        if items[i].id.Some? {
          m := m[items[i].id.value := Some(ts[i].id)];
        }
        m := m[ts[i].id := Some(ts[i].id)];
      }
    }
    assert items[..|items|] == items && ts[..|ts|] == ts;
  }

  /** One loop of the validation phase: errors are appended item by item. */
  method CheckEach(n: nat, check: nat -> seq<Problem>) returns (errors: seq<Problem>)
    ensures errors == Gather(n, check)
  {
    errors := [];
    for i := 0 to n
      invariant errors == Gather(i, check)
    {
      errors := errors + check(i);
    }
  }

  method Validate(db: Db, h: History, doc: Document, env: Env) returns (errors: seq<Problem>)
    ensures errors == Problems(db, h, doc, env)
  {
    if !WellShaped(doc) {
      return [BadDocument];
    }
    var settings := CheckEach(|doc.settings|, SettingAt(env, doc.settings));
    var p := PlanAll(db, h, doc, env);
    var m := BuildTeamMap(doc.teams, p.teams);
    var fileNames := FileToolNames(db, env, doc.tools, p.tools);
    var teams := CheckEach(|doc.teams|, TeamAt(doc.teams, p.teams));
    var tools := CheckEach(|doc.tools|, ToolAt(db, env, doc.tools, p.tools));
    var agents := CheckEach(|doc.agents|, AgentAt(db, env, m, fileNames, doc.agents, p.agents));
    var channels := CheckEach(|doc.channels|, ChannelAt(db, m, doc.channels, p.channels));
    errors := settings + DuplicatesIn(doc) + (teams + tools + agents + channels);
  }

  class Workspace {
    var db: Db
    var history: History

    constructor (db0: Db, h: History)
      ensures db == db0 && history == h
    {
      db, history := db0, h;
    }

    method ApplyTeams(ts: seq<Target>, items: seq<TeamItem>) returns (ok: bool)
      requires |ts| == |items|
      modifies this`db
      ensures (db, ok) == PutTeams(old(db), ts, items)
    {
      for i := 0 to |ts|
        invariant (db, true) == PutTeams(old(db), ts[..i], items[..i])
      {
        assert ts[..i + 1][..i] == ts[..i] && items[..i + 1][..i] == items[..i];
        if Writes(ts[i]) {
          if Refused(db.teams, TeamKey(), false, ts[i], TeamRow(items[i])) {
            TeamsStop(old(db), ts, items, i + 1);
            return false;
          }
          db := db.(teams := db.teams[ts[i].id := TeamRow(items[i])]);
        }
      }
      assert ts[..|ts|] == ts && items[..|items|] == items;
      return true;
    }

    method ApplyTools(ts: seq<Target>, items: seq<ToolItem>) returns (ok: bool)
      requires |ts| == |items|
      modifies this`db
      ensures (db, ok) == PutTools(old(db), ts, items)
    {
      for i := 0 to |ts|
        invariant (db, true) == PutTools(old(db), ts[..i], items[..i])
      {
        assert ts[..i + 1][..i] == ts[..i] && items[..i + 1][..i] == items[..i];
        if Writes(ts[i]) {
          if Refused(db.tools, ToolKey(), true, ts[i], ToolRow(items[i])) {
            ToolsStop(old(db), ts, items, i + 1);
            return false;
          }
          db := db.(tools := db.tools[ts[i].id := ToolRow(items[i])]);
          if items[i].source != "" {
            db := db.(sources := db.sources[ts[i].id := items[i].source]);
          }
        }
      }
      assert ts[..|ts|] == ts && items[..|items|] == items;
      return true;
    }

    /** set_agent_tools, set_agent_teams, set_agent_tool_scopes and replace_routing_rules: delete the agent's rows,
        then add the new ones. */
    method SetAgentJoins(a: Id, toolIds: set<Id>, teamIds: set<Id>, scopes: set<string>, rules: Option<seq<Rule>>)
      modifies this`db
      ensures db == old(db).(agentTools := SetJoin(old(db).agentTools, a, toolIds),
                             agentTeams := SetJoin(old(db).agentTeams, a, teamIds),
                             agentScopes := SetJoin(old(db).agentScopes, a, scopes),
                             rules := old(db).rules[a := NewRules(old(db), a, rules)])
    {
      db := db.(agentTools := set p | p in db.agentTools && p.0 != a);
      db := db.(agentTools := db.agentTools + set x | x in toolIds :: (a, x));
      db := db.(agentTeams := set p | p in db.agentTeams && p.0 != a);
      db := db.(agentTeams := db.agentTeams + set x | x in teamIds :: (a, x));
      db := db.(agentScopes := set p | p in db.agentScopes && p.0 != a);
      db := db.(agentScopes := db.agentScopes + set x | x in scopes :: (a, x));
      db := db.(rules := db.rules[a := NewRules(db, a, rules)]);
    }

    method ApplyAgents(ts: seq<Target>, items: seq<AgentItem>, m: map<Id, Option<Id>>, pick: Pick) returns (ok: bool)
      requires |ts| == |items|
      modifies this`db
      ensures (db, ok) == PutAgents(old(db), ts, items, m, pick)
    {
      for i := 0 to |ts|
        invariant (db, true) == PutAgents(old(db), ts[..i], items[..i], m, pick)
      {
        assert ts[..i + 1][..i] == ts[..i] && items[..i + 1][..i] == items[..i];
        if Writes(ts[i]) {
          if Refused(db.agents, AgentKey(), true, ts[i], AgentRow(items[i])) {
            AgentsStop(old(db), ts, items, m, pick, i + 1);
            return false;
          }
          var a := ts[i].id;
          db := db.(agents := db.agents[a := AgentRow(items[i])]);
          SetAgentJoins(a, ToolIds(db.tools, items[i].tools, pick), TeamIds(m, items[i].teams), Elements(items[i].scopes), items[i].rules);
        }
      }
      assert ts[..|ts|] == ts && items[..|items|] == items;
      return true;
    }

    method ApplyChannels(ts: seq<Target>, items: seq<ChannelItem>, m: map<Id, Option<Id>>) returns (ok: bool)
      requires |ts| == |items|
      modifies this`db
      ensures (db, ok) == PutChannels(old(db), ts, items, m)
    {
      for i := 0 to |ts|
        invariant (db, true) == PutChannels(old(db), ts[..i], items[..i], m)
      {
        assert ts[..i + 1][..i] == ts[..i] && items[..i + 1][..i] == items[..i];
        if Writes(ts[i]) {
          if Refused(db.channels, ChannelKey(), true, ts[i], ChannelRow(m, items[i])) {
            ChannelsStop(old(db), ts, items, m, i + 1);
            return false;
          }
          db := db.(channels := db.channels[ts[i].id := ChannelRow(m, items[i])]);
        }
      }
      assert ts[..|ts|] == ts && items[..|items|] == items;
      return true;
    }

    method ApplySettings(settings: seq<Setting>, env: Env)
      modifies this`db
      ensures db == PutSettings(old(db), settings, env)
    {
      for i := 0 to |settings|
        invariant db == PutSettings(old(db), settings[..i], env)
      {
        assert settings[..i + 1][..i] == settings[..i];
        if settings[i].key !in env.localSettings && settings[i].key in env.knownSettings {
          db := db.(settings := db.settings[settings[i].key := settings[i].value]);
        }
      }
      assert settings[..|settings|] == settings;
    }

    method ApplyPlans(doc: Document, p: Plans, pick: Pick) returns (ok: bool)
      requires |p.teams| == |doc.teams| && |p.tools| == |doc.tools| && |p.agents| == |doc.agents| && |p.channels| == |doc.channels|
      modifies this`db
      ensures (db, ok) == PutEntities(old(db), doc, p, pick)
    {
      var m := BuildTeamMap(doc.teams, p.teams);
      ok := ApplyTeams(p.teams, doc.teams);
      if ok {
        ok := ApplyTools(p.tools, doc.tools);
      }
      if ok {
        ok := ApplyAgents(p.agents, doc.agents, m, pick);
      }
      if ok {
        ok := ApplyChannels(p.channels, doc.channels, m);
      }
    }

    method ApplyImport(doc: Document, env: Env) returns (outcome: Outcome)
      modifies this
      ensures (db, outcome) == Import(old(db), old(history), doc, env)
      ensures history == if outcome.Invalid? then old(history)
                         else Published(old(history), db, Planned(old(db), old(history), doc, env), env)
    {
      var problems := Validate(db, history, doc, env);
      if problems != [] {
        return Invalid(problems);
      }
      var p := PlanAll(db, history, doc, env);
      var ok := ApplyPlans(doc, p, env.pick);
      if ok {
        ApplySettings(doc.settings, env);
      }
      history := Published(history, db, p, env);
      return if ok then Completed(p) else Broken;
    }
  }

  // Once a write is refused, nothing more of its kind is written.

  lemma {:induction false} TeamsStop(db: Db, ts: seq<Target>, items: seq<TeamItem>, i: nat)
    requires |ts| == |items| && i <= |ts| && !PutTeams(db, ts[..i], items[..i]).1
    ensures PutTeams(db, ts, items) == PutTeams(db, ts[..i], items[..i])
    decreases |ts| - i
  {
    if i == |ts| {
      assert ts[..i] == ts && items[..i] == items;
    } else {
      assert ts[..i + 1][..i] == ts[..i] && items[..i + 1][..i] == items[..i];
      TeamsStop(db, ts, items, i + 1);
    }
  }

  lemma {:induction false} ToolsStop(db: Db, ts: seq<Target>, items: seq<ToolItem>, i: nat)
    requires |ts| == |items| && i <= |ts| && !PutTools(db, ts[..i], items[..i]).1
    ensures PutTools(db, ts, items) == PutTools(db, ts[..i], items[..i])
    decreases |ts| - i
  {
    if i == |ts| {
      assert ts[..i] == ts && items[..i] == items;
    } else {
      assert ts[..i + 1][..i] == ts[..i] && items[..i + 1][..i] == items[..i];
      ToolsStop(db, ts, items, i + 1);
    }
  }

  lemma {:induction false} AgentsStop(db: Db, ts: seq<Target>, items: seq<AgentItem>, m: map<Id, Option<Id>>, pick: Pick, i: nat)
    requires |ts| == |items| && i <= |ts| && !PutAgents(db, ts[..i], items[..i], m, pick).1
    ensures PutAgents(db, ts, items, m, pick) == PutAgents(db, ts[..i], items[..i], m, pick)
    decreases |ts| - i
  {
    if i == |ts| {
      assert ts[..i] == ts && items[..i] == items;
    } else {
      assert ts[..i + 1][..i] == ts[..i] && items[..i + 1][..i] == items[..i];
      AgentsStop(db, ts, items, m, pick, i + 1);
    }
  }

  lemma {:induction false} ChannelsStop(db: Db, ts: seq<Target>, items: seq<ChannelItem>, m: map<Id, Option<Id>>, i: nat)
    requires |ts| == |items| && i <= |ts| && !PutChannels(db, ts[..i], items[..i], m).1
    ensures PutChannels(db, ts, items, m) == PutChannels(db, ts[..i], items[..i], m)
    decreases |ts| - i
  {
    if i == |ts| {
      assert ts[..i] == ts && items[..i] == items;
    } else {
      assert ts[..i + 1][..i] == ts[..i] && items[..i + 1][..i] == items[..i];
      ChannelsStop(db, ts, items, m, i + 1);
    }
  }
}
