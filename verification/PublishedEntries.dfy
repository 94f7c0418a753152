/** Publishing a workflow needs an entry connection (server/src/rivulets/api/workflows.py:700-730); which requests leave a
    published workflow without one. */
module PublishedEntries {
  import opened Prelude
  import opened WorkflowStore

  ghost predicate PublishedHaveEntry(db: Db) {
    forall w :: w in db.workflows && db.workflows[w].published ==> HasEntry(db, w)
  }

  ghost predicate IsEntryOf(db: Db, w: Id, c: Id) {
    OwnConnection(db, w, c) && db.connections[c].from.None?
  }

  /** The request deletes the entry of a published workflow, or the node that the entry leads to. */
  ghost predicate TakesEntry(db: Db, r: Request) {
    match r
    case DeleteConnection(w, c) => w in db.workflows && db.workflows[w].published && IsEntryOf(db, w, c)
    case DeleteNode(w, n) => w in db.workflows && db.workflows[w].published && exists c :: IsEntryOf(db, w, c) && db.connections[c].to == n
    case _ => false
  }

  // ----- requests that delete -----

  lemma EntryStays(db: Db, next: Db, w: Id, c: Id)
    requires IsEntryOf(db, w, c) && c in next.connections && next.connections[c].workflowId == w && next.connections[c].from.None?
    ensures HasEntry(next, w)
  {
  }

  lemma EntryOf(db: Db, w: Id) returns (c: Id)
    requires HasEntry(db, w)
    ensures IsEntryOf(db, w, c)
  {
    c :| c in db.connections && db.connections[c].workflowId == w && db.connections[c].from.None?;
  }

  /** Without its only entry a workflow has none. */
  lemma OnlyEntryGone(db: Db, next: Db, w: Id, c: Id)
    requires OneEntry(db) && IsEntryOf(db, w, c) && c !in next.connections
    requires forall e :: e in next.connections ==> e in db.connections && next.connections[e] == db.connections[e]
    ensures !HasEntry(next, w)
  {
    forall e | e in next.connections && next.connections[e].workflowId == w ensures next.connections[e].from.Some? {
      assert db.connections[e].from.None? ==> e == c;
    }
  }

  lemma DeletingConnection(db: Db, grant: Grant, w: Id, c: Id)
    requires Consistent(db) && PublishedHaveEntry(db) && DeleteConnectionStep(db, grant, w, c).1 == OK
    ensures PublishedHaveEntry(DeleteConnectionStep(db, grant, w, c).0) <==> !TakesEntry(db, DeleteConnection(w, c))
  {
    var next := DeleteConnectionStep(db, grant, w, c).0;
    if TakesEntry(db, DeleteConnection(w, c)) {
      OnlyEntryGone(db, next, w, c);
    } else {
      forall v | v in next.workflows && next.workflows[v].published ensures HasEntry(next, v) {
        var e := EntryOf(db, v);
        EntryStays(db, next, v, e);
      }
    }
  }

  /** The entry of a workflow goes with a node of that workflow only. */
  lemma EntrySurvivesNode(db: Db, w: Id, n: Id, v: Id, e: Id)
    requires ConnectionsOwned(db) && OwnNode(db, w, n) && IsEntryOf(db, v, e)
    requires v == w ==> db.connections[e].to != n
    ensures HasEntry(WithoutNode(db, n), v)
  {
    assert OwnNode(db, v, db.connections[e].to);
    EntryStays(db, WithoutNode(db, n), v, e);
  }

  lemma DeletingNode(db: Db, grant: Grant, w: Id, n: Id)
    requires Consistent(db) && PublishedHaveEntry(db) && DeleteNodeStep(db, grant, w, n).1 == OK
    ensures PublishedHaveEntry(DeleteNodeStep(db, grant, w, n).0) <==> !TakesEntry(db, DeleteNode(w, n))
  {
    var next := WithoutNode(db, n);
    if TakesEntry(db, DeleteNode(w, n)) {
      var c :| IsEntryOf(db, w, c) && db.connections[c].to == n;
      OnlyEntryGone(db, next, w, c);
    } else {
      forall v | v in next.workflows && next.workflows[v].published ensures HasEntry(next, v) {
        var e := EntryOf(db, v);
        EntrySurvivesNode(db, w, n, v, e);
      }
    }
  }

  lemma DeletingWorkflow(db: Db, w: Id)
    requires PublishedHaveEntry(db)
    ensures PublishedHaveEntry(WithoutWorkflow(db, w))
  {
    var next := WithoutWorkflow(db, w);
    forall v | v in next.workflows && next.workflows[v].published ensures HasEntry(next, v) {
      var e := EntryOf(db, v);
      EntryStays(db, next, v, e);
    }
  }

  // ----- requests that do not -----

  ghost predicate SameEnds(db: Db, next: Db, c: Id)
    requires c in db.connections
  {
    && c in next.connections && next.connections[c].workflowId == db.connections[c].workflowId
    && next.connections[c].from == db.connections[c].from
  }

  /** Nothing that was an entry stops being one, and nothing is published without one. */
  lemma EntriesKept(db: Db, next: Db)
    requires PublishedHaveEntry(db)
    requires forall c :: c in db.connections ==> SameEnds(db, next, c)
    requires forall w :: w in next.workflows && next.workflows[w].published ==>
      (w in db.workflows && db.workflows[w].published) || HasEntry(next, w)
    ensures PublishedHaveEntry(next)
  {
    forall w | w in next.workflows && next.workflows[w].published ensures HasEntry(next, w) {
      if w in db.workflows && db.workflows[w].published {
        var e := EntryOf(db, w);
        EntryStays(db, next, w, e);
      }
    }
  }

  lemma WorkflowRequestKeeps(db: Db, agents: Agents, grant: Grant, r: Request)
    requires PublishedHaveEntry(db) && (r.CreateWorkflow? || r.UpdateWorkflow? || r.PublishWorkflow? || r.UnpublishWorkflow?)
    ensures PublishedHaveEntry(Step(db, agents, grant, r).0)
  {
    EntriesKept(db, Step(db, agents, grant, r).0);
  }

  lemma GraphRequestKeeps(db: Db, agents: Agents, grant: Grant, r: Request)
    requires PublishedHaveEntry(db) && (r.CreateNode? || r.UpdateNode? || r.CreateConnection? || r.UpdateConnection?)
    ensures PublishedHaveEntry(Step(db, agents, grant, r).0)
  {
    EntriesKept(db, Step(db, agents, grant, r).0);
  }

  // ----- exactly when -----

  /** While every published workflow has an entry, a request leaves it so exactly when it is refused or does not take the
      entry of one. */
  lemma PublishedKeepsEntryExactlyWhen(db: Db, agents: Agents, grant: Grant, r: Request)
    requires Consistent(db) && PublishedHaveEntry(db)
    ensures PublishedHaveEntry(Step(db, agents, grant, r).0) <==> !(Step(db, agents, grant, r).1 == OK && TakesEntry(db, r))
  {
    if Step(db, agents, grant, r).1 != OK {
      RefusedChangesNothing(db, agents, grant, r);
    } else {
      match r
      case DeleteConnection(w, c) => DeletingConnection(db, grant, w, c);
      case DeleteNode(w, n) => DeletingNode(db, grant, w, n);
      case DeleteWorkflow(w) => DeletingWorkflow(db, w);
      case CreateWorkflow(_, _, _) => WorkflowRequestKeeps(db, agents, grant, r);
      case UpdateWorkflow(_, _) => WorkflowRequestKeeps(db, agents, grant, r);
      case PublishWorkflow(_) => WorkflowRequestKeeps(db, agents, grant, r);
      case UnpublishWorkflow(_) => WorkflowRequestKeeps(db, agents, grant, r);
      case _ => GraphRequestKeeps(db, agents, grant, r);
    }
  }

  /** The i-th request of a run is accepted and takes the entry of a published workflow. */
  ghost predicate TakesEntryAt(db: Db, arrivals: seq<Arrival>, i: nat)
    requires i < |arrivals|
  {
    var at := Run(db, arrivals[..i]);
    Step(at, arrivals[i].agents, arrivals[i].grant, arrivals[i].request).1 == OK && TakesEntry(at, arrivals[i].request)
  }

  /** From the empty store on, every published workflow has an entry as long as no request takes one. */
  lemma {:induction false} RunKeepsEntries(arrivals: seq<Arrival>)
    requires forall i: nat :: i < |arrivals| ==> !TakesEntryAt(Db(map[], map[], map[]), arrivals, i)
    ensures PublishedHaveEntry(Run(Db(map[], map[], map[]), arrivals))
  {
    var empty := Db(map[], map[], map[]);
    if arrivals != [] {
      var n := |arrivals| - 1;
      var init := arrivals[..n];
      forall i: nat | i < n ensures !TakesEntryAt(empty, init, i) {
        assert init[..i] == arrivals[..i] && init[i] == arrivals[i];
        assert !TakesEntryAt(empty, arrivals, i);
      }
      RunKeepsEntries(init);
      EveryRunIsConsistent(init);
      assert !TakesEntryAt(empty, arrivals, n);
      PublishedKeepsEntryExactlyWhen(Run(empty, init), arrivals[n].agents, arrivals[n].grant, arrivals[n].request);
    }
  }

  /** No run of requests without the owner grant takes the entry of a published workflow. */
  lemma GuestsCannotTakeEntry(db: Db, arrivals: seq<Arrival>, w: Id)
    requires Consistent(db) && w in db.workflows && db.workflows[w].published && HasEntry(db, w)
    requires forall i :: 0 <= i < |arrivals| ==> arrivals[i].grant == Invite
    ensures var after := Run(db, arrivals); w in after.workflows && after.workflows[w].published && HasEntry(after, w)
  {
    GuestsCannotChangePublished(db, arrivals, w);
    var e := EntryOf(db, w);
    assert OwnConnection(db, w, e);
    EntryStays(db, Run(db, arrivals), w, e);
  }

  // ----- both ways to lose an entry -----

  /** A workflow of one node, which its entry leads to. */
  ghost predicate OneNode(db: Db) {
    && db.workflows == map["w" := Workflow("build", None, false, None, None)]
    && db.nodes == map["n" := Node("w", "step", "merge", None, None, Layout(None, 0, 5, None, None))]
    && db.connections == map["c" := Connection("w", None, "n", None)]
  }

  lemma PublishedOneNode(db: Db)
    requires OneNode(db)
    ensures var published := Step(db, Agents({}, {}), Owner, PublishWorkflow("w"));
            && Consistent(db) && published.1 == OK && published.0.workflows["w"].published && HasEntry(published.0, "w")
            && published.0.nodes == db.nodes && published.0.connections == db.connections && published.0.workflows.Keys == {"w"}
  {
    assert "c" in db.connections && db.connections["c"].workflowId == "w" && db.connections["c"].from.None?;
    assert HasEntry(db, "w");
    assert forall a, b :: !Embeds(db, a, b);
  }

  /** Publishing needs an entry, but the owner may delete the entry afterwards, or the node it leads to, and the workflow
      stays published. */
  lemma PublishedMayLoseItsEntry(db: Db)
    requires OneNode(db)
    ensures var published := Step(db, Agents({}, {}), Owner, PublishWorkflow("w"));
            var unlinked := Step(published.0, Agents({}, {}), Owner, DeleteConnection("w", "c"));
            var emptied := Step(published.0, Agents({}, {}), Owner, DeleteNode("w", "n"));
            && published.1 == OK && unlinked.1 == OK && emptied.1 == OK
            && unlinked.0.workflows["w"].published && !HasEntry(unlinked.0, "w")
            && emptied.0.workflows["w"].published && !HasEntry(emptied.0, "w")
  {
    PublishedOneNode(db);
  }
}
