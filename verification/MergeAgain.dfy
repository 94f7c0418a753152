/** Importing the same items twice (_plan_entity and the apply loops of server/src/rivulets/workspace_yaml.py), for any
    kind of entity: when the second import finds the rows of the first, and what it then changes. */
module MergeAgain {
  import opened Prelude
  import opened Merge

  /** No two items give their rows the same name to match. */
  ghost predicate DistinctKeys<R>(key: R -> Option<string>, rows: seq<R>) {
    forall i, j :: 0 <= i < j < |rows| && key(rows[i]).Some? ==> key(rows[i]) != key(rows[j])
  }

  /** An id of the file that a new row takes is that of an item that goes to this row. */
  ghost predicate NoIdTaken(items: seq<Ref>, ts: seq<Target>) {
    |items| == |ts| &&
    forall i, j :: 0 <= i < |ts| && 0 <= j < |ts| && Writes(ts[i]) && ts[j].Create? && items[i].id == Some(ts[j].id) ==> ts[i].id == ts[j].id
  }

  /** A row that is not under its item's id ends up with the item's name. */
  ghost predicate NamesKept<R>(key: R -> Option<string>, items: seq<Ref>, ts: seq<Target>, rows: seq<R>) {
    |items| == |ts| == |rows| &&
    forall i, k: nat :: 0 <= i < |ts| && LastWriter(ts, k) && Writes(ts[i]) && ts[k].id == ts[i].id && items[i].id != Some(ts[i].id) ==>
      key(rows[k]) == Some(items[i].name)
  }

  /** What a plan has to be like for the same items to find the same rows again. */
  ghost predicate Stable<R>(key: R -> Option<string>, items: seq<Ref>, ts: seq<Target>, rows: seq<R>) {
    NoIdTaken(items, ts) && NamesKept(key, items, ts, rows)
  }

  /** Only live rows gain sync history from an import. */
  ghost predicate HistoryOfLive<R>(after: Table<R>, history: set<Id>, later: set<Id>) {
    history <= later && forall id :: id in later - history ==> id in after
  }

  /** One import of the items, as far as one kind of entity is concerned. */
  ghost predicate Imported<R>(table: Table<R>, key: R -> Option<string>, unique: bool, history: set<Id>, items: seq<Ref>,
                              newId: nat -> Id, pick: Pick, rows: seq<R>, ts: seq<Target>, after: Table<R>) {
    && |rows| == |items|
    && ts == ResolveAll(table, key, history, items, newId, pick)
    && (forall i :: 0 <= i < |ts| ==> !ts[i].Ambiguous?)
    && PutAll(table, key, unique, ts, rows) == (after, true)
  }

  /** The id an item is written under is that of a row, the item's own, or a new one. */
  lemma WhereFrom<R>(table: Table<R>, key: R -> Option<string>, history: set<Id>, items: seq<Ref>, newId: nat -> Id,
                     pick: Pick, j: nat)
    requires PicksMembers(pick) && j < |items|
    ensures var t := ResolveAll(table, key, history, items, newId, pick)[j];
            Writes(t) ==> if t.Update? then t.id in table else items[j].id == Some(t.id) || t.id == newId(j)
  {
  }

  /** A deleted id of the file is no row afterwards either. */
  lemma SkippedStaysAway<R>(table: Table<R>, key: R -> Option<string>, unique: bool, history: set<Id>, items: seq<Ref>,
                            newId: nat -> Id, pick: Pick, rows: seq<R>, ts: seq<Target>, after: Table<R>, i: nat)
    requires Imported(table, key, unique, history, items, newId, pick, rows, ts, after)
    requires FreshIds(table, history, items, newId) && PicksMembers(pick) && i < |items| && !Writes(ts[i])
    ensures items[i].id.Some? && items[i].id.value in history && items[i].id.value !in after
  {
    var x := items[i].id.value;
    forall j | 0 <= j < |ts| && Writes(ts[j]) ensures ts[j].id != x {
      WhereFrom(table, key, history, items, newId, pick, j);
    }
    PutAllRows(table, key, unique, ts, rows);
  }

  /** An id of the file that was no row before the import is a row afterwards only if some item created it. */
  lemma NewRowIsCreated<R>(table: Table<R>, key: R -> Option<string>, unique: bool, history: set<Id>, items: seq<Ref>,
                           newId: nat -> Id, pick: Pick, rows: seq<R>, ts: seq<Target>, after: Table<R>, x: Id)
    requires Imported(table, key, unique, history, items, newId, pick, rows, ts, after) && PicksMembers(pick)
    requires x !in table && x in after
    ensures exists j :: 0 <= j < |ts| && ts[j] == Create(x)
  {
    PutAllRows(table, key, unique, ts, rows);
    var j :| 0 <= j < |ts| && Writes(ts[j]) && ts[j].id == x;
    WhereFrom(table, key, history, items, newId, pick, j);
    assert ts[j] == Create(x);
  }

  /** What an item should resolve to the next time. */
  function Again(t: Target): Target {
    if Writes(t) then Update(t.id) else Skipped
  }

  /** The second import goes to the rows of the first and creates none. */
  ghost predicate SameRows(first: seq<Target>, second: seq<Target>) {
    |second| == |first| && forall i :: 0 <= i < |first| ==> second[i] == Again(first[i])
  }

  /** Every row that has the item's name afterwards is a target of this import. */
  lemma NamedAreTargets<R>(table: Table<R>, key: R -> Option<string>, unique: bool, history: set<Id>, items: seq<Ref>,
                           newId: nat -> Id, pick: Pick, rows: seq<R>, ts: seq<Target>, after: Table<R>, i: nat, r: Id)
    requires Imported(table, key, unique, history, items, newId, pick, rows, ts, after)
    requires PicksMembers(pick) && i < |items| && Writes(ts[i])
    requires items[i].id.Some? ==> items[i].id.value !in table
    requires r in Named(after, key, items[i].name)
    ensures Targeted(ts, r)
  {
    PutAllRows(table, key, unique, ts, rows);
    var named := Named(table, key, items[i].name);
    if r in named {
      OnlyOne(named, r, pick);
      assert ts[i] == Update(r);
    }
  }

  /** At most one row has the item's name afterwards, if the item is not found by its id. */
  lemma NamedIsOne<R>(table: Table<R>, key: R -> Option<string>, unique: bool, history: set<Id>, items: seq<Ref>,
                      newId: nat -> Id, pick: Pick, rows: seq<R>, ts: seq<Target>, after: Table<R>, i: nat, r: Id, q: Id)
    requires Imported(table, key, unique, history, items, newId, pick, rows, ts, after)
    requires PicksMembers(pick) && i < |items| && Writes(ts[i])
    requires DistinctKeys(key, rows)
    requires items[i].id.Some? ==> items[i].id.value !in table
    requires r in Named(after, key, items[i].name) && q in Named(after, key, items[i].name)
    ensures r == q
  {
    NamedAreTargets(table, key, unique, history, items, newId, pick, rows, ts, after, i, r);
    NamedAreTargets(table, key, unique, history, items, newId, pick, rows, ts, after, i, q);
    var j := LastWriterOf(ts, r);
    var k := LastWriterOf(ts, q);
    PutAllWrites(table, key, unique, ts, rows, j);
    PutAllWrites(table, key, unique, ts, rows, k);
    assert key(rows[j]) == key(rows[k]) == Some(items[i].name);
  }

  lemma AtMostOne(s: set<Id>)
    requires forall r, q :: r in s && q in s ==> r == q
    ensures |s| <= 1
  {
    if s != {} {
      var r :| r in s;
      assert s == {r};
    }
  }

  /** After a completed import none of its items is ambiguous the next time. */
  lemma StaysUnambiguous<R>(table: Table<R>, key: R -> Option<string>, unique: bool, history: set<Id>, items: seq<Ref>,
                            newId: nat -> Id, pick: Pick, rows: seq<R>, ts: seq<Target>, after: Table<R>,
                            later: set<Id>, newId2: Id, pick2: Pick, i: nat)
    requires Imported(table, key, unique, history, items, newId, pick, rows, ts, after)
    requires FreshIds(table, history, items, newId) && PicksMembers(pick) && DistinctKeys(key, rows)
    requires HistoryOfLive(after, history, later) && i < |items|
    ensures var t := Resolve(after, key, later, items[i], newId2, pick2); !t.Ambiguous? && (Writes(t) <==> Writes(ts[i]))
  {
    if !Writes(ts[i]) {
      SkippedStaysAway(table, key, unique, history, items, newId, pick, rows, ts, after, i);
    } else if items[i].id.Some? && items[i].id.value in table {
      PutAllRows(table, key, unique, ts, rows);
    } else {
      var named := Named(after, key, items[i].name);
      forall r, q | r in named && q in named ensures r == q {
        NamedIsOne(table, key, unique, history, items, newId, pick, rows, ts, after, i, r, q);
      }
      AtMostOne(named);
      assert items[i].id.Some? && items[i].id.value in later ==> items[i].id.value in after;
    }
  }

  /** The same item resolves to the same row the second time: by its id, or by the name that the first import has
      given the row. */
  lemma ResolvesToSame<R>(table: Table<R>, key: R -> Option<string>, unique: bool, history: set<Id>, items: seq<Ref>,
                          newId: nat -> Id, pick: Pick, rows: seq<R>, ts: seq<Target>, after: Table<R>,
                          later: set<Id>, newId2: Id, pick2: Pick, i: nat)
    requires Imported(table, key, unique, history, items, newId, pick, rows, ts, after)
    requires FreshIds(table, history, items, newId) && PicksMembers(pick) && PicksMembers(pick2)
    requires Stable(key, items, ts, rows) && DistinctKeys(key, rows)
    requires HistoryOfLive(after, history, later) && i < |items|
    ensures Resolve(after, key, later, items[i], newId2, pick2) == Again(ts[i])
  {
    StaysUnambiguous(table, key, unique, history, items, newId, pick, rows, ts, after, later, newId2, pick2, i);
    if !Writes(ts[i]) {
      SkippedStaysAway(table, key, unique, history, items, newId, pick, rows, ts, after, i);
    } else {
      var id := ts[i].id;
      assert Targeted(ts, id);
      var k := LastWriterOf(ts, id);
      PutAllWrites(table, key, unique, ts, rows, k);
      if items[i].id != Some(id) {
        IdIsUnused(table, key, unique, history, items, newId, pick, rows, ts, after, i);
        assert id in Named(after, key, items[i].name);
        OnlyOne(Named(after, key, items[i].name), id, pick2);
      }
    }
  }

  lemma IdIsUnused<R>(table: Table<R>, key: R -> Option<string>, unique: bool, history: set<Id>, items: seq<Ref>,
                      newId: nat -> Id, pick: Pick, rows: seq<R>, ts: seq<Target>, after: Table<R>, i: nat)
    requires Imported(table, key, unique, history, items, newId, pick, rows, ts, after) && PicksMembers(pick)
    requires NoIdTaken(items, ts) && i < |items| && Writes(ts[i]) && items[i].id != Some(ts[i].id)
    ensures items[i].id.Some? ==> items[i].id.value !in after && items[i].id.value !in history
  {
    if items[i].id.Some? && items[i].id.value in after {
      NewRowIsCreated(table, key, unique, history, items, newId, pick, rows, ts, after, items[i].id.value);
    }
  }

  /** An item whose id was taken by another item's new row goes to that row the second time. */
  lemma TakenIdIsFollowed<R>(table: Table<R>, key: R -> Option<string>, unique: bool, history: set<Id>, items: seq<Ref>,
                             newId: nat -> Id, pick: Pick, rows: seq<R>, ts: seq<Target>, after: Table<R>,
                             later: set<Id>, newId2: Id, pick2: Pick, i: nat, j: nat)
    requires Imported(table, key, unique, history, items, newId, pick, rows, ts, after)
    requires i < |ts| && j < |ts| && Writes(ts[i]) && ts[j].Create? && items[i].id == Some(ts[j].id) && ts[i].id != ts[j].id
    ensures Resolve(after, key, later, items[i], newId2, pick2) == Update(ts[j].id) != Again(ts[i])
  {
    PutAllRows(table, key, unique, ts, rows);
    assert Targeted(ts, ts[j].id);
  }

  /** An item that is not under its own id, and whose row ends up without its name, is not found again. */
  lemma RenamedIsLost<R>(table: Table<R>, key: R -> Option<string>, unique: bool, history: set<Id>, items: seq<Ref>,
                         newId: nat -> Id, pick: Pick, rows: seq<R>, ts: seq<Target>, after: Table<R>,
                         later: set<Id>, newId2: Id, pick2: Pick, i: nat, k: nat)
    requires Imported(table, key, unique, history, items, newId, pick, rows, ts, after) && PicksMembers(pick2)
    requires i < |items| && Writes(ts[i]) && LastWriter(ts, k) && ts[k].id == ts[i].id
    requires items[i].id != Some(ts[i].id) && key(rows[k]) != Some(items[i].name)
    ensures Resolve(after, key, later, items[i], newId2, pick2) != Again(ts[i])
  {
    PutAllWrites(table, key, unique, ts, rows, k);
    assert ts[i].id !in Named(after, key, items[i].name);
  }

  /** After any completed import the same items go to the same rows again exactly when no new row took the id of an
      item that goes elsewhere, and every row that is not under its item's id ends up with the item's name. */
  lemma SameTargetsExactlyWhen<R>(table: Table<R>, key: R -> Option<string>, unique: bool, history: set<Id>, items: seq<Ref>,
                                  newId: nat -> Id, pick: Pick, rows: seq<R>, ts: seq<Target>, after: Table<R>,
                                  later: set<Id>, newId2: nat -> Id, pick2: Pick)
    requires Imported(table, key, unique, history, items, newId, pick, rows, ts, after)
    requires FreshIds(table, history, items, newId) && PicksMembers(pick) && PicksMembers(pick2)
    requires DistinctKeys(key, rows) && HistoryOfLive(after, history, later)
    ensures SameRows(ts, ResolveAll(after, key, later, items, newId2, pick2)) <==> Stable(key, items, ts, rows)
  {
    var us := ResolveAll(after, key, later, items, newId2, pick2);
    if Stable(key, items, ts, rows) {
      forall i | 0 <= i < |items| ensures us[i] == Again(ts[i]) {
        ResolvesToSame(table, key, unique, history, items, newId, pick, rows, ts, after, later, newId2(i), pick2, i);
      }
    } else if !NoIdTaken(items, ts) {
      var i, j :| 0 <= i < |ts| && 0 <= j < |ts| && Writes(ts[i]) && ts[j].Create? && items[i].id == Some(ts[j].id) && ts[i].id != ts[j].id;
      TakenIdIsFollowed(table, key, unique, history, items, newId, pick, rows, ts, after, later, newId2(i), pick2, i, j);
    } else {
      var i, k: nat :| 0 <= i < |ts| && LastWriter(ts, k) && Writes(ts[i]) && ts[k].id == ts[i].id && items[i].id != Some(ts[i].id)
                  && key(rows[k]) != Some(items[i].name);
      RenamedIsLost(table, key, unique, history, items, newId, pick, rows, ts, after, later, newId2(i), pick2, i, k);
    }
  }

  // ----- writing the same rows again -----

  /** Each row of d that is a target is as some item has it, every other one as in base. */
  ghost predicate Mixed<R>(d: Table<R>, base: Table<R>, ts: seq<Target>, rows: seq<R>)
    requires |ts| == |rows|
  {
    d.Keys == base.Keys && forall r :: r in d ==> if Targeted(ts, r) then WrittenBy(ts, rows, r, d[r]) else d[r] == base[r]
  }

  ghost predicate WrittenBy<R>(ts: seq<Target>, rows: seq<R>, r: Id, row: R)
    requires |ts| == |rows|
  {
    exists k :: 0 <= k < |ts| && Writes(ts[k]) && ts[k].id == r && rows[k] == row
  }

  /** No row that is no target has the name of a row to be written. */
  ghost predicate NoneOutside<R>(base: Table<R>, key: R -> Option<string>, ts: seq<Target>, rows: seq<R>)
    requires |ts| == |rows|
  {
    forall r, i :: r in base && !Targeted(ts, r) && 0 <= i < |ts| && Writes(ts[i]) && key(rows[i]).Some? ==> key(base[r]) != key(rows[i])
  }

  lemma MixedHasNoClash<R>(d: Table<R>, base: Table<R>, key: R -> Option<string>, ts: seq<Target>, rows: seq<R>, i: nat)
    requires |ts| == |rows| && Mixed(d, base, ts, rows) && DistinctKeys(key, rows) && NoneOutside(base, key, ts, rows)
    requires i < |ts| && Writes(ts[i])
    ensures !Clash(d, key, true, ts[i].id, rows[i])
  {
    forall r | r in d && r != ts[i].id && key(rows[i]).Some? ensures key(d[r]) != key(rows[i]) {
      if Targeted(ts, r) {
        var k :| 0 <= k < |ts| && Writes(ts[k]) && ts[k].id == r && rows[k] == d[r];
        assert k != i;
      }
    }
  }

  lemma MixedStaysMixed<R>(d: Table<R>, base: Table<R>, ts: seq<Target>, rows: seq<R>, i: nat)
    requires |ts| == |rows| && Mixed(d, base, ts, rows) && i < |ts| && Writes(ts[i]) && ts[i].id in base
    ensures Mixed(d[ts[i].id := rows[i]], base, ts, rows)
  {
    assert WrittenBy(ts, rows, ts[i].id, rows[i]) && Targeted(ts, ts[i].id);
  }

  lemma {:induction false} RerunPrefix<R>(base: Table<R>, key: R -> Option<string>, unique: bool, ts: seq<Target>,
                                                rows: seq<R>, n: nat)
    requires |ts| == |rows| && n <= |ts| && Mixed(base, base, ts, rows)
    requires forall i :: 0 <= i < |ts| && Writes(ts[i]) ==> ts[i].Update? && ts[i].id in base
    requires unique ==> DistinctKeys(key, rows) && NoneOutside(base, key, ts, rows)
    ensures var (d, ok) := PutAll(base, key, unique, ts[..n], rows[..n]); ok && Mixed(d, base, ts, rows)
  {
    if n > 0 {
      assert ts[..n][..n - 1] == ts[..n - 1] && rows[..n][..n - 1] == rows[..n - 1];
      RerunPrefix(base, key, unique, ts, rows, n - 1);
      var d := PutAll(base, key, unique, ts[..n - 1], rows[..n - 1]).0;
      if Writes(ts[n - 1]) {
        MixedStaysMixed(d, base, ts, rows, n - 1);
        if unique {
          MixedHasNoClash(d, base, key, ts, rows, n - 1);
        }
      }
    }
  }

  lemma LastRowsAreMixed<R>(base: Table<R>, ts: seq<Target>, rows: seq<R>)
    requires |ts| == |rows| && LastRows(base, ts, rows)
    ensures Mixed(base, base, ts, rows)
  {
    forall r | r in base && Targeted(ts, r) ensures WrittenBy(ts, rows, r, base[r]) {
      var k := LastWriterOf(ts, r);
      assert rows[k] == base[r];
    }
  }

  /** Each row is as the last item that goes there has it. */
  ghost predicate LastRows<R>(table: Table<R>, ts: seq<Target>, rows: seq<R>)
    requires |ts| == |rows|
  {
    forall k: nat :: LastWriter(ts, k) ==> ts[k].id in table && table[ts[k].id] == rows[k]
  }

  lemma PutAllLeavesLastRows<R>(table: Table<R>, key: R -> Option<string>, unique: bool, ts: seq<Target>, rows: seq<R>)
    requires |ts| == |rows| && PutAll(table, key, unique, ts, rows).1
    ensures LastRows(PutAll(table, key, unique, ts, rows).0, ts, rows)
  {
    forall k: nat | LastWriter(ts, k)
      ensures var after := PutAll(table, key, unique, ts, rows).0; ts[k].id in after && after[ts[k].id] == rows[k]
    {
      PutAllWrites(table, key, unique, ts, rows, k);
    }
  }

  lemma SameLastRows<R>(base: Table<R>, after: Table<R>, ts: seq<Target>, rows: seq<R>)
    requires |ts| == |rows| && LastRows(base, ts, rows) && LastRows(after, ts, rows)
    requires after.Keys == base.Keys && forall r :: r in base && !Targeted(ts, r) ==> after[r] == base[r]
    ensures after == base
  {
    forall r | r in base ensures after[r] == base[r] {
      if Targeted(ts, r) {
        var k := LastWriterOf(ts, r);
        assert base[r] == rows[k];
      }
    }
  }

  /** Writing rows that are there already, each as its last item has it, is never refused and ends where it started. */
  lemma Rerun<R>(base: Table<R>, key: R -> Option<string>, unique: bool, ts: seq<Target>, rows: seq<R>)
    requires |ts| == |rows| && (unique ==> DistinctKeys(key, rows) && NoneOutside(base, key, ts, rows))
    requires forall i :: 0 <= i < |ts| && Writes(ts[i]) ==> ts[i].Update? && ts[i].id in base
    requires LastRows(base, ts, rows)
    ensures PutAll(base, key, unique, ts, rows) == (base, true)
  {
    LastRowsAreMixed(base, ts, rows);
    RerunPrefix(base, key, unique, ts, rows, |ts|);
    assert ts[..|ts|] == ts && rows[..|ts|] == rows;
    PutAllRows(base, key, unique, ts, rows);
    PutAllLeavesLastRows(base, key, unique, ts, rows);
    SameLastRows(base, PutAll(base, key, unique, ts, rows).0, ts, rows);
  }

  lemma PrefixTargets(ts: seq<Target>, n: nat)
    requires n <= |ts|
    ensures forall id :: Targeted(ts[..n], id) ==> Targeted(ts, id)
  {
    forall id | Targeted(ts[..n], id) ensures Targeted(ts, id) {
      var j :| 0 <= j < n && Writes(ts[..n][j]) && ts[..n][j].id == id;
      assert Writes(ts[j]) && ts[j].id == id;
    }
  }

  /** A run of writes that completes has met no row outside its targets with a name that it wrote. */
  lemma {:induction false} CompletedMetNone<R>(table: Table<R>, key: R -> Option<string>, ts: seq<Target>, rows: seq<R>, n: nat, r: Id, i: nat)
    requires |ts| == |rows| && i < n <= |ts| && PutAll(table, key, true, ts[..n], rows[..n]).1
    requires r in table && !Targeted(ts, r) && Writes(ts[i]) && key(rows[i]).Some?
    ensures key(table[r]) != key(rows[i])
  {
    assert ts[..n][..n - 1] == ts[..n - 1] && rows[..n][..n - 1] == rows[..n - 1];
    if i < n - 1 {
      CompletedMetNone(table, key, ts, rows, n - 1, r, i);
    } else {
      var before := PutAll(table, key, true, ts[..i], rows[..i]).0;
      PutAllRows(table, key, true, ts[..i], rows[..i]);
      PrefixTargets(ts, i);
      assert before[r] == table[r] && r != ts[i].id;
      assert !Clash(before, key, true, ts[i].id, rows[i]);
    }
  }

  lemma SameRowsTargetSame(ts: seq<Target>, us: seq<Target>)
    requires SameRows(ts, us)
    ensures forall id :: Targeted(us, id) <==> Targeted(ts, id)
    ensures forall k: nat :: LastWriter(us, k) <==> LastWriter(ts, k)
  {
    forall id | Targeted(ts, id) ensures Targeted(us, id) {
      var i :| 0 <= i < |ts| && Writes(ts[i]) && ts[i].id == id;
      assert Writes(us[i]) && us[i].id == id;
    }
  }

  /** Going to the same rows again, the items find them as they left them: the table stays as it is. */
  lemma SameRowsChangeNothing<R>(table: Table<R>, key: R -> Option<string>, unique: bool, ts: seq<Target>, rows: seq<R>,
                                       after: Table<R>, us: seq<Target>)
    requires |ts| == |rows| && PutAll(table, key, unique, ts, rows) == (after, true)
    requires (unique ==> DistinctKeys(key, rows)) && SameRows(ts, us)
    ensures PutAll(after, key, unique, us, rows) == (after, true)
  {
    SameRowsTargetSame(ts, us);
    PutAllRows(table, key, unique, ts, rows);
    forall i | 0 <= i < |us| && Writes(us[i]) ensures us[i].id in after {
      assert Targeted(ts, ts[i].id);
    }
    PutAllLeavesLastRows(table, key, unique, ts, rows);
    if unique {
      forall r, i | r in after && !Targeted(us, r) && 0 <= i < |us| && Writes(us[i]) && key(rows[i]).Some?
        ensures key(after[r]) != key(rows[i])
      {
        assert ts[..|ts|] == ts && rows[..|ts|] == rows;
        CompletedMetNone(table, key, ts, rows, |ts|, r, i);
      }
    }
    Rerun(after, key, unique, us, rows);
  }

  /** Importing the same items again then creates nothing and leaves the table as it is. */
  lemma Converges<R>(table: Table<R>, key: R -> Option<string>, unique: bool, history: set<Id>, items: seq<Ref>,
                           newId: nat -> Id, pick: Pick, rows: seq<R>, ts: seq<Target>, after: Table<R>,
                           later: set<Id>, newId2: nat -> Id, pick2: Pick)
    requires Imported(table, key, unique, history, items, newId, pick, rows, ts, after)
    requires FreshIds(table, history, items, newId) && PicksMembers(pick) && PicksMembers(pick2)
    requires Stable(key, items, ts, rows) && DistinctKeys(key, rows) && HistoryOfLive(after, history, later)
    ensures var us := ResolveAll(after, key, later, items, newId2, pick2);
            SameRows(ts, us) && PutAll(after, key, unique, us, rows) == (after, true)
  {
    SameTargetsExactlyWhen(table, key, unique, history, items, newId, pick, rows, ts, after, later, newId2, pick2);
    SameRowsChangeNothing(table, key, unique, ts, rows, after, ResolveAll(after, key, later, items, newId2, pick2));
  }

  // ----- simple plans -----

  /** Items that all go to rows under their own ids find them again. */
  lemma OwnIdsAreStable<R>(key: R -> Option<string>, items: seq<Ref>, ts: seq<Target>, rows: seq<R>)
    requires |items| == |ts| == |rows| && forall i :: 0 <= i < |ts| && Writes(ts[i]) ==> items[i].id == Some(ts[i].id)
    ensures Stable(key, items, ts, rows)
  {
  }

  /** No two items go to one row. */
  ghost predicate DistinctTargets(ts: seq<Target>) {
    forall i, j :: 0 <= i < j < |ts| && Writes(ts[i]) && Writes(ts[j]) ==> ts[i].id != ts[j].id
  }

  // ----- what a run of assignments leaves -----

  lemma TargetedLast(ts: seq<Target>)
    requires ts != []
    ensures forall id :: Targeted(ts, id) <==> Targeted(ts[..|ts| - 1], id) || (Writes(ts[|ts| - 1]) && ts[|ts| - 1].id == id)
  {
    var us := ts[..|ts| - 1];
    forall id | Targeted(ts, id) ensures Targeted(us, id) || (Writes(ts[|us|]) && ts[|us|].id == id) {
      var i :| 0 <= i < |ts| && Writes(ts[i]) && ts[i].id == id;
      assert i < |us| ==> us[i] == ts[i];
    }
    forall id | Targeted(us, id) ensures Targeted(ts, id) {
      var i :| 0 <= i < |us| && Writes(us[i]) && us[i].id == id;
      assert us[i] == ts[i];
    }
  }

  /** The value at a after the items in turn have assigned theirs, if they have one, at their targets. */
  ghost function Final<T>(ts: seq<Target>, values: seq<Option<T>>, a: Id, start: T): T
    requires |ts| == |values|
  {
    if ts == [] then start
    else
      var n := |ts| - 1;
      if Writes(ts[n]) && ts[n].id == a && values[n].Some? then values[n].value else Final(ts[..n], values[..n], a, start)
  }

  lemma {:induction false} FinalTwice<T>(ts: seq<Target>, values: seq<Option<T>>, a: Id, start: T, middle: T)
    requires |ts| == |values|
    ensures Final(ts, values, a, middle) == Final(ts, values, a, start) || Final(ts, values, a, middle) == middle
    ensures Final(ts, values, a, Final(ts, values, a, start)) == Final(ts, values, a, start)
  {
    if ts != [] {
      var n := |ts| - 1;
      FinalTwice(ts[..n], values[..n], a, start, middle);
    }
  }

  lemma {:induction false} FinalElsewhere<T>(ts: seq<Target>, values: seq<Option<T>>, a: Id, start: T)
    requires |ts| == |values| && !Targeted(ts, a)
    ensures Final(ts, values, a, start) == start
  {
    if ts != [] {
      PrefixTargets(ts, |ts| - 1);
      FinalElsewhere(ts[..|ts| - 1], values[..|ts| - 1], a, start);
    }
  }

  lemma {:induction false} FinalAtLast<T>(ts: seq<Target>, values: seq<Option<T>>, k: nat, start: T)
    requires |ts| == |values| && LastWriter(ts, k) && values[k].Some?
    ensures Final(ts, values, ts[k].id, start) == values[k].value
  {
    var n := |ts| - 1;
    if k < n {
      assert ts[..n][k] == ts[k] && values[..n][k] == values[k];
      FinalAtLast(ts[..n], values[..n], k, start);
    }
  }

  lemma {:induction false} FinalAgain<T>(ts: seq<Target>, us: seq<Target>, values: seq<Option<T>>, a: Id, start: T)
    requires |ts| == |values| && SameRows(ts, us)
    ensures Final(us, values, a, start) == Final(ts, values, a, start)
  {
    if ts != [] {
      FinalAgain(ts[..|ts| - 1], us[..|ts| - 1], values[..|ts| - 1], a, start);
    }
  }
}
