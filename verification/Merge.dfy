/** How an import matches the items of a file to rows and writes them, for any kind of entity
    (_plan_entity and the apply loops of server/src/rivulets/workspace_yaml.py). A table maps ids to rows; key
    gives the name under which a row can be matched, if it can be. */
module Merge {
  import opened Prelude

  type Id = string

  type Table<R> = map<Id, R>

  /** What an item is known by in the file. */
  datatype Ref = Ref(id: Option<Id>, name: string)

  datatype Target = Update(id: Id) | Create(id: Id) | Skipped | Ambiguous

  function Named<R>(table: Table<R>, key: R -> Option<string>, name: string): set<Id> {
    set i | i in table && key(table[i]) == Some(name)
  }

  /** A choice of one row out of several, where the source takes the first the database returns. */
  type Pick = set<Id> -> Id

  ghost predicate PicksMembers(pick: Pick) {
    forall s: set<Id> :: s != {} ==> pick(s) in s
  }

  /** Match by id, then refuse a deleted id, then match by a unique name, then create, under the file's id if it has one. */
  function Resolve<R>(table: Table<R>, key: R -> Option<string>, history: set<Id>, item: Ref, newId: Id, pick: Pick): Target {
    if item.id.Some? && item.id.value in table then Update(item.id.value)
    else if item.id.Some? && item.id.value in history then Skipped
    else
      var named := Named(table, key, item.name);
      if |named| > 1 then Ambiguous
      else if named != {} then Update(pick(named))
      else Create(if item.id.Some? && item.id.value != "" then item.id.value else newId)
  }

  function ResolveAll<R>(table: Table<R>, key: R -> Option<string>, history: set<Id>, items: seq<Ref>,
                         newId: nat -> Id, pick: Pick): (ts: seq<Target>)
    ensures |ts| == |items|
    ensures forall i :: 0 <= i < |items| ==> ts[i] == Resolve(table, key, history, items[i], newId(i), pick)
  {
    seq(|items|, i requires 0 <= i < |items| => Resolve(table, key, history, items[i], newId(i), pick))
  }

  predicate Writes(t: Target) {
    t.Update? || t.Create?
  }

  /** The row would take a name that another row has, and the table has a unique index on names. */
  predicate Clash<R>(table: Table<R>, key: R -> Option<string>, unique: bool, id: Id, row: R) {
    unique && key(row).Some? && exists j :: j in table && j != id && key(table[j]) == key(row)
  }

  /** The database refuses the write: a second row under one id, or a name that is taken. */
  predicate Refused<R>(table: Table<R>, key: R -> Option<string>, unique: bool, t: Target, row: R)
    requires Writes(t)
  {
    (t.Create? && t.id in table) || Clash(table, key, unique, t.id, row)
  }

  /** The writes in order, one commit each, up to the first that is refused. */
  function PutAll<R>(table: Table<R>, key: R -> Option<string>, unique: bool, ts: seq<Target>, rows: seq<R>)
    : (Table<R>, bool)
    requires |ts| == |rows|
  {
    if ts == [] then (table, true)
    else
      var n := |ts| - 1;
      var (before, ok) := PutAll(table, key, unique, ts[..n], rows[..n]);
      if !ok || !Writes(ts[n]) then (before, ok)
      else if Refused(before, key, unique, ts[n], rows[n]) then (before, false)
      else (before[ts[n].id := rows[n]], true)
  }

  // ----- what a run of writes does -----

  ghost predicate UniqueKeys<R>(table: Table<R>, key: R -> Option<string>) {
    forall i, j :: i in table && j in table && i != j && key(table[i]).Some? ==> key(table[i]) != key(table[j])
  }

  ghost predicate Targeted(ts: seq<Target>, id: Id) {
    exists i :: 0 <= i < |ts| && Writes(ts[i]) && ts[i].id == id
  }

  /** Rows that are no target stay, every target is there afterwards, and no others appear. */
  lemma {:induction false} PutAllRows<R>(table: Table<R>, key: R -> Option<string>, unique: bool, ts: seq<Target>, rows: seq<R>)
    requires |ts| == |rows|
    ensures var (after, ok) := PutAll(table, key, unique, ts, rows);
            && (forall id :: id in table ==> id in after)
            && (forall id :: id in after ==> id in table || Targeted(ts, id))
            && (forall id :: id in table && !Targeted(ts, id) ==> after[id] == table[id])
            && (ok ==> forall id :: Targeted(ts, id) ==> id in after)
  {
    if ts != [] {
      var n := |ts| - 1;
      var us := ts[..n];
      PutAllRows(table, key, unique, us, rows[..n]);
      assert forall id :: Targeted(ts, id) <==> Targeted(us, id) || (Writes(ts[n]) && ts[n].id == id) by {
        forall id | Targeted(ts, id) ensures Targeted(us, id) || (Writes(ts[n]) && ts[n].id == id) {
          var i :| 0 <= i < |ts| && Writes(ts[i]) && ts[i].id == id;
          assert i < n ==> us[i] == ts[i];
        }
        forall id | Targeted(us, id) ensures Targeted(ts, id) {
          var i :| 0 <= i < |us| && Writes(us[i]) && us[i].id == id;
          assert us[i] == ts[i];
        }
      }
    }
  }

  /** No later item is written to the row of item k. */
  ghost predicate LastWriter(ts: seq<Target>, k: nat) {
    k < |ts| && Writes(ts[k]) && forall j :: k < j < |ts| && Writes(ts[j]) ==> ts[j].id != ts[k].id
  }

  lemma {:induction false} LastWriterOf(ts: seq<Target>, id: Id) returns (k: nat)
    requires Targeted(ts, id)
    ensures LastWriter(ts, k) && ts[k].id == id
  {
    var n := |ts| - 1;
    if Writes(ts[n]) && ts[n].id == id {
      k := n;
    } else {
      var i :| 0 <= i < |ts| && Writes(ts[i]) && ts[i].id == id;
      assert ts[..n][i] == ts[i];
      k := LastWriterOf(ts[..n], id);
    }
  }

  /** A row ends up as the last item written to it has it. */
  lemma {:induction false} PutAllWrites<R>(table: Table<R>, key: R -> Option<string>, unique: bool, ts: seq<Target>,
                                           rows: seq<R>, k: nat)
    requires |ts| == |rows| && LastWriter(ts, k)
    requires PutAll(table, key, unique, ts, rows).1
    ensures var after := PutAll(table, key, unique, ts, rows).0;
            ts[k].id in after && after[ts[k].id] == rows[k]
  {
    var n := |ts| - 1;
    if k < n {
      assert ts[..n][k] == ts[k] && rows[..n][k] == rows[k];
      PutAllWrites(table, key, unique, ts[..n], rows[..n], k);
      assert Writes(ts[n]) ==> ts[n].id != ts[k].id;
    }
  }

  lemma {:induction false} PutAllKeepsUnique<R>(table: Table<R>, key: R -> Option<string>, ts: seq<Target>, rows: seq<R>)
    requires |ts| == |rows| && UniqueKeys(table, key)
    ensures UniqueKeys(PutAll(table, key, true, ts, rows).0, key)
  {
    if ts != [] {
      PutAllKeepsUnique(table, key, ts[..|ts| - 1], rows[..|ts| - 1]);
    }
  }

  /** Writing what is there already changes nothing and is never refused. */
  lemma {:induction false} PutAllAgain<R>(table: Table<R>, key: R -> Option<string>, unique: bool, ts: seq<Target>, rows: seq<R>)
    requires |ts| == |rows| && (unique ==> UniqueKeys(table, key))
    requires forall i :: 0 <= i < |ts| && Writes(ts[i]) ==> ts[i].Update? && ts[i].id in table && table[ts[i].id] == rows[i]
    ensures PutAll(table, key, unique, ts, rows) == (table, true)
  {
    if ts != [] {
      var n := |ts| - 1;
      assert forall i :: 0 <= i < n ==> ts[..n][i] == ts[i] && rows[..n][i] == rows[i];
      PutAllAgain(table, key, unique, ts[..n], rows[..n]);
      if Writes(ts[n]) {
        assert table[ts[n].id := rows[n]] == table;
      }
    }
  }

  // ----- no resurrection -----

  /** Ids that the import makes up are used nowhere: not by a row, not by a deleted row, not in the file. */
  ghost predicate FreshIds<R>(table: Table<R>, history: set<Id>, items: seq<Ref>, newId: nat -> Id) {
    && (forall i, j :: 0 <= i < j < |items| ==> newId(i) != newId(j))
    && (forall i :: 0 <= i < |items| ==>
          newId(i) !in table && newId(i) !in history && forall j :: 0 <= j < |items| ==> items[j].id != Some(newId(i)))
  }

  /** No row is created under an id with sync history, and a deleted id is skipped, not matched by name. */
  lemma NoResurrection<R>(table: Table<R>, key: R -> Option<string>, history: set<Id>, items: seq<Ref>, newId: nat -> Id,
                          pick: Pick, i: nat)
    requires FreshIds(table, history, items, newId) && i < |items|
    ensures var t := ResolveAll(table, key, history, items, newId, pick)[i];
            && (t.Create? ==> t.id !in history && t.id !in table)
            && (items[i].id.Some? && items[i].id.value in history && items[i].id.value !in table ==> t.Skipped?)
  {
  }

  /** A row that the writes add has no sync history. */
  lemma AddedHasNoHistory<R>(table: Table<R>, key: R -> Option<string>, unique: bool, history: set<Id>, items: seq<Ref>,
                             newId: nat -> Id, pick: Pick, rows: seq<R>, id: Id)
    requires FreshIds(table, history, items, newId) && PicksMembers(pick) && |rows| == |items|
    requires id in PutAll(table, key, unique, ResolveAll(table, key, history, items, newId, pick), rows).0
    ensures id in table || id !in history
  {
    var ts := ResolveAll(table, key, history, items, newId, pick);
    PutAllRows(table, key, unique, ts, rows);
    if id !in table {
      var i :| 0 <= i < |ts| && Writes(ts[i]) && ts[i].id == id;
      NoResurrection(table, key, history, items, newId, pick, i);
      UpdatesAreLive(table, key, history, items, newId, pick, i);
    }
  }

  /** An update goes to a row that is there. */
  lemma UpdatesAreLive<R>(table: Table<R>, key: R -> Option<string>, history: set<Id>, items: seq<Ref>, newId: nat -> Id,
                          pick: Pick, i: nat)
    requires PicksMembers(pick) && i < |items|
    ensures var t := ResolveAll(table, key, history, items, newId, pick)[i];
            t.Update? ==> t.id in table
  {
  }

  lemma OnlyOne(s: set<Id>, x: Id, pick: Pick)
    requires x in s && |s| <= 1 && PicksMembers(pick)
    ensures pick(s) == x
  {
    assert pick(s) in s;
    if pick(s) != x {
      assert {x, pick(s)} <= s;
      SubsetSize({x, pick(s)}, s);
    }
  }

  /** Items that are the rows of the table, under their ids, leave it as it is. */
  lemma OwnRowsAreIdentity<R>(table: Table<R>, key: R -> Option<string>, unique: bool, history: set<Id>, items: seq<Ref>,
                              newId: nat -> Id, pick: Pick, rows: seq<R>)
    requires |rows| == |items| && (unique ==> UniqueKeys(table, key))
    requires forall i :: 0 <= i < |items| ==> items[i].id.Some? && items[i].id.value in table && rows[i] == table[items[i].id.value]
    ensures var ts := ResolveAll(table, key, history, items, newId, pick);
            && (forall i :: 0 <= i < |items| ==> ts[i] == Update(items[i].id.value))
            && PutAll(table, key, unique, ts, rows) == (table, true)
  {
    PutAllAgain(table, key, unique, ResolveAll(table, key, history, items, newId, pick), rows);
  }
}
