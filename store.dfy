/** The record service, one table per app, held in memory. Every call may
    fail (a network, authentication or server error): the outcome is chosen
    nondeterministically, and a failed call leaves the table as it was. The
    table keeps its records in the order the service lists them; seen as a
    map from record id to fields it is `AsMap(rows)`. */
module Store {
  import opened JsValues
  import opened AppTypes

  /** What one handler that issues a store mutation did: nothing (its guard
      refused), a rejected store call, or the mutation and then a reload whose
      own outcome is `reloaded`. */
  datatype Outcome = NoOp | Failed | Done(reloaded: bool)

  /** The ids in use. */
  function Ids<F>(rows: seq<Record<F>>): set<RecordId> {
    if rows == [] then {} else {rows[0].recordId} + Ids(rows[1..])
  }

  /** The service assigns each record an id of its own. */
  predicate UniqueIds<F>(rows: seq<Record<F>>) {
    rows != [] ==> rows[0].recordId !in Ids(rows[1..]) && UniqueIds(rows[1..])
  }

  /** The table as a map from record id to fields. */
  function AsMap<F>(rows: seq<Record<F>>): (m: map<RecordId, F>)
    ensures m.Keys == Ids(rows)
  {
    if rows == [] then map[] else AsMap(rows[1..])[rows[0].recordId := rows[0].fields]
  }

  /** The rows after `update(id, fields)`: the record with that id gets the
      new fields, every other record stays where and as it was. */
  function Replace<F>(rows: seq<Record<F>>, id: RecordId, fields: F): (r: seq<Record<F>>)
    ensures |r| == |rows|
    ensures forall i :: 0 <= i < |rows| ==>
      r[i] == if rows[i].recordId == id then Record(id, fields) else rows[i]
  {
    if rows == [] then []
    else (if rows[0].recordId == id then [Record(id, fields)] else [rows[0]]) + Replace(rows[1..], id, fields)
  }

  /** The rows after `delete(id)`: every record with that id is gone, the
      others keep their order. */
  function Remove<F>(rows: seq<Record<F>>, id: RecordId): (r: seq<Record<F>>)
    ensures |r| <= |rows|
    ensures forall k :: 0 <= k < |r| ==> r[k].recordId != id && r[k] in rows
  {
    if rows == [] then []
    else if rows[0].recordId == id then Remove(rows[1..], id)
    else [rows[0]] + Remove(rows[1..], id)
  }

  /** `after` is `before` with one new record with a fresh id at the end. */
  ghost predicate Appended<F>(before: seq<Record<F>>, after: seq<Record<F>>, id: RecordId, fields: F) {
    id !in Ids(before) && after == before + [Record(id, fields)]
  }

  /** `after` is `before` after one successful save: an update of `target`
      when there is one, otherwise a create. */
  ghost predicate Saved<F>(before: seq<Record<F>>, after: seq<Record<F>>, target: Option<RecordId>, fields: F) {
    match target
    case Some(id) => id in Ids(before) && after == Replace(before, id, fields)
    case None => exists id :: Appended(before, after, id, fields)
  }

  /** Appending a record under a fresh id keeps the ids unique and adds
      exactly that entry to the map. */
  lemma {:induction false} AppendFresh<F>(rows: seq<Record<F>>, id: RecordId, fields: F)
    requires UniqueIds(rows) && id !in Ids(rows)
    ensures UniqueIds(rows + [Record(id, fields)])
    ensures Ids(rows + [Record(id, fields)]) == Ids(rows) + {id}
    ensures AsMap(rows + [Record(id, fields)]) == AsMap(rows)[id := fields]
  {
    if rows != [] {
      assert (rows + [Record(id, fields)])[1..] == rows[1..] + [Record(id, fields)];
      AppendFresh(rows[1..], id, fields);
    }
  }

  /** Replacing the fields under an id keeps the ids, and changes exactly
      that entry of the map when the id is there. */
  lemma {:induction false} ReplaceKeeps<F>(rows: seq<Record<F>>, id: RecordId, fields: F)
    requires UniqueIds(rows)
    ensures UniqueIds(Replace(rows, id, fields)) && Ids(Replace(rows, id, fields)) == Ids(rows)
    ensures id in Ids(rows) ==> AsMap(Replace(rows, id, fields)) == AsMap(rows)[id := fields]
    ensures id !in Ids(rows) ==> Replace(rows, id, fields) == rows
  {
    if rows != [] {
      var r := Replace(rows, id, fields);
      assert r[1..] == Replace(rows[1..], id, fields);
      ReplaceKeeps(rows[1..], id, fields);
    }
  }

  /** Deleting an id keeps the other ids unique and removes exactly that
      entry from the map. */
  lemma {:induction false} RemoveKeeps<F>(rows: seq<Record<F>>, id: RecordId)
    requires UniqueIds(rows)
    ensures UniqueIds(Remove(rows, id)) && Ids(Remove(rows, id)) == Ids(rows) - {id}
    ensures AsMap(Remove(rows, id)) == AsMap(rows) - {id}
  {
    if rows != [] {
      RemoveKeeps(rows[1..], id);
      if rows[0].recordId != id {
        assert ([rows[0]] + Remove(rows[1..], id))[1..] == Remove(rows[1..], id);
      }
    }
  }

  /** The search by record id: the first record with that id, or
      none when there is no such record or no id at all. */
  function Find<F>(rows: seq<Record<F>>, id: Option<RecordId>): (r: Option<Record<F>>)
    ensures r.None? <==> forall i :: 0 <= i < |rows| ==> Some(rows[i].recordId) != id
    ensures r.Some? ==> Some(r.value.recordId) == id
    ensures r.Some? ==> exists i :: 0 <= i < |rows| && rows[i] == r.value && NoneBefore(rows, i, id)
  {
    if rows == [] then None
    else if Some(rows[0].recordId) == id then
      assert NoneBefore(rows, 0, id);
      Some(rows[0])
    else
      var r := Find(rows[1..], id);
      if r.Some? then
        assert exists i :: 0 <= i < |rows| && rows[i] == r.value && NoneBefore(rows, i, id) by {
          var i :| 0 <= i < |rows[1..]| && rows[1..][i] == r.value && NoneBefore(rows[1..], i, id);
          assert NoneBefore(rows, i + 1, id);
        }
        r
      else
        r
  }

  /** No record before index `i` has the id. */
  predicate NoneBefore<F>(rows: seq<Record<F>>, i: int, id: Option<RecordId>)
    requires 0 <= i <= |rows|
  {
    forall j :: 0 <= j < i ==> Some(rows[j].recordId) != id
  }

  /** The non-empty name the first record with the id carries:
      the search by id followed by the name, where an empty name counts as
      none. */
  function FoundName<F>(rows: seq<Record<F>>, id: Option<RecordId>, name: F -> Option<string>): (r: Option<string>)
    ensures r.Some? ==> r.value != "" && exists i :: 0 <= i < |rows| && Some(rows[i].recordId) == id && name(rows[i].fields) == r
    ensures (forall i :: 0 <= i < |rows| ==> Some(rows[i].recordId) != id) ==> r.None?
    ensures forall i :: 0 <= i < |rows| && Some(rows[i].recordId) == id && NoneBefore(rows, i, id) ==>
      r == NonEmpty(name(rows[i].fields))
    ensures UniqueIds(rows) ==> forall i :: 0 <= i < |rows| && Some(rows[i].recordId) == id ==>
      r == NonEmpty(name(rows[i].fields))
  {
    FindFirst(rows, id);
    FindEach(rows);
    var found := Find(rows, id);
    if found.Some? then NonEmpty(name(found.value.fields)) else None
  }

  /** The search by id returns the record with the id that no earlier
      record shares. */
  lemma {:induction false} FindFirst<F>(rows: seq<Record<F>>, id: Option<RecordId>)
    ensures forall i :: 0 <= i < |rows| && Some(rows[i].recordId) == id && NoneBefore(rows, i, id) ==>
      Find(rows, id) == Some(rows[i])
  {
    if rows != [] && Some(rows[0].recordId) != id {
      FindFirst(rows[1..], id);
      forall i | 0 <= i < |rows| && Some(rows[i].recordId) == id && NoneBefore(rows, i, id)
        ensures Find(rows, id) == Some(rows[i])
      {
        assert rows[1..][i - 1] == rows[i];
        assert NoneBefore(rows[1..], i - 1, id);
      }
    }
  }

  /** Every record's id is among the ids in use. */
  lemma {:induction false} IdAt<F>(rows: seq<Record<F>>, i: int)
    requires 0 <= i < |rows|
    ensures rows[i].recordId in Ids(rows)
  {
    if i > 0 {
      IdAt(rows[1..], i - 1);
    }
  }

  /** With unique ids, looking up a record's own id finds that record. */
  lemma {:induction false} FindUnique<F>(rows: seq<Record<F>>, i: int)
    requires UniqueIds(rows) && 0 <= i < |rows|
    ensures Find(rows, Some(rows[i].recordId)) == Some(rows[i])
  {
    if i > 0 {
      IdAt(rows[1..], i - 1);
      FindUnique(rows[1..], i - 1);
    }
  }

  /** With unique ids, looking up any record's own id finds that record. */
  lemma FindEach<F>(rows: seq<Record<F>>)
    ensures UniqueIds(rows) ==> forall i :: 0 <= i < |rows| ==> Find(rows, Some(rows[i].recordId)) == Some(rows[i])
  {
    if UniqueIds(rows) {
      forall i | 0 <= i < |rows| ensures Find(rows, Some(rows[i].recordId)) == Some(rows[i]) {
        FindUnique(rows, i);
      }
    }
  }

  /** The record id a save updates: `editing.record_id` while editing. */
  function TargetOf<F>(editing: Option<Record<F>>): Option<RecordId> {
    if editing.Some? then Some(editing.value.recordId) else None
  }

  /** A string longer than every id in `ids`, so not one of them. */
  ghost function Longer(ids: set<RecordId>): (s: RecordId)
    ensures |s| > 0
    ensures forall x :: x in ids ==> |x| < |s|
  {
    if ids == {} then "x"
    else
      var x :| x in ids;
      var rest := Longer(ids - {x});
      if |x| < |rest| then rest else x + "x"
  }

  /** One table of the service (`getX`, `createXEntry`, `updateXEntry`,
      `deleteXEntry` of one app). */
  class Table<F> {
    var rows: seq<Record<F>>

    ghost predicate Valid()
      reads this
    {
      UniqueIds(rows)
    }

    constructor (initial: seq<Record<F>>)
      requires UniqueIds(initial)
      ensures Valid() && rows == initial
    {
      rows := initial;
    }

    /** `getX()`: on success, every record in the service's order. */
    method List() returns (ok: bool, list: seq<Record<F>>)
      ensures ok ==> list == rows
    {
      ok := *;
      list := if ok then rows else [];
    }

    /** `createXEntry(fields)`: on success, one new record under a non-empty id the
        service has not used. */
    method Create(fields: F) returns (ok: bool, id: RecordId)
      requires Valid()
      modifies this
      ensures Valid()
      ensures ok ==> id != ""
      ensures ok ==> Appended(old(rows), rows, id, fields)
      ensures ok ==> AsMap(rows) == old(AsMap(rows))[id := fields]
      ensures !ok ==> rows == old(rows)
    {
      ok := *;
      ghost var taken := Ids(rows);
      assert Longer(taken) != "" && Longer(taken) !in taken;
      id :| id != "" && id !in Ids(rows);
      if ok {
        AppendFresh(rows, id, fields);
        rows := rows + [Record(id, fields)];
      }
    }

    /** `updateXEntry(id, fields)`: on success the record with that id has
        the new fields; an id the service does not hold is rejected. */
    method Update(id: RecordId, fields: F) returns (ok: bool)
      requires Valid()
      modifies this
      ensures Valid()
      ensures ok ==> id in old(Ids(rows)) && rows == Replace(old(rows), id, fields)
      ensures ok ==> AsMap(rows) == old(AsMap(rows))[id := fields]
      ensures !ok ==> rows == old(rows)
    {
      ok := *;
      if id !in Ids(rows) {
        ok := false;
      }
      if ok {
        ReplaceKeeps(rows, id, fields);
        rows := Replace(rows, id, fields);
      }
    }

    /** `deleteXEntry(id)`: on success the record with that id is gone; an
        id the service does not hold is rejected. */
    method Delete(id: RecordId) returns (ok: bool)
      requires Valid()
      modifies this
      ensures Valid()
      ensures ok ==> id in old(Ids(rows)) && rows == Remove(old(rows), id)
      ensures ok ==> AsMap(rows) == old(AsMap(rows)) - {id}
      ensures !ok ==> rows == old(rows)
    {
      ok := *;
      if id !in Ids(rows) {
        ok := false;
      }
      if ok {
        RemoveKeeps(rows, id);
        rows := Remove(rows, id);
      }
    }

    /** The mutation every save issues: `updateXEntry(target, fields)` while
        editing a record, `createXEntry(fields)` otherwise. */
    method Save(target: Option<RecordId>, fields: F) returns (ok: bool)
      requires Valid()
      modifies this
      ensures Valid()
      ensures ok ==> Saved(old(rows), rows, target, fields)
      ensures !ok ==> rows == old(rows)
    {
      if target.Some? {
        ok := Update(target.value, fields);
      } else {
        var id;
        ok, id := Create(fields);
      }
    }
  }
}
