/**
 * The per-user key-value table: one SQLite table of `(username, key, value)`
 * rows with a unique index on the whole triple. The rows are kept in table
 * (insertion) order; every write goes through the upsert, which first
 * deletes the rows a WHERE clause selects and then inserts the new row.
 */
module KVStore {
  import opened Wrappers
  import FileRecord

  /** One row of the table (`KVStoreItem`). */
  datatype Item = Item(username: string, key: string, value: string)

  /** The one key a user may hold several values of: an uploaded file record. */
  const FileKey: string := "file"
  /** The per-user uuid that names the user's image folder. */
  const IdKey: string := "id"
  const NameKey: string := "name"
  const InstructionsKey: string := "instructions"
  const ToolsKey: string := "tools"
  const AssistantKey: string := "assistant"
  const ThreadKey: string := "thread"

  /** The WHERE clauses the module issues. */
  datatype Where =
    | User(username: string)
    | UserKey(username: string, key: string)
    | Triple(username: string, key: string, value: string)

  predicate Matches(w: Where, row: Item) {
    match w
    case User(u) => row.username == u
    case UserKey(u, k) => row.username == u && row.key == k
    case Triple(u, k, v) => row == Item(u, k, v)
  }

  /** The rows, in table order, whose match against `w` is `keep`. */
  function Filter(rows: seq<Item>, w: Where, keep: bool): (r: seq<Item>)
    ensures |r| <= |rows|
  {
    if rows == [] then []
    else
      var last := rows[|rows| - 1];
      Filter(rows[..|rows| - 1], w, keep) + (if Matches(w, last) == keep then [last] else [])
  }

  /** `SELECT ... WHERE w`. */
  function Select(rows: seq<Item>, w: Where): seq<Item> {
    Filter(rows, w, true)
  }

  /** The table after `DELETE ... WHERE w`. */
  function DeleteWhere(rows: seq<Item>, w: Where): seq<Item> {
    Filter(rows, w, false)
  }

  /** The DELETE an upsert issues: every value of the key, or for "file" only the same triple. */
  function UpsertClears(u: string, k: string, v: string): Where {
    if k != FileKey then UserKey(u, k) else Triple(u, k, v)
  }

  /** The table after `__upsert_value(u, k, v)`. */
  function Upserted(rows: seq<Item>, u: string, k: string, v: string): seq<Item> {
    DeleteWhere(rows, UpsertClears(u, k, v)) + [Item(u, k, v)]
  }

  /** What one upsert adds to `total_changes`: the rows its DELETE removes, plus the row it inserts. */
  function UpsertChanges(rows: seq<Item>, u: string, k: string, v: string): nat {
    |rows| - |DeleteWhere(rows, UpsertClears(u, k, v))| + 1
  }

  /** The row written for one `(name, id)` pair of uploaded files. */
  function FileItem(u: string, p: (string, string)): Item {
    Item(u, FileKey, FileRecord.Encode(p.0, p.1))
  }

  /** The table after the upserts of `create_files(u, pairs)`, one per pair in order. */
  function FilesAdded(rows: seq<Item>, u: string, pairs: seq<(string, string)>): seq<Item> {
    if pairs == [] then rows
    else
      var p := pairs[|pairs| - 1];
      Upserted(FilesAdded(rows, u, pairs[..|pairs| - 1]), u, FileKey, FileItem(u, p).value)
  }

  /** What the upserts of `create_files(u, pairs)` add to `total_changes`. */
  function FilesAddedChanges(rows: seq<Item>, u: string, pairs: seq<(string, string)>): nat {
    if pairs == [] then 0
    else
      var init := pairs[..|pairs| - 1];
      FilesAddedChanges(rows, u, init)
        + UpsertChanges(FilesAdded(rows, u, init), u, FileKey, FileItem(u, pairs[|pairs| - 1]).value)
  }

  /** The table after the five upserts of `create_assistant`. */
  function AssistantWritten(rows: seq<Item>, u: string, uid: string, name: string,
                            instructions: string, tools: string, assistantId: string): seq<Item>
  {
    var r1 := Upserted(rows, u, IdKey, uid);
    var r2 := Upserted(r1, u, NameKey, name);
    var r3 := Upserted(r2, u, InstructionsKey, instructions);
    var r4 := Upserted(r3, u, ToolsKey, tools);
    Upserted(r4, u, AssistantKey, assistantId)
  }
  /** What the five upserts of `create_assistant` add to `total_changes`. */
  function AssistantChanges(rows: seq<Item>, u: string, uid: string, name: string,
                            instructions: string, tools: string, assistantId: string): nat
  {
    var r1 := Upserted(rows, u, IdKey, uid);
    var r2 := Upserted(r1, u, NameKey, name);
    var r3 := Upserted(r2, u, InstructionsKey, instructions);
    var r4 := Upserted(r3, u, ToolsKey, tools);
    UpsertChanges(rows, u, IdKey, uid) + UpsertChanges(r1, u, NameKey, name)
      + UpsertChanges(r2, u, InstructionsKey, instructions) + UpsertChanges(r3, u, ToolsKey, tools)
      + UpsertChanges(r4, u, AssistantKey, assistantId)
  }


  /**
   * Two rows the table never holds together: the same triple (the unique
   * index) or two values of one non-file key of one user (the upsert
   * replaces them).
   */
  predicate Clash(a: Item, b: Item) {
    a == b || (a.key != FileKey && a.username == b.username && a.key == b.key)
  }

  ghost predicate Consistent(rows: seq<Item>) {
    forall i, j | 0 <= i < j < |rows| :: !Clash(rows[i], rows[j])
  }

  // ---------------------------------------------------------------------
  // Facts about filtering

  /** A row is kept iff it is a row of the table on the kept side of the clause. */
  lemma {:induction false} FilterMembers(rows: seq<Item>, w: Where, keep: bool)
    ensures forall x :: x in Filter(rows, w, keep) <==> x in rows && Matches(w, x) == keep
  {
    if rows != [] {
      var init, last := rows[..|rows| - 1], rows[|rows| - 1];
      FilterMembers(init, w, keep);
      assert rows == init + [last];
    }
  }

  /** A second filter that keeps only rows the first one dropped keeps nothing. */
  lemma {:induction false} FilterDisjoint(rows: seq<Item>, w1: Where, k1: bool, w2: Where, k2: bool)
    requires forall x :: Matches(w2, x) == k2 ==> Matches(w1, x) != k1
    ensures Filter(Filter(rows, w1, k1), w2, k2) == []
  {
    if rows != [] {
      var init, last := rows[..|rows| - 1], rows[|rows| - 1];
      FilterDisjoint(init, w1, k1, w2, k2);
      FilterConcat(Filter(init, w1, k1), if Matches(w1, last) == k1 then [last] else [], w2, k2);
      assert [last][..0] == [];
    }
  }

  lemma {:induction false} FilterConcat(a: seq<Item>, b: seq<Item>, w: Where, keep: bool)
    ensures Filter(a + b, w, keep) == Filter(a, w, keep) + Filter(b, w, keep)
  {
    if b != [] {
      var init, last := b[..|b| - 1], b[|b| - 1];
      assert (a + b)[..|a + b| - 1] == a + init;
      assert (a + b)[|a + b| - 1] == last;
      FilterConcat(a, init, w, keep);
      assert Filter(a + b, w, keep) == Filter(a + init, w, keep) + (if Matches(w, last) == keep then [last] else []);
    } else {
      assert a + b == a;
    }
  }

  /** A second filter whose kept rows all pass the first one sees through the first. */
  lemma {:induction false} FilterOfFilter(rows: seq<Item>, w1: Where, k1: bool, w2: Where, k2: bool)
    requires forall x :: Matches(w2, x) == k2 ==> Matches(w1, x) == k1
    ensures Filter(Filter(rows, w1, k1), w2, k2) == Filter(rows, w2, k2)
  {
    if rows != [] {
      var init, last := rows[..|rows| - 1], rows[|rows| - 1];
      FilterOfFilter(init, w1, k1, w2, k2);
      FilterConcat(Filter(init, w1, k1), if Matches(w1, last) == k1 then [last] else [], w2, k2);
    }
  }

  /** Every row lands on exactly one side of a WHERE clause. */
  lemma {:induction false} FilterPartition(rows: seq<Item>, w: Where)
    ensures |Select(rows, w)| + |DeleteWhere(rows, w)| == |rows|
  {
    if rows != [] {
      FilterPartition(rows[..|rows| - 1], w);
    }
  }

  lemma ConsistentSnoc(s: seq<Item>, x: Item)
    requires Consistent(s)
    requires forall y :: y in s ==> !Clash(y, x)
    ensures Consistent(s + [x])
  {
    forall i, j | 0 <= i < j < |s + [x]|
      ensures !Clash((s + [x])[i], (s + [x])[j])
    {
      if j == |s| {
        assert (s + [x])[i] in s;
      }
    }
  }

  /** Deleting rows never makes two remaining rows clash. */
  lemma {:induction false} FilterConsistent(rows: seq<Item>, w: Where, keep: bool)
    requires Consistent(rows)
    ensures Consistent(Filter(rows, w, keep))
  {
    if rows != [] {
      var init, last := rows[..|rows| - 1], rows[|rows| - 1];
      assert Consistent(init) by {
        forall i, j | 0 <= i < j < |init| ensures !Clash(init[i], init[j]) {
          assert init[i] == rows[i] && init[j] == rows[j];
        }
      }
      FilterConsistent(init, w, keep);
      FilterMembers(init, w, keep);
      forall y | y in Filter(init, w, keep) ensures !Clash(y, last) {
        var i :| 0 <= i < |init| && init[i] == y;
        assert rows[i] == y;
      }
      if Matches(w, last) == keep {
        ConsistentSnoc(Filter(init, w, keep), last);
      }
    }
  }

  // ---------------------------------------------------------------------
  // What an upsert does to the table

  /** The upsert keeps the table free of duplicate triples and of second values of a non-file key. */
  lemma UpsertedConsistent(rows: seq<Item>, u: string, k: string, v: string)
    requires Consistent(rows)
    ensures Consistent(Upserted(rows, u, k, v))
  {
    var w := UpsertClears(u, k, v);
    FilterConsistent(rows, w, false);
    FilterMembers(rows, w, false);
    ConsistentSnoc(DeleteWhere(rows, w), Item(u, k, v));
  }

  /** A row is in the upserted table iff it is the new row or an old row the DELETE spared. */
  lemma UpsertMembers(rows: seq<Item>, u: string, k: string, v: string, x: Item)
    ensures x in Upserted(rows, u, k, v) <==>
            x == Item(u, k, v) || (x in rows && !Matches(UpsertClears(u, k, v), x))
  {
    FilterMembers(rows, UpsertClears(u, k, v), false);
  }

  /** After an upsert of a non-file key, the user holds exactly one row for it: the new value. */
  lemma UpsertSingleValued(rows: seq<Item>, u: string, k: string, v: string)
    requires k != FileKey
    ensures Select(Upserted(rows, u, k, v), UserKey(u, k)) == [Item(u, k, v)]
  {
    var w := UpsertClears(u, k, v);
    var kept := DeleteWhere(rows, w);
    FilterConcat(kept, [Item(u, k, v)], UserKey(u, k), true);
    FilterDisjoint(rows, w, false, UserKey(u, k), true);
    assert Filter(rows[..0], UserKey(u, k), true) == [];
    assert [Item(u, k, v)][..0] == [];
  }

  /** After an upsert of a file record the triple is present exactly once. */
  lemma UpsertFileRow(rows: seq<Item>, u: string, v: string)
    ensures Select(Upserted(rows, u, FileKey, v), Triple(u, FileKey, v)) == [Item(u, FileKey, v)]
  {
    var w := UpsertClears(u, FileKey, v);
    FilterConcat(DeleteWhere(rows, w), [Item(u, FileKey, v)], w, true);
    FilterDisjoint(rows, w, false, w, true);
    assert [Item(u, FileKey, v)][..0] == [];
  }

  /** An upsert leaves every selection of another `(username, key)`, or another triple, as it was. */
  lemma UpsertKeepsOthers(rows: seq<Item>, u: string, k: string, v: string, w: Where)
    requires forall x :: Matches(w, x) ==> !Matches(UpsertClears(u, k, v), x) && x != Item(u, k, v)
    ensures Select(Upserted(rows, u, k, v), w) == Select(rows, w)
  {
    var c := UpsertClears(u, k, v);
    FilterConcat(DeleteWhere(rows, c), [Item(u, k, v)], w, true);
    FilterOfFilter(rows, c, false, w, true);
    assert [Item(u, k, v)][..0] == [];
  }

  /** Rows of another user, or of another key of the same user, are unchanged by an upsert. */
  lemma UpsertFrame(rows: seq<Item>, u: string, k: string, v: string)
    ensures DeleteWhere(Upserted(rows, u, k, v), UserKey(u, k)) == DeleteWhere(rows, UserKey(u, k))
    ensures forall u' | u' != u :: Select(Upserted(rows, u, k, v), User(u')) == Select(rows, User(u'))
  {
    var c := UpsertClears(u, k, v);
    FilterConcat(DeleteWhere(rows, c), [Item(u, k, v)], UserKey(u, k), false);
    FilterOfFilter(rows, c, false, UserKey(u, k), false);
    assert [Item(u, k, v)][..0] == [];
    forall u' | u' != u ensures Select(Upserted(rows, u, k, v), User(u')) == Select(rows, User(u')) {
      UpsertKeepsOthers(rows, u, k, v, User(u'));
    }
  }

  /** A file upsert leaves the user's other file records as they were. */
  lemma UpsertOtherFiles(rows: seq<Item>, u: string, v: string, v': string)
    requires v' != v
    ensures Select(Upserted(rows, u, FileKey, v), Triple(u, FileKey, v')) == Select(rows, Triple(u, FileKey, v'))
  {
    UpsertKeepsOthers(rows, u, FileKey, v, Triple(u, FileKey, v'));
  }

  /** Upserting the same triple twice gives the table of upserting it once. */
  lemma UpsertIdempotent(rows: seq<Item>, u: string, k: string, v: string)
    ensures Upserted(Upserted(rows, u, k, v), u, k, v) == Upserted(rows, u, k, v)
  {
    var c := UpsertClears(u, k, v);
    var once := Upserted(rows, u, k, v);
    FilterConcat(DeleteWhere(rows, c), [Item(u, k, v)], c, false);
    FilterOfFilter(rows, c, false, c, false);
    assert [Item(u, k, v)][..0] == [];
  }

  /** A non-file key of a consistent table has at most one row per user. */
  lemma SingleValued(rows: seq<Item>, u: string, k: string)
    ensures Consistent(rows) && k != FileKey ==> |Select(rows, UserKey(u, k))| <= 1
  {
    if Consistent(rows) && k != FileKey {
      var s := Select(rows, UserKey(u, k));
      FilterConsistent(rows, UserKey(u, k), true);
      FilterMembers(rows, UserKey(u, k), true);
      FirstTwoIn(s);
    }
  }

  // ---------------------------------------------------------------------
  // The composite writers and the user delete

  /** Each file pair's record is in the table exactly once after create_files. */
  lemma {:induction false} FilesAddedRow(rows: seq<Item>, u: string, pairs: seq<(string, string)>, j: nat)
    requires j < |pairs|
    ensures Select(FilesAdded(rows, u, pairs), Triple(u, FileKey, FileItem(u, pairs[j]).value)) == [FileItem(u, pairs[j])]
  {
    var init := pairs[..|pairs| - 1];
    var last := FileItem(u, pairs[|pairs| - 1]).value;
    var v := FileItem(u, pairs[j]).value;
    if v == last {
      UpsertFileRow(FilesAdded(rows, u, init), u, v);
    } else {
      assert j < |init| && init[j] == pairs[j];
      FilesAddedRow(rows, u, init, j);
      UpsertOtherFiles(FilesAdded(rows, u, init), u, last, v);
    }
  }

  /** The rows after create_files are the old rows plus one file record per pair, and nothing else. */
  lemma {:induction false} FilesAddedMembers(rows: seq<Item>, u: string, pairs: seq<(string, string)>, x: Item)
    ensures x in FilesAdded(rows, u, pairs) <==>
            x in rows || exists j :: 0 <= j < |pairs| && x == FileItem(u, pairs[j])
  {
    if x in FilesAdded(rows, u, pairs) {
      FilesAddedOnly(rows, u, pairs, x);
    }
    if x in rows {
      FilesAddedKeeps(rows, u, pairs, x);
    }
    if exists j :: 0 <= j < |pairs| && x == FileItem(u, pairs[j]) {
      var j :| 0 <= j < |pairs| && x == FileItem(u, pairs[j]);
      FilesAddedHas(rows, u, pairs, j);
    }
  }

  lemma {:induction false} FilesAddedKeeps(rows: seq<Item>, u: string, pairs: seq<(string, string)>, x: Item)
    requires x in rows
    ensures x in FilesAdded(rows, u, pairs)
  {
    if pairs != [] {
      var n := |pairs| - 1;
      FilesAddedKeeps(rows, u, pairs[..n], x);
      UpsertFileKeeps(FilesAdded(rows, u, pairs[..n]), u, FileItem(u, pairs[n]).value, x);
    }
  }

  lemma {:induction false} FilesAddedHas(rows: seq<Item>, u: string, pairs: seq<(string, string)>, j: nat)
    requires j < |pairs|
    ensures FileItem(u, pairs[j]) in FilesAdded(rows, u, pairs)
  {
    var n := |pairs| - 1;
    var prev := FilesAdded(rows, u, pairs[..n]);
    assert FilesAdded(rows, u, pairs) == Upserted(prev, u, FileKey, FileItem(u, pairs[n]).value);
    if j < n {
      assert pairs[..n][j] == pairs[j];
      FilesAddedHas(rows, u, pairs[..n], j);
      UpsertFileKeeps(prev, u, FileItem(u, pairs[n]).value, FileItem(u, pairs[j]));
    } else {
      UpsertFileHas(prev, u, pairs[n]);
    }
  }

  /** A file upsert holds the row it writes. */
  lemma UpsertFileHas(rows: seq<Item>, u: string, p: (string, string))
    ensures FileItem(u, p) in Upserted(rows, u, FileKey, FileItem(u, p).value)
  {
    UpsertMembers(rows, u, FileKey, FileItem(u, p).value, FileItem(u, p));
  }

  /** A file upsert keeps every row already there. */
  lemma UpsertFileKeeps(rows: seq<Item>, u: string, v: string, x: Item)
    requires x in rows
    ensures x in Upserted(rows, u, FileKey, v)
  {
    UpsertMembers(rows, u, FileKey, v, x);
  }

  lemma {:induction false} FilesAddedOnly(rows: seq<Item>, u: string, pairs: seq<(string, string)>, x: Item)
    requires x in FilesAdded(rows, u, pairs)
    ensures x in rows || exists j :: 0 <= j < |pairs| && x == FileItem(u, pairs[j])
  {
    if pairs != [] {
      var n := |pairs| - 1;
      var init := pairs[..n];
      UpsertMembers(FilesAdded(rows, u, init), u, FileKey, FileItem(u, pairs[n]).value, x);
      if x != FileItem(u, pairs[n]) {
        FilesAddedOnly(rows, u, init, x);
        if x !in rows {
          var j :| 0 <= j < n && x == FileItem(u, init[j]);
          assert pairs[j] == init[j];
        }
      }
    }
  }

  /** create_files touches no row other than the user's file records. */
  lemma {:induction false} FilesAddedFrame(rows: seq<Item>, u: string, pairs: seq<(string, string)>)
    ensures DeleteWhere(FilesAdded(rows, u, pairs), UserKey(u, FileKey)) == DeleteWhere(rows, UserKey(u, FileKey))
  {
    if pairs != [] {
      var init := pairs[..|pairs| - 1];
      FilesAddedFrame(rows, u, init);
      UpsertFrame(FilesAdded(rows, u, init), u, FileKey, FileItem(u, pairs[|pairs| - 1]).value);
    }
  }

  lemma {:induction false} FilesAddedConsistent(rows: seq<Item>, u: string, pairs: seq<(string, string)>)
    requires Consistent(rows)
    ensures Consistent(FilesAdded(rows, u, pairs))
  {
    if pairs != [] {
      var init := pairs[..|pairs| - 1];
      FilesAddedConsistent(rows, u, init);
      UpsertedConsistent(FilesAdded(rows, u, init), u, FileKey, FileItem(u, pairs[|pairs| - 1]).value);
    }
  }

  /** create_assistant leaves each of its five keys holding exactly the value it was given. */
  lemma AssistantKeys(rows: seq<Item>, u: string, uid: string, name: string,
                      instructions: string, tools: string, assistantId: string)
    ensures var r := AssistantWritten(rows, u, uid, name, instructions, tools, assistantId);
            && Select(r, UserKey(u, IdKey)) == [Item(u, IdKey, uid)]
            && Select(r, UserKey(u, NameKey)) == [Item(u, NameKey, name)]
            && Select(r, UserKey(u, InstructionsKey)) == [Item(u, InstructionsKey, instructions)]
            && Select(r, UserKey(u, ToolsKey)) == [Item(u, ToolsKey, tools)]
            && Select(r, UserKey(u, AssistantKey)) == [Item(u, AssistantKey, assistantId)]
  {
    var r1 := Upserted(rows, u, IdKey, uid);
    var r2 := Upserted(r1, u, NameKey, name);
    var r3 := Upserted(r2, u, InstructionsKey, instructions);
    var r4 := Upserted(r3, u, ToolsKey, tools);
    var r5 := Upserted(r4, u, AssistantKey, assistantId);
    UpsertSingleValued(rows, u, IdKey, uid);
    UpsertKeepsOthers(r1, u, NameKey, name, UserKey(u, IdKey));
    UpsertKeepsOthers(r2, u, InstructionsKey, instructions, UserKey(u, IdKey));
    UpsertKeepsOthers(r3, u, ToolsKey, tools, UserKey(u, IdKey));
    UpsertKeepsOthers(r4, u, AssistantKey, assistantId, UserKey(u, IdKey));
    UpsertSingleValued(r1, u, NameKey, name);
    UpsertKeepsOthers(r2, u, InstructionsKey, instructions, UserKey(u, NameKey));
    UpsertKeepsOthers(r3, u, ToolsKey, tools, UserKey(u, NameKey));
    UpsertKeepsOthers(r4, u, AssistantKey, assistantId, UserKey(u, NameKey));
    UpsertSingleValued(r2, u, InstructionsKey, instructions);
    UpsertKeepsOthers(r3, u, ToolsKey, tools, UserKey(u, InstructionsKey));
    UpsertKeepsOthers(r4, u, AssistantKey, assistantId, UserKey(u, InstructionsKey));
    UpsertSingleValued(r3, u, ToolsKey, tools);
    UpsertKeepsOthers(r4, u, AssistantKey, assistantId, UserKey(u, ToolsKey));
    UpsertSingleValued(r4, u, AssistantKey, assistantId);
  }

  /** create_assistant for one user leaves every other user's rows as they were. */
  lemma AssistantOtherUsers(rows: seq<Item>, u: string, uid: string, name: string,
                            instructions: string, tools: string, assistantId: string, u': string)
    requires u' != u
    ensures Select(AssistantWritten(rows, u, uid, name, instructions, tools, assistantId), User(u'))
         == Select(rows, User(u'))
  {
    var r1 := Upserted(rows, u, IdKey, uid);
    var r2 := Upserted(r1, u, NameKey, name);
    var r3 := Upserted(r2, u, InstructionsKey, instructions);
    var r4 := Upserted(r3, u, ToolsKey, tools);
    UpsertKeepsOthers(rows, u, IdKey, uid, User(u'));
    UpsertKeepsOthers(r1, u, NameKey, name, User(u'));
    UpsertKeepsOthers(r2, u, InstructionsKey, instructions, User(u'));
    UpsertKeepsOthers(r3, u, ToolsKey, tools, User(u'));
    UpsertKeepsOthers(r4, u, AssistantKey, assistantId, User(u'));
  }

  /** Deleting a user removes every one of their rows and no row of anyone else. */
  lemma DeleteUserRows(rows: seq<Item>, u: string)
    ensures Select(DeleteWhere(rows, User(u)), User(u)) == []
    ensures forall u' | u' != u :: Select(DeleteWhere(rows, User(u)), User(u')) == Select(rows, User(u'))
    ensures |rows| - |DeleteWhere(rows, User(u))| == |Select(rows, User(u))|
  {
    var rest := DeleteWhere(rows, User(u));
    FilterDisjoint(rows, User(u), false, User(u), true);
    forall u' | u' != u ensures Select(rest, User(u')) == Select(rows, User(u')) {
      FilterOfFilter(rows, User(u), false, User(u'), true);
    }
    FilterPartition(rows, User(u));
  }

  /**
   * The table: its rows and the connection's `total_changes` counter, the
   * number of rows inserted or deleted since the connection was opened.
   */
  class Store {
    var rows: seq<Item>
    var totalChanges: nat

    ghost predicate Valid()
      reads this
    {
      Consistent(rows)
    }

    /** `create_store` on a new database file: an empty table. */
    constructor ()
      ensures Valid() && rows == [] && totalChanges == 0
    {
      rows := [];
      totalChanges := 0;
    }

    /** `__read_value`: the first row for `(u, k)`, or None when there is none. */
    function ReadValue(u: string, k: string): (r: Option<Item>)
      reads this
      ensures r.None? <==> Select(rows, UserKey(u, k)) == []
      ensures r.Some? ==> r.value in rows && r.value.username == u && r.value.key == k
      ensures Valid() && k != FileKey && r.Some? ==> Select(rows, UserKey(u, k)) == [r.value]
    {
      var found := Select(rows, UserKey(u, k));
      SingleValued(rows, u, k);
      FilterMembers(rows, UserKey(u, k), true);
      if found == [] then None else assert found[0] in found; Some(found[0])
    }

    /** `__read_values`: all the user's rows, or only those of `key` when one is given. */
    method ReadValues(u: string, key: Option<string>) returns (kv: seq<Item>)
      ensures key.None? ==> kv == Select(rows, User(u))
      ensures key.Some? ==> kv == Select(rows, UserKey(u, key.value))
    {
      var w := if key.None? then User(u) else UserKey(u, key.value);
      kv := [];
      var i := 0;
      while i < |rows|
        invariant 0 <= i <= |rows|
        invariant kv == Select(rows[..i], w)
      {
        assert rows[..i + 1][..i] == rows[..i];
        if Matches(w, rows[i]) {
          kv := kv + [rows[i]];
        }
        i := i + 1;
      }
      assert rows[..|rows|] == rows;
    }

    /** `__upsert_value`: delete what the key's rule selects, insert the row, commit. */
    method Upsert(u: string, k: string, v: string) returns (item: Item)
      requires Valid()
      modifies this
      ensures Valid()
      ensures item == Item(u, k, v)
      ensures rows == Upserted(old(rows), u, k, v)
      ensures totalChanges == old(totalChanges) + UpsertChanges(old(rows), u, k, v)
      ensures k != FileKey ==> ReadValue(u, k) == Some(item)
    {
      var kept := DeleteWhere(rows, UpsertClears(u, k, v));
      UpsertedConsistent(rows, u, k, v);
      totalChanges := totalChanges + (|rows| - |kept|) + 1;
      item := Item(u, k, v);
      rows := kept + [item];
      if k != FileKey {
        UpsertSingleValued(old(rows), u, k, v);
      }
    }

    /** `__delete_value`: delete all of the user's rows; answers the cumulative `total_changes`. */
    method DeleteValue(u: string) returns (count: int)
      requires Valid()
      modifies this
      ensures Valid()
      ensures rows == DeleteWhere(old(rows), User(u))
      ensures totalChanges == old(totalChanges) + |Select(old(rows), User(u))|
      ensures count == totalChanges
    {
      DeleteUserRows(rows, u);
      FilterConsistent(rows, User(u), false);
      var kept := DeleteWhere(rows, User(u));
      totalChanges := totalChanges + (|rows| - |kept|);
      rows := kept;
      count := totalChanges;
    }

    /** `create_assistant`: the user's uuid, name, instructions, tool schema and assistant id. */
    method CreateAssistant(u: string, name: string, instructions: string, tools: string,
                           assistantId: string, uid: string) returns (item: Item)
      requires Valid()
      modifies this
      ensures Valid()
      ensures rows == AssistantWritten(old(rows), u, uid, name, instructions, tools, assistantId)
      ensures item == Item(u, AssistantKey, assistantId)
      ensures totalChanges == old(totalChanges) + AssistantChanges(old(rows), u, uid, name, instructions, tools, assistantId)
      ensures totalChanges >= old(totalChanges) + 5
    {
      var _ := Upsert(u, IdKey, uid);
      var _ := Upsert(u, NameKey, name);
      var _ := Upsert(u, InstructionsKey, instructions);
      var _ := Upsert(u, ToolsKey, tools);
      item := Upsert(u, AssistantKey, assistantId);
    }

    function GetUserId(u: string): (r: Option<Item>)
      reads this
      ensures r.None? <==> Select(rows, UserKey(u, IdKey)) == []
      ensures r.Some? ==> r.value in rows && r.value.username == u && r.value.key == IdKey
    {
      ReadValue(u, IdKey)
    }

    function GetAssistant(u: string): (r: Option<Item>)
      reads this
      ensures r.None? <==> Select(rows, UserKey(u, AssistantKey)) == []
      ensures r.Some? ==> r.value in rows && r.value.username == u && r.value.key == AssistantKey
    {
      ReadValue(u, AssistantKey)
    }

    function GetThread(u: string): (r: Option<Item>)
      reads this
      ensures r.None? <==> Select(rows, UserKey(u, ThreadKey)) == []
      ensures r.Some? ==> r.value in rows && r.value.username == u && r.value.key == ThreadKey
    {
      ReadValue(u, ThreadKey)
    }

    /** `create_thread`: the user's one thread id. */
    method CreateThread(u: string, threadId: string) returns (item: Item)
      requires Valid()
      modifies this
      ensures Valid()
      ensures rows == Upserted(old(rows), u, ThreadKey, threadId)
      ensures item == Item(u, ThreadKey, threadId)
      ensures GetThread(u) == Some(item)
      ensures totalChanges == old(totalChanges) + UpsertChanges(old(rows), u, ThreadKey, threadId)
    {
      item := Upsert(u, ThreadKey, threadId);
    }

    /**
     * `create_files`: one file record per `(name, id)` pair. An empty user
     * name or pair list writes nothing and answers `[]` (Some([])); otherwise
     * the function falls off its end and answers None.
     */
    method CreateFiles(u: string, pairs: seq<(string, string)>) returns (r: Option<seq<Item>>)
      requires Valid()
      modifies this
      ensures Valid()
      ensures u == "" || pairs == [] ==> r == Some([]) && rows == old(rows) && totalChanges == old(totalChanges)
      ensures u != "" && pairs != [] ==> r == None && rows == FilesAdded(old(rows), u, pairs)
      ensures u != "" && pairs != [] ==> totalChanges == old(totalChanges) + FilesAddedChanges(old(rows), u, pairs)
      ensures totalChanges >= old(totalChanges) + (if u == "" then 0 else |pairs|)
    {
      if u == "" {
        return Some([]);
      }
      if pairs == [] {
        return Some([]);
      }
      var i := 0;
      while i < |pairs|
        invariant 0 <= i <= |pairs|
        invariant Valid()
        invariant rows == FilesAdded(old(rows), u, pairs[..i])
        invariant totalChanges == old(totalChanges) + FilesAddedChanges(old(rows), u, pairs[..i])
      {
        var (name, id) := pairs[i];
        assert pairs[..i + 1][..i] == pairs[..i];
        var _ := Upsert(u, FileKey, FileRecord.Encode(name, id));
        i := i + 1;
      }
      assert pairs[..|pairs|] == pairs;
      FilesAddedChangesBound(old(rows), u, pairs);
      r := None;
    }

    /** `get_files`: the user's file records. */
    method GetFiles(u: string) returns (kv: seq<Item>)
      ensures kv == Select(rows, UserKey(u, FileKey))
    {
      kv := ReadValues(u, Some(FileKey));
    }

    /** `get_all`: every row of the user. */
    method GetAll(u: string) returns (kv: seq<Item>)
      ensures kv == Select(rows, User(u))
    {
      kv := ReadValues(u, None);
    }

    /** `del_user`. */
    method DelUser(u: string) returns (count: int)
      requires Valid()
      modifies this
      ensures Valid()
      ensures rows == DeleteWhere(old(rows), User(u))
      ensures count == old(totalChanges) + |Select(old(rows), User(u))|
      ensures Select(old(rows), User(u)) == [] ==> rows == old(rows) && count == old(totalChanges)
      ensures old(totalChanges) > 0 ==> count > 0
    {
      if Select(rows, User(u)) == [] {
        FilterMembers(rows, User(u), true);
        AllKept(rows, User(u));
      }
      count := DeleteValue(u);
    }
  }

  /** An upsert counts the rows its DELETE selected, plus the one it inserts. */
  lemma UpsertChangesCount(rows: seq<Item>, u: string, k: string, v: string)
    ensures UpsertChanges(rows, u, k, v) == |Select(rows, UpsertClears(u, k, v))| + 1
  {
    FilterPartition(rows, UpsertClears(u, k, v));
  }

  /** Every upsert of create_files counts at least its own insert. */
  lemma {:induction false} FilesAddedChangesBound(rows: seq<Item>, u: string, pairs: seq<(string, string)>)
    ensures FilesAddedChanges(rows, u, pairs) >= |pairs|
  {
    if pairs != [] {
      FilesAddedChangesBound(rows, u, pairs[..|pairs| - 1]);
    }
  }

  /** create_assistant does not touch the user's thread. */
  lemma AssistantKeepsThread(rows: seq<Item>, u: string, uid: string, name: string,
                             instructions: string, tools: string, assistantId: string)
    ensures Select(AssistantWritten(rows, u, uid, name, instructions, tools, assistantId), UserKey(u, ThreadKey))
         == Select(rows, UserKey(u, ThreadKey))
  {
    var w := UserKey(u, ThreadKey);
    var r1 := Upserted(rows, u, IdKey, uid);
    var r2 := Upserted(r1, u, NameKey, name);
    var r3 := Upserted(r2, u, InstructionsKey, instructions);
    var r4 := Upserted(r3, u, ToolsKey, tools);
    UpsertKeepsOthers(rows, u, IdKey, uid, w);
    UpsertKeepsOthers(r1, u, NameKey, name, w);
    UpsertKeepsOthers(r2, u, InstructionsKey, instructions, w);
    UpsertKeepsOthers(r3, u, ToolsKey, tools, w);
    UpsertKeepsOthers(r4, u, AssistantKey, assistantId, w);
  }

  lemma {:induction false} AllKept(rows: seq<Item>, w: Where)
    requires forall x :: x in rows ==> !Matches(w, x)
    ensures DeleteWhere(rows, w) == rows
  {
    if rows != [] {
      AllKept(rows[..|rows| - 1], w);
      assert rows[..|rows| - 1] + [rows[|rows| - 1]] == rows;
    }
  }
}
