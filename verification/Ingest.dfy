// What the server's table keeps of the rows it is given: one row for each key, and of
// several with the same key the one that came first.
module Ingest {
  ghost predicate HasKey<Row, Key>(rows: seq<Row>, key: Row -> Key, k: Key) {
    exists i :: 0 <= i < |rows| && key(rows[i]) == k
  }

  // INSERT OR IGNORE of one row after the other.
  ghost function Inserted<Row, Key>(table: seq<Row>, rows: seq<Row>, key: Row -> Key): seq<Row> {
    if rows == [] then table
    else
      var before, last := Inserted(table, rows[..|rows| - 1], key), rows[|rows| - 1];
      if HasKey(before, key, key(last)) then before else before + [last]
  }

  // What a table that was empty keeps.
  ghost function Kept<Row, Key>(rows: seq<Row>, key: Row -> Key): seq<Row> {
    Inserted([], rows, key)
  }

  class Table<Row, Key(==)> {
    const key: Row -> Key
    var rows: seq<Row>

    constructor (key: Row -> Key)
      ensures this.key == key && rows == []
    {
      this.key := key;
      rows := [];
    }

    // Returns how many rows were new.
    method Insert(batch: seq<Row>) returns (added: nat)
      modifies this
      ensures rows == Inserted(old(rows), batch, key)
      ensures |rows| == |old(rows)| + added
    {
      added := 0;
      for i := 0 to |batch|
        invariant rows == Inserted(old(rows), batch[..i], key) && |rows| == |old(rows)| + added
      {
        assert batch[..i + 1][..i] == batch[..i];
        var known := Known(batch[i]);
        if !known {
          rows := rows + [batch[i]];
          added := added + 1;
        }
      }
      assert batch[..|batch|] == batch;
    }

    method Known(row: Row) returns (known: bool)
      ensures known == HasKey(rows, key, key(row))
    {
      known := false;
      for i := 0 to |rows|
        invariant known == HasKey(rows[..i], key, key(row))
      {
        KeySnoc(rows[..i], rows[i], key, key(row));
        assert rows[..i + 1] == rows[..i] + [rows[i]];
        known := known || key(rows[i]) == key(row);
      }
      assert rows[..|rows|] == rows;
    }
  }

  lemma KeySnoc<Row, Key>(rows: seq<Row>, last: Row, key: Row -> Key, k: Key)
    ensures HasKey(rows + [last], key, k) <==> HasKey(rows, key, k) || key(last) == k
  {
    assert (rows + [last])[|rows|] == last;
    if i :| 0 <= i < |rows| && key(rows[i]) == k {
      assert (rows + [last])[i] == rows[i];
    }
  }

  lemma InsertedSnoc<Row, Key>(table: seq<Row>, rows: seq<Row>, last: Row, key: Row -> Key)
    ensures
      var before := Inserted(table, rows, key);
      Inserted(table, rows + [last], key) == if HasKey(before, key, key(last)) then before else before + [last]
  {
    assert (rows + [last])[..|rows|] == rows;
  }

  lemma KeptOfTwo<Row, Key>(a: Row, b: Row, key: Row -> Key)
    ensures Kept([a] + [b], key) == if key(a) == key(b) then [a] else [a] + [b]
  {
    var none: seq<Row> := [];
    InsertedSnoc(none, none, a, key);
    InsertedSnoc(none, [a], b, key);
    KeySnoc(none, a, key, key(b));
    assert none + [a] == [a] && !HasKey(none, key, key(a)) && !HasKey(none, key, key(b));
  }

  // However what is given is cut into batches, the table is the same.
  lemma {:induction false} BatchesDoNotMatter<Row, Key>(table: seq<Row>, a: seq<Row>, b: seq<Row>, key: Row -> Key)
    ensures Inserted(table, a + b, key) == Inserted(Inserted(table, a, key), b, key)
  {
    if b == [] {
      assert a + b == a;
    } else {
      var init, last := b[..|b| - 1], b[|b| - 1];
      BatchesDoNotMatter(table, a, init, key);
      assert a + b == a + init + [last];
      InsertedSnoc(table, a + init, last, key);
    }
  }

  // The table has the keys it was given, and no others.
  lemma {:induction false} KeptHasEveryKey<Row, Key>(rows: seq<Row>, key: Row -> Key, k: Key)
    ensures HasKey(Kept(rows, key), key, k) <==> HasKey(rows, key, k)
  {
    if rows != [] {
      var init, last := rows[..|rows| - 1], rows[|rows| - 1];
      hide HasKey;
      KeptHasEveryKey(init, key, k);
      assert init + [last] == rows;
      KeySnoc(init, last, key, k);
      KeySnoc(Kept(init, key), last, key, k);
      if HasKey(Kept(init, key), key, key(last)) && key(last) == k {
        assert HasKey(Kept(init, key), key, k);
      }
    }
  }

  ghost predicate DistinctKeys<Row, Key>(rows: seq<Row>, key: Row -> Key) {
    forall i, j :: 0 <= i < j < |rows| ==> key(rows[i]) != key(rows[j])
  }

  // And each of them once.
  lemma {:induction false} KeptKeysAreDistinct<Row, Key>(rows: seq<Row>, key: Row -> Key)
    ensures DistinctKeys(Kept(rows, key), key)
  {
    if rows != [] {
      var before, last := Kept(rows[..|rows| - 1], key), rows[|rows| - 1];
      KeptKeysAreDistinct(rows[..|rows| - 1], key);
      if !HasKey(before, key, key(last)) {
        assert forall i :: 0 <= i < |before| ==> key(before[i]) != key(last);
      }
    }
  }

  ghost predicate IsFirst<Row, Key>(rows: seq<Row>, key: Row -> Key, i: nat)
    requires i < |rows|
  {
    forall j :: 0 <= j < i ==> key(rows[j]) != key(rows[i])
  }

  ghost predicate ComesFirst<Row, Key>(rows: seq<Row>, key: Row -> Key, r: Row) {
    exists i :: 0 <= i < |rows| && rows[i] == r && IsFirst(rows, key, i)
  }

  // A row is kept if and only if it was given before any other with its key.
  lemma {:induction false} KeptIsFirst<Row, Key>(rows: seq<Row>, key: Row -> Key, r: Row)
    ensures r in Kept(rows, key) <==> ComesFirst(rows, key, r)
  {
    if rows != [] {
      var init, last := rows[..|rows| - 1], rows[|rows| - 1];
      KeptIsFirst(init, key, r);
      KeptHasEveryKey(init, key, key(last));
      FirstSnoc(rows, key, r);
    }
  }

  // A row with the same key that was given before.
  ghost predicate Taken<Row, Key>(rows: seq<Row>, key: Row -> Key, r: Row) {
    exists i :: 0 <= i < |rows| && key(rows[i]) == key(r) && rows[i] != r && r !in rows[..i]
  }

  lemma FirstPlace<Row>(rows: seq<Row>, r: Row) returns (i: nat)
    requires r in rows
    ensures i < |rows| && rows[i] == r && r !in rows[..i]
  {
    i := 0;
    while rows[i] != r
      invariant i < |rows| && r !in rows[..i]
      decreases |rows| - i
    {
      assert rows[..i + 1] == rows[..i] + [rows[i]];
      assert r in rows[i + 1..];
      i := i + 1;
    }
  }

  // What was given is kept, unless its key was taken.
  lemma KeptUnlessTaken<Row, Key>(rows: seq<Row>, key: Row -> Key, r: Row)
    requires r in rows
    ensures r in Kept(rows, key) <==> !Taken(rows, key, r)
  {
    KeptIsFirst(rows, key, r);
    if !Taken(rows, key, r) {
      var i := FirstPlace(rows, r);
      forall j | 0 <= j < i
        ensures key(rows[j]) != key(rows[i])
      {
        assert rows[j] in rows[..i] && forall l :: 0 <= l < j ==> rows[..j][l] == rows[..i][l];
      }
      assert IsFirst(rows, key, i);
    } else {
      var j :| 0 <= j < |rows| && key(rows[j]) == key(r) && rows[j] != r && r !in rows[..j];
      assert forall i :: 0 <= i < j ==> rows[i] in rows[..j];
      assert forall i :: 0 <= i < |rows| && rows[i] == r ==> !IsFirst(rows, key, i);
    }
  }

  // Only rows that were given are kept.
  lemma KeptWasGiven<Row, Key>(rows: seq<Row>, key: Row -> Key, r: Row)
    ensures r in Kept(rows, key) ==> r in rows
  {
    KeptIsFirst(rows, key, r);
  }

  lemma FirstSnoc<Row, Key>(rows: seq<Row>, key: Row -> Key, r: Row)
    requires rows != []
    ensures
      var init, last := rows[..|rows| - 1], rows[|rows| - 1];
      ComesFirst(rows, key, r) <==> ComesFirst(init, key, r) || (last == r && !HasKey(init, key, key(last)))
  {
    var init := rows[..|rows| - 1];
    assert forall i :: 0 <= i < |init| ==> init[i] == rows[i];
    assert forall i :: 0 <= i < |init| ==> IsFirst(init, key, i) == IsFirst(rows, key, i);
  }
}
