/** What the embedded database does for a table whose primary key is a string
    id: rows are a map from key to row, a `WHERE` scan visits each row once,
    and an insert with `OnConflictStrategy.REPLACE` overwrites the row with the
    same key. */
module Tables {

  /** Every row is stored under its own primary key. */
  ghost predicate KeyedBy<T>(rows: map<string, T>, id: T -> string) {
    forall k :: k in rows ==> id(rows[k]) == k
  }

  /** A `WHERE keep(row)` scan: every matching row exactly once, in no particular order. */
  method Select<T(==)>(rows: map<string, T>, id: T -> string, keep: T -> bool) returns (r: seq<T>)
    requires KeyedBy(rows, id)
    ensures forall a :: multiset(r)[a] == if a in rows.Values && keep(a) then 1 else 0
  {
    var keys := rows.Keys;
    r := [];
    while keys != {}
      invariant keys <= rows.Keys
      invariant forall a :: multiset(r)[a] == if a in rows.Values && id(a) !in keys && keep(a) then 1 else 0
      decreases |keys|
    {
      var k :| k in keys;
      var row := rows[k];
      forall a | a in rows.Values && id(a) == k ensures a == row {
        var k' :| k' in rows && rows[k'] == a;
      }
      if keep(row) {
        r := r + [row];
      }
      keys := keys - {k};
    }
  }

  /** Inserting the rows of `s` one after the other, each replacing any row with its key. */
  function InsertAll<T>(rows: map<string, T>, s: seq<T>, id: T -> string): map<string, T>
    decreases s
  {
    if s == [] then rows else InsertAll(rows[id(s[0]) := s[0]], s[1..], id)
  }

  lemma {:induction false} InsertAllKeyed<T>(rows: map<string, T>, s: seq<T>, id: T -> string)
    requires KeyedBy(rows, id)
    ensures KeyedBy(InsertAll(rows, s, id), id)
    decreases s
  {
    if s != [] {
      InsertAllKeyed(rows[id(s[0]) := s[0]], s[1..], id);
    }
  }

  /** The inserted rows overlay the table: old rows with other keys stay as they were. */
  lemma {:induction false} InsertAllOverlay<T>(rows: map<string, T>, s: seq<T>, id: T -> string)
    ensures InsertAll(rows, s, id) == rows + InsertAll(map[], s, id)
    decreases s
  {
    if s != [] {
      var x := s[0];
      InsertAllOverlay(rows[id(x) := x], s[1..], id);
      InsertAllOverlay(map[id(x) := x], s[1..], id);
      assert rows[id(x) := x] == rows + map[id(x) := x];
      var rest := InsertAll(map[], s[1..], id);
      assert (rows + map[id(x) := x]) + rest == rows + (map[id(x) := x] + rest);
    }
  }

  /** Inserting the same rows a second time changes nothing. */
  lemma InsertAllIdempotent<T>(rows: map<string, T>, s: seq<T>, id: T -> string)
    ensures InsertAll(InsertAll(rows, s, id), s, id) == InsertAll(rows, s, id)
  {
    var x := InsertAll(map[], s, id);
    InsertAllOverlay(rows, s, id);
    InsertAllOverlay(rows + x, s, id);
    assert (rows + x) + x == rows + x;
  }

  /** When the inserted rows have distinct keys, each of them ends up in the table as given. */
  lemma {:induction false} InsertAllDistinct<T>(rows: map<string, T>, s: seq<T>, id: T -> string)
    requires forall i, j :: 0 <= i < j < |s| ==> id(s[i]) != id(s[j])
    ensures InsertAll(rows, s, id).Keys == rows.Keys + set i | 0 <= i < |s| :: id(s[i])
    ensures forall i :: 0 <= i < |s| ==> InsertAll(rows, s, id)[id(s[i])] == s[i]
    ensures forall k :: k in rows && (forall i :: 0 <= i < |s| ==> id(s[i]) != k) ==> InsertAll(rows, s, id)[k] == rows[k]
    decreases s
  {
    if s != [] {
      var rows' := rows[id(s[0]) := s[0]];
      var r := InsertAll(rows', s[1..], id);
      InsertAllDistinct(rows', s[1..], id);
      assert (set i | 0 <= i < |s| :: id(s[i])) == {id(s[0])} + set i | 0 <= i < |s[1..]| :: id(s[1..][i]) by {
        forall i | 0 < i < |s| ensures id(s[i]) in set j | 0 <= j < |s[1..]| :: id(s[1..][j]) {
          assert id(s[1..][i - 1]) == id(s[i]);
        }
      }
      forall i | 0 <= i < |s| ensures r[id(s[i])] == s[i] {
        if i > 0 {
          assert s[i] == s[1..][i - 1];
        } else {
          assert forall j :: 0 <= j < |s[1..]| ==> id(s[1..][j]) != id(s[0]) by {
            forall j | 0 <= j < |s[1..]| ensures id(s[1..][j]) != id(s[0]) {
              assert s[1..][j] == s[j + 1];
            }
          }
        }
      }
      forall k | k in rows && (forall i :: 0 <= i < |s| ==> id(s[i]) != k) ensures r[k] == rows[k] {
        assert id(s[0]) != k;
        assert forall j :: 0 <= j < |s[1..]| ==> id(s[1..][j]) != k by {
          forall j | 0 <= j < |s[1..]| ensures id(s[1..][j]) != k {
            assert s[1..][j] == s[j + 1];
          }
        }
      }
    }
  }
}
