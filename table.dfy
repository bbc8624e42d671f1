/** The tabular store as the scripts use it through pandas: a frame is a set
    of columns and a sequence of rows; a row maps column names to cell values,
    and a column missing from a row is a NaN cell. This module gives the pandas
    operations the scripts rely on: building a frame from a JSON dictionary,
    concatenation, and dropping rows whose "id" repeats an earlier row's. */
module Table {
  import opened Outcomes

  /** A JSON / cell value. JSON integers and floats are both numbers. */
  datatype Value = Null | Bool(b: bool) | Num(x: real) | Str(s: string) | List(items: seq<Value>)

  type Row = map<string, Value>

  /** No cell of the row is a list. */
  predicate Scalar(row: Row) {
    forall k :: k in row ==> !row[k].List?
  }

  lemma ScalarUnion(a: Row, b: Row)
    requires Scalar(a) && Scalar(b)
    ensures Scalar(a + b)
  {
  }

  datatype Frame = Frame(columns: set<string>, rows: seq<Row>)

  /** Every row only uses columns of its frame. */
  predicate WellFormed(f: Frame) {
    forall i :: 0 <= i < |f.rows| ==> f.rows[i].Keys <= f.columns
  }

  /** pd.DataFrame(): no columns, no rows. */
  const EmptyFrame := Frame({}, [])

  /** load_existing_dataframe: the stored frame, or an empty frame when the
      file does not exist. */
  function LoadExistingDataframe(existing: Option<Frame>): (f: Frame)
    ensures existing.Some? ==> f == existing.value
    ensures existing.None? ==> f.columns == {} && f.rows == []
  {
    if existing.Some? then existing.value else EmptyFrame
  }

  /** pd.concat([a, b], ignore_index=True): the rows of a then those of b,
      over the union of the columns. */
  function Concat(a: Frame, b: Frame): (r: Frame)
    ensures |r.rows| == |a.rows| + |b.rows|
    ensures r.rows[..|a.rows|] == a.rows && r.rows[|a.rows|..] == b.rows
    ensures r.columns == a.columns + b.columns
    ensures WellFormed(a) && WellFormed(b) ==> WellFormed(r)
  {
    Frame(a.columns + b.columns, a.rows + b.rows)
  }

  /** A one-row frame of a dictionary of scalars: pd.DataFrame([d]). */
  function SingleRow(d: Row): (r: Frame)
    ensures WellFormed(r) && |r.rows| == 1 && r.rows[0] == d
  {
    Frame(d.Keys, [d])
  }

  /** The dictionary comprehension of read_json_file: a scalar becomes a
      one-element list, a list stays as it is. */
  function Normalise(d: map<string, Value>): (cols: map<string, seq<Value>>)
    ensures cols.Keys == d.Keys
    ensures forall k :: k in d && !d[k].List? ==> cols[k] == [d[k]]
    ensures forall k :: k in d && d[k].List? ==> cols[k] == d[k].items
  {
    map k | k in d :: if d[k].List? then d[k].items else [d[k]]
  }

  /** Some two columns have different lengths. */
  predicate Ragged(cols: map<string, seq<Value>>) {
    exists a, b :: a in cols && b in cols && |cols[a]| != |cols[b]|
  }

  /** pd.DataFrame.from_dict on a dictionary of lists: row i takes element i
      of every list; lists of different lengths raise ValueError. */
  function FromDict(cols: map<string, seq<Value>>): (r: Result<Frame>)
    ensures r.Raised? <==> Ragged(cols)
    ensures r.Ok? ==> r.value.columns == cols.Keys && WellFormed(r.value)
    ensures r.Ok? ==> forall k :: k in cols ==> |cols[k]| == |r.value.rows|
    ensures r.Ok? ==> forall i, k :: 0 <= i < |r.value.rows| && k in cols ==>
                        k in r.value.rows[i] && r.value.rows[i][k] == cols[k][i]
  {
    if Ragged(cols) then Raised(ValueError("All arrays must be of the same length"))
    else if |cols| == 0 then Ok(EmptyFrame)
    else
      var lengths := set k | k in cols :: |cols[k]|;
      var n :| n in lengths;
      Ok(Frame(cols.Keys, seq(n, i requires 0 <= i < n => map k | k in cols :: cols[k][i])))
  }

  /** read_json_file applied to the object json.load returned. */
  function ReadJsonFile(obj: map<string, Value>): Result<Frame>
  {
    FromDict(Normalise(obj))
  }

  /** A dictionary of scalars that is written as JSON and read back with
      read_json_file comes back as a one-row frame holding that dictionary. */
  lemma ReadScalarRecord(obj: map<string, Value>)
    requires |obj| > 0 && Scalar(obj)
    ensures ReadJsonFile(obj) == Ok(SingleRow(obj))
  {
    var cols := Normalise(obj);
    assert !Ragged(cols);
    var r := FromDict(cols);
    var k :| k in obj;
    assert |r.value.rows| == |cols[k]| == 1;
    var row := r.value.rows[0];
    assert row.Keys == obj.Keys;
    assert forall c :: c in obj ==> row[c] == obj[c];
    assert row == obj;
    assert r.value.rows == [obj];
  }

  /** The deduplication key of a row: its "id" cell; NaN cells compare equal
      to each other, as drop_duplicates treats them. */
  function IdOf(row: Row): Option<Value> {
    if "id" in row then Some(row["id"]) else None
  }

  function Ids(rows: seq<Row>): set<Option<Value>> {
    if |rows| == 0 then {} else {IdOf(rows[0])} + Ids(rows[1..])
  }

  lemma {:induction false} IdsMember(rows: seq<Row>, x: Option<Value>)
    ensures x in Ids(rows) <==> exists i :: 0 <= i < |rows| && IdOf(rows[i]) == x
  {
    if |rows| > 0 {
      IdsMember(rows[1..], x);
      if x in Ids(rows[1..]) {
        var i :| 0 <= i < |rows| - 1 && IdOf(rows[1..][i]) == x;
        assert IdOf(rows[i + 1]) == x;
      }
      if exists i :: 0 <= i < |rows| && IdOf(rows[i]) == x {
        var i :| 0 <= i < |rows| && IdOf(rows[i]) == x;
        if i > 0 {
          assert IdOf(rows[1..][i - 1]) == x;
        }
      }
    }
  }

  lemma {:induction false} IdsAppend(xs: seq<Row>, ys: seq<Row>)
    ensures Ids(xs + ys) == Ids(xs) + Ids(ys)
  {
    if |xs| > 0 {
      assert (xs + ys)[1..] == xs[1..] + ys;
      IdsAppend(xs[1..], ys);
    } else {
      assert xs + ys == ys;
    }
  }

  /** No two rows share an id. */
  predicate DistinctIds(rows: seq<Row>) {
    forall i, j :: 0 <= i < j < |rows| ==> IdOf(rows[i]) != IdOf(rows[j])
  }

  /** The rows of `rows` whose id is not in `seen` and not on an earlier row. */
  function DedupFrom(rows: seq<Row>, seen: set<Option<Value>>): seq<Row>
  {
    if |rows| == 0 then []
    else if IdOf(rows[0]) in seen then DedupFrom(rows[1..], seen)
    else [rows[0]] + DedupFrom(rows[1..], seen + {IdOf(rows[0])})
  }

  /** Deduplication keeps exactly the ids not already seen. */
  lemma {:induction false} DedupIds(rows: seq<Row>, seen: set<Option<Value>>)
    ensures Ids(DedupFrom(rows, seen)) == Ids(rows) - seen
  {
    if |rows| > 0 {
      var x := IdOf(rows[0]);
      if x in seen {
        DedupIds(rows[1..], seen);
      } else {
        DedupIds(rows[1..], seen + {x});
        var out := DedupFrom(rows, seen);
        assert out[1..] == DedupFrom(rows[1..], seen + {x});
      }
    }
  }

  /** Deduplication leaves no two rows with the same id. */
  lemma {:induction false} DedupDistinct(rows: seq<Row>, seen: set<Option<Value>>)
    ensures DistinctIds(DedupFrom(rows, seen))
  {
    if |rows| > 0 {
      var x := IdOf(rows[0]);
      if x in seen {
        DedupDistinct(rows[1..], seen);
      } else {
        var tail := DedupFrom(rows[1..], seen + {x});
        DedupDistinct(rows[1..], seen + {x});
        DedupIds(rows[1..], seen + {x});
        var out := [rows[0]] + tail;
        forall i, j | 0 <= i < j < |out| ensures IdOf(out[i]) != IdOf(out[j]) {
          if i == 0 {
            IdsMember(tail, IdOf(tail[j - 1]));
            assert out[j] == tail[j - 1];
          } else {
            assert out[i] == tail[i - 1] && out[j] == tail[j - 1];
          }
        }
      }
    }
  }

  /** The row kept for each id is the first row carrying it. */
  predicate FirstWithId(rows: seq<Row>, i: int)
    requires 0 <= i < |rows|
  {
    forall e :: 0 <= e < i ==> IdOf(rows[e]) != IdOf(rows[i])
  }

  /** Row r is the first row of `rows` with its id, and that id is unseen. */
  predicate KeptFirst(rows: seq<Row>, seen: set<Option<Value>>, r: Row) {
    exists i :: 0 <= i < |rows| && rows[i] == r && IdOf(r) !in seen && FirstWithId(rows, i)
  }

  /** Every kept row is the first row of the input with its id. */
  lemma {:induction false} DedupKeepsFirst(rows: seq<Row>, seen: set<Option<Value>>)
    ensures forall j :: 0 <= j < |DedupFrom(rows, seen)| ==> KeptFirst(rows, seen, DedupFrom(rows, seen)[j])
  {
    if |rows| > 0 {
      var x := IdOf(rows[0]);
      var seen' := if x in seen then seen else seen + {x};
      var tail := DedupFrom(rows[1..], seen');
      DedupKeepsFirst(rows[1..], seen');
      var out := DedupFrom(rows, seen);
      assert out == if x in seen then tail else [rows[0]] + tail;
      forall j | 0 <= j < |out| ensures KeptFirst(rows, seen, out[j]) {
        if x !in seen && j == 0 {
          assert rows[0] == out[0] && FirstWithId(rows, 0);
        } else {
          var jt := if x in seen then j else j - 1;
          assert out[j] == tail[jt];
          assert KeptFirst(rows[1..], seen', tail[jt]);
          var it :| 0 <= it < |rows| - 1 && rows[1..][it] == tail[jt] &&
                    IdOf(tail[jt]) !in seen' && FirstWithId(rows[1..], it);
          var i := it + 1;
          assert rows[i] == out[j];
          forall e | 0 <= e < i ensures IdOf(rows[e]) != IdOf(rows[i]) {
            if e > 0 {
              assert rows[e] == rows[1..][e - 1];
            }
          }
          assert FirstWithId(rows, i);
        }
      }
    }
  }

  /** Deduplicating a concatenation: the first part is deduplicated on its
      own, then the second part skips every id the first part carried. */
  lemma {:induction false} DedupAppend(xs: seq<Row>, ys: seq<Row>, seen: set<Option<Value>>)
    ensures DedupFrom(xs + ys, seen) == DedupFrom(xs, seen) + DedupFrom(ys, seen + Ids(xs))
  {
    if |xs| == 0 {
      assert xs + ys == ys;
      assert seen + Ids(xs) == seen;
    } else {
      var x := IdOf(xs[0]);
      assert (xs + ys)[0] == xs[0];
      assert (xs + ys)[1..] == xs[1..] + ys;
      if x in seen {
        DedupAppend(xs[1..], ys, seen);
        assert seen + Ids(xs[1..]) == seen + Ids(xs);
      } else {
        DedupAppend(xs[1..], ys, seen + {x});
        assert seen + {x} + Ids(xs[1..]) == seen + Ids(xs);
      }
    }
  }

  /** Rows whose ids were all seen before are all dropped. */
  lemma {:induction false} DedupAllSeen(rows: seq<Row>, seen: set<Option<Value>>)
    requires Ids(rows) <= seen
    ensures DedupFrom(rows, seen) == []
  {
    if |rows| > 0 {
      DedupAllSeen(rows[1..], seen);
    }
  }

  /** Rows with distinct, unseen ids pass through unchanged. */
  lemma {:induction false} DedupDistinctUnchanged(rows: seq<Row>, seen: set<Option<Value>>)
    requires DistinctIds(rows) && Ids(rows) !! seen
    ensures DedupFrom(rows, seen) == rows
  {
    if |rows| > 0 {
      var x := IdOf(rows[0]);
      assert x in Ids(rows);
      assert DistinctIds(rows[1..]) by {
        forall i, j | 0 <= i < j < |rows| - 1 ensures IdOf(rows[1..][i]) != IdOf(rows[1..][j]) {
          assert rows[1..][i] == rows[i + 1] && rows[1..][j] == rows[j + 1];
        }
      }
      assert x !in Ids(rows[1..]) by {
        forall i | 0 <= i < |rows| - 1 ensures IdOf(rows[1..][i]) != x {
          assert rows[1..][i] == rows[i + 1];
        }
        IdsMember(rows[1..], x);
      }
      DedupDistinctUnchanged(rows[1..], seen + {x});
    }
  }

  /** Deduplicating twice is deduplicating once. */
  lemma DedupIdempotent(rows: seq<Row>)
    ensures DedupFrom(DedupFrom(rows, {}), {}) == DedupFrom(rows, {})
  {
    DedupDistinct(rows, {});
    DedupDistinctUnchanged(DedupFrom(rows, {}), {});
  }

  /** Appending rows whose ids all occur already changes nothing once
      duplicates are dropped. */
  lemma DedupAbsorbs(xs: seq<Row>, ys: seq<Row>)
    requires Ids(ys) <= Ids(xs)
    ensures DedupFrom(xs + ys, {}) == DedupFrom(xs, {})
  {
    DedupAppend(xs, ys, {});
    DedupAllSeen(ys, {} + Ids(xs));
  }

  /** The rows whose id does not occur on an earlier row, in their order. */
  function FirstOccurrences(rows: seq<Row>): seq<Row> {
    if |rows| == 0 then []
    else
      var pre := rows[..|rows| - 1];
      FirstOccurrences(pre) + (if IdOf(rows[|rows| - 1]) in Ids(pre) then [] else [rows[|rows| - 1]])
  }

  /** Deduplicating from the front keeps exactly the first occurrences. */
  lemma {:induction false} DedupFirstOccurrences(rows: seq<Row>)
    ensures DedupFrom(rows, {}) == FirstOccurrences(rows)
  {
    if |rows| > 0 {
      var pre, last := rows[..|rows| - 1], rows[|rows| - 1];
      assert rows == pre + [last];
      DedupFirstOccurrences(pre);
      DedupAppend(pre, [last], {});
      assert [last][1..] == [];
    }
  }

  /** A row that shares its id with no other row survives deduplication. */
  lemma DedupKeepsUnique(rows: seq<Row>, r: Row)
    requires r in rows
    requires forall y :: y in rows && IdOf(y) == IdOf(r) ==> y == r
    ensures r in DedupFrom(rows, {})
  {
    var out := DedupFrom(rows, {});
    DedupIds(rows, {});
    IdsMember(rows, IdOf(r));
    IdsMember(out, IdOf(r));
    var k :| 0 <= k < |out| && IdOf(out[k]) == IdOf(r);
    DedupKeepsFirst(rows, {});
    assert KeptFirst(rows, {}, out[k]);
  }

  /** A frame with no rows or no columns; pandas returns a copy of it from
      drop_duplicates before looking at the subset. */
  predicate Empty(f: Frame) {
    |f.rows| == 0 || f.columns == {}
  }

  /** frame.drop_duplicates(subset=["id"]): an empty frame comes back as it
      is; otherwise KeyError when there is no "id" column, and the first row
      of every id, in their original order, when there is one. */
  function DropDuplicatesById(f: Frame): (r: Result<Frame>)
    ensures Empty(f) ==> r == Ok(f)
    ensures r.Raised? <==> !Empty(f) && "id" !in f.columns
    ensures r.Ok? ==> r.value.columns == f.columns && Ids(r.value.rows) == Ids(f.rows)
    ensures r.Ok? && f.columns != {} ==> r.value.rows == FirstOccurrences(f.rows)
    ensures r.Ok? && f.columns != {} ==> DistinctIds(r.value.rows)
    ensures r.Ok? && f.columns != {} ==> forall j :: 0 <= j < |r.value.rows| ==> KeptFirst(f.rows, {}, r.value.rows[j])
  {
    if "id" in f.columns then
      DedupDistinct(f.rows, {});
      DedupIds(f.rows, {});
      DedupKeepsFirst(f.rows, {});
      DedupFirstOccurrences(f.rows);
      Ok(Frame(f.columns, DedupFrom(f.rows, {})))
    else if Empty(f) then Ok(f)
    else Raised(KeyError("id"))
  }

  /** drop_duplicates keeps every row whose id no other row carries. */
  lemma DropKeepsUnique(f: Frame, r: Row)
    requires DropDuplicatesById(f).Ok?
    requires r in f.rows
    requires forall y :: y in f.rows && IdOf(y) == IdOf(r) ==> y == r
    ensures r in DropDuplicatesById(f).value.rows
  {
    if "id" in f.columns {
      DedupKeepsUnique(f.rows, r);
    }
  }
}
