/**
 * The query model layer of src/lib.rs (module `model`): fetched rows filtered
 * by the first character of `col1` and projected to that column.
 */
module Model {
  import opened Wrappers
  import opened Records

  /** The model layer's error: a wrapped data-source error. */
  datatype ModelError<E> = DatasourceError(cause: E)

  /** Rust's `str::starts_with(char)`: the string is non-empty and its first character is `c` (no case folding). */
  predicate StartsWith(s: string, c: char)
    ensures StartsWith(s, c) <==> [c] <= s
    ensures s == [] ==> !StartsWith(s, c)
  {
    |s| > 0 && s[0] == c
  }

  /** The `col1` of every row whose `col1` starts with `c`, in fetch order. */
  function KeepStartingWith(rows: seq<TR>, c: char): (out: seq<string>)
    ensures |out| <= |rows|
    ensures forall k :: 0 <= k < |out| ==> StartsWith(out[k], c)
  {
    if rows == [] then []
    else
      var last := rows[|rows| - 1];
      KeepStartingWith(rows[..|rows| - 1], c) + if StartsWith(last.col1, c) then [last.col1] else []
  }

  /**
   * `model::get_datas_start_with_char` after the fetch: a fetch error is
   * wrapped as `DatasourceError` with no partial result; otherwise the
   * filtered projection.
   */
  function GetDatasStartWithChar<E>(fetched: Result<seq<TR>, E>, c: char): (r: Result<seq<string>, ModelError<E>>)
    ensures fetched.Err? <==> r.Err?
    ensures fetched.Err? ==> r == Err(DatasourceError(fetched.error))
    ensures fetched.Ok? ==> r == Ok(KeepStartingWith(fetched.value, c))
  {
    match fetched
    case Err(e) => Err(DatasourceError(e))
    case Ok(rows) => Ok(KeepStartingWith(rows, c))
  }

  /** The filter distributes over concatenation of the fetched rows. */
  lemma {:induction false} KeepStartingWithAppend(a: seq<TR>, b: seq<TR>, c: char)
    ensures KeepStartingWith(a + b, c) == KeepStartingWith(a, c) + KeepStartingWith(b, c)
  {
    if b == [] {
      assert a + b == a;
    } else {
      assert (a + b)[..|a + b| - 1] == a + b[..|b| - 1];
      KeepStartingWithAppend(a, b[..|b| - 1], c);
    }
  }

  /** On a single row the filter keeps `col1` exactly when it starts with `c`. */
  lemma KeepStartingWithSingle(row: TR, c: char)
    ensures KeepStartingWith([row], c) == if StartsWith(row.col1, c) then [row.col1] else []
  {
  }

  /**
   * The output is the `col1` of exactly those rows that start with `c`, in
   * their original order: `idx` lists the kept positions in increasing
   * order, and every position not listed fails the test.
   */
  lemma {:induction false} KeepStartingWithSelects(rows: seq<TR>, c: char) returns (idx: seq<nat>)
    ensures |idx| == |KeepStartingWith(rows, c)|
    ensures forall k :: 0 <= k < |idx| ==> idx[k] < |rows| && KeepStartingWith(rows, c)[k] == rows[idx[k]].col1
    ensures forall k, l :: 0 <= k < l < |idx| ==> idx[k] < idx[l]
    ensures forall i :: 0 <= i < |rows| ==> (i in idx <==> StartsWith(rows[i].col1, c))
  {
    if rows == [] {
      idx := [];
      return;
    }
    var n := |rows| - 1;
    var init := rows[..n];
    var prev := KeepStartingWithSelects(init, c);
    assert forall i :: 0 <= i < n ==> init[i] == rows[i];
    var out, before := KeepStartingWith(rows, c), KeepStartingWith(init, c);
    if StartsWith(rows[n].col1, c) {
      idx := prev + [n];
      assert out == before + [rows[n].col1];
    } else {
      idx := prev;
      assert out == before;
      assert n !in idx;
    }
  }

  /** Every row is either kept, and then starts with `c`, or dropped; so a fresh `c` keeps nothing. */
  lemma {:induction false} NoMatchKeepsNothing(rows: seq<TR>, c: char)
    requires forall i :: 0 <= i < |rows| ==> !StartsWith(rows[i].col1, c)
    ensures KeepStartingWith(rows, c) == []
  {
    if rows != [] {
      NoMatchKeepsNothing(rows[..|rows| - 1], c);
    }
  }

  /** When every row starts with `c` the filter returns every `col1`, in order. */
  lemma {:induction false} AllMatchKeepsAll(rows: seq<TR>, c: char)
    requires forall i :: 0 <= i < |rows| ==> StartsWith(rows[i].col1, c)
    ensures |KeepStartingWith(rows, c)| == |rows|
    ensures forall i :: 0 <= i < |rows| ==> KeepStartingWith(rows, c)[i] == rows[i].col1
  {
    if rows != [] {
      AllMatchKeepsAll(rows[..|rows| - 1], c);
    }
  }

  /** The mocked rows of the source's `test_mock`: only lower-case `c` words are kept; "California" is not. */
  lemma MockedValuesScenario()
    ensures GetDatasStartWithChar<string>(
              Ok([TR(0, "cornflour"), TR(1, "Delta"), TR(2, "California"), TR(3, "elegant"), TR(4, "creatures")]), 'c')
            == Ok(["cornflour", "creatures"])
  {
    var rows := [TR(0, "cornflour"), TR(1, "Delta"), TR(2, "California"), TR(3, "elegant"), TR(4, "creatures")];
    assert rows[..0] == [];
    assert rows[..1][..0] == rows[..0];
    assert rows[..2][..1] == rows[..1];
    assert rows[..3][..2] == rows[..2];
    assert rows[..4][..3] == rows[..3];
    assert rows[..4] == rows[..|rows| - 1];
    assert KeepStartingWith(rows[..1], 'c') == ["cornflour"];
    assert KeepStartingWith(rows[..2], 'c') == ["cornflour"];
    assert KeepStartingWith(rows[..3], 'c') == ["cornflour"];
    assert KeepStartingWith(rows[..4], 'c') == ["cornflour"];
    assert KeepStartingWith(rows, 'c') == ["cornflour"] + ["creatures"] == ["cornflour", "creatures"];
    assert GetDatasStartWithChar<string>(Ok(rows), 'c') == Ok(KeepStartingWith(rows, 'c'));
  }

  /** The source's `test_mock_error`: a fetch error comes back wrapped, unchanged. */
  lemma FetchErrorScenario<E>(e: E, c: char)
    ensures GetDatasStartWithChar<E>(Err(e), c) == Err(DatasourceError(e))
  {
  }
}
