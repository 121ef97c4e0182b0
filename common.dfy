/** Shared vocabulary of the listing model: the two exception kinds the addon
    raises, outcome and result types standing for "returned" versus "raised",
    and the counting query (`search(..., count=True)`) that the uniqueness
    checks of offers, tags and types are built on. */
module Common {

  /** The two exception classes the addon raises. */
  datatype ErrorKind = ValidationError | UserError

  /** What an action that returns nothing ends with. */
  datatype Outcome = Success | Failure(error: ErrorKind)

  /** What a create ends with: the new record's id, or the error it raised. */
  datatype Result<T> = Ok(value: T) | Err(error: ErrorKind)

  datatype Option<T> = None | Some(value: T)

  /** Every id of a record set names a record of a table with `n` rows. */
  predicate ValidIds(ids: seq<nat>, n: nat)
  {
    forall k :: 0 <= k < |ids| ==> ids[k] < n
  }

  /** How many rows of a column equal `x`: the count a
      `search([(field, '=', x)], count=True)` returns. */
  function Occurrences<T(==)>(s: seq<T>, x: T): nat
  {
    if s == [] then 0 else (if s[0] == x then 1 else 0) + Occurrences(s[1..], x)
  }

  /** No value occurs twice in the column. */
  predicate Distinct<T(==)>(s: seq<T>)
  {
    forall i, j :: 0 <= i < j < |s| ==> s[i] != s[j]
  }

  /** The count is zero exactly when the value is absent. */
  lemma {:induction false} OccurrencesZero<T>(s: seq<T>, x: T)
    ensures Occurrences(s, x) == 0 <==> x !in s
  {
    if s != [] {
      OccurrencesZero(s[1..], x);
      assert s == [s[0]] + s[1..];
    }
  }

  /** Appending one row adds one to the count of its own value only. */
  lemma {:induction false} OccurrencesAppend<T>(s: seq<T>, y: T, x: T)
    ensures Occurrences(s + [y], x) == Occurrences(s, x) + (if y == x then 1 else 0)
  {
    if s == [] {
      assert [y][1..] == [];
    } else {
      assert (s + [y])[1..] == s[1..] + [y];
      OccurrencesAppend(s[1..], y, x);
    }
  }

  /** A value at two different positions is counted at least twice. */
  lemma {:induction false} OccurrencesTwice<T>(s: seq<T>, i: nat, j: nat)
    requires i < j < |s| && s[i] == s[j]
    ensures Occurrences(s, s[i]) >= 2
  {
    if i == 0 {
      OccurrencesZero(s[1..], s[i]);
      assert s[1..][j - 1] == s[j];
    } else {
      OccurrencesTwice(s[1..], i - 1, j - 1);
    }
  }

  /** In a column without duplicates every stored value is counted once. */
  lemma {:induction false} DistinctOnce<T>(s: seq<T>, k: nat)
    requires Distinct(s) && k < |s|
    ensures Occurrences(s, s[k]) == 1
  {
    if k == 0 {
      OccurrencesZero(s[1..], s[0]);
      assert s[0] !in s[1..] by {
        forall j | 0 <= j < |s[1..]| ensures s[1..][j] != s[0] {
          assert s[1..][j] == s[j + 1];
        }
      }
    } else {
      assert Distinct(s[1..]) by {
        forall i, j | 0 <= i < j < |s[1..]| ensures s[1..][i] != s[1..][j] {
          assert s[1..][i] == s[i + 1] && s[1..][j] == s[j + 1];
        }
      }
      assert s[1..][k - 1] == s[k];
      DistinctOnce(s[1..], k - 1);
    }
  }

  /** A column is duplicate-free exactly when every stored value is counted once. */
  lemma DistinctIffCountedOnce<T>(s: seq<T>)
    ensures Distinct(s) <==> forall k :: 0 <= k < |s| ==> Occurrences(s, s[k]) == 1
  {
    if Distinct(s) {
      forall k | 0 <= k < |s| ensures Occurrences(s, s[k]) == 1 {
        DistinctOnce(s, k);
      }
    } else {
      var i, j :| 0 <= i < j < |s| && s[i] == s[j];
      OccurrencesTwice(s, i, j);
    }
  }

  /** A check-then-insert that found a zero count keeps the column duplicate-free. */
  lemma InsertKeepsDistinct<T>(s: seq<T>, x: T)
    requires Distinct(s) && Occurrences(s, x) == 0
    ensures Distinct(s + [x])
  {
    OccurrencesZero(s, x);
    forall i, j | 0 <= i < j < |s + [x]| ensures (s + [x])[i] != (s + [x])[j] {
      if j == |s| {
        assert (s + [x])[i] == s[i];
      }
    }
  }
}
