/**
 * The statistics every sweep script computes from its trials: signed and
 * absolute errors, their means, Python's `min`/`max` (plain and with a key),
 * and the sign column of the printed tables.  Measurements are `real`.
 */
module Stats {

  function Abs(x: real): (r: real)
    ensures r >= 0.0 && (r == x || r == -x)
  {
    if x >= 0.0 then x else -x
  }

  /** Python's `sum` over a list of measurements, accumulated left to right. */
  function Sum(s: seq<real>): real
  {
    if |s| == 0 then 0.0 else Sum(s[..|s| - 1]) + s[|s| - 1]
  }

  /** The list `[abs(e) for e in s]`, element by element. */
  function AbsAll(s: seq<real>): (r: seq<real>)
    ensures |r| == |s|
    ensures forall i :: 0 <= i < |s| ==> r[i] == Abs(s[i])
  {
    seq(|s|, i requires 0 <= i < |s| => Abs(s[i]))
  }

  /** `sum(s) / len(s)`. */
  function Mean(s: seq<real>): real
    requires |s| > 0
  {
    Sum(s) / |s| as real
  }

  lemma SumAppend(s: seq<real>, x: real)
    ensures Sum(s + [x]) == Sum(s) + x
  {
    assert (s + [x])[..|s|] == s;
  }

  /** The triangle inequality for sums: |sum(s)| <= sum of |s[i]|. */
  lemma {:induction false} SumAbsBounds(s: seq<real>)
    ensures Sum(AbsAll(s)) >= 0.0
    ensures Sum(AbsAll(s)) >= Abs(Sum(s))
  {
    if |s| > 0 {
      var init := s[..|s| - 1];
      SumAbsBounds(init);
      assert AbsAll(s)[..|s| - 1] == AbsAll(init);
    }
  }

  /** Dividing by a positive count keeps an upper bound on a magnitude. */
  lemma DivideBound(a: real, b: real, n: real)
    requires n > 0.0 && Abs(a) <= b
    ensures Abs(a / n) <= b / n
  {
    assert b / n - a / n == (b - a) / n;
    assert b / n + a / n == (b + a) / n;
  }

  /**
   * One sweep cell, Python's tuple `(param, mean_error, mean_abs_error, repeat_num)`;
   * `param` is the target (straight.py, bend.py) or the motor power (BEND2.py).
   */
  datatype CellSummary = CellSummary(param: int, meanError: real, meanAbsError: real, trials: nat)

  /**
   * `sum(errors) / repeat_num` and `sum(abs_errors) / repeat_num` for one cell.
   * Because the trial loop runs exactly `repeat_num` times, dividing by
   * `repeat_num` is the mean over the recorded errors; and the mean absolute
   * error bounds the magnitude of the mean error.
   */
  function Summarize(param: int, errors: seq<real>, repeatNum: nat): (c: CellSummary)
    requires repeatNum > 0 && |errors| == repeatNum
    ensures c.param == param && c.trials == repeatNum
    ensures c.meanError == Mean(errors)
    ensures c.meanAbsError == Mean(AbsAll(errors))
    ensures c.meanAbsError >= 0.0
    ensures c.meanAbsError >= Abs(c.meanError)
  {
    SumAbsBounds(errors);
    DivideBound(Sum(errors), Sum(AbsAll(errors)), repeatNum as real);
    CellSummary(param, Sum(errors) / repeatNum as real, Sum(AbsAll(errors)) / repeatNum as real, repeatNum)
  }

  /** The sign column: `"+" if mean_error >= 0 else "-"`. */
  function SignOf(x: real): (c: char)
    ensures c == '+' || c == '-'
    ensures c == '+' <==> x >= 0.0
  {
    if x >= 0.0 then '+' else '-'
  }

  /** Reads a printed sign and magnitude back as a number. */
  function Signed(sign: char, magnitude: real): real
  {
    if sign == '+' then magnitude else -magnitude
  }

  /** A printed table row: parameter, sign, `abs(mean_error)`, `mean_abs_error`, trial count. */
  datatype Row = Row(param: int, sign: char, magnitude: real, meanAbsError: real, trials: nat)

  /** The row printed for a cell; its sign and magnitude give back the mean error exactly. */
  function ToRow(c: CellSummary): (r: Row)
    ensures r.param == c.param && r.trials == c.trials && r.meanAbsError == c.meanAbsError
    ensures r.sign == '+' <==> c.meanError >= 0.0
    ensures r.magnitude >= 0.0
    ensures Signed(r.sign, r.magnitude) == c.meanError
  {
    Row(c.param, SignOf(c.meanError), Abs(c.meanError), c.meanAbsError, c.trials)
  }

  /** The rows of one table, printed in the order the cells were appended. */
  function TableRows(cells: seq<CellSummary>): (rows: seq<Row>)
    ensures |rows| == |cells|
    ensures forall i :: 0 <= i < |cells| ==> rows[i] == ToRow(cells[i])
    ensures forall i :: 0 <= i < |cells| ==>
      rows[i].param == cells[i].param && rows[i].trials == cells[i].trials &&
      rows[i].meanAbsError == cells[i].meanAbsError &&
      (rows[i].sign == '+' <==> cells[i].meanError >= 0.0) &&
      Signed(rows[i].sign, rows[i].magnitude) == cells[i].meanError
  {
    seq(|cells|, i requires 0 <= i < |cells| => ToRow(cells[i]))
  }

  /**
   * `k` is where Python's `min(xs, key=...)` stops over the keys `keys`: its
   * key is the least, and strictly below every earlier key, because the scan
   * replaces the current element only on a strictly smaller key.
   */
  predicate IsFirstMin(keys: seq<real>, k: nat)
  {
    k < |keys| &&
    (forall j :: 0 <= j < |keys| ==> keys[k] <= keys[j]) &&
    (forall j :: 0 <= j < k ==> keys[k] < keys[j])
  }

  /** `k` is where Python's `max(xs, key=...)` stops: the FIRST greatest key. */
  predicate IsFirstMax(keys: seq<real>, k: nat)
  {
    k < |keys| &&
    (forall j :: 0 <= j < |keys| ==> keys[j] <= keys[k]) &&
    (forall j :: 0 <= j < k ==> keys[j] < keys[k])
  }

  /** Python's `min(xs, key=...)` over the keys `keys`, as an index. */
  function ArgMin(keys: seq<real>): (k: nat)
    requires |keys| > 0
    ensures IsFirstMin(keys, k)
  {
    if |keys| == 1 then 0
    else
      var k := ArgMin(keys[..|keys| - 1]);
      if keys[|keys| - 1] < keys[k] then |keys| - 1 else k
  }

  /** Python's `max(xs, key=...)` over the keys `keys`, as an index. */
  function ArgMax(keys: seq<real>): (k: nat)
    requires |keys| > 0
    ensures IsFirstMax(keys, k)
  {
    if |keys| == 1 then 0
    else
      var k := ArgMax(keys[..|keys| - 1]);
      if keys[|keys| - 1] > keys[k] then |keys| - 1 else k
  }

  lemma {:induction false} SumBetween(s: seq<real>, lo: real, hi: real)
    requires forall i :: 0 <= i < |s| ==> lo <= s[i] <= hi
    ensures |s| as real * lo <= Sum(s) <= |s| as real * hi
  {
    if |s| > 0 {
      SumBetween(s[..|s| - 1], lo, hi);
      assert (|s| - 1) as real * lo + lo == |s| as real * lo;
      assert (|s| - 1) as real * hi + hi == |s| as real * hi;
    }
  }

  /** A mean lies between any common lower and upper bound of its elements. */
  lemma MeanWithin(s: seq<real>, lo: real, hi: real)
    requires |s| > 0
    requires forall i :: 0 <= i < |s| ==> lo <= s[i] <= hi
    ensures lo <= Mean(s) <= hi
  {
    SumBetween(s, lo, hi);
    DivideBetween(Sum(s), |s| as real, lo, hi);
  }

  /** `min(s) <= sum(s) / len(s) <= max(s)` for a non-empty list. */
  lemma MeanBetweenMinMax(s: seq<real>)
    requires |s| > 0
    ensures s[ArgMin(s)] <= Mean(s) <= s[ArgMax(s)]
  {
    MeanWithin(s, s[ArgMin(s)], s[ArgMax(s)]);
  }

  lemma DivideBetween(x: real, n: real, lo: real, hi: real)
    requires n > 0.0 && n * lo <= x <= n * hi
    ensures lo <= x / n <= hi
  {
  }

  /** Sums distribute over concatenation. */
  lemma {:induction false} SumConcat(a: seq<real>, b: seq<real>)
    ensures Sum(a + b) == Sum(a) + Sum(b)
    decreases |b|
  {
    if |b| == 0 {
      assert a + b == a;
    } else {
      var b' := b[..|b| - 1];
      assert (a + b)[..|a + b| - 1] == a + b';
      assert (a + b)[|a + b| - 1] == b[|b| - 1];
      SumConcat(a, b');
    }
  }

  /** Taking out the element at `j` takes its value out of the sum. */
  lemma SumRemove(s: seq<real>, j: nat)
    requires j < |s|
    ensures Sum(s) == Sum(s[..j] + s[j + 1..]) + s[j]
  {
    var pre, x, post := s[..j], s[j], s[j + 1..];
    assert s == pre + ([x] + post);
    SumConcat(pre, [x] + post);
    SumConcat([x], post);
    SumConcat(pre, post);
    assert Sum([x]) == x by { assert [x][..0] == []; }
  }

  /** What taking out the element at `j` does to the multiset and to both sums. */
  lemma Remove(s: seq<real>, j: nat)
    requires j < |s|
    ensures multiset(s[..j] + s[j + 1..]) == multiset(s) - multiset{s[j]}
    ensures Sum(s) == Sum(s[..j] + s[j + 1..]) + s[j]
    ensures Sum(AbsAll(s)) == Sum(AbsAll(s[..j] + s[j + 1..])) + Abs(s[j])
  {
    assert s == s[..j] + [s[j]] + s[j + 1..];
    SumRemove(s, j);
    SumRemove(AbsAll(s), j);
    assert AbsAll(s)[..j] + AbsAll(s)[j + 1..] == AbsAll(s[..j] + s[j + 1..]);
  }

  /**
   * The trial order does not matter: two lists holding the same errors, in
   * any order, have the same sum and the same sum of absolute values.
   */
  lemma {:induction false} SumPermutation(a: seq<real>, b: seq<real>)
    requires multiset(a) == multiset(b)
    ensures Sum(a) == Sum(b)
    ensures Sum(AbsAll(a)) == Sum(AbsAll(b))
    decreases |a|
  {
    if |a| == 0 {
      assert |b| == |multiset(b)| == 0;
    } else {
      var last := |a| - 1;
      assert a[last] in multiset(b) by { assert a[last] in multiset(a); }
      var j :| 0 <= j < |b| && b[j] == a[last];
      Remove(a, last);
      Remove(b, j);
      assert a[..last] + a[last + 1..] == a[..last];
      SumPermutation(a[..last], b[..j] + b[j + 1..]);
    }
  }

  /** A cell's summary does not depend on the order its trials ran in. */
  lemma SummarizeOrderIndependent(param: int, e1: seq<real>, e2: seq<real>, repeatNum: nat)
    requires repeatNum > 0 && |e1| == repeatNum
    requires multiset(e1) == multiset(e2)
    ensures |e2| == repeatNum
    ensures Summarize(param, e1, repeatNum) == Summarize(param, e2, repeatNum)
  {
    assert |e2| == |multiset(e2)| == |multiset(e1)| == |e1|;
    SumPermutation(e1, e2);
  }
}
