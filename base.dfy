/**
 * Small building blocks shared by every module of the model: an optional
 * value, a result that carries an error message in place of a raised
 * exception, and the integer arithmetic and slicing that the Python code
 * relies on.
 */
module Base {

  /** A value that may be absent (Python's `None`, or a missing dict key). */
  datatype Option<+T> = None | Some(value: T) {
    /** The value, or `default` when absent (`d.get(k, default)`). */
    function GetOr(default: T): T {
      match this
      case Some(v) => v
      case None => default
    }
  }

  /** The outcome of a call that may raise: `Err` carries the exception text. */
  datatype Result<+T> = Ok(value: T) | Err(msg: string)

  /**
   * `int(a / b)` in Python: true division followed by truncation toward zero.
   * Dafny's `/` is Euclidean, so the sign is handled explicitly.
   */
  function TruncDiv(a: int, b: int): (r: int)
    requires b != 0
    ensures Abs(r) * Abs(b) <= Abs(a) < (Abs(r) + 1) * Abs(b)
    ensures r == 0 || ((r > 0) <==> ((a > 0) == (b > 0)))
    ensures a >= 0 && b > 0 ==> r == a / b
  {
    var n, d := Abs(a), Abs(b);
    DivBounds(n, d);
    var q := n / d;
    var r := if (a >= 0) == (b > 0) then q else -q;
    assert Abs(r) == q;
    r
  }

  /** Euclidean division of naturals brackets the dividend. */
  lemma DivBounds(n: nat, d: nat)
    requires d > 0
    ensures (n / d) * d <= n < (n / d + 1) * d
    ensures n / d == 0 <==> n < d
  {
    assert n == (n / d) * d + n % d;
    assert (n / d + 1) * d == (n / d) * d + d;
  }

  function Abs(x: int): (r: nat)
    ensures r == x || r == -x
  {
    if x < 0 then -x else x
  }

  function Min(a: int, b: int): int { if a <= b then a else b }

  function Max(a: int, b: int): int { if a <= b then b else a }

  /**
   * `s[:n]` in Python: a non-negative `n` keeps at most the first `n`
   * elements, a negative `n` drops the last `-n`.
   */
  function SliceTo<T>(s: seq<T>, n: int): (r: seq<T>)
    ensures r <= s
    ensures n >= 0 ==> |r| == Min(n, |s|)
    ensures n < 0 ==> |r| == Max(0, |s| + n)
  {
    if n >= 0 then s[..Min(n, |s|)] else s[..Max(0, |s| + n)]
  }

  /** At most the last `n` elements; for `n >= 1` this is `s[-n:]` in Python. */
  function LastN<T>(s: seq<T>, n: nat): (r: seq<T>)
    ensures |r| == Min(n, |s|)
    ensures forall i :: 0 <= i < |r| ==> r[i] == s[|s| - |r| + i]
  {
    s[Max(0, |s| - n)..]
  }

  /** The elements of `s` that satisfy `p`, in their original order (a list comprehension with a condition). */
  function Filter<T>(s: seq<T>, p: T -> bool): (r: seq<T>)
    ensures |r| <= |s|
    ensures forall x :: x in r ==> x in s && p(x)
  {
    if s == [] then [] else (if p(s[0]) then [s[0]] else []) + Filter(s[1..], p)
  }

  /** Filtering a longer prefix adds the new element when it passes: the step of a filtering loop. */
  lemma {:induction false} FilterSnoc<T>(s: seq<T>, x: T, p: T -> bool)
    ensures Filter(s + [x], p) == Filter(s, p) + (if p(x) then [x] else [])
  {
    if s == [] {
      assert s + [x] == [x];
    } else {
      assert (s + [x])[1..] == s[1..] + [x];
      FilterSnoc(s[1..], x, p);
    }
  }

  /** The step of a loop that filters `s` front to back: the prefix grows by `s[k]` when it passes. */
  lemma FilterPrefixStep<T>(s: seq<T>, k: nat, p: T -> bool)
    requires k < |s|
    ensures Filter(s[..k + 1], p) == Filter(s[..k], p) + (if p(s[k]) then [s[k]] else [])
  {
    assert s[..k + 1] == s[..k] + [s[k]];
    FilterSnoc(s[..k], s[k], p);
  }

  /** Appending `x` when `c` holds keeps what was there, adds `x` when `c` held, and nothing else. */
  lemma AppendIfMembers<T>(whole: seq<T>, init: seq<T>, x: T, c: bool)
    requires whole == if c then init + [x] else init
    ensures forall y :: y in init ==> y in whole
    ensures c ==> x in whole
    ensures forall y :: y in whole ==> y in init || (c && y == x)
  {
    if c {
      assert whole[|init|] == x;
      assert forall j :: 0 <= j < |init| ==> whole[j] == init[j];
    }
  }

  /** The filtered list holds exactly the passing elements. */
  lemma FilterMembers<T>(s: seq<T>, p: T -> bool)
    ensures forall x :: x in Filter(s, p) <==> x in s && p(x)
  {
    forall x | x in s && p(x)
      ensures x in Filter(s, p)
    {
      FilterKeeps(s, x, p);
    }
  }

  /** Everything in `s` that passes `p` is kept. */
  lemma {:induction false} FilterKeeps<T>(s: seq<T>, x: T, p: T -> bool)
    requires x in s && p(x)
    ensures x in Filter(s, p)
  {
    if s[0] != x {
      FilterKeeps(s[1..], x, p);
    }
  }

  /** Nothing passes, so nothing is kept. */
  lemma {:induction false} FilterNone<T>(s: seq<T>, p: T -> bool)
    requires forall x :: x in s ==> !p(x)
    ensures Filter(s, p) == []
  {
    if s != [] {
      assert s[0] in s;
      forall x | x in s[1..] ensures !p(x) {
        assert x in s;
      }
      FilterNone(s[1..], p);
    }
  }

  /** Filtering shortens a sequence exactly when some element fails the test. */
  lemma {:induction false} FilterShorter<T>(s: seq<T>, p: T -> bool)
    ensures |Filter(s, p)| < |s| <==> exists i :: 0 <= i < |s| && !p(s[i])
  {
    if s != [] {
      FilterShorter(s[1..], p);
      if exists i :: 0 <= i < |s[1..]| && !p(s[1..][i]) {
        var i :| 0 <= i < |s[1..]| && !p(s[1..][i]);
        assert !p(s[i + 1]);
      }
      if exists i :: 0 <= i < |s| && !p(s[i]) {
        var i :| 0 <= i < |s| && !p(s[i]);
        if i > 0 {
          assert !p(s[1..][i - 1]);
        }
      }
    }
  }
}
