/** Shared vocabulary of the model: the error that Python raises on a
    division by zero, integer bounds, and the two list operations the
    source leans on (list repetition `xs * n` and joining a list of lists). */
module Common {

  /** The only exception the modelled core can raise on its own. */
  datatype Error = ZeroDivisionError

  datatype Result<T> = Ok(value: T) | Err(error: Error)

  function Min(a: int, b: int): int { if a <= b then a else b }

  function Max(a: int, b: int): int { if a <= b then b else a }

  /** Joins a list of lists, in order. */
  function Flatten<T>(ss: seq<seq<T>>): seq<T>
  {
    if ss == [] then [] else ss[0] + Flatten(ss[1..])
  }

  lemma {:induction false} FlattenAppend<T>(a: seq<seq<T>>, b: seq<seq<T>>)
    ensures Flatten(a + b) == Flatten(a) + Flatten(b)
    decreases |a|
  {
    if a == [] {
      assert a + b == b;
    } else {
      assert (a + b)[1..] == a[1..] + b;
      FlattenAppend(a[1..], b);
    }
  }

  lemma FlattenSnoc<T>(a: seq<seq<T>>, c: seq<T>)
    ensures Flatten(a + [c]) == Flatten(a) + c
  {
    FlattenAppend(a, [c]);
    assert Flatten([c]) == c + Flatten([]);
  }

  lemma ConcatAssoc<T>(a: seq<T>, b: seq<T>, c: seq<T>)
    ensures (a + b) + c == a + (b + c)
  {
  }

  /** Python's `s * n`: `n` copies of `s` back to back; no copy at all when
      `n <= 0`. Sample `k` of the result is sample `k mod |s|` of `s`. */
  function Repeat<T>(s: seq<T>, n: int): (r: seq<T>)
    ensures |r| == Max(0, n) * |s|
    ensures forall k :: 0 <= k < |r| ==> |s| > 0 && r[k] == s[k % |s|]
    decreases n
  {
    if n <= 0 then []
    else
      var prev := Repeat(s, n - 1);
      var r := prev + s;
      assert |r| == n * |s|;
      forall k | 0 <= k < |r| ensures |s| > 0 && r[k] == s[k % |s|] {
        if k >= |prev| {
          ModOffset(k, n - 1, |s|);
        }
      }
      r
  }

  /** `k mod d` is the offset of `k` past the last whole multiple `m * d`. */
  lemma ModOffset(k: int, m: nat, d: int)
    requires d > 0 && m * d <= k < m * d + d
    ensures k % d == k - m * d
  {
    DivModUnique(k, d, m, k - m * d);
  }

  /** Euclidean division is unique: a quotient and remainder in `[0, d)`
      that rebuild `n` are `n / d` and `n % d`. */
  lemma DivModUnique(n: int, d: int, q: int, r: int)
    requires d > 0 && 0 <= r < d && n == q * d + r
    ensures n / d == q && n % d == r
  {
    var q', r' := n / d, n % d;
    assert (q - q') * d == r' - r;
    ZeroFactor(q - q', d);
  }

  lemma ZeroFactor(x: int, d: int)
    requires d > 0 && -d < x * d < d
    ensures x == 0
  {
  }

  /** Literal concatenation: sample `k` of copy `j` is sample `k` of `s`. */
  lemma RepeatCopy<T>(s: seq<T>, n: int, j: nat, k: nat)
    requires j < n && k < |s|
    ensures j * |s| + k < |Repeat(s, n)| && Repeat(s, n)[j * |s| + k] == s[k]
  {
    var r := Repeat(s, n);
    assert j * |s| + k < (j + 1) * |s| <= n * |s|;
    ModOffset(j * |s| + k, j, |s|);
  }
}
