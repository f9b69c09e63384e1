/** Options, results, and sums over sequences, shared by every other module. */
module Common {

  datatype Option<+T> = None | Some(value: T)

  datatype Result<+T> = Ok(value: T) | Err(error: string)

  function Indicator(b: bool): nat {
    if b then 1 else 0
  }

  function Min(a: int, b: int): int {
    if a <= b then a else b
  }

  function Max(a: int, b: int): int {
    if a <= b then b else a
  }

  predicate Distinct<T(==)>(s: seq<T>) {
    forall i, k :: 0 <= i < k < |s| ==> s[i] != s[k]
  }

  /** The total of `f` over all elements of `s`. */
  function Sum<T>(s: seq<T>, f: T -> nat): nat {
    if |s| == 0 then 0 else Sum(s[..|s| - 1], f) + f(s[|s| - 1])
  }

  lemma {:induction false} SumUpdate<T>(s: seq<T>, i: nat, x: T, f: T -> nat)
    requires i < |s|
    ensures Sum(s[i := x], f) + f(s[i]) == Sum(s, f) + f(x)
  {
    var n := |s| - 1;
    if i == n {
      assert s[i := x][..n] == s[..n];
    } else {
      assert s[i := x][..n] == s[..n][i := x];
      SumUpdate(s[..n], i, x, f);
    }
  }

  lemma SumAppend<T>(s: seq<T>, x: T, f: T -> nat)
    ensures Sum(s + [x], f) == Sum(s, f) + f(x)
  {
    assert (s + [x])[..|s|] == s;
  }

  lemma {:induction false} SumAtLeast<T>(s: seq<T>, i: nat, f: T -> nat)
    requires i < |s|
    ensures Sum(s, f) >= f(s[i])
  {
    var n := |s| - 1;
    if i < n {
      SumAtLeast(s[..n], i, f);
    }
  }

  /** A positive total has a positive element. */
  lemma {:induction false} SumWitness<T>(s: seq<T>, f: T -> nat) returns (i: nat)
    requires Sum(s, f) > 0
    ensures i < |s| && f(s[i]) > 0
  {
    var n := |s| - 1;
    if f(s[n]) > 0 {
      i := n;
    } else {
      i := SumWitness(s[..n], f);
    }
  }

  lemma {:induction false} SumZero<T>(s: seq<T>, f: T -> nat)
    requires forall i :: 0 <= i < |s| ==> f(s[i]) == 0
    ensures Sum(s, f) == 0
  {
    if |s| > 0 {
      SumZero(s[..|s| - 1], f);
    }
  }

  /** Sums are compared element by element. */
  lemma {:induction false} SumLeq<T>(s: seq<T>, t: seq<T>, f: T -> nat, g: T -> nat)
    requires |s| == |t|
    requires forall i :: 0 <= i < |s| ==> f(s[i]) <= g(t[i])
    ensures Sum(s, f) <= Sum(t, g)
  {
    if |s| > 0 {
      var n := |s| - 1;
      SumLeq(s[..n], t[..n], f, g);
    }
  }

  /** The pairs (c, a) with c < rows and 1 <= a <= cols. */
  function Grid(rows: nat, cols: nat): (g: set<(nat, nat)>)
    ensures forall p :: p in g <==> p.0 < rows && 1 <= p.1 <= cols
    ensures |g| == rows * cols
  {
    if rows == 0 then
      {}
    else
      var rest := Grid(rows - 1, cols);
      var row := GridRow(rows - 1, cols);
      assert rest !! row;
      rest + row
  }

  function GridRow(c: nat, cols: nat): (g: set<(nat, nat)>)
    ensures forall p :: p in g <==> p.0 == c && 1 <= p.1 <= cols
    ensures |g| == cols
  {
    if cols == 0 then {} else GridRow(c, cols - 1) + {(c, cols)}
  }

  lemma {:induction false} SubsetCardinality<T>(a: set<T>, b: set<T>)
    requires a <= b
    ensures |a| <= |b|
    ensures |a| == |b| ==> a == b
  {
    assert b == a + (b - a);
  }
}
