/** Small notions that several modules share. */
module Collections {

  datatype Option<T> = None | Some(value: T)

  /** Nothing stands twice in the sequence. */
  ghost predicate Distinct<T>(s: seq<T>) {
    forall i, j :: 0 <= i < j < |s| ==> s[i] != s[j]
  }

  /** Always true.  What a predicate states under it is seen only where it is asked
      for, which keeps proofs that merely hand the predicate on short. */
  ghost predicate Asked(u: int) {
    true
  }

  ghost function Members<T>(s: seq<T>): set<T> {
    set x | x in s
  }

  /** Some `x` stands before some `y`. */
  ghost predicate Ahead<T>(q: seq<T>, x: T, y: T) {
    exists i, j :: 0 <= i < j < |q| && q[i] == x && q[j] == y
  }

  /** Also behind something else, and in front of it. */
  lemma AheadBehind<T>(p: seq<T>, q: seq<T>, x: T, y: T)
    requires Ahead(q, x, y)
    ensures Ahead(p + q, x, y)
  {
    var i, j :| 0 <= i < j < |q| && q[i] == x && q[j] == y;
    assert (p + q)[|p| + i] == x && (p + q)[|p| + j] == y;
  }

  lemma AheadBefore<T>(p: seq<T>, q: seq<T>, x: T, y: T)
    requires Ahead(p, x, y)
    ensures Ahead(p + q, x, y)
  {
    var i, j :| 0 <= i < j < |p| && p[i] == x && p[j] == y;
    assert (p + q)[i] == x && (p + q)[j] == y;
  }

  lemma AheadAcross<T>(p: seq<T>, q: seq<T>, x: T, y: T)
    requires x in p && y in q
    ensures Ahead(p + q, x, y)
  {
    var i :| 0 <= i < |p| && p[i] == x;
    var j :| 0 <= j < |q| && q[j] == y;
    assert (p + q)[i] == x && (p + q)[|p| + j] == y;
  }

  /** The others, in their order. */
  function Others<T(==)>(q: seq<T>, x: T): seq<T> {
    if q == [] then [] else (if q[0] == x then [] else [q[0]]) + Others(q[1..], x)
  }

  lemma {:induction false} OthersAre<T>(q: seq<T>, x: T)
    ensures forall y :: y in Others(q, x) <==> y in q && y != x
    ensures x !in q ==> Others(q, x) == q
  {
    if q != [] {
      OthersAre(q[1..], x);
      assert q == [q[0]] + q[1..];
    }
  }

  lemma {:induction false} OthersAhead<T>(q: seq<T>, x: T, i: nat, j: nat)
    requires i < j < |q| && q[i] != x && q[j] != x
    ensures Ahead(Others(q, x), q[i], q[j])
  {
    var first := if q[0] == x then [] else [q[0]];
    if i > 0 {
      OthersAhead(q[1..], x, i - 1, j - 1);
      AheadBehind(first, Others(q[1..], x), q[i], q[j]);
    } else {
      OthersAre(q[1..], x);
      assert q[1..][j - 1] == q[j] && q[j] in q[1..];
      AheadAcross(first, Others(q[1..], x), q[i], q[j]);
    }
  }
}
