/** The probe sequence of the node store: double hashing over a table of prime size. */
module Probing {

  ghost predicate IsPrime(p: nat)
  {
    p >= 2 && forall d :: 2 <= d < p ==> p % d != 0
  }

  /** First slot probed for hash h. */
  function Mod(h: nat, size: nat): (r: nat)
    requires size > 2
    ensures r < size
  {
    h % size
  }

  /** Stride of the probe sequence for hash h. */
  function Mod2(h: nat, size: nat): (r: nat)
    requires size > 2
    ensures 0 < r < size
  {
    1 + h % (size - 2)
  }

  /** Adding the stride and subtracting the size once on overflow, as both search loops do. */
  function Advance(idx: nat, stride: nat, size: nat): (r: nat)
    requires idx < size && stride < size
    ensures r < size
  {
    if idx + stride >= size then idx + stride - size else idx + stride
  }

  /** The k-th slot visited when starting at `start`. */
  function Walk(start: nat, stride: nat, size: nat, k: nat): (r: nat)
    requires start < size && stride < size
    ensures r < size
  {
    if k == 0 then start else Advance(Walk(start, stride, size, k - 1), stride, size)
  }

  function Probe(h: nat, size: nat, k: nat): (r: nat)
    requires size > 2
    ensures r < size
  {
    Walk(Mod(h, size), Mod2(h, size), size, k)
  }

  lemma Distribute(a: int, b: int, c: int)
    ensures (a + b) * c == a * c + b * c
  {
  }

  /** Between two visits the walk advances by whole strides, up to whole turns round the table. */
  lemma {:induction false} WalkDistance(start: nat, stride: nat, size: nat, i: nat, j: nat) returns (turns: nat)
    requires start < size && stride < size && i <= j
    ensures Walk(start, stride, size, j) == Walk(start, stride, size, i) + (j - i) * stride - turns * size
    decreases j - i
  {
    if i == j {
      turns := 0;
    } else {
      var t := WalkDistance(start, stride, size, i, j - 1);
      turns := if Walk(start, stride, size, j - 1) + stride >= size then t + 1 else t;
      Distribute(j - 1 - i, 1, stride);
      Distribute(t, 1, size);
    }
  }

  /** Euclid's lemma, in the form used here: a prime never divides a product of two smaller positive numbers. */
  lemma {:induction false} PrimeDividesNoSmallProduct(p: nat, m: nat, a: nat, q: int)
    requires IsPrime(p) && 0 < m < p && 0 < a < p
    requires m * a == q * p
    ensures false
    decreases m
  {
    var d, r := p / m, p % m;
    if r == 0 {
      NoSmallMultiple(m * a, p, q);
    } else {
      assert r * a == (a - d * q) * p by {
        assert r == p - d * m;
        assert r * a == p * a - (d * m) * a;
        assert (d * m) * a == d * (m * a) == d * (q * p) == (d * q) * p;
      }
      PrimeDividesNoSmallProduct(p, r, a, a - d * q);
    }
  }

  lemma NoSmallMultiple(a: nat, p: nat, q: int)
    requires 0 < a < p
    ensures a != q * p
  {
    if q >= 1 { MulMono(1, q, p); } else { MulMono(q, 0, p); }
  }

  lemma MulMono(a: int, b: int, c: nat)
    requires a <= b
    ensures a * c <= b * c
  {
    assert (b - a) * c >= 0;
  }

  /** Within one turn of `size` steps no slot is visited twice. */
  lemma WalkInjective(start: nat, stride: nat, size: nat, i: nat, j: nat)
    requires IsPrime(size) && start < size && 0 < stride < size
    requires i < j < size
    ensures Walk(start, stride, size, i) != Walk(start, stride, size, j)
  {
    if Walk(start, stride, size, i) == Walk(start, stride, size, j) {
      var turns := WalkDistance(start, stride, size, i, j);
      PrimeDividesNoSmallProduct(size, j - i, stride, turns);
    }
  }

  /** After `size` steps the walk is back where it started. */
  lemma WalkReturns(start: nat, stride: nat, size: nat)
    requires start < size && stride < size
    ensures Walk(start, stride, size, size) == start
  {
    var turns := WalkDistance(start, stride, size, 0, size);
    assert size * stride - turns * size == (stride - turns) * size;
    if stride - turns >= 1 { MulMono(1, stride - turns, size); }
    if stride - turns <= -1 { MulMono(stride - turns, -1, size); }
  }

  ghost function Visited(start: nat, stride: nat, size: nat, n: nat): set<nat>
    requires start < size && stride < size
  {
    set k: nat | k < n :: Walk(start, stride, size, k)
  }

  lemma {:induction false} VisitedSize(start: nat, stride: nat, size: nat, n: nat)
    requires IsPrime(size) && start < size && 0 < stride < size && n <= size
    ensures |Visited(start, stride, size, n)| == n
  {
    hide IsPrime, Walk;
    if n == 0 {
      assert Visited(start, stride, size, 0) == {};
    } else {
      VisitedSize(start, stride, size, n - 1);
      var w := Walk(start, stride, size, n - 1);
      var before := Visited(start, stride, size, n - 1);
      if w in before {
        var k: nat :| k < n - 1 && Walk(start, stride, size, k) == w;
        WalkInjective(start, stride, size, k, n - 1);
      }
      assert Visited(start, stride, size, n) == before + {w};
    }
  }

  ghost function Below(n: nat): (r: set<nat>)
    ensures forall i: nat :: i in r <==> i < n
  {
    if n == 0 then {} else Below(n - 1) + {n - 1}
  }

  lemma {:induction false} BelowSize(n: nat)
    ensures |Below(n)| == n
  {
    if n > 0 {
      BelowSize(n - 1);
    }
  }

  lemma SubsetSize<T>(a: set<T>, b: set<T>)
    requires a <= b
    ensures |a| <= |b|
    ensures |a| == |b| ==> a == b
  {
    assert b == a + (b - a);
  }

  /** Pigeonhole: one turn visits every slot. */
  lemma WalkCovers(start: nat, stride: nat, size: nat)
    requires IsPrime(size) && start < size && 0 < stride < size
    ensures Visited(start, stride, size, size) == Below(size)
  {
    VisitedSize(start, stride, size, size);
    BelowSize(size);
    SubsetSize(Visited(start, stride, size, size), Below(size));
  }

  lemma WalkReaches(start: nat, stride: nat, size: nat, x: nat) returns (k: nat)
    requires IsPrime(size) && start < size && 0 < stride < size && x < size
    ensures k < size && Walk(start, stride, size, k) == x
  {
    WalkCovers(start, stride, size);
    assert x in Visited(start, stride, size, size);
    k :| k < size && Walk(start, stride, size, k) == x;
  }

  ghost function ProbedIn(h: nat, size: nat, n: nat): set<nat>
    requires size > 2
  {
    Visited(Mod(h, size), Mod2(h, size), size, n)
  }

  /** For a prime size above 2 and any hash, the first `size` probes visit every slot of the table
      exactly once, and only then does the probe sequence return to its first slot. */
  lemma ProbeVisitsEverySlotOnce(h: nat, size: nat, i: nat, j: nat)
    requires IsPrime(size) && size > 2
    ensures ProbedIn(h, size, size) == Below(size)
    ensures i < j < size ==> Probe(h, size, i) != Probe(h, size, j)
    ensures Probe(h, size, size) == Probe(h, size, 0)
  {
    WalkCovers(Mod(h, size), Mod2(h, size), size);
    WalkReturns(Mod(h, size), Mod2(h, size), size);
    if i < j < size {
      WalkInjective(Mod(h, size), Mod2(h, size), size, i, j);
    }
  }
}
