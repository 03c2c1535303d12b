/** Which assumptions on a 32-byte hash can be met: none about all payloads, any about a limited set of them. */
module Digests {
  import opened Prelude
  import opened ChunkFile

  const DIGEST_SIZE := 32

  ghost function Below(n: nat): (s: set<int>)
    ensures |s| == n
    ensures forall k :: k in s <==> 0 <= k < n
  {
    if n == 0 then {} else Below(n - 1) + {n - 1}
  }

  /** Pigeonhole: more than `n` numbers below `n` contain two equal ones. */
  lemma Pigeonhole(xs: seq<int>, n: nat)
    requires |xs| > n && forall i :: 0 <= i < |xs| ==> 0 <= xs[i] < n
    ensures !NoDup(xs)
  {
    NoDupCardinality(xs);
    SubsetCardinality(Elems(xs), Below(n));
  }

  function Zeros(n: nat): Bytes {
    seq(n, _ => 0)
  }

  /** Every hash has a collision. */
  lemma EveryHashCollides(sha: Sha) returns (a: Bytes, b: Bytes)
    ensures Collide(sha, a, b)
  {
    a, b := CollisionAmong(sha, Pow256(DIGEST_SIZE));
  }

  lemma CollisionAmong(sha: Sha, n: nat) returns (a: Bytes, b: Bytes)
    requires n == Pow256(DIGEST_SIZE)
    ensures Collide(sha, a, b)
  {
    hide Pow256;
    var numbers: seq<int> := seq(n + 1, i requires 0 <= i < n + 1 => FromBigEndian(sha(Zeros(i))));
    forall i | 0 <= i < |numbers| ensures 0 <= numbers[i] < n {
      BigEndianEncodes(sha(Zeros(i)));
    }
    Pigeonhole(numbers, n);
    var i, j :| 0 <= i < j < |numbers| && numbers[i] == numbers[j];
    a, b := Zeros(i), Zeros(j);
    BigEndianEncodes(sha(a));
    BigEndianEncodes(sha(b));
    assert |a| != |b|;
  }

  lemma {:induction false} Listing(s: set<Bytes>) returns (q: seq<Bytes>)
    ensures Lists(q, s) && |q| == |s|
    decreases |s|
  {
    q := [];
    if s != {} {
      var x :| x in s;
      var rest := Listing(s - {x});
      NoDupSnoc(rest, x);
      q := rest + [x];
      assert Elems(q) == Elems(rest) + {x};
    }
  }

  /** The digest that numbers the listed payloads. */
  ghost function Number(q: seq<Bytes>, b: Bytes): (d: Digest)
    ensures b in q ==> exists i :: 0 <= i < |q| && q[i] == b && d == BigEndian(i, DIGEST_SIZE)
  {
    if b in q then
      var i :| 0 <= i < |q| && q[i] == b;
      BigEndian(i, DIGEST_SIZE)
    else BigEndian(0, DIGEST_SIZE)
  }

  /** For any payloads, as many as there are digests, some hash separates them. */
  lemma SeparatingHashExists(payloads: set<Bytes>) returns (sha: Sha)
    requires |payloads| <= Pow256(DIGEST_SIZE)
    ensures Separates(sha, payloads)
  {
    var q := Listing(payloads);
    sha := (b: Bytes) => Number(q, b);
    hide Pow256;
    forall a, b | a in payloads && b in payloads && sha(a) == sha(b) ensures a == b {
      assert a in Elems(q) && b in Elems(q);
      var i :| 0 <= i < |q| && q[i] == a && sha(a) == BigEndian(i, DIGEST_SIZE);
      var j :| 0 <= j < |q| && q[j] == b && sha(b) == BigEndian(j, DIGEST_SIZE);
      BigEndianDecodes(i, DIGEST_SIZE);
      BigEndianDecodes(j, DIGEST_SIZE);
    }
  }
}
