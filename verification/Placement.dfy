/** Replica placement: copy the node slice, shuffle the copy, take its first R entries. */
module Placement {
  import opened Prelude
  import opened Tables

  ghost predicate DistinctIds(nodes: seq<NodeRow>) {
    forall i, j :: 0 <= i < j < |nodes| ==> nodes[i].id != nodes[j].id
  }

  ghost predicate NodeNamed(nodes: seq<NodeRow>, id: string) {
    exists i :: 0 <= i < |nodes| && nodes[i].id == id
  }

  /** One list per chunk ID, each naming exactly `r` different nodes out of `nodes`. */
  ghost predicate ValidPlacement(r: int, ids: set<string>, nodes: seq<NodeRow>, plan: map<string, seq<string>>) {
    && plan.Keys == ids
    && (forall c :: c in plan ==> |plan[c]| == r && NoDup(plan[c]))
    && (forall c, n :: c in plan && n in plan[c] ==> NodeNamed(nodes, n))
  }

  datatype PlacementError = InvalidFactor | NotEnoughNodes

  function Swapped(s: seq<NodeRow>, i: nat, j: nat): seq<NodeRow>
    requires i < |s| && j < |s|
  {
    s[i := s[j]][j := s[i]]
  }

  lemma SwapPermutes(s: seq<NodeRow>, i: nat, j: nat)
    requires i < |s| && j < |s|
    ensures multiset(Swapped(s, i, j)) == multiset(s)
  {
  }

  lemma SwapKeepsDistinct(s: seq<NodeRow>, i: nat, j: nat)
    requires i < |s| && j < |s| && DistinctIds(s)
    ensures DistinctIds(Swapped(s, i, j))
  {
    var t := Swapped(s, i, j);
    forall p, q | 0 <= p < q < |t| ensures t[p].id != t[q].id {
      var p', q' := if p == i then j else if p == j then i else p, if q == i then j else if q == j then i else q;
      assert t[p] == s[p'] && t[q] == s[q'] && p' != q';
    }
  }

  method Swap(a: array<NodeRow>, i: nat, j: nat)
    requires i < a.Length && j < a.Length
    modifies a
    ensures a[..] == Swapped(old(a[..]), i, j)
  {
    a[i], a[j] := a[j], a[i];
  }

  /** Fisher-Yates with an arbitrary choice at every swap. */
  method Shuffle(a: array<NodeRow>)
    modifies a
    ensures multiset(a[..]) == multiset(old(a[..]))
    ensures DistinctIds(old(a[..])) ==> DistinctIds(a[..])
  {
    var i := a.Length - 1;
    while i > 0
      invariant multiset(a[..]) == multiset(old(a[..]))
      invariant DistinctIds(old(a[..])) ==> DistinctIds(a[..])
    {
      var j :| 0 <= j <= i;
      ghost var before := a[..];
      SwapPermutes(before, i, j);
      Swap(a, i, j);
      if DistinctIds(before) {
        SwapKeepsDistinct(before, i, j);
      }
      i := i - 1;
    }
  }

  class Engine {
    const replicationFactor: int

    constructor (r: int)
      ensures replicationFactor == r
    {
      replicationFactor := r;
    }

    /** Without a `modifies` clause the caller's node slice stays as it was, whatever the shuffles do. */
    method SelectReplicas(chunks: seq<ChunkRow>, healthyNodes: array<NodeRow>)
      returns (r: Result<map<string, seq<string>>, PlacementError>)
      ensures r.Err? <==> replicationFactor <= 0 || healthyNodes.Length < replicationFactor
      ensures r.Err? ==> r.error == if replicationFactor <= 0 then InvalidFactor else NotEnoughNodes
      ensures r.Ok? && DistinctIds(healthyNodes[..]) ==>
        ValidPlacement(replicationFactor, set c | c in chunks :: c.id, healthyNodes[..], r.value)
    {
      if replicationFactor <= 0 {
        return Err(InvalidFactor);
      }
      if healthyNodes.Length < replicationFactor {
        return Err(NotEnoughNodes);
      }
      var result: map<string, seq<string>> := map[];
      for k := 0 to |chunks|
        invariant DistinctIds(healthyNodes[..]) ==>
          ValidPlacement(replicationFactor, set c | c in chunks[..k] :: c.id, healthyNodes[..], result)
      {
        var nodes := CopyNodes(healthyNodes);
        Shuffle(nodes);
        var selected: seq<string> := [];
        for i := 0 to replicationFactor
          invariant |selected| == i
          invariant forall j :: 0 <= j < i ==> selected[j] == nodes[j].id
        {
          selected := selected + [nodes[i].id];
        }
        ghost var before := result;
        result := result[chunks[k].id := selected];
        SelectionDrawn(healthyNodes[..], nodes[..], selected);
        assert chunks[..k + 1] == chunks[..k] + [chunks[k]];
        assert (set c | c in chunks[..k + 1] :: c.id) == (set c | c in chunks[..k] :: c.id) + {chunks[k].id};
      }
      assert chunks[..|chunks|] == chunks;
      r := Ok(result);
    }
  }

  method CopyNodes(a: array<NodeRow>) returns (b: array<NodeRow>)
    ensures fresh(b) && b[..] == a[..]
  {
    b := new NodeRow[a.Length](i requires 0 <= i < a.Length reads a => a[i]);
  }

  /** The first entries of a permuted copy are different nodes of the original. */
  lemma SelectionDrawn(original: seq<NodeRow>, shuffled: seq<NodeRow>, selected: seq<string>)
    requires multiset(original) == multiset(shuffled)
    requires |selected| <= |shuffled| && forall j :: 0 <= j < |selected| ==> selected[j] == shuffled[j].id
    ensures forall n :: n in selected ==> NodeNamed(original, n)
    ensures DistinctIds(shuffled) ==> NoDup(selected)
  {
    forall n | n in selected ensures NodeNamed(original, n) {
      var j :| 0 <= j < |selected| && selected[j] == n;
      assert shuffled[j] in multiset(shuffled);
      assert shuffled[j] in original;
    }
  }
}
