/**
 * HybridRetriever._retrieve (app/chat_engine/SemanticSearchQE/HybridRetriever.py):
 * query BM25, then the vector retriever, and keep the first entry of each
 * node id from the BM25 results followed by the vector results.
 */
module HybridRetriever {

  import opened Nodes

  /**
   * The first-occurrence subsequence of s by node id, built from the left
   * exactly as the merge loop builds it.
   */
  function Dedup(s: seq<NodeWithScore>): seq<NodeWithScore>
    decreases |s|
  {
    if |s| == 0 then []
    else
      var kept := Dedup(s[..|s| - 1]);
      if s[|s| - 1].node.id in Ids(kept) then kept else kept + [s[|s| - 1]]
  }

  /** The merged candidate list of one turn. */
  function Merge(bm25Nodes: seq<NodeWithScore>, vectorNodes: seq<NodeWithScore>): seq<NodeWithScore>
  {
    Dedup(bm25Nodes + vectorNodes)
  }

  /** The position of the first entry of s whose node id is x. */
  function FirstIndex(s: seq<NodeWithScore>, x: string): (i: nat)
    requires x in Ids(s)
    ensures i < |s| && s[i].node.id == x
    ensures forall j :: 0 <= j < i ==> s[j].node.id != x
    decreases |s|
  {
    if s[0].node.id == x then 0
    else
      assert x in Ids(s[1..]) by {
        var k :| 0 <= k < |s| && s[k].node.id == x;
        assert s[1..][k - 1] == s[k];
      }
      1 + FirstIndex(s[1..], x)
  }

  /** A first occurrence is determined by the id. */
  lemma FirstIndexUnique(s: seq<NodeWithScore>, x: string, i: nat)
    requires i < |s| && s[i].node.id == x
    requires forall j :: 0 <= j < i ==> s[j].node.id != x
    ensures x in Ids(s) && FirstIndex(s, x) == i
  {
    assert s[i].node.id in Ids(s);
    var f := FirstIndex(s, x);
  }

  lemma FirstIndexAppend(a: seq<NodeWithScore>, b: seq<NodeWithScore>, x: string)
    requires x in Ids(a + b)
    ensures x in Ids(a) ==> FirstIndex(a + b, x) == FirstIndex(a, x)
    ensures x !in Ids(a) ==> x in Ids(b) && FirstIndex(a + b, x) == |a| + FirstIndex(b, x)
  {
    var ab := a + b;
    if x in Ids(a) {
      var i := FirstIndex(a, x);
      FirstIndexUnique(ab, x, i);
    } else {
      var f := FirstIndex(ab, x);
      assert ab[f] == b[f - |a|];
      assert b[f - |a|].node.id in Ids(b);
      var i := FirstIndex(b, x);
      forall j | 0 <= j < |a| + i ensures ab[j].node.id != x {
        if j < |a| {
          assert ab[j] == a[j];
          assert a[j].node.id in Ids(a);
        } else {
          assert ab[j] == b[j - |a|];
        }
      }
      FirstIndexUnique(ab, x, |a| + i);
    }
  }

  lemma IdsSnoc(s: seq<NodeWithScore>, e: NodeWithScore)
    ensures Ids(s + [e]) == Ids(s) + {e.node.id}
  {
    var t := s + [e];
    forall x | x in Ids(t) ensures x in Ids(s) + {e.node.id} {
      var k :| 0 <= k < |t| && t[k].node.id == x;
      if k < |s| {
        assert t[k] == s[k];
      }
    }
    forall x | x in Ids(s) ensures x in Ids(t) {
      var k :| 0 <= k < |s| && s[k].node.id == x;
      assert t[k] == s[k];
    }
    assert t[|s|] == e;
  }

  lemma DedupStep(s: seq<NodeWithScore>)
    requires |s| > 0
    ensures Dedup(s) == var kept := Dedup(s[..|s| - 1]);
      if s[|s| - 1].node.id in Ids(kept) then kept else kept + [s[|s| - 1]]
  {
  }

  /** The merge keeps exactly the ids of its input. */
  lemma {:induction false} DedupIds(s: seq<NodeWithScore>)
    ensures Ids(Dedup(s)) == Ids(s)
    decreases |s|
  {
    if |s| > 0 {
      var p, e := s[..|s| - 1], s[|s| - 1];
      assert s == p + [e];
      DedupIds(p);
      IdsSnoc(p, e);
      IdsSnoc(Dedup(p), e);
    }
  }

  /** No two kept entries share a node id. */
  lemma {:induction false} DedupUnique(s: seq<NodeWithScore>)
    ensures UniqueIds(Dedup(s))
    decreases |s|
  {
    if |s| > 0 {
      var p, e := s[..|s| - 1], s[|s| - 1];
      var kept := Dedup(p);
      DedupUnique(p);
      if e.node.id !in Ids(kept) {
        var r := kept + [e];
        forall i, j | 0 <= i < j < |r| ensures r[i].node.id != r[j].node.id {
          if j == |kept| {
            assert r[i] == kept[i];
            assert kept[i].node.id in Ids(kept);
          } else {
            assert r[i] == kept[i] && r[j] == kept[j];
          }
        }
      }
    }
  }

  /**
   * Every kept entry is, unchanged (node and score), the first entry of
   * the input with its node id, and the kept entries stand in the order of
   * those first occurrences.
   */
  lemma DedupFirstOccurrences(s: seq<NodeWithScore>)
    ensures forall k :: 0 <= k < |Dedup(s)| ==> Dedup(s)[k].node.id in Ids(s)
    ensures forall k :: 0 <= k < |Dedup(s)| ==> Dedup(s)[k] == s[FirstIndex(s, Dedup(s)[k].node.id)]
    ensures forall a, b :: 0 <= a < b < |Dedup(s)| ==>
      FirstIndex(s, Dedup(s)[a].node.id) < FirstIndex(s, Dedup(s)[b].node.id)
  {
    DedupKeptIds(s);
    DedupFirstEntries(s);
    DedupOrdered(s);
  }

  lemma DedupKeptIds(s: seq<NodeWithScore>)
    ensures forall k :: 0 <= k < |Dedup(s)| ==> Dedup(s)[k].node.id in Ids(s)
  {
    var r := Dedup(s);
    DedupIds(s);
    forall k | 0 <= k < |r| ensures r[k].node.id in Ids(s) {
      assert r[k].node.id in Ids(r);
    }
  }

  /** Appending an entry keeps the first index of every id already present. */
  lemma FirstIndexSnoc(p: seq<NodeWithScore>, e: NodeWithScore, x: string)
    requires x in Ids(p)
    ensures x in Ids(p + [e]) && FirstIndex(p + [e], x) == FirstIndex(p, x)
  {
    var i := FirstIndex(p, x);
    assert (p + [e])[i] == p[i];
    FirstIndexUnique(p + [e], x, i);
  }

  /** A new id appended at the end has its first index there. */
  lemma FirstIndexNew(p: seq<NodeWithScore>, e: NodeWithScore)
    requires e.node.id !in Ids(p)
    ensures e.node.id in Ids(p + [e]) && FirstIndex(p + [e], e.node.id) == |p|
  {
    var s := p + [e];
    forall j | 0 <= j < |p| ensures s[j].node.id != e.node.id {
      assert s[j] == p[j];
      assert p[j].node.id in Ids(p);
    }
    FirstIndexUnique(s, e.node.id, |p|);
  }

  lemma {:induction false} DedupFirstEntries(s: seq<NodeWithScore>)
    ensures forall k :: 0 <= k < |Dedup(s)| ==>
      Dedup(s)[k].node.id in Ids(s) && Dedup(s)[k] == s[FirstIndex(s, Dedup(s)[k].node.id)]
    decreases |s|
  {
    DedupKeptIds(s);
    if |s| > 0 {
      var p, e := s[..|s| - 1], s[|s| - 1];
      assert s == p + [e];
      var kept := Dedup(p);
      DedupFirstEntries(p);
      forall k | 0 <= k < |kept|
        ensures kept[k] == s[FirstIndex(s, kept[k].node.id)]
      {
        FirstIndexSnoc(p, e, kept[k].node.id);
        assert s[FirstIndex(p, kept[k].node.id)] == p[FirstIndex(p, kept[k].node.id)];
      }
      if e.node.id !in Ids(kept) {
        DedupIds(p);
        FirstIndexNew(p, e);
        var r := kept + [e];
        forall k | 0 <= k < |r| ensures r[k] == s[FirstIndex(s, r[k].node.id)] {
          if k < |kept| {
            assert r[k] == kept[k];
          }
        }
      }
    }
  }

  lemma {:induction false} DedupOrdered(s: seq<NodeWithScore>)
    ensures forall k :: 0 <= k < |Dedup(s)| ==> Dedup(s)[k].node.id in Ids(s)
    ensures forall a, b :: 0 <= a < b < |Dedup(s)| ==>
      FirstIndex(s, Dedup(s)[a].node.id) < FirstIndex(s, Dedup(s)[b].node.id)
    decreases |s|
  {
    DedupKeptIds(s);
    if |s| > 0 {
      var p, e := s[..|s| - 1], s[|s| - 1];
      assert s == p + [e];
      var kept := Dedup(p);
      DedupOrdered(p);
      forall k | 0 <= k < |kept|
        ensures FirstIndex(s, kept[k].node.id) == FirstIndex(p, kept[k].node.id)
      {
        FirstIndexSnoc(p, e, kept[k].node.id);
      }
      if e.node.id !in Ids(kept) {
        DedupIds(p);
        FirstIndexNew(p, e);
        var r := kept + [e];
        forall a, b | 0 <= a < b < |r|
          ensures FirstIndex(s, r[a].node.id) < FirstIndex(s, r[b].node.id)
        {
          assert r[a] == kept[a];
          if b < |kept| {
            assert r[b] == kept[b];
          }
        }
      }
    }
  }

  /**
   * The merge never lengthens its input, and it keeps every entry exactly
   * when no node id repeats.
   */
  lemma {:induction false} DedupLength(s: seq<NodeWithScore>)
    ensures |Dedup(s)| <= |s|
    ensures |Dedup(s)| == |s| <==> UniqueIds(s)
    decreases |s|
  {
    if |s| > 0 {
      var p, e := s[..|s| - 1], s[|s| - 1];
      var kept := Dedup(p);
      DedupLength(p);
      DedupIds(p);
      if UniqueIds(s) {
        forall i, j | 0 <= i < j < |p| ensures p[i].node.id != p[j].node.id {
          assert p[i] == s[i] && p[j] == s[j];
        }
        assert forall k :: 0 <= k < |p| ==> s[k] == p[k];
      }
      if |Dedup(s)| == |s| {
        assert e.node.id !in Ids(kept);
        forall i, j | 0 <= i < j < |s| ensures s[i].node.id != s[j].node.id {
          if j < |p| {
            assert p[i] == s[i] && p[j] == s[j];
          } else {
            assert s[i] == p[i];
            assert p[i].node.id in Ids(p);
          }
        }
      }
    }
  }

  /** Merging more input keeps what was already merged as a prefix. */
  lemma {:induction false} DedupPrefix(a: seq<NodeWithScore>, b: seq<NodeWithScore>)
    ensures |Dedup(a)| <= |Dedup(a + b)|
    ensures Dedup(a + b)[..|Dedup(a)|] == Dedup(a)
    decreases |b|
  {
    if |b| == 0 {
      assert a + b == a;
    } else {
      var b' := b[..|b| - 1];
      assert (a + b)[..|a + b| - 1] == a + b';
      DedupPrefix(a, b');
    }
  }

  /**
   * The merge of one turn: ids are unique, the ids are those of both
   * lists, the BM25 entries (deduplicated) come first, and an id found by
   * both retrievers keeps its BM25 entry and score. Entries found only by
   * the vector retriever keep their first vector entry.
   */
  lemma MergeProperties(bm25Nodes: seq<NodeWithScore>, vectorNodes: seq<NodeWithScore>)
    ensures UniqueIds(Merge(bm25Nodes, vectorNodes))
    ensures Ids(Merge(bm25Nodes, vectorNodes)) == Ids(bm25Nodes) + Ids(vectorNodes)
    ensures |Dedup(bm25Nodes)| <= |Merge(bm25Nodes, vectorNodes)|
      && Merge(bm25Nodes, vectorNodes)[..|Dedup(bm25Nodes)|] == Dedup(bm25Nodes)
    ensures forall k :: (0 <= k < |Merge(bm25Nodes, vectorNodes)|
                         && Merge(bm25Nodes, vectorNodes)[k].node.id in Ids(bm25Nodes)) ==>
      Merge(bm25Nodes, vectorNodes)[k] == bm25Nodes[FirstIndex(bm25Nodes, Merge(bm25Nodes, vectorNodes)[k].node.id)]
    ensures forall k :: (0 <= k < |Merge(bm25Nodes, vectorNodes)|
                         && Merge(bm25Nodes, vectorNodes)[k].node.id !in Ids(bm25Nodes)) ==>
      (Merge(bm25Nodes, vectorNodes)[k].node.id in Ids(vectorNodes)
       && Merge(bm25Nodes, vectorNodes)[k] == vectorNodes[FirstIndex(vectorNodes, Merge(bm25Nodes, vectorNodes)[k].node.id)])
    ensures |Merge(bm25Nodes, vectorNodes)| <= |bm25Nodes| + |vectorNodes|
    ensures |Merge(bm25Nodes, vectorNodes)| == |bm25Nodes| + |vectorNodes| <==> UniqueIds(bm25Nodes + vectorNodes)
  {
    var s := bm25Nodes + vectorNodes;
    DedupUnique(s);
    DedupIds(s);
    IdsConcat(bm25Nodes, vectorNodes);
    DedupLength(s);
    DedupPrefix(bm25Nodes, vectorNodes);
    MergeSources(bm25Nodes, vectorNodes);
  }

  lemma IdsConcat(a: seq<NodeWithScore>, b: seq<NodeWithScore>)
    ensures Ids(a + b) == Ids(a) + Ids(b)
  {
    var s := a + b;
    forall x | x in Ids(s) ensures x in Ids(a) + Ids(b) {
      var k :| 0 <= k < |s| && s[k].node.id == x;
      if k < |a| { assert s[k] == a[k]; } else { assert s[k] == b[k - |a|]; }
    }
    forall x | x in Ids(a) + Ids(b) ensures x in Ids(s) {
      if x in Ids(a) {
        var k :| 0 <= k < |a| && a[k].node.id == x;
        assert s[k] == a[k];
      } else {
        var k :| 0 <= k < |b| && b[k].node.id == x;
        assert s[|a| + k] == b[k];
      }
    }
  }

  /** Where each merged entry comes from: its first BM25 entry, else its first vector entry. */
  lemma MergeSources(bm25Nodes: seq<NodeWithScore>, vectorNodes: seq<NodeWithScore>)
    ensures forall k :: (0 <= k < |Merge(bm25Nodes, vectorNodes)|
                         && Merge(bm25Nodes, vectorNodes)[k].node.id in Ids(bm25Nodes)) ==>
      Merge(bm25Nodes, vectorNodes)[k] == bm25Nodes[FirstIndex(bm25Nodes, Merge(bm25Nodes, vectorNodes)[k].node.id)]
    ensures forall k :: (0 <= k < |Merge(bm25Nodes, vectorNodes)|
                         && Merge(bm25Nodes, vectorNodes)[k].node.id !in Ids(bm25Nodes)) ==>
      (Merge(bm25Nodes, vectorNodes)[k].node.id in Ids(vectorNodes)
       && Merge(bm25Nodes, vectorNodes)[k] == vectorNodes[FirstIndex(vectorNodes, Merge(bm25Nodes, vectorNodes)[k].node.id)])
  {
    var s := bm25Nodes + vectorNodes;
    var r := Merge(bm25Nodes, vectorNodes);
    DedupFirstOccurrences(s);
    forall k | 0 <= k < |r|
      ensures r[k].node.id in Ids(bm25Nodes) ==> r[k] == bm25Nodes[FirstIndex(bm25Nodes, r[k].node.id)]
      ensures r[k].node.id !in Ids(bm25Nodes) ==>
        (r[k].node.id in Ids(vectorNodes) && r[k] == vectorNodes[FirstIndex(vectorNodes, r[k].node.id)])
    {
      var x := r[k].node.id;
      FirstIndexAppend(bm25Nodes, vectorNodes, x);
      if x in Ids(bm25Nodes) {
        assert s[FirstIndex(bm25Nodes, x)] == bm25Nodes[FirstIndex(bm25Nodes, x)];
      } else {
        assert s[|bm25Nodes| + FirstIndex(vectorNodes, x)] == vectorNodes[FirstIndex(vectorNodes, x)];
      }
    }
  }

  /**
   * The loop of _retrieve: walk bm25_nodes + vector_nodes, appending a node
   * and recording its id unless the id was already recorded.
   */
  method MergeNodes(bm25Nodes: seq<NodeWithScore>, vectorNodes: seq<NodeWithScore>)
    returns (allNodes: seq<NodeWithScore>)
    ensures allNodes == Merge(bm25Nodes, vectorNodes)
  {
    var candidates := bm25Nodes + vectorNodes;
    allNodes := [];
    var nodeIds: set<string> := {};
    for i := 0 to |candidates|
      invariant allNodes == Dedup(candidates[..i])
      invariant nodeIds == Ids(allNodes)
    {
      var n := candidates[i];
      assert candidates[..i + 1][..i] == candidates[..i];
      if n.node.id !in nodeIds {
        IdsSnoc(allNodes, n);
        allNodes := allNodes + [n];
        nodeIds := nodeIds + {n.node.id};
      }
    }
    assert candidates[..|candidates|] == candidates;
  }

  /** The query bundle handed to the retrievers; only its text is modelled. */
  datatype QueryBundle = QueryBundle(queryStr: string)

  /** One call into a retriever, as the hybrid retriever issues it. */
  datatype RetrieverCall = Bm25Call(queryStr: string) | VectorCall(query: QueryBundle)

  /**
   * A hybrid retriever over one collection. The two retrievers are foreign
   * services, seen as functions of what they are given; `calls` records
   * which of them was asked what, in order.
   */
  class Hybrid {
    const vectorRetriever: QueryBundle -> seq<NodeWithScore>
    const bm25Retriever: string -> seq<NodeWithScore>
    ghost var calls: seq<RetrieverCall>

    constructor (vectorRetriever: QueryBundle -> seq<NodeWithScore>, bm25Retriever: string -> seq<NodeWithScore>)
      ensures this.vectorRetriever == vectorRetriever && this.bm25Retriever == bm25Retriever
      ensures calls == []
    {
      this.vectorRetriever := vectorRetriever;
      this.bm25Retriever := bm25Retriever;
      calls := [];
    }

    /**
     * BM25 is asked the query text, then the vector retriever the whole
     * bundle, once each; the result is their merge.
     */
    method Retrieve(query: QueryBundle) returns (nodes: seq<NodeWithScore>)
      modifies this
      ensures calls == old(calls) + [Bm25Call(query.queryStr), VectorCall(query)]
      ensures nodes == Merge(bm25Retriever(query.queryStr), vectorRetriever(query))
    {
      var bm25Nodes := bm25Retriever(query.queryStr);
      calls := calls + [Bm25Call(query.queryStr)];
      var vectorNodes := vectorRetriever(query);
      calls := calls + [VectorCall(query)];
      nodes := MergeNodes(bm25Nodes, vectorNodes);
    }
  }
}
