/**
 The role post-filter of `retrieve_docs` in tools/rag_retriever.py. The
 embedding model and the vector index are not modelled: the input is the
 ranking the index would produce, best first, and `limit=top_k` keeps its
 first `top_k` points. Scores are carried along untouched.
 */
module RagRetriever {
  import opened Common

  /** A point's payload; every key may be missing. */
  datatype Payload = Payload(
    docName: Option<string>,
    chunkId: Option<int>,
    text: Option<string>,
    allowedRoles: Option<seq<string>>)

  /** A point as the index returns it; the payload itself may be missing. */
  datatype ScoredPoint = ScoredPoint(payload: Option<Payload>, score: Option<real>)

  /** One record of the result list. */
  datatype Note = Note(docName: Option<string>, chunkId: Option<int>, text: Option<string>, score: Option<real>)

  /** `(p.payload or {}).get("allowed_roles", [])`: a missing payload and a
      missing key both default to the empty list. */
  function AllowedRolesOf(p: ScoredPoint): seq<string>
  {
    match p.payload
    case None => []
    case Some(payload) => if payload.allowedRoles.Some? then payload.allowedRoles.value else []
  }

  /** The role test applied to each point, written out case by case: a point
      passes when it has a payload whose `allowed_roles` is present and
      contains the role. */
  predicate VisibleTo(p: ScoredPoint, role: string)
  {
    && p.payload.Some?
    && p.payload.value.allowedRoles.Some?
    && role in p.payload.value.allowedRoles.value
  }

  /** The case-by-case test is `user_role in allowed_roles` with the
      defaults applied, for every point and role. */
  lemma VisibleToIsDefaultedMembership(p: ScoredPoint, role: string)
    ensures VisibleTo(p, role) <==> role in AllowedRolesOf(p)
  {
  }

  /** A point without a payload, or whose payload has no `allowed_roles`,
      is excluded for every role. */
  lemma UntaggedPointsHidden(p: ScoredPoint, role: string)
    ensures p.payload.None? ==> !VisibleTo(p, role)
    ensures p.payload.Some? && p.payload.value.allowedRoles.None? ==> !VisibleTo(p, role)
  {
    // both cases default to the empty list, which contains no role
    VisibleToIsDefaultedMembership(p, role);
    assert p.payload.None? || p.payload.value.allowedRoles.None? ==> AllowedRolesOf(p) == [];
  }

  /** The record built for a point that passes the test. */
  function ToNote(p: ScoredPoint): (n: Note)
    requires p.payload.Some?
    ensures n.docName == p.payload.value.docName
    ensures n.chunkId == p.payload.value.chunkId
    ensures n.text == p.payload.value.text
    ensures n.score == p.score
  {
    Note(p.payload.value.docName, p.payload.value.chunkId, p.payload.value.text, p.score)
  }

  /** The loop over the points, one point at a time, keeping the visible ones. */
  function RoleFilter(points: seq<ScoredPoint>, role: string): (notes: seq<Note>)
    ensures |notes| <= |points|
  {
    if |points| == 0 then []
    else
      var last := points[|points| - 1];
      RoleFilter(points[..|points| - 1], role) + (if VisibleTo(last, role) then [ToNote(last)] else [])
  }

  /** Reference description of the filter's output: the positions of the
      visible points among the first `n`, in increasing order. */
  function VisibleIndices(points: seq<ScoredPoint>, role: string, n: nat): (idx: seq<nat>)
    requires n <= |points|
    ensures forall j :: 0 <= j < |idx| ==> idx[j] < n
    ensures forall j, k :: 0 <= j < k < |idx| ==> idx[j] < idx[k]
    ensures forall i :: 0 <= i < n ==> (i in idx <==> VisibleTo(points[i], role))
  {
    if n == 0 then []
    else VisibleIndices(points, role, n - 1) + (if VisibleTo(points[n - 1], role) then [n - 1] else [])
  }

  /** The filter returns, in the index's order, one record for each visible
      point and nothing else: record `j` is built from the point at the `j`-th
      visible position. Together with the contract of `VisibleIndices` this
      says the result is sound, complete and order-preserving. */
  lemma {:induction false} RoleFilterSpec(points: seq<ScoredPoint>, role: string)
    ensures |RoleFilter(points, role)| == |VisibleIndices(points, role, |points|)|
    ensures forall j :: 0 <= j < |RoleFilter(points, role)| ==>
              VisibleTo(points[VisibleIndices(points, role, |points|)[j]], role) &&
              RoleFilter(points, role)[j] == ToNote(points[VisibleIndices(points, role, |points|)[j]])
  {
    if |points| > 0 {
      var init := points[..|points| - 1];
      var last := points[|points| - 1];
      RoleFilterSpec(init, role);
      PrefixIndices(points, init, role, |init|);
      var f, f' := RoleFilter(points, role), RoleFilter(init, role);
      var idx, idx' := VisibleIndices(points, role, |points|), VisibleIndices(init, role, |init|);
      assert f == f' + (if VisibleTo(last, role) then [ToNote(last)] else []);
      assert idx == idx' + (if VisibleTo(last, role) then [|init|] else []);
      forall j | 0 <= j < |f|
        ensures VisibleTo(points[idx[j]], role) && f[j] == ToNote(points[idx[j]])
      {
        if j < |f'| {
          assert f[j] == f'[j] && idx[j] == idx'[j];
          assert points[idx'[j]] == init[idx'[j]];
        }
      }
    }
  }

  /** The visible positions among the first `n` points only look at those points. */
  lemma {:induction false} PrefixIndices(points: seq<ScoredPoint>, init: seq<ScoredPoint>, role: string, n: nat)
    requires n <= |init| <= |points|
    requires init == points[..|init|]
    ensures VisibleIndices(points, role, n) == VisibleIndices(init, role, n)
  {
    if n > 0 {
      PrefixIndices(points, init, role, n - 1);
      assert points[n - 1] == init[n - 1];
      assert VisibleIndices(points, role, n) ==
             VisibleIndices(points, role, n - 1) + (if VisibleTo(points[n - 1], role) then [n - 1] else []);
    }
  }

  /** Filtering distributes over concatenation. */
  lemma {:induction false} RoleFilterAppend(a: seq<ScoredPoint>, b: seq<ScoredPoint>, role: string)
    ensures RoleFilter(a + b, role) == RoleFilter(a, role) + RoleFilter(b, role)
    decreases |b|
  {
    if |b| > 0 {
      var b' := b[..|b| - 1];
      assert (a + b)[..|a + b| - 1] == a + b';
      RoleFilterAppend(a, b', role);
    } else {
      assert a + b == a;
    }
  }

  /** `retrieve_docs` once the query is embedded: the index keeps the first
      `topK` points of its ranking, and the role filter runs on those. */
  function RetrieveDocs(ranking: seq<ScoredPoint>, role: string, topK: nat): (notes: seq<Note>)
    ensures |notes| <= topK
    ensures |notes| <= |ranking|
    // one record per visible point among the first `topK`, in ranking order, and nothing else
    ensures var idx := VisibleIndices(ranking, role, Min(topK, |ranking|));
            && |notes| == |idx|
            && forall j :: 0 <= j < |notes| ==> VisibleTo(ranking[idx[j]], role) && notes[j] == ToNote(ranking[idx[j]])
  {
    var shown := ranking[..Min(topK, |ranking|)];
    RoleFilterSpec(shown, role);
    PrefixIndices(ranking, shown, role, |shown|);
    RoleFilter(shown, role)
  }

  /** Filtering after the limit yields a prefix of the role-visible ranking:
      the records come in ranking order, but visible points beyond the first
      `topK` are never reached, so fewer than `topK` may come back. */
  lemma RetrieveIsPrefixOfVisibleRanking(ranking: seq<ScoredPoint>, role: string, topK: nat)
    ensures RetrieveDocs(ranking, role, topK) <= RoleFilter(ranking, role)
  {
    var k := Min(topK, |ranking|);
    assert ranking == ranking[..k] + ranking[k..];
    RoleFilterAppend(ranking[..k], ranking[k..], role);
  }

  /** A concrete ranking where the limit and the filter do not commute: the
      best point is hidden from the role and the second is visible, so with
      `topK = 1` nothing is returned, although filtering first would give one
      record. */
  lemma FilterAfterLimitUnderfills()
    ensures var hidden := ScoredPoint(Some(Payload(Some("a.md"), Some(0), Some("x"), Some(["ops"]))), Some(0.9));
            var shown := ScoredPoint(Some(Payload(Some("b.md"), Some(0), Some("y"), Some(["finance"]))), Some(0.5));
            && RetrieveDocs([hidden, shown], "finance", 1) == []
            && |RoleFilter([hidden, shown], "finance")[..1]| == 1
  {
    var hidden := ScoredPoint(Some(Payload(Some("a.md"), Some(0), Some("x"), Some(["ops"]))), Some(0.9));
    var shown := ScoredPoint(Some(Payload(Some("b.md"), Some(0), Some("y"), Some(["finance"]))), Some(0.5));
    assert !VisibleTo(hidden, "finance") by {
      assert "finance" != "ops";
    }
    assert VisibleTo(shown, "finance");
    assert [hidden, shown][..1] == [hidden];
    assert [hidden, shown][..|[hidden, shown]| - 1] == [hidden];
    assert [hidden][..0] == [];
  }
}
