/** The hybrid search of src/utils/mongodb.ts: the aggregation pipeline that
    fuses a vector-similarity branch with a full-text branch, read as the
    sequential computation it spells out, and the lazily created embeddings
    client. The store's `$vectorSearch` and `$search` stages are opaque; the
    hits they return are inputs. */
module Fusion {
  import opened Wrappers
  import opened Strings

  /** A document key (`_id`); the pipeline only compares keys for equality. */
  type DocId = int
  type Vector = seq<real>

  // Constants of the pipeline.
  const VectorWeight: real := 0.5
  const FullTextWeight: real := 0.5
  const NumCandidates: nat := 20
  const VectorLimit: nat := 20
  const TextLimit: nat := 20
  const TextScoreDivisor: real := 10.0
  const FinalLimit: nat := 20
  const Marker: string := "Other specifications:"

  /** A hit of the vector branch: a document of the embedding collection with
      the fields the first `$project` keeps, and its `vectorSearchScore`. */
  datatype VectorHit = VectorHit(id: DocId, description: Option<string>,
                                 combinedData: Option<string>, score: real)

  /** A hit of the full-text branch over the `travel` collection, with its
      raw `searchScore`. */
  datatype TextHit = TextHit(id: DocId, text: Option<string>, docId: Option<DocId>,
                             combinedData: Option<string>, searchScore: real)

  /** A document of the union, with the fields `$group` reads: a missing
      field is `None`. */
  datatype Record = Record(id: DocId, combinedData: Option<string>,
                           vsScore: Option<real>, ftsScore: Option<real>)

  /** A document of the pipeline's output (`_id` is projected away). */
  datatype FusedDoc = FusedDoc(docId: DocId, description: Option<string>,
                               score: real, vsScore: real, ftsScore: real)

  /** A summary of the pipeline array: the parts that depend on the call,
      with its numeric constants. Index names, paths, the `travel`
      collection and the stage layout are not recorded. */
  datatype Pipeline = Pipeline(queryVector: Vector, lexicalQuery: string,
                               numCandidates: nat, vectorLimit: nat, textLimit: nat,
                               textScoreDivisor: real, vectorWeight: real,
                               fullTextWeight: real, finalLimit: nat)

  /** What `hybridSearch` returns: `[results, pipeline]`. */
  datatype SearchOutput = SearchOutput(documents: seq<FusedDoc>, pipeline: Pipeline)

  /** The store's two search stages; `None` when the store fails. */
  datatype Store = Store(vectorSearch: Vector -> Option<seq<VectorHit>>,
                         textSearch: string -> Option<seq<TextHit>>)

  // ---------------------------------------------------------------------
  // The lexical query

  /** `textQuery.split(Marker)[1]?.trim() || textQuery`. */
  function LexicalQuery(textQuery: string): string {
    var pieces := Split(textQuery, Marker);
    if |pieces| > 1 && Trim(pieces[1]) != "" then Trim(pieces[1]) else textQuery
  }

  /** The first piece of a split: everything before the first occurrence of
      the separator, or the whole string. */
  function FirstPiece(s: string, sep: string): string {
    match IndexOf(s, sep)
    case None => s
    case Some(j) => s[..j]
  }

  /** The lexical query is the trimmed text between the first marker and the
      next one (or the end); it is the query unchanged when there is no
      marker or that text is all white space. */
  lemma LexicalQueryCases(q: string)
    ensures IndexOf(q, Marker).None? ==> LexicalQuery(q) == q
    ensures IndexOf(q, Marker).Some? ==>
      var seg := FirstPiece(q[IndexOf(q, Marker).value + |Marker|..], Marker);
      LexicalQuery(q) == if AllWhitespace(seg) then q else Trim(seg)
  {
    match IndexOf(q, Marker)
    case None =>
    case Some(i) =>
      var rest := q[i + |Marker|..];
      assert Split(q, Marker) == [q[..i]] + Split(rest, Marker);
      assert Split(rest, Marker)[0] == FirstPiece(rest, Marker);
  }

  /** A question that ends in "Other specifications: quiet beaches" is
      searched for "quiet beaches"; one without the marker is searched as
      it is. */
  lemma LexicalQueryExample()
    ensures LexicalQuery("plan a trip. " + Marker + " quiet beaches") == "quiet beaches"
    ensures LexicalQuery("plan a trip") == "plan a trip"
  {
    var head, tail := "plan a trip. ", " quiet beaches";
    var q := head + Marker + tail;
    ExampleMarkerAt13(head, tail);
    assert q[13 + |Marker|..] == tail;
    assert IndexOf(tail, Marker).None?;
    ExampleTrim();
    LexicalQueryCases(q);
    assert IndexOf("plan a trip", Marker).None?;
    LexicalQueryCases("plan a trip");
  }

  lemma ExampleMarkerAt13(head: string, tail: string)
    requires head == "plan a trip. "
    ensures IndexOf(head + Marker + tail, Marker) == Some(13)
  {
    var q := head + Marker + tail;
    assert q[..13] == head;
    assert OccursAt(q, Marker, 13) by { assert q[13..13 + |Marker|] == Marker; }
    assert 'O' !in head;
    FirstCharAbsent(q, Marker, 13);
    FirstOccurrence(q, Marker, 13);
  }

  lemma ExampleTrim()
    ensures Trim(" quiet beaches") == "quiet beaches"
  {
    var rest := " quiet beaches";
    assert LeadingWhitespace(rest) == 1 by {
      assert rest[1..][0] == 'q';
    }
    assert TrailingStart(rest) == 14;
    assert rest[1..14] == "quiet beaches";
  }

  // ---------------------------------------------------------------------
  // The two branches and their union

  /** The first `n` elements, or all of them (`$limit`). */
  function Take<T>(s: seq<T>, n: nat): (r: seq<T>)
    ensures |r| == if |s| <= n then |s| else n
    ensures r == s[..|r|]
  {
    if |s| <= n then s else s[..n]
  }

  /** A vector hit as `$unionWith` passes it on. */
  function FromVectorHit(h: VectorHit): Record {
    Record(h.id, h.combinedData, Some(h.score), None)
  }

  /** A text hit after `$addFields` and `$project`: the score is divided by
      ten and `combined_data` is not kept. */
  function FromTextHit(h: TextHit): Record {
    Record(h.id, None, None, Some(h.searchScore / TextScoreDivisor))
  }

  function VectorRecords(hits: seq<VectorHit>): seq<Record> {
    var kept := Take(hits, VectorLimit);
    seq(|kept|, i requires 0 <= i < |kept| => FromVectorHit(kept[i]))
  }

  function TextRecords(hits: seq<TextHit>): seq<Record> {
    var kept := Take(hits, TextLimit);
    seq(|kept|, i requires 0 <= i < |kept| => FromTextHit(kept[i]))
  }

  /** The documents `$group` sees: the vector records, then the text ones. */
  function UnionRecords(vh: seq<VectorHit>, th: seq<TextHit>): seq<Record> {
    VectorRecords(vh) + TextRecords(th)
  }

  /** Each branch contributes its first hits up to its limit; vector records
      come first, each from the hit at the same position, and the text
      records follow. */
  lemma UnionShape(vh: seq<VectorHit>, th: seq<TextHit>)
    ensures var rs, nv := UnionRecords(vh, th), |Take(vh, VectorLimit)|;
      && nv <= VectorLimit && |rs| - nv <= TextLimit && |rs| <= VectorLimit + TextLimit
      && |rs| == nv + |Take(th, TextLimit)|
      && (forall k :: 0 <= k < nv ==> rs[k] == FromVectorHit(vh[k]))
      && (forall k :: nv <= k < |rs| ==> rs[k] == FromTextHit(th[k - nv]))
  {
  }

  // ---------------------------------------------------------------------
  // `$group` by `_id`

  /** The set of group keys of the union. */
  ghost function IdSet(rs: seq<Record>): set<DocId> {
    set k | 0 <= k < |rs| :: rs[k].id
  }

  /** The distinct keys of `rs`, in order of first appearance. */
  function GroupKeys(rs: seq<Record>): (keys: seq<DocId>)
    ensures forall i, j :: 0 <= i < j < |keys| ==> keys[i] != keys[j]
    ensures forall id :: id in keys <==> id in IdSet(rs)
    ensures |keys| == |IdSet(rs)|
  {
    if rs == [] then []
    else
      var keys := GroupKeys(rs[..|rs| - 1]);
      var last := rs[|rs| - 1].id;
      IdSetSnoc(rs);
      if last in keys then
        assert IdSet(rs) == IdSet(rs[..|rs| - 1]);
        keys
      else
        assert last !in IdSet(rs[..|rs| - 1]);
        keys + [last]
  }

  lemma IdSetSnoc(rs: seq<Record>)
    requires rs != []
    ensures IdSet(rs) == IdSet(rs[..|rs| - 1]) + {rs[|rs| - 1].id}
  {
    var prefix := rs[..|rs| - 1];
    assert forall k :: 0 <= k < |prefix| ==> prefix[k] == rs[k];
  }

  /** The first position of a record with key `id`. */
  function FirstIndex(rs: seq<Record>, id: DocId): (k: Option<nat>)
    ensures k.Some? ==> k.value < |rs| && rs[k.value].id == id
                        && forall j :: 0 <= j < k.value ==> rs[j].id != id
    ensures k.None? ==> forall j :: 0 <= j < |rs| ==> rs[j].id != id
  {
    if rs == [] then None
    else if rs[0].id == id then Some(0)
    else match FirstIndex(rs[1..], id)
      case None => None
      case Some(j) => Some(j + 1)
  }

  /** `$first: '$combined_data'`: the field of the group's first record,
      missing when that record has none. */
  function FirstCombinedData(rs: seq<Record>, id: DocId): Option<string> {
    match FirstIndex(rs, id)
    case None => None
    case Some(k) => rs[k].combinedData
  }

  datatype Branch = VectorBranch | TextBranch

  function BranchScore(r: Record, b: Branch): Option<real> {
    match b
    case VectorBranch => r.vsScore
    case TextBranch => r.ftsScore
  }

  /** `$max` of two values, where a missing value is ignored. */
  function MaxOf(x: Option<real>, y: Option<real>): Option<real> {
    match (x, y)
    case (None, _) => y
    case (_, None) => x
    case (Some(a), Some(b)) => if a >= b then x else y
  }

  /** `$max` of one score field over the records with key `id`: the largest
      value present, missing when no such record has the field. */
  function MaxScore(rs: seq<Record>, id: DocId, b: Branch): (m: Option<real>)
    ensures m.None? <==> forall k :: 0 <= k < |rs| && rs[k].id == id ==> BranchScore(rs[k], b).None?
    ensures m.Some? ==> exists k :: 0 <= k < |rs| && rs[k].id == id && BranchScore(rs[k], b) == m
    ensures m.Some? ==> forall k :: 0 <= k < |rs| && rs[k].id == id && BranchScore(rs[k], b).Some?
                                    ==> BranchScore(rs[k], b).value <= m.value
  {
    if rs == [] then None
    else
      var here := if rs[0].id == id then BranchScore(rs[0], b) else None;
      var rest := MaxScore(rs[1..], id, b);
      assert forall k :: 1 <= k < |rs| ==> rs[k] == rs[1..][k - 1];
      var m := MaxOf(here, rest);
      assert rest.Some? ==> exists k :: 1 <= k < |rs| && rs[k].id == id && BranchScore(rs[k], b) == rest by {
        if rest.Some? {
          var j :| 0 <= j < |rs[1..]| && rs[1..][j].id == id && BranchScore(rs[1..][j], b) == rest;
          assert rs[j + 1] == rs[1..][j];
        }
      }
      m
  }

  /** The weighted sum of the last `$project`: the text score is weighted by
      `VectorWeight` and the vector score by `FullTextWeight`. */
  function FusedScore(vs: real, fts: real): real {
    fts * VectorWeight + vs * FullTextWeight
  }

  /** The output document of the group with key `id`: `$group`, then
      `$ifNull` on both scores, then the weighted score. */
  function GroupOf(rs: seq<Record>, id: DocId): FusedDoc {
    var vs := MaxScore(rs, id, VectorBranch).GetOr(0.0);
    var fts := MaxScore(rs, id, TextBranch).GetOr(0.0);
    FusedDoc(id, FirstCombinedData(rs, id), FusedScore(vs, fts), vs, fts)
  }

  /** One output document per key, in order of first appearance. */
  function Grouped(rs: seq<Record>): seq<FusedDoc> {
    var keys := GroupKeys(rs);
    seq(|keys|, i requires 0 <= i < |keys| => GroupOf(rs, keys[i]))
  }

  // ---------------------------------------------------------------------
  // `$sort: {score: -1}` and `$limit: 20`

  predicate SortedByScore(s: seq<FusedDoc>) {
    forall i, j :: 0 <= i < j < |s| ==> s[i].score >= s[j].score
  }

  function Insert(d: FusedDoc, s: seq<FusedDoc>): (r: seq<FusedDoc>)
    ensures multiset(r) == multiset(s) + multiset{d}
  {
    if s == [] || d.score >= s[0].score then [d] + s
    else
      var r := [s[0]] + Insert(d, s[1..]);
      assert s == [s[0]] + s[1..];
      r
  }

  /** Inserting into a sorted sequence keeps it sorted. */
  lemma {:induction false} InsertSorted(d: FusedDoc, s: seq<FusedDoc>)
    requires SortedByScore(s)
    ensures SortedByScore(Insert(d, s))
  {
    if s != [] && d.score < s[0].score {
      var tail := Insert(d, s[1..]);
      InsertSorted(d, s[1..]);
      forall y | y in tail ensures y.score <= s[0].score {
        assert y in multiset(tail);
        assert y == d || y in s[1..];
      }
      assert Insert(d, s) == [s[0]] + tail;
    }
  }

  /** A descending sort by score. Equal scores keep their order here; the
      store does not promise that, and `IsRanking` does not rely on it. */
  function SortByScore(s: seq<FusedDoc>): (r: seq<FusedDoc>)
    ensures multiset(r) == multiset(s)
    ensures SortedByScore(r)
  {
    if s == [] then []
    else
      assert s == [s[0]] + s[1..];
      InsertSorted(s[0], SortByScore(s[1..]));
      Insert(s[0], SortByScore(s[1..]))
  }

  /** The pipeline from the union to its output. */
  function FuseRecords(rs: seq<Record>): seq<FusedDoc> {
    Take(SortByScore(Grouped(rs)), FinalLimit)
  }

  function Fuse(vh: seq<VectorHit>, th: seq<TextHit>): seq<FusedDoc> {
    FuseRecords(UnionRecords(vh, th))
  }

  /** What every permitted output of the pipeline satisfies, whatever order
      the store gives equal scores: as many documents as there are keys, up
      to the limit; sorted by score; one document per key, each the group of
      its key; and no key left out that scores above a key kept. */
  ghost predicate IsRanking(rs: seq<Record>, out: seq<FusedDoc>) {
    && |out| == (if |IdSet(rs)| <= FinalLimit then |IdSet(rs)| else FinalLimit)
    && SortedByScore(out)
    && DistinctKeys(out)
    && (forall i :: 0 <= i < |out| ==> out[i].docId in IdSet(rs) && out[i] == GroupOf(rs, out[i].docId))
    && (forall id :: id in IdSet(rs) && (forall i :: 0 <= i < |out| ==> out[i].docId != id) ==>
          forall i :: 0 <= i < |out| ==> GroupOf(rs, id).score <= out[i].score)
  }

  /** No two documents share a key. */
  predicate DistinctKeys(s: seq<FusedDoc>) {
    forall i, j :: 0 <= i < j < |s| ==> s[i].docId != s[j].docId
  }

  /** The grouped documents have distinct keys and are the groups of the
      union's keys. */
  lemma GroupedFacts(rs: seq<Record>)
    ensures var g := Grouped(rs);
      && |g| == |IdSet(rs)| && DistinctKeys(g)
      && (forall i :: 0 <= i < |g| ==> g[i].docId in IdSet(rs) && g[i] == GroupOf(rs, g[i].docId))
      && (forall id :: id in IdSet(rs) ==> GroupOf(rs, id) in g && GroupOf(rs, id).docId == id)
  {
    var keys := GroupKeys(rs);
    var g := Grouped(rs);
    forall id | id in IdSet(rs) ensures GroupOf(rs, id) in g {
      var i :| 0 <= i < |keys| && keys[i] == id;
      assert g[i] == GroupOf(rs, id);
    }
  }

  /** A permutation of documents with distinct keys has distinct keys. */
  lemma PermutationDistinct(g: seq<FusedDoc>, s: seq<FusedDoc>)
    requires multiset(s) == multiset(g) && DistinctKeys(g)
    ensures DistinctKeys(s)
  {
    forall i, j | 0 <= i < j < |s| ensures s[i].docId != s[j].docId {
      if s[i].docId == s[j].docId {
        assert s[i] in multiset(g) && s[j] in multiset(g);
        var a :| 0 <= a < |g| && g[a] == s[i];
        var b :| 0 <= b < |g| && g[b] == s[j];
        assert a == b;
        TwoCopies(s, i, j);
        DistinctKeysOnce(g, s[i]);
        assert false;
      }
    }
  }

  /** A document at two positions occurs twice. */
  lemma TwoCopies(s: seq<FusedDoc>, i: nat, j: nat)
    requires i < j < |s| && s[i] == s[j]
    ensures multiset(s)[s[i]] >= 2
  {
    assert s == s[..j] + [s[j]] + s[j + 1..];
    assert s[i] in s[..j];
    assert multiset(s) == multiset(s[..j]) + multiset{s[j]} + multiset(s[j + 1..]);
  }

  /** In documents with distinct keys each document appears at most once. */
  lemma {:induction false} DistinctKeysOnce(g: seq<FusedDoc>, x: FusedDoc)
    requires DistinctKeys(g)
    ensures multiset(g)[x] <= 1
  {
    if g != [] {
      var last := g[|g| - 1];
      var prefix := g[..|g| - 1];
      assert g == prefix + [last];
      DistinctKeysOnce(prefix, x);
      if last == x {
        assert x !in prefix;
      }
    }
  }

  /** Sorting keeps the documents: the same number, the same elements, and
      keys stay distinct. */
  lemma SortKeeps(g: seq<FusedDoc>)
    ensures var s := SortByScore(g);
      && |s| == |g|
      && (forall x :: x in s <==> x in g)
      && (DistinctKeys(g) ==> DistinctKeys(s))
  {
    var s := SortByScore(g);
    assert |multiset(s)| == |multiset(g)|;
    forall x ensures x in s <==> x in g {
      assert x in s <==> x in multiset(s);
      assert x in g <==> x in multiset(g);
    }
    if DistinctKeys(g) {
      PermutationDistinct(g, s);
    }
  }

  /** Keeping the first `n` of a sorted sequence: whatever was dropped
      scores no higher than anything kept. */
  lemma TopOfSorted(s: seq<FusedDoc>, n: nat)
    requires SortedByScore(s)
    ensures var out := Take(s, n);
      && SortedByScore(out)
      && forall x :: x in s && (forall i :: 0 <= i < |out| ==> out[i].docId != x.docId) ==>
           forall i :: 0 <= i < |out| ==> x.score <= out[i].score
  {
    var out := Take(s, n);
    forall x | x in s && (forall i :: 0 <= i < |out| ==> out[i].docId != x.docId)
      ensures forall i :: 0 <= i < |out| ==> x.score <= out[i].score
    {
      var k :| 0 <= k < |s| && s[k] == x;
      assert k >= |out|;
    }
  }

  /** `out` is the top `n` of the documents `g`: as many as there are, up
      to `n`; sorted by score; drawn from `g` with distinct keys; and no
      document of `g` left out scores above one kept. */
  predicate IsTopOf(g: seq<FusedDoc>, out: seq<FusedDoc>, n: nat) {
    && |out| == (if |g| <= n then |g| else n)
    && SortedByScore(out)
    && DistinctKeys(out)
    && (forall i :: 0 <= i < |out| ==> out[i] in g)
    && (forall x :: x in g && (forall i :: 0 <= i < |out| ==> out[i].docId != x.docId) ==>
          forall i :: 0 <= i < |out| ==> x.score <= out[i].score)
  }

  /** Sorting and then keeping `n` documents gives the top `n`. */
  lemma SortTakeIsTop(g: seq<FusedDoc>, n: nat)
    requires DistinctKeys(g)
    ensures IsTopOf(g, Take(SortByScore(g), n), n)
  {
    var s := SortByScore(g);
    var out := Take(s, n);
    SortKeeps(g);
    TopOfSorted(s, n);
    forall i | 0 <= i < |out| ensures out[i] in g {
      assert out[i] == s[i];
    }
  }

  /** The pipeline's output is a permitted ranking of the union. */
  lemma FuseIsRanking(rs: seq<Record>)
    ensures IsRanking(rs, FuseRecords(rs))
  {
    var g := Grouped(rs);
    var out := FuseRecords(rs);
    GroupedFacts(rs);
    SortTakeIsTop(g, FinalLimit);
    assert IsTopOf(g, out, FinalLimit);
    TopIsRanking(rs, g, out);
  }

  lemma TopIsRanking(rs: seq<Record>, g: seq<FusedDoc>, out: seq<FusedDoc>)
    requires |g| == |IdSet(rs)|
    requires forall i :: 0 <= i < |g| ==> g[i].docId in IdSet(rs) && g[i] == GroupOf(rs, g[i].docId)
    requires forall id :: id in IdSet(rs) ==> GroupOf(rs, id) in g && GroupOf(rs, id).docId == id
    requires IsTopOf(g, out, FinalLimit)
    ensures IsRanking(rs, out)
  {
    forall i | 0 <= i < |out|
      ensures out[i].docId in IdSet(rs) && out[i] == GroupOf(rs, out[i].docId)
    {
      var j :| 0 <= j < |g| && g[j] == out[i];
    }
  }

  /** The documents' keys, as a set. */
  ghost function OutIds(out: seq<FusedDoc>): set<DocId> {
    set i | 0 <= i < |out| :: out[i].docId
  }

  lemma {:induction false} DistinctIdsCount(out: seq<FusedDoc>)
    requires DistinctKeys(out)
    ensures |OutIds(out)| == |out|
  {
    if out != [] {
      var prefix, last := out[..|out| - 1], out[|out| - 1];
      assert forall i :: 0 <= i < |prefix| ==> prefix[i] == out[i];
      DistinctIdsCount(prefix);
      OutIdsSnoc(out);
      assert last.docId !in OutIds(prefix);
    }
  }

  lemma OutIdsSnoc(out: seq<FusedDoc>)
    requires out != []
    ensures OutIds(out) == OutIds(out[..|out| - 1]) + {out[|out| - 1].docId}
  {
    var prefix := out[..|out| - 1];
    assert forall i :: 0 <= i < |prefix| ==> prefix[i] == out[i];
  }

  /** As many distinct keys as a set has, all from that set, are all of it. */
  lemma CoversKeys(out: seq<FusedDoc>, keys: set<DocId>)
    requires DistinctKeys(out) && |out| == |keys|
    requires forall i :: 0 <= i < |out| ==> out[i].docId in keys
    ensures OutIds(out) == keys
  {
    DistinctIdsCount(out);
    var ids := OutIds(out);
    assert ids <= keys;
    var missing := keys - ids;
    assert keys == ids + missing && ids * missing == {};
    assert |keys| == |ids| + |missing|;
    assert missing == {};
  }

  /** When there are no more keys than the limit, every key of the union
      has its document in a ranking: merging loses no key. */
  lemma RankingKeepsEveryKey(rs: seq<Record>, out: seq<FusedDoc>)
    requires IsRanking(rs, out)
    requires |IdSet(rs)| <= FinalLimit
    ensures OutIds(out) == IdSet(rs)
  {
    CoversKeys(out, IdSet(rs));
  }

  // ---------------------------------------------------------------------
  // The fields of one output document, stated on the branch hits

  /** `vs_score` is the largest vector score among the kept vector hits with
      the key, and 0 when there is none. */
  lemma VectorScoreOfGroup(vh: seq<VectorHit>, th: seq<TextHit>, id: DocId)
    ensures var kv, d := Take(vh, VectorLimit), GroupOf(UnionRecords(vh, th), id);
      && d.docId == id
      && ((forall k :: 0 <= k < |kv| ==> kv[k].id != id) ==> d.vsScore == 0.0)
      && ((exists k :: 0 <= k < |kv| && kv[k].id == id) ==>
            && (exists k :: 0 <= k < |kv| && kv[k].id == id && kv[k].score == d.vsScore)
            && (forall k :: 0 <= k < |kv| && kv[k].id == id ==> kv[k].score <= d.vsScore))
  {
    VectorMax(vh, th, id);
  }

  /** The vector branch's `$max` over the union, stated on the kept vector
      hits. */
  lemma VectorMax(vh: seq<VectorHit>, th: seq<TextHit>, id: DocId)
    ensures var kv, m := Take(vh, VectorLimit), MaxScore(UnionRecords(vh, th), id, VectorBranch);
      && (m.None? <==> forall k :: 0 <= k < |kv| ==> kv[k].id != id)
      && (m.Some? ==> exists k :: 0 <= k < |kv| && kv[k].id == id && kv[k].score == m.value)
      && (m.Some? ==> forall k :: 0 <= k < |kv| && kv[k].id == id ==> kv[k].score <= m.value)
  {
    var vr, kv := VectorRecords(vh), Take(vh, VectorLimit);
    assert forall k :: 0 <= k < |kv| ==> vr[k] == FromVectorHit(kv[k]);
    MaxScoreSkipsSuffix(vr, TextRecords(th), id, VectorBranch);
    var m := MaxScore(vr, id, VectorBranch);
    if m.Some? {
      var j :| 0 <= j < |vr| && vr[j].id == id && BranchScore(vr[j], VectorBranch) == m;
      assert kv[j].id == id && kv[j].score == m.value;
    }
  }

  /** `fts_score` is the largest `searchScore / 10` among the kept text hits
      with the key, and 0 when there is none. */
  lemma TextScoreOfGroup(vh: seq<VectorHit>, th: seq<TextHit>, id: DocId)
    ensures var kt, d := Take(th, TextLimit), GroupOf(UnionRecords(vh, th), id);
      && ((forall k :: 0 <= k < |kt| ==> kt[k].id != id) ==> d.ftsScore == 0.0)
      && ((exists k :: 0 <= k < |kt| && kt[k].id == id) ==>
            && (exists k :: 0 <= k < |kt| && kt[k].id == id
                            && kt[k].searchScore / TextScoreDivisor == d.ftsScore)
            && (forall k :: 0 <= k < |kt| && kt[k].id == id ==>
                            kt[k].searchScore / TextScoreDivisor <= d.ftsScore))
  {
    TextMax(vh, th, id);
  }

  /** The text branch's `$max` over the union, stated on the kept text hits. */
  lemma TextMax(vh: seq<VectorHit>, th: seq<TextHit>, id: DocId)
    ensures var kt, m := Take(th, TextLimit), MaxScore(UnionRecords(vh, th), id, TextBranch);
      && (m.None? <==> forall k :: 0 <= k < |kt| ==> kt[k].id != id)
      && (m.Some? ==> exists k :: 0 <= k < |kt| && kt[k].id == id
                                  && kt[k].searchScore / TextScoreDivisor == m.value)
      && (m.Some? ==> forall k :: 0 <= k < |kt| && kt[k].id == id ==>
                                  kt[k].searchScore / TextScoreDivisor <= m.value)
  {
    var tr, kt := TextRecords(th), Take(th, TextLimit);
    assert forall k :: 0 <= k < |kt| ==> tr[k] == FromTextHit(kt[k]);
    MaxScoreSkipsPrefix(VectorRecords(vh), tr, id, TextBranch);
    var m := MaxScore(tr, id, TextBranch);
    if m.Some? {
      var j :| 0 <= j < |tr| && tr[j].id == id && BranchScore(tr[j], TextBranch) == m;
      assert kt[j].id == id && kt[j].searchScore / TextScoreDivisor == m.value;
    }
  }

  /** Records without the branch's field do not change its `$max`, before
      the others ... */
  lemma {:induction false} MaxScoreSkipsPrefix(a: seq<Record>, b: seq<Record>, id: DocId, br: Branch)
    requires forall k :: 0 <= k < |a| ==> BranchScore(a[k], br).None?
    ensures MaxScore(a + b, id, br) == MaxScore(b, id, br)
  {
    if a != [] {
      assert (a + b)[0] == a[0] && (a + b)[1..] == a[1..] + b;
      assert forall k :: 0 <= k < |a[1..]| ==> a[1..][k] == a[k + 1];
      MaxScoreSkipsPrefix(a[1..], b, id, br);
    } else {
      assert a + b == b;
    }
  }

  /** ... or after them. */
  lemma {:induction false} MaxScoreSkipsSuffix(a: seq<Record>, b: seq<Record>, id: DocId, br: Branch)
    requires forall k :: 0 <= k < |b| ==> BranchScore(b[k], br).None?
    ensures MaxScore(a + b, id, br) == MaxScore(a, id, br)
  {
    if a != [] {
      assert (a + b)[0] == a[0] && (a + b)[1..] == a[1..] + b;
      MaxScoreSkipsSuffix(a[1..], b, id, br);
    } else {
      assert a + b == b;
    }
  }

  /** `description` is the `combined_data` of the first kept vector hit with
      the key; a key only the text branch found has none, because the text
      branch does not keep `combined_data`. */
  lemma DescriptionOfGroup(vh: seq<VectorHit>, th: seq<TextHit>, id: DocId)
    ensures var kv, d := Take(vh, VectorLimit), GroupOf(UnionRecords(vh, th), id);
      && ((forall k :: 0 <= k < |kv| ==> kv[k].id != id) ==> d.description.None?)
      && ((exists k :: 0 <= k < |kv| && kv[k].id == id) ==>
            exists k :: 0 <= k < |kv| && kv[k].id == id
                        && (forall j :: 0 <= j < k ==> kv[j].id != id)
                        && d.description == kv[k].combinedData)
  {
    var rs := UnionRecords(vh, th);
    var kv := Take(vh, VectorLimit);
    UnionShape(vh, th);
    match FirstIndex(rs, id)
    case None =>
    case Some(k) =>
      if k < |kv| {
        assert rs[k] == FromVectorHit(kv[k]);
        forall j | 0 <= j < k ensures kv[j].id != id {
          assert rs[j] == FromVectorHit(kv[j]);
        }
      } else {
        assert rs[k] == FromTextHit(Take(th, TextLimit)[k - |kv|]);
        forall j | 0 <= j < |kv| ensures kv[j].id != id {
          assert rs[j] == FromVectorHit(kv[j]);
        }
      }
  }

  /** Both weights are one half, so the swapped weights change nothing: the
      score is the mean of the two branch scores. */
  lemma ScoreIsMean(rs: seq<Record>, id: DocId)
    ensures var d := GroupOf(rs, id);
      && d.score == d.vsScore * VectorWeight + d.ftsScore * FullTextWeight
      && d.score == (d.vsScore + d.ftsScore) / 2.0
  {
  }

  /** With non-negative branch scores every score of a group is
      non-negative. */
  lemma ScoresNonNegative(vh: seq<VectorHit>, th: seq<TextHit>, id: DocId)
    requires forall k :: 0 <= k < |vh| ==> vh[k].score >= 0.0
    requires forall k :: 0 <= k < |th| ==> th[k].searchScore >= 0.0
    ensures var d := GroupOf(UnionRecords(vh, th), id);
      d.vsScore >= 0.0 && d.ftsScore >= 0.0 && d.score >= 0.0
  {
    var rs := UnionRecords(vh, th);
    UnionShape(vh, th);
    var mv := MaxScore(rs, id, VectorBranch);
    if mv.Some? {
      var j :| 0 <= j < |rs| && rs[j].id == id && BranchScore(rs[j], VectorBranch) == mv;
      assert j < |Take(vh, VectorLimit)|;
    }
    var mt := MaxScore(rs, id, TextBranch);
    if mt.Some? {
      var j :| 0 <= j < |rs| && rs[j].id == id && BranchScore(rs[j], TextBranch) == mt;
      assert j >= |Take(vh, VectorLimit)|;
    }
  }

  /** One vector hit (id 1, description "Paris", score 0.9) and one text
      hit (id 1, text "Paris City", score 8.0) fuse into one document scored
      0.85. Its description is the vector hit's `combined_data` `c`, whatever
      that is, and missing when the vector document has none. The text
      hit's text is never used. */
  lemma FuseExample(c: Option<string>)
    ensures Fuse([VectorHit(1, Some("Paris"), c, 0.9)],
                 [TextHit(1, Some("Paris City"), None, Some("Paris City"), 8.0)])
            == [FusedDoc(1, c, 0.85, 0.9, 0.8)]
  {
    var vh := [VectorHit(1, Some("Paris"), c, 0.9)];
    var th := [TextHit(1, Some("Paris City"), None, Some("Paris City"), 8.0)];
    var rs := UnionRecords(vh, th);
    assert rs == [Record(1, c, Some(0.9), None), Record(1, None, None, Some(0.8))];
    assert GroupKeys(rs) == [1] by {
      assert GroupKeys(rs[..1]) == [1];
    }
    assert MaxScore(rs, 1, VectorBranch) == Some(0.9);
    assert MaxScore(rs, 1, TextBranch) == Some(0.8);
    assert Grouped(rs) == [FusedDoc(1, c, 0.85, 0.9, 0.8)];
  }

  // ---------------------------------------------------------------------
  // `hybridSearch`

  function BuildPipeline(queryVector: Vector, lexicalQuery: string): Pipeline {
    Pipeline(queryVector, lexicalQuery, NumCandidates, VectorLimit, TextLimit,
             TextScoreDivisor, VectorWeight, FullTextWeight, FinalLimit)
  }

  /** What `hybridSearch` resolves to, or `None` when it throws: the vector
      branch is searched with the query vector, the text branch with the
      lexical query, and a failure of either fails the call. */
  function SearchResult(queryVector: Vector, textQuery: string, store: Store): Option<SearchOutput> {
    var lexical := LexicalQuery(textQuery);
    var vh := store.vectorSearch(queryVector);
    var th := store.textSearch(lexical);
    if vh.None? || th.None? then None
    else Some(SearchOutput(Fuse(vh.value, th.value), BuildPipeline(queryVector, lexical)))
  }

  /** A search that resolves was built from the query vector and the
      lexical query, and its documents are a ranking of the branches' hits. */
  lemma SearchResultFacts(queryVector: Vector, textQuery: string, store: Store)
    requires SearchResult(queryVector, textQuery, store).Some?
    ensures var out, lexical := SearchResult(queryVector, textQuery, store).value, LexicalQuery(textQuery);
      && store.vectorSearch(queryVector).Some? && store.textSearch(lexical).Some?
      && out.pipeline == BuildPipeline(queryVector, lexical)
      && IsRanking(UnionRecords(store.vectorSearch(queryVector).value, store.textSearch(lexical).value),
                   out.documents)
  {
    var lexical := LexicalQuery(textQuery);
    FuseIsRanking(UnionRecords(store.vectorSearch(queryVector).value, store.textSearch(lexical).value));
  }

  /** `hybridSearch`: runs the pipeline and collects the cursor's documents
      in order. */
  method HybridSearch(queryVector: Vector, textQuery: string, store: Store)
    returns (r: Option<SearchOutput>)
    ensures r == SearchResult(queryVector, textQuery, store)
    ensures r.Some? <==> store.vectorSearch(queryVector).Some?
                         && store.textSearch(LexicalQuery(textQuery)).Some?
    ensures r.Some? ==> r.value.pipeline.lexicalQuery == LexicalQuery(textQuery)
                        && r.value.pipeline.queryVector == queryVector
  {
    var lexical := LexicalQuery(textQuery);
    var pipeline := BuildPipeline(queryVector, lexical);
    var vh := store.vectorSearch(queryVector);
    var th := store.textSearch(lexical);
    if vh.None? || th.None? {
      return None;
    }
    var cursor := Fuse(vh.value, th.value);
    var results: seq<FusedDoc> := [];
    var i := 0;
    while i < |cursor|
      invariant 0 <= i <= |cursor|
      invariant results == cursor[..i]
    {
      results := results + [cursor[i]];
      i := i + 1;
    }
    assert results == cursor;
    r := Some(SearchOutput(results, pipeline));
  }

  // ---------------------------------------------------------------------
  // `getEmbeddingsTransformer`

  /** The embeddings client; what it computes is outside the model. */
  class FireworksEmbeddings {
    const modelName: string

    constructor (modelName: string)
      ensures this.modelName == modelName
    {
      this.modelName := modelName;
    }
  }

  /** The module-level `embeddingsInstance` and the model name it is
      created with. */
  class EmbeddingsHolder {
    const embedModelName: string
    var embeddingsInstance: FireworksEmbeddings?

    ghost predicate Valid()
      reads this
    {
      embeddingsInstance != null ==> embeddingsInstance.modelName == embedModelName
    }

    constructor (embedModelName: string)
      ensures Valid() && this.embedModelName == embedModelName && embeddingsInstance == null
    {
      this.embedModelName := embedModelName;
      embeddingsInstance := null;
    }

    /** Creates the instance on the first call; every call returns the
        stored instance. */
    method GetEmbeddingsTransformer() returns (e: FireworksEmbeddings)
      requires Valid()
      modifies this
      ensures Valid() && embeddingsInstance == e && e.modelName == embedModelName
      ensures old(embeddingsInstance) != null ==> e == old(embeddingsInstance)
      ensures old(embeddingsInstance) == null ==> fresh(e)
    {
      if embeddingsInstance == null {
        embeddingsInstance := new FireworksEmbeddings(embedModelName);
      }
      e := embeddingsInstance;
    }
  }

  /** Two calls on a fresh holder: the first creates the instance, the
      second returns the same one. */
  method EmbeddingsCreatedOnce(embedModelName: string) returns (first: FireworksEmbeddings, second: FireworksEmbeddings)
    ensures fresh(first) && second == first && first.modelName == embedModelName
  {
    var holder := new EmbeddingsHolder(embedModelName);
    first := holder.GetEmbeddingsTransformer();
    second := holder.GetEmbeddingsTransformer();
  }
}
