/** Reciprocal-rank fusion of a keyword and a vector response, over exact numbers. */
module RankFusion {
  import opened Basics
  import opened JobPayloads

  /** A hit: its source id and its source without the embedding. */
  datatype Hit = Hit(id: string, source: Payload)

  type Scores = map<string, real>

  // ------------------------------------------------------- the specification

  /** What the hit at place `i` of a response, counted from zero, contributes. */
  function Weight(i: nat): real {
    1.0 / (60 + i + 1) as real
  }

  /** The weights of all places of `id` in one response, and in all of them. */
  function ResponseScore(hits: seq<Hit>, id: string): real {
    if hits == [] then 0.0
    else
      var n := |hits| - 1;
      ResponseScore(hits[..n], id) + if hits[n].id == id then Weight(n) else 0.0
  }

  function Score(responses: seq<seq<Hit>>, id: string): real {
    if responses == [] then 0.0
    else Score(responses[..|responses| - 1], id) + ResponseScore(responses[|responses| - 1], id)
  }

  function Flatten(responses: seq<seq<Hit>>): seq<Hit> {
    if responses == [] then [] else Flatten(responses[..|responses| - 1]) + responses[|responses| - 1]
  }

  ghost predicate Occurs(hits: seq<Hit>, id: string) {
    exists i :: 0 <= i < |hits| && hits[i].id == id
  }

  /** The source of the last hit with this id. */
  function LastSource(hits: seq<Hit>, id: string): Option<Payload> {
    if hits == [] then None
    else if hits[|hits| - 1].id == id then Some(hits[|hits| - 1].source)
    else LastSource(hits[..|hits| - 1], id)
  }

  /** Code point order of texts. */
  predicate Less(a: string, b: string) {
    if b == "" then false
    else if a == "" then true
    else a[0] < b[0] || (a[0] == b[0] && Less(a[1..], b[1..]))
  }

  predicate Before(scores: Scores, a: string, b: string)
    requires a in scores && b in scores
  {
    scores[a] > scores[b] || (scores[a] == scores[b] && Less(a, b))
  }

  ghost predicate Ordered(ids: seq<string>, scores: Scores) {
    && (forall i :: 0 <= i < |ids| ==> ids[i] in scores)
    && (forall i, j :: 0 <= i < j < |ids| ==> Before(scores, ids[i], ids[j]))
  }

  /** All ids, once each, the best first. */
  ghost predicate IsRanking(ids: seq<string>, scores: Scores) {
    Ordered(ids, scores) && forall x :: x in ids <==> x in scores
  }

  /** `s[:limit]`, where a negative limit counts from the end. */
  function Take<T>(s: seq<T>, limit: int): seq<T> {
    if limit >= 0 then s[..Min(limit, |s|)] else s[..Max(0, |s| + limit)]
  }

  // ------------------------------------------------------- order of the ids

  lemma {:induction false} LessTrichotomy(a: string, b: string)
    ensures Less(a, b) || Less(b, a) || a == b
    ensures !(Less(a, b) && Less(b, a))
    ensures !Less(a, a)
  {
    if a != "" {
      if b != "" {
        LessTrichotomy(a[1..], b[1..]);
        assert a == [a[0]] + a[1..] && b == [b[0]] + b[1..];
      } else {
        LessTrichotomy(a[1..], b);
      }
    }
  }

  lemma {:induction false} LessTransitive(a: string, b: string, c: string)
    requires Less(a, b) && Less(b, c)
    ensures Less(a, c)
  {
    if a != "" && a[0] == b[0] && b[0] == c[0] {
      LessTransitive(a[1..], b[1..], c[1..]);
    }
  }

  /** Code point order: a proper prefix comes first, and otherwise the first place at
      which the texts differ decides. */
  lemma {:induction false} LessIff(a: string, b: string)
    ensures Less(a, b) <==> exists k: nat :: DiffersAt(a, b, k)
  {
    if a == "" || b == "" || a[0] != b[0] {
      assert Less(a, b) ==> DiffersAt(a, b, 0);
      forall k: nat | DiffersAt(a, b, k) ensures k == 0 {
        if k > 0 {
          SameFirst(a, b, k);
        }
      }
    } else {
      LessIff(a[1..], b[1..]);
      if Less(a[1..], b[1..]) {
        var k: nat :| DiffersAt(a[1..], b[1..], k);
        assert a[..k + 1] == [a[0]] + a[1..][..k] && b[..k + 1] == [b[0]] + b[1..][..k];
        assert DiffersAt(a, b, k + 1);
      }
      if k: nat :| DiffersAt(a, b, k) {
        assert k > 0;
        assert a[1..][..k - 1] == a[..k][1..] && b[1..][..k - 1] == b[..k][1..];
        assert DiffersAt(a[1..], b[1..], k - 1);
      }
    }
  }

  lemma SameFirst(a: string, b: string, k: nat)
    requires DiffersAt(a, b, k) && k > 0
    ensures a[0] == b[0]
  {
    assert a[..k][0] == a[0] && b[..k][0] == b[0];
  }

  /** The texts agree before place `k`, where `a` ends or has the smaller character. */
  ghost predicate DiffersAt(a: string, b: string, k: nat) {
    k <= |a| && k < |b| && a[..k] == b[..k] && (k == |a| || a[k] < b[k])
  }

  /** The order is strict and total, so a ranking is unique. */
  lemma BeforeIsStrictTotal(scores: Scores, a: string, b: string, c: string)
    requires a in scores && b in scores && c in scores
    ensures !Before(scores, a, a)
    ensures !(Before(scores, a, b) && Before(scores, b, a))
    ensures a == b || Before(scores, a, b) || Before(scores, b, a)
    ensures Before(scores, a, b) && Before(scores, b, c) ==> Before(scores, a, c)
  {
    LessTrichotomy(a, b);
    if Less(a, b) && Less(b, c) {
      LessTransitive(a, b, c);
    }
  }

  lemma OrderedHasNoDup(ids: seq<string>, scores: Scores)
    requires Ordered(ids, scores)
    ensures NoDup(ids)
  {
    forall i, j | 0 <= i < j < |ids| ensures ids[i] != ids[j] {
      BeforeIsStrictTotal(scores, ids[i], ids[j], ids[i]);
    }
  }

  lemma SameHead(a: seq<string>, b: seq<string>, scores: Scores)
    requires Ordered(a, scores) && Ordered(b, scores) && a != [] && b != [] && forall x :: x in a <==> x in b
    ensures a[0] == b[0]
  {
    assert a[0] in b && b[0] in a;
    var i :| 0 <= i < |b| && b[i] == a[0];
    var j :| 0 <= j < |a| && a[j] == b[0];
    BeforeIsStrictTotal(scores, a[0], b[0], a[0]);
  }

  lemma {:induction false} RankingUnique(a: seq<string>, b: seq<string>, scores: Scores)
    requires Ordered(a, scores) && Ordered(b, scores) && forall x :: x in a <==> x in b
    ensures a == b
  {
    assert a != [] ==> a[0] in a;
    assert b != [] ==> b[0] in b;
    if a != [] {
      SameHead(a, b, scores);
      OrderedHasNoDup(a, scores);
      OrderedHasNoDup(b, scores);
      assert a == [a[0]] + a[1..] && b == [b[0]] + b[1..];
      assert forall x :: x in a[1..] <==> x in a && x != a[0];
      assert forall x :: x in b[1..] <==> x in b && x != b[0];
      RankingUnique(a[1..], b[1..], scores);
    }
  }

  // --------------------------------------------------------- the fusion loop

  /** The two dictionaries after some hits. */
  ghost predicate Fused(done: seq<seq<Hit>>, sources: map<string, Payload>, scores: Scores) {
    && (forall id :: id in scores <==> Occurs(Flatten(done), id))
    && (forall id :: id in scores ==> scores[id] == Score(done, id))
    && (forall id :: id in sources <==> id in scores)
    && (forall id :: id in sources ==> LastSource(Flatten(done), id) == Some(sources[id]))
  }

  lemma Extended(done: seq<seq<Hit>>, hits: seq<Hit>, id: string)
    ensures Score(done + [hits], id) == Score(done, id) + ResponseScore(hits, id)
    ensures Flatten(done + [hits]) == Flatten(done) + hits
  {
    assert (done + [hits])[..|done|] == done;
  }

  /** One more hit adds its weight to its id, and nothing to any other. */
  lemma HitCounts(done: seq<seq<Hit>>, before: seq<Hit>, hit: Hit, id: string)
    ensures var flat, flat' := Flatten(done + [before]), Flatten(done + [before + [hit]]);
      && (Occurs(flat', id) <==> Occurs(flat, id) || id == hit.id)
      && LastSource(flat', id) == (if id == hit.id then Some(hit.source) else LastSource(flat, id))
    ensures Score(done + [before + [hit]], id) == Score(done + [before], id) + if id == hit.id then Weight(|before|) else 0.0
  {
    Extended(done, before, id);
    Extended(done, before + [hit], id);
    OneMore(Flatten(done) + before, hit, id);
    assert Flatten(done) + (before + [hit]) == Flatten(done) + before + [hit];
    assert (before + [hit])[..|before|] == before;
  }

  lemma OneHitMore(done: seq<seq<Hit>>, hits: seq<Hit>, rank: nat, sources: map<string, Payload>, scores: Scores)
    requires rank < |hits| && Fused(done + [hits[..rank]], sources, scores)
    ensures var hit := hits[rank];
      Fused(done + [hits[..rank + 1]], sources[hit.id := hit.source],
            scores[hit.id := (if hit.id in scores then scores[hit.id] else 0.0) + Weight(rank)])
  {
    var hit, before := hits[rank], hits[..rank];
    assert hits[..rank + 1] == before + [hit];
    forall id {
      HitCounts(done, before, hit, id);
    }
    if hit.id !in scores {
      AbsentScoresZero(done + [before], hit.id);
    }
  }

  lemma OneMore(hits: seq<Hit>, hit: Hit, id: string)
    ensures Occurs(hits + [hit], id) <==> Occurs(hits, id) || id == hit.id
    ensures LastSource(hits + [hit], id) == if id == hit.id then Some(hit.source) else LastSource(hits, id)
  {
    var all := hits + [hit];
    assert all[..|hits|] == hits;
    if Occurs(hits, id) {
      var i :| 0 <= i < |hits| && hits[i].id == id;
      assert all[i].id == id;
    }
    assert all[|hits|] == hit;
  }

  lemma {:induction false} AbsentScoresNothing(hits: seq<Hit>, id: string)
    requires !Occurs(hits, id)
    ensures ResponseScore(hits, id) == 0.0
  {
    if hits != [] {
      var n := |hits| - 1;
      assert hits[n].id != id;
      assert !Occurs(hits[..n], id) by {
        forall i | 0 <= i < n ensures hits[..n][i].id != id {
          assert hits[i].id != id;
        }
      }
      AbsentScoresNothing(hits[..n], id);
    }
  }

  lemma {:induction false} AbsentScoresZero(responses: seq<seq<Hit>>, id: string)
    requires !Occurs(Flatten(responses), id)
    ensures Score(responses, id) == 0.0
  {
    if responses != [] {
      var n := |responses| - 1;
      var front := Flatten(responses[..n]);
      forall i | 0 <= i < |front| ensures front[i].id != id {
        assert Flatten(responses)[i] == front[i];
      }
      forall i | 0 <= i < |responses[n]| ensures responses[n][i].id != id {
        assert Flatten(responses)[|front| + i] == responses[n][i];
      }
      AbsentScoresZero(responses[..n], id);
      AbsentScoresNothing(responses[n], id);
    }
  }

  lemma NoHitsYet(done: seq<seq<Hit>>, hits: seq<Hit>, sources: map<string, Payload>, scores: Scores)
    requires Fused(done, sources, scores)
    ensures Fused(done + [hits[..0]], sources, scores)
  {
    forall id ensures Score(done + [hits[..0]], id) == Score(done, id) && Flatten(done + [hits[..0]]) == Flatten(done) {
      Extended(done, hits[..0], id);
    }
  }

  /** The inner loop: adds one response to the two dictionaries. */
  method FuseResponse(ghost done: seq<seq<Hit>>, hits: seq<Hit>, sources0: map<string, Payload>, scores0: Scores)
    returns (sources: map<string, Payload>, scores: Scores)
    requires Fused(done, sources0, scores0)
    ensures Fused(done + [hits], sources, scores)
  {
    sources, scores := sources0, scores0;
    NoHitsYet(done, hits, sources, scores);
    var rank := 0;
    while rank < |hits|
      invariant rank <= |hits|
      invariant Fused(done + [hits[..rank]], sources, scores)
    {
      var hit := hits[rank];
      OneHitMore(done, hits, rank, sources, scores);
      sources := sources[hit.id := hit.source];
      scores := scores[hit.id := (if hit.id in scores then scores[hit.id] else 0.0) + Weight(rank)];
      rank := rank + 1;
    }
    assert hits[..rank] == hits;
  }

  /** `source` comes with the last hit of this id. */
  ghost predicate IsLastOf(hits: seq<Hit>, id: string, source: Payload) {
    exists k :: 0 <= k < |hits| && hits[k] == Hit(id, source) && forall j :: k < j < |hits| ==> hits[j].id != id
  }

  lemma {:induction false} LastSourceIs(hits: seq<Hit>, id: string)
    requires LastSource(hits, id).Some?
    ensures IsLastOf(hits, id, LastSource(hits, id).value)
  {
    var n := |hits| - 1;
    if hits[n].id != id {
      LastSourceIs(hits[..n], id);
      var k :| 0 <= k < n && hits[..n][k] == Hit(id, LastSource(hits, id).value) && forall j :: k < j < n ==> hits[..n][j].id != id;
      assert hits[k] == hits[..n][k] && forall j :: k < j < n ==> hits[j] == hits[..n][j];
    } else {
      assert hits[n] == Hit(id, LastSource(hits, id).value);
    }
  }

  /** Scores every id of the union, and keeps the last source of each. */
  method Fuse(responses: seq<seq<Hit>>) returns (sources: map<string, Payload>, scores: Scores)
    ensures Fused(responses, sources, scores)
    ensures forall id :: id in sources ==> IsLastOf(Flatten(responses), id, sources[id])
  {
    sources, scores := map[], map[];
    var k := 0;
    while k < |responses|
      invariant k <= |responses|
      invariant Fused(responses[..k], sources, scores)
    {
      sources, scores := FuseResponse(responses[..k], responses[k], sources, scores);
      assert responses[..k] + [responses[k]] == responses[..k + 1];
      k := k + 1;
    }
    assert responses[..k] == responses;
    forall id | id in sources ensures IsLastOf(Flatten(responses), id, sources[id]) {
      LastSourceIs(Flatten(responses), id);
    }
  }

  lemma InsertKeepsOrder(ids: seq<string>, scores: Scores, p: nat, x: string)
    requires Ordered(ids, scores) && x in scores && x !in ids && p <= |ids|
    requires forall i :: 0 <= i < p ==> Before(scores, ids[i], x)
    requires p < |ids| ==> !Before(scores, ids[p], x)
    ensures Ordered(ids[..p] + [x] + ids[p..], scores)
  {
    forall i | p <= i < |ids| ensures Before(scores, x, ids[i]) {
      BeforeIsStrictTotal(scores, x, ids[p], ids[i]);
    }
  }

  method RankIds(scores: Scores) returns (ids: seq<string>)
    ensures IsRanking(ids, scores)
    ensures NoDup(ids) && Elements(ids) == scores.Keys
    ensures forall i, j :: 0 <= i < j < |ids| ==> scores[ids[i]] >= scores[ids[j]]
    ensures forall i, j :: 0 <= i < j < |ids| && scores[ids[i]] == scores[ids[j]] ==> Less(ids[i], ids[j])
  {
    ids := [];
    var todo := scores.Keys;
    while todo != {}
      invariant todo <= scores.Keys
      invariant Ordered(ids, scores)
      invariant forall x :: x in ids <==> x in scores && x !in todo
    {
      var x :| x in todo;
      var p := 0;
      while p < |ids| && Before(scores, ids[p], x)
        invariant p <= |ids|
        invariant forall i :: 0 <= i < p ==> Before(scores, ids[i], x)
      {
        p := p + 1;
      }
      InsertKeepsOrder(ids, scores, p, x);
      assert ids == ids[..p] + ids[p..];
      ids := ids[..p] + [x] + ids[p..];
      todo := todo - {x};
    }
    OrderedHasNoDup(ids, scores);
  }

  lemma TwoResponses(keyword: seq<Hit>, vector: seq<Hit>, id: string)
    ensures Flatten([keyword, vector]) == keyword + vector
    ensures Score([keyword, vector], id) == ResponseScore(keyword, id) + ResponseScore(vector, id)
  {
    assert [keyword, vector] == [] + [keyword] + [vector];
    Extended([], keyword, id);
    Extended([] + [keyword], vector, id);
  }

  /** The scores of exactly the ids that occur. */
  ghost predicate IsFusion(keyword: seq<Hit>, vector: seq<Hit>, scores: Scores) {
    && (forall id :: id in scores <==> Occurs(keyword + vector, id))
    && (forall id :: id in scores ==> scores[id] == ResponseScore(keyword, id) + ResponseScore(vector, id))
  }

  /** The last sources of the best ids, best first. */
  ghost predicate ListsBest(keyword: seq<Hit>, vector: seq<Hit>, limit: int, ids: seq<string>, result: seq<Payload>) {
    && |result| == |Take(ids, limit)|
    && forall i :: 0 <= i < |result| ==> IsLastOf(keyword + vector, Take(ids, limit)[i], result[i])
  }

  lemma FusedIsFusion(keyword: seq<Hit>, vector: seq<Hit>, sources: map<string, Payload>, scores: Scores)
    requires Fused([keyword, vector], sources, scores)
    ensures IsFusion(keyword, vector, scores)
  {
    TwoResponses(keyword, vector, "");
    forall id ensures Score([keyword, vector], id) == ResponseScore(keyword, id) + ResponseScore(vector, id) {
      TwoResponses(keyword, vector, id);
    }
  }

  lemma SourcesAreListed(keyword: seq<Hit>, vector: seq<Hit>, limit: int, ids: seq<string>, sources: map<string, Payload>,
                         result: seq<Payload>)
    requires forall id :: id in sources ==> IsLastOf(keyword + vector, id, sources[id])
    requires |result| == |Take(ids, limit)|
    requires forall i :: 0 <= i < |result| ==> Take(ids, limit)[i] in sources && result[i] == sources[Take(ids, limit)[i]]
    ensures ListsBest(keyword, vector, limit, ids, result)
  {
  }

  method Search(keyword: seq<Hit>, vector: seq<Hit>, limit: int) returns (result: seq<Payload>)
    ensures exists scores, ids ::
      IsFusion(keyword, vector, scores) && IsRanking(ids, scores) && ListsBest(keyword, vector, limit, ids, result)
  {
    var sources, scores := Fuse([keyword, vector]);
    FusedIsFusion(keyword, vector, sources, scores);
    TwoResponses(keyword, vector, "");
    var ids := RankIds(scores);
    var top := Take(ids, limit);
    assert forall i :: 0 <= i < |top| ==> top[i] in ids;
    result := seq(|top|, i requires 0 <= i < |top| => sources[top[i]]);
    SourcesAreListed(keyword, vector, limit, ids, sources, result);
  }

  lemma FusionUnique(keyword: seq<Hit>, vector: seq<Hit>, s: Scores, t: Scores)
    requires IsFusion(keyword, vector, s) && IsFusion(keyword, vector, t)
    ensures s == t
  {
    forall id ensures id in s <==> id in t {
    }
  }

  lemma ListUnique(keyword: seq<Hit>, vector: seq<Hit>, limit: int, ids: seq<string>, r: seq<Payload>, q: seq<Payload>)
    requires ListsBest(keyword, vector, limit, ids, r) && ListsBest(keyword, vector, limit, ids, q)
    ensures r == q
  {
    forall i | 0 <= i < |r| ensures r[i] == q[i] {
      var id := Take(ids, limit)[i];
      assert IsLastOf(keyword + vector, id, r[i]) && IsLastOf(keyword + vector, id, q[i]);
    }
  }

  /** The answer is determined by the two responses and the limit. */
  lemma ResultUnique(keyword: seq<Hit>, vector: seq<Hit>, limit: int, s: Scores, a: seq<string>, r: seq<Payload>,
                     t: Scores, b: seq<string>, q: seq<Payload>)
    requires IsFusion(keyword, vector, s) && IsRanking(a, s) && ListsBest(keyword, vector, limit, a, r)
    requires IsFusion(keyword, vector, t) && IsRanking(b, t) && ListsBest(keyword, vector, limit, b, q)
    ensures r == q
  {
    FusionUnique(keyword, vector, s, t);
    RankingUnique(a, b, s);
    ListUnique(keyword, vector, limit, a, r, q);
  }

  // ------------------------------------------------------------- the promises

  /** What is taken is free of repetition, has the length the limit asks for, and
      ranks before everything left out. */
  lemma TopIsBest(ids: seq<string>, scores: Scores, limit: int)
    requires IsRanking(ids, scores)
    ensures NoDup(Take(ids, limit))
    ensures limit >= 0 ==> |Take(ids, limit)| == Min(limit, |scores|)
    ensures limit < 0 ==> |Take(ids, limit)| == Max(0, |scores| + limit)
    ensures forall x, y :: x in Take(ids, limit) && y in scores && y !in Take(ids, limit) ==> x in scores && Before(scores, x, y)
  {
    OrderedHasNoDup(ids, scores);
    NoDupCard(ids);
    assert Elements(ids) == scores.Keys;
    var top := Take(ids, limit);
    assert forall i :: 0 <= i < |top| ==> ids[i] == top[i];
    forall x, y | x in top && y in scores && y !in top ensures x in scores && Before(scores, x, y) {
      var i :| 0 <= i < |top| && top[i] == x;
      var j :| 0 <= j < |ids| && ids[j] == y;
      assert ids[i] == x;
    }
  }

  /** The ids do not depend on which response comes first. */
  lemma ResponseOrderIsIrrelevant(keyword: seq<Hit>, vector: seq<Hit>, a: seq<string>, s: Scores, b: seq<string>, t: Scores)
    requires IsRanking(a, s) && IsRanking(b, t) && IsFusion(keyword, vector, s) && IsFusion(vector, keyword, t)
    ensures a == b && s == t
  {
    forall id ensures Occurs(keyword + vector, id) <==> Occurs(vector + keyword, id) {
      OccursEither(keyword, vector, id);
      OccursEither(vector, keyword, id);
    }
    assert s == t;
    RankingUnique(a, b, s);
  }

  lemma OccursEither(a: seq<Hit>, b: seq<Hit>, id: string)
    ensures Occurs(a + b, id) <==> Occurs(a, id) || Occurs(b, id)
  {
    var all := a + b;
    if Occurs(a, id) {
      var i :| 0 <= i < |a| && a[i].id == id;
      assert all[i].id == id;
    }
    if Occurs(b, id) {
      var i :| 0 <= i < |b| && b[i].id == id;
      assert all[|a| + i].id == id;
    }
    if Occurs(all, id) {
      var i :| 0 <= i < |all| && all[i].id == id;
      assert if i < |a| then a[i].id == id else b[i - |a|].id == id;
    }
  }

  ghost predicate DistinctHits(hits: seq<Hit>) {
    forall i, j :: 0 <= i < j < |hits| ==> hits[i].id != hits[j].id
  }

  lemma {:induction false} ScoreAt(hits: seq<Hit>, i: nat)
    requires DistinctHits(hits) && i < |hits|
    ensures ResponseScore(hits, hits[i].id) == Weight(i)
  {
    var n := |hits| - 1;
    if i < n {
      ScoreAt(hits[..n], i);
      assert hits[n].id != hits[i].id;
    } else {
      assert !Occurs(hits[..n], hits[i].id) by {
        forall j | 0 <= j < n ensures hits[..n][j].id != hits[i].id {
          assert hits[j].id != hits[i].id;
        }
      }
      AbsentScoresNothing(hits[..n], hits[i].id);
    }
  }

  /** With distinct hits in each response, an id at rank r of a response, counted from
      one, gets 1 / (60 + r) from it, and nothing from a response without it. */
  lemma ScoreIs(keyword: seq<Hit>, vector: seq<Hit>, scores: Scores, id: string, i: nat, j: nat)
    requires DistinctHits(keyword) && DistinctHits(vector) && IsFusion(keyword, vector, scores) && id in scores
    requires if Occurs(keyword, id) then 1 <= i <= |keyword| && keyword[i - 1].id == id else i == 0
    requires if Occurs(vector, id) then 1 <= j <= |vector| && vector[j - 1].id == id else j == 0
    ensures scores[id] == (if i > 0 then 1.0 / (60 + i) as real else 0.0) + (if j > 0 then 1.0 / (60 + j) as real else 0.0)
  {
    if i > 0 {
      ScoreAt(keyword, i - 1);
    } else {
      AbsentScoresNothing(keyword, id);
    }
    if j > 0 {
      ScoreAt(vector, j - 1);
    } else {
      AbsentScoresNothing(vector, id);
    }
  }

  /** `a` is listed, and `b` is listed after it or not at all. */
  ghost predicate Ahead(hits: seq<Hit>, a: string, b: string) {
    exists i :: 0 <= i < |hits| && hits[i].id == a && forall j :: 0 <= j < |hits| && hits[j].id == b ==> i < j
  }

  lemma Reciprocals(x: real, y: real, p: real, q: real)
    requires 0.0 < x < y && p * x == 1.0 && q * y == 1.0
    ensures p > q > 0.0
  {
    assert p > 0.0;
    assert q > 0.0;
    assert p * y > p * x;
    assert (p - q) * y > 0.0;
  }

  lemma WeightsFall(i: nat, j: nat)
    requires i < j
    ensures Weight(i) > Weight(j) > 0.0
  {
    var x, y := (60 + i + 1) as real, (60 + j + 1) as real;
    assert Weight(i) * x == 1.0 && Weight(j) * y == 1.0;
    Reciprocals(x, y, Weight(i), Weight(j));
  }

  lemma AheadScoresMore(hits: seq<Hit>, a: string, b: string)
    requires DistinctHits(hits) && Ahead(hits, a, b)
    ensures ResponseScore(hits, a) > ResponseScore(hits, b)
  {
    var i :| 0 <= i < |hits| && hits[i].id == a && forall j :: 0 <= j < |hits| && hits[j].id == b ==> i < j;
    ScoreAt(hits, i);
    WeightsFall(i, i + 1);
    if Occurs(hits, b) {
      var j :| 0 <= j < |hits| && hits[j].id == b;
      ScoreAt(hits, j);
      WeightsFall(i, j);
    } else {
      AbsentScoresNothing(hits, b);
    }
  }

  /** With distinct hits in each response, a hit ahead in both ranks ahead. */
  lemma Dominance(keyword: seq<Hit>, vector: seq<Hit>, scores: Scores, ids: seq<string>, a: string, b: string, p: nat, q: nat)
    requires DistinctHits(keyword) && DistinctHits(vector) && Ahead(keyword, a, b) && Ahead(vector, a, b)
    requires IsRanking(ids, scores) && p < |ids| && q < |ids| && ids[p] == a && ids[q] == b
    requires IsFusion(keyword, vector, scores)
    ensures p < q
  {
    AheadScoresMore(keyword, a, b);
    AheadScoresMore(vector, a, b);
    assert scores[a] > scores[b];
    assert q < p ==> Before(scores, b, a);
  }
}
