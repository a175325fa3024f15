/** The ranking of the collected rows and the batch summary. Sorting by score
    with reverse=True is stable: rows with equal scores stay in the order they
    were collected. The model is an insertion sort that places each row in
    front of the first row scoring no more than it. */
module Ranking {
  import opened Results

  /** Scores never increase along the sequence. */
  predicate SortedDescending(s: seq<Entry>) {
    forall i, j :: 0 <= i < j < |s| ==> s[i].score >= s[j].score
  }

  /** The rows of s that have score v, in their order in s. */
  function WithScore(s: seq<Entry>, v: real): seq<Entry> {
    if s == [] then []
    else (if s[0].score == v then [s[0]] else []) + WithScore(s[1..], v)
  }

  /** A row that scores at least as much as every row of a sorted sequence
      can go in front of it. */
  lemma SortedCons(x: Entry, t: seq<Entry>)
    requires SortedDescending(t)
    requires forall j :: 0 <= j < |t| ==> t[j].score <= x.score
    ensures SortedDescending([x] + t)
  {
  }

  /** A bound on the scores of r and on e bounds the scores of anything made
      of exactly their rows. */
  lemma BoundedByMultiset(q: seq<Entry>, e: Entry, r: seq<Entry>, v: real)
    requires multiset(q) == multiset(r) + multiset{e}
    requires e.score <= v
    requires forall j :: 0 <= j < |r| ==> r[j].score <= v
    ensures forall j :: 0 <= j < |q| ==> q[j].score <= v
  {
    forall j | 0 <= j < |q| ensures q[j].score <= v {
      assert q[j] in multiset(q);
      if q[j] != e {
        assert q[j] in multiset(r);
        var k :| 0 <= k < |r| && r[k] == q[j];
      }
    }
  }

  /** Puts e in front of the first row of r that does not score more than e. */
  function Insert(e: Entry, r: seq<Entry>): (q: seq<Entry>)
    requires SortedDescending(r)
    ensures |q| == |r| + 1
    ensures SortedDescending(q)
    ensures multiset(q) == multiset(r) + multiset{e}
  {
    if r == [] then [e]
    else if r[0].score <= e.score then
      SortedCons(e, r);
      [e] + r
    else
      var tail := Insert(e, r[1..]);
      BoundedByMultiset(tail, e, r[1..], r[0].score);
      SortedCons(r[0], tail);
      assert r == [r[0]] + r[1..];
      [r[0]] + tail
  }

  /** The order the results table is shown in: sorted by score from the top,
      holding exactly the collected rows. */
  function Rank(s: seq<Entry>): (r: seq<Entry>)
    ensures |r| == |s|
    ensures SortedDescending(r)
    ensures multiset(r) == multiset(s)
  {
    if s == [] then []
    else
      assert s == [s[0]] + s[1..];
      Insert(s[0], Rank(s[1..]))
  }

  lemma {:induction false} WithScoreConcat(a: seq<Entry>, b: seq<Entry>, v: real)
    ensures WithScore(a + b, v) == WithScore(a, v) + WithScore(b, v)
  {
    if a != [] {
      assert (a + b)[0] == a[0] && (a + b)[1..] == a[1..] + b;
      WithScoreConcat(a[1..], b, v);
    } else {
      assert a + b == b;
    }
  }

  /** Inserting a row adds it in front of the rows of equal score. */
  lemma {:induction false} InsertWithScore(e: Entry, r: seq<Entry>, v: real)
    requires SortedDescending(r)
    ensures WithScore(Insert(e, r), v) == (if e.score == v then [e] else []) + WithScore(r, v)
  {
    if r == [] {
    } else if r[0].score <= e.score {
      WithScoreConcat([e], r, v);
    } else {
      InsertWithScore(e, r[1..], v);
      WithScoreConcat([r[0]], Insert(e, r[1..]), v);
      WithScoreConcat([r[0]], r[1..], v);
      assert r == [r[0]] + r[1..];
    }
  }

  /** Stability: for every score, the rows with that score come out of the
      ranking in the order they went in. */
  lemma {:induction false} RankIsStable(s: seq<Entry>, v: real)
    ensures WithScore(Rank(s), v) == WithScore(s, v)
  {
    if s != [] {
      RankIsStable(s[1..], v);
      InsertWithScore(s[0], Rank(s[1..]), v);
    }
  }

  /** Every row is in the ranking exactly as often as it was collected, and
      the first row of the ranking scores at least as much as any row. */
  lemma RankedHeadIsMaximum(s: seq<Entry>)
    requires |s| > 0
    ensures |Rank(s)| == |s|
    ensures forall e :: e in s ==> e in Rank(s) && e.score <= Rank(s)[0].score
    ensures Rank(s)[0] in s
  {
    var r := Rank(s);
    assert |multiset(r)| == |multiset(s)|;
    forall e | e in s ensures e in r && e.score <= r[0].score {
      assert e in multiset(s);
      assert e in multiset(r);
      var k :| 0 <= k < |r| && r[k] == e;
    }
    assert r[0] in multiset(r);
  }

  /** The two figures shown above the table. */
  datatype Summary = Summary(topScore: real, count: nat)

  /** The top score is read from the first row, the count is the number of
      rows; on a ranking, that first score is the largest one present. */
  function Summarize(ranked: seq<Entry>): (m: Summary)
    requires |ranked| > 0
    ensures m.count == |ranked|
    ensures exists e :: e in ranked && e.score == m.topScore
    ensures SortedDescending(ranked) ==> forall e :: e in ranked ==> e.score <= m.topScore
  {
    assert ranked[0] in ranked;
    Summary(ranked[0].score, |ranked|)
  }

  /** The summary of a ranking: it counts every collected row, and its top
      score is the score of a collected row that no collected row exceeds. */
  lemma SummaryOfRanking(s: seq<Entry>)
    requires |s| > 0
    ensures Summarize(Rank(s)).count == |s|
    ensures forall e :: e in s ==> e.score <= Summarize(Rank(s)).topScore
    ensures exists e :: e in s && e.score == Summarize(Rank(s)).topScore
  {
    RankedHeadIsMaximum(s);
  }

  /** Errored rows score 0, so a row ranked below an errored one scores at
      most 0: only a row with a positive score is sure to rank above them. */
  lemma RankedBelowErrorScoresAtMostZero(s: seq<Entry>, i: nat, j: nat)
    requires forall e :: e in s && IsErrorText(e.recommendation) ==> e.score == 0.0
    requires i < j < |s|
    requires IsErrorText(Rank(s)[i].recommendation)
    ensures Rank(s)[j].score <= 0.0
  {
    var r := Rank(s);
    assert r[i] in multiset(r);
  }

  /** On a batch scoring 62.3, 91.0 and 40.0 the rows come out second,
      first, third. */
  lemma RankExample(a: string, b: string, c: string)
    ensures
      var first := Entry(a, 62.3, ""); var second := Entry(b, 91.0, ""); var third := Entry(c, 40.0, "");
      Rank([first, second, third]) == [second, first, third]
  {
  }

  /** A batch ranked 91.0, 62.3, 40.0 summarises to 91.0 and 3. */
  lemma SummaryExample(a: string, b: string, c: string)
    ensures Summarize([Entry(a, 91.0, ""), Entry(b, 62.3, ""), Entry(c, 40.0, "")]) == Summary(91.0, 3)
  {
  }
}
