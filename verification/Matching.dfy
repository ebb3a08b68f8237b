/** Ranking of candidate providers, and the batches in which the ranked ones are pinged. */
module Matching {
  import opened Common
  import opened DispatchStore
  import opened Rounding
  import Policy = DispatchPolicy

  // ── Scores ──────────────────────────────────────────────────────────────

  datatype Candidate = Candidate(
    provider: ProviderId,
    distance: Option<real>,
    acceptance: Option<real>,
    rating: Option<real>,
    credibility: Option<real>)

  /** The score is counted in hundredths. */
  datatype Scored = Scored(user: ProviderId, distance: real, score: int)

  function Known(x: Option<real>, fallback: real): real {
    if x.Some? then x.value else fallback
  }

  function NormalizedDistance(distance: real, radius: real): real {
    if radius > 0.0 then distance / radius * 100.0 else 0.0
  }

  function Score(c: Candidate, radius: real): int {
    Hundredths(
      0.30 * Known(c.acceptance, 100.0) + 0.25 * Known(c.rating, 0.0) * 20.0 + 0.25 * Known(c.credibility, 0.0)
      - 0.20 * NormalizedDistance(Known(c.distance, 10.0), radius))
  }

  function Rate(c: Candidate, radius: real): Scored {
    Scored(c.provider, Known(c.distance, 10.0), Score(c, radius))
  }

  /** Candidates without an id are passed over. */
  function Rated(candidates: seq<Candidate>, radius: real): seq<Scored> {
    if |candidates| == 0 then [] else
      var last := candidates[|candidates| - 1];
      Rated(candidates[..|candidates| - 1], radius) + (if last.provider == "" then [] else [Rate(last, radius)])
  }

  predicate AsGood(a: Candidate, b: Candidate) {
    && Known(a.acceptance, 100.0) >= Known(b.acceptance, 100.0)
    && Known(a.rating, 0.0) >= Known(b.rating, 0.0)
    && Known(a.credibility, 0.0) >= Known(b.credibility, 0.0)
    && Known(a.distance, 10.0) <= Known(b.distance, 10.0)
  }

  lemma QuotientMonotone(x: real, y: real, r: real)
    requires x <= y && r > 0.0
    ensures x / r <= y / r
  {
    assert (y - x) / r >= 0.0;
    assert y / r == x / r + (y - x) / r;
  }

  /** Nobody scores lower for being better on some criteria and as good on the others. */
  lemma ScoreMonotone(a: Candidate, b: Candidate, radius: real)
    requires AsGood(a, b)
    ensures Score(a, radius) >= Score(b, radius)
  {
    var da, db := Known(a.distance, 10.0), Known(b.distance, 10.0);
    if radius > 0.0 {
      QuotientMonotone(da, db, radius);
    }
    assert NormalizedDistance(da, radius) <= NormalizedDistance(db, radius);
    RoundMonotone(
      100.0 * (0.30 * Known(b.acceptance, 100.0) + 0.25 * Known(b.rating, 0.0) * 20.0 + 0.25 * Known(b.credibility, 0.0)
               - 0.20 * NormalizedDistance(db, radius)),
      100.0 * (0.30 * Known(a.acceptance, 100.0) + 0.25 * Known(a.rating, 0.0) * 20.0 + 0.25 * Known(a.credibility, 0.0)
               - 0.20 * NormalizedDistance(da, radius)));
    hide RoundHalfEven;
  }

  lemma Percentages(d: real, r: real)
    requires r > 0.0
    ensures d / r * 100.0 * 20.0 == 2000.0 * (d / r)
  {
  }

  /**
   In hundredths, 30 times the acceptance rate, plus 500 times the rating, plus 25 times the credibility, less
   2000 times the share of the radius; unknowns count as 100, 0, 0 and 10 km.
   */
  function Weighted(c: Candidate, radius: real): real {
    30.0 * (if c.acceptance.Some? then c.acceptance.value else 100.0)
    + 500.0 * (if c.rating.Some? then c.rating.value else 0.0)
    + 25.0 * (if c.credibility.Some? then c.credibility.value else 0.0)
    - (if radius > 0.0 then 2000.0 * ((if c.distance.Some? then c.distance.value else 10.0) / radius) else 0.0)
  }

  lemma ScoreIsWeighted(c: Candidate, radius: real)
    ensures Weighted(c, radius) - 0.5 <= Score(c, radius) as real <= Weighted(c, radius) + 0.5
  {
    var distance := if c.distance.Some? then c.distance.value else 10.0;
    if radius > 0.0 {
      Percentages(distance, radius);
    }
    var exact := 0.30 * Known(c.acceptance, 100.0) + 0.25 * Known(c.rating, 0.0) * 20.0 + 0.25 * Known(c.credibility, 0.0)
      - 0.20 * NormalizedDistance(distance, radius);
    RoundsToNearest(100.0 * exact, Score(c, radius));
    hide RoundHalfEven;
  }

  /** How many of the first i have an id. */
  function Named(candidates: seq<Candidate>, i: nat): nat
    requires i <= |candidates|
  {
    if i == 0 then 0 else Named(candidates, i - 1) + (if candidates[i - 1].provider != "" then 1 else 0)
  }

  /** The entry is the candidate's: his id, his distance, and the score nearest to his weighted criteria. */
  predicate IsRated(c: Candidate, radius: real, entry: Scored) {
    && entry.user == c.provider && entry.distance == (if c.distance.Some? then c.distance.value else 10.0)
    && Weighted(c, radius) - 0.5 <= entry.score as real <= Weighted(c, radius) + 0.5
  }

  lemma {:induction false} NamedInFront(candidates: seq<Candidate>, i: nat)
    requires i < |candidates|
    ensures Named(candidates[..|candidates| - 1], i) == Named(candidates, i)
  {
    if i > 0 {
      NamedInFront(candidates, i - 1);
    }
  }

  lemma NamedNext(candidates: seq<Candidate>)
    ensures var n := |candidates|;
      Named(candidates, n) == if n == 0 then 0 else Named(candidates, n - 1) + (if candidates[n - 1].provider != "" then 1 else 0)
  {
  }

  lemma RateIsRated(c: Candidate, radius: real)
    ensures IsRated(c, radius, Rate(c, radius))
  {
    ScoreIsWeighted(c, radius);
    hide Score, Weighted;
  }

  /** Everybody with an id is rated, and nobody else, in the order given. */
  lemma {:induction false} RatedInOrder(candidates: seq<Candidate>, radius: real)
    ensures |Rated(candidates, radius)| == Named(candidates, |candidates|)
    ensures forall i | 0 <= i < |candidates| && candidates[i].provider != "" ::
      && Named(candidates, i) < |Rated(candidates, radius)|
      && IsRated(candidates[i], radius, Rated(candidates, radius)[Named(candidates, i)])
  {
    hide IsRated, Rate, Named;
    NamedNext(candidates);
    if |candidates| > 0 {
      var n := |candidates| - 1;
      var front, last := candidates[..n], candidates[n];
      RatedInOrder(front, radius);
      NamedInFront(candidates, n);
      RateIsRated(last, radius);
      forall i | 0 <= i < n && candidates[i].provider != ""
        ensures Named(candidates, i) < |Rated(front, radius)|
        ensures IsRated(candidates[i], radius, Rated(candidates, radius)[Named(candidates, i)])
      {
        NamedInFront(candidates, i);
        assert front[i] == candidates[i];
      }
    }
  }

  // ── Ranking ─────────────────────────────────────────────────────────────

  predicate Descending(s: seq<Scored>) {
    forall i, j | 0 <= i < j < |s| :: s[i].score >= s[j].score
  }

  /** The entries with the given score, in order. */
  function WithScore(s: seq<Scored>, v: int): seq<Scored> {
    if |s| == 0 then [] else
      WithScore(s[..|s| - 1], v) + (if s[|s| - 1].score == v then [s[|s| - 1]] else [])
  }

  /** Same entries, and equal scores keep their order. */
  ghost predicate StablyPermuted(s: seq<Scored>, t: seq<Scored>) {
    multiset(s) == multiset(t) && forall v :: WithScore(s, v) == WithScore(t, v)
  }

  /** After the entries that score at least as high. */
  function Insert(s: seq<Scored>, x: Scored): seq<Scored> {
    if |s| == 0 || s[|s| - 1].score >= x.score then s + [x]
    else Insert(s[..|s| - 1], x) + [s[|s| - 1]]
  }

  /** What list.sort with reverse=True does: it is stable in spite of the reversal. */
  function Ranking(s: seq<Scored>): seq<Scored> {
    if |s| == 0 then [] else Insert(Ranking(s[..|s| - 1]), s[|s| - 1])
  }

  lemma {:induction false} InsertAdds(s: seq<Scored>, x: Scored, least: int)
    requires x.score >= least && forall i | 0 <= i < |s| :: s[i].score >= least
    ensures forall i | 0 <= i < |Insert(s, x)| :: Insert(s, x)[i].score >= least
  {
    if |s| > 0 && s[|s| - 1].score < x.score {
      InsertAdds(s[..|s| - 1], x, least);
    }
  }

  lemma {:induction false} InsertOrders(s: seq<Scored>, x: Scored)
    requires Descending(s)
    ensures Descending(Insert(s, x)) && multiset(Insert(s, x)) == multiset(s) + multiset{x}
  {
    if |s| > 0 {
      var front, last := s[..|s| - 1], s[|s| - 1];
      assert s == front + [last];
      if last.score < x.score {
        InsertOrders(front, x);
        var r := Insert(front, x);
        InsertAdds(front, x, last.score);
        hide Insert;
        assert multiset(s) == multiset(front) + multiset{last};
      }
    }
  }

  lemma {:induction false} InsertKeepsOrder(s: seq<Scored>, x: Scored, v: int)
    ensures WithScore(Insert(s, x), v) == WithScore(s, v) + (if x.score == v then [x] else [])
  {
    if |s| == 0 || s[|s| - 1].score >= x.score {
      assert (s + [x])[..|s|] == s;
    } else {
      var front, last := s[..|s| - 1], s[|s| - 1];
      InsertKeepsOrder(front, x, v);
      var r := Insert(front, x);
      assert (r + [last])[..|r|] == r;
    }
  }

  /** The ranking is a stable sort by falling score. */
  lemma {:induction false} RankingSorts(s: seq<Scored>)
    ensures Descending(Ranking(s)) && StablyPermuted(s, Ranking(s))
  {
    if |s| > 0 {
      var front, last := s[..|s| - 1], s[|s| - 1];
      assert s == front + [last];
      RankingSorts(front);
      InsertOrders(Ranking(front), last);
      forall v ensures WithScore(s, v) == WithScore(Ranking(s), v) {
        InsertKeepsOrder(Ranking(front), last, v);
      }
    }
  }

  lemma {:induction false} WithScoreIn(s: seq<Scored>, v: int)
    ensures WithScore(s, v) == [] <==> forall i | 0 <= i < |s| :: s[i].score != v
  {
    if |s| > 0 {
      WithScoreIn(s[..|s| - 1], v);
      assert forall i | 0 <= i < |s| - 1 :: s[..|s| - 1][i] == s[i];
    }
  }

  /** There is one stable sort only: order and per-score order determine the result. */
  lemma {:induction false} StableSortIsUnique(s: seq<Scored>, t: seq<Scored>)
    requires Descending(s) && Descending(t) && forall v :: WithScore(s, v) == WithScore(t, v)
    ensures s == t
  {
    if |s| == 0 || |t| == 0 {
      if |s| > 0 {
        WithScoreIn(s, s[0].score);
      }
      if |t| > 0 {
        WithScoreIn(t, t[0].score);
      }
    } else {
      var s0, t0, x := s[..|s| - 1], t[..|t| - 1], s[|s| - 1];
      SameLast(s, t);
      forall v ensures WithScore(s0, v) == WithScore(t0, v) {
        var rest := if x.score == v then [x] else [];
        assert WithScore(s, v) == WithScore(s0, v) + rest && WithScore(t, v) == WithScore(t0, v) + rest;
        assert WithScore(s0, v) == WithScore(s, v)[..|WithScore(s, v)| - |rest|];
      }
      StableSortIsUnique(s0, t0);
      assert s == s0 + [x] && t == t0 + [x];
    }
  }

  lemma SameLast(s: seq<Scored>, t: seq<Scored>)
    requires Descending(s) && Descending(t) && forall v :: WithScore(s, v) == WithScore(t, v)
    requires |s| > 0 && |t| > 0
    ensures s[|s| - 1] == t[|t| - 1]
  {
    var x, y := s[|s| - 1], t[|t| - 1];
    LastIsLeast(s, t);
    LastIsLeast(t, s);
    LastOf(s, x.score);
    LastOf(t, x.score);
    hide WithScore, Descending;
  }

  lemma LastIsLeast(s: seq<Scored>, t: seq<Scored>)
    requires Descending(t) && |s| > 0 && |t| > 0
    requires WithScore(s, s[|s| - 1].score) == WithScore(t, s[|s| - 1].score)
    ensures t[|t| - 1].score <= s[|s| - 1].score
  {
    hide WithScore;
    var v := s[|s| - 1].score;
    WithScoreIn(s, v);
    WithScoreIn(t, v);
    assert WithScore(t, v) != [];
    var j :| 0 <= j < |t| && t[j].score == v;
  }

  lemma LastOf(s: seq<Scored>, v: int)
    requires |s| > 0 && s[|s| - 1].score == v
    ensures var u := WithScore(s, v); |u| > 0 && u[|u| - 1] == s[|s| - 1]
  {
  }

  // ── Batches ─────────────────────────────────────────────────────────────

  datatype BatchJob = BatchJob(candidates: seq<ProviderId>, index: nat, isLast: bool, seqStart: nat, countdown: int)

  /** An unset or zero batch size means the default; a negative one means single candidates. */
  function BatchSize(requested: Option<int>): (size: nat)
    ensures size >= 1
  {
    Max(1, if requested.Some? && requested.value != 0 then requested.value else Policy.BATCH_SIZE)
  }

  function Ids(ranked: seq<Scored>): (ids: seq<ProviderId>)
    ensures |ids| == |ranked| && forall i | 0 <= i < |ids| :: ids[i] == ranked[i].user
  {
    seq(|ranked|, i requires 0 <= i < |ranked| => ranked[i].user)
  }

  /** Where batch k starts in the ranking. */
  function Offset(k: nat, size: nat): nat {
    k * size
  }

  /** How long batch k waits: the pings before it have run out by then. */
  function Delay(k: nat, duration: int): int {
    k * duration
  }

  function Slices(ids: seq<ProviderId>, size: nat): seq<seq<ProviderId>>
    requires size >= 1
  {
    if |ids| == 0 then [] else [ids[..Min(size, |ids|)]] + Slices(ids[Min(size, |ids|)..], size)
  }

  lemma {:induction false} SliceAt(ids: seq<ProviderId>, size: nat, k: nat)
    requires size >= 1
    ensures k < |Slices(ids, size)| <==> Offset(k, size) < |ids|
    ensures k < |Slices(ids, size)| ==> Slices(ids, size)[k] == ids[Offset(k, size)..Min(Offset(k, size) + size, |ids|)]
  {
    hide Offset;
    if |ids| > 0 {
      var m := Min(size, |ids|);
      assert Slices(ids, size) == [ids[..m]] + Slices(ids[m..], size);
      hide Slices;
      if k == 0 {
        NoOffset(size);
      } else {
        SliceAt(ids[m..], size, k - 1);
        NextOffset(k - 1, size);
        var a := Offset(k - 1, size);
        if m + a < |ids| {
          SliceOfRest(ids, m, a, Min(a + size, |ids| - m));
        }
      }
    }
  }

  lemma NoOffset(size: nat)
    ensures Offset(0, size) == 0
  {
  }

  lemma SliceOfRest(ids: seq<ProviderId>, m: nat, a: nat, b: nat)
    requires m <= |ids| && a <= b <= |ids| - m
    ensures ids[m..][a..b] == ids[m + a..m + b]
  {
  }

  /** Job k holds the k-th slice of the ranking and knows where its numbers start. */
  predicate Enqueued(ids: seq<ProviderId>, size: nat, duration: int, jobs: seq<BatchJob>)
    requires size >= 1
  {
    && (forall k: nat | k < |jobs| :: Offset(k, size) < |ids| && jobs[k] == BatchJob(
          ids[Offset(k, size)..Min(Offset(k, size) + size, |ids|)], k, k == |jobs| - 1, 1 + Offset(k, size), Delay(k, duration)))
    && Offset(|jobs|, size) >= |ids|
  }

  function Concat(jobs: seq<BatchJob>): seq<ProviderId> {
    if |jobs| == 0 then [] else Concat(jobs[..|jobs| - 1]) + jobs[|jobs| - 1].candidates
  }

  lemma NextOffset(k: nat, size: nat)
    ensures Offset(k + 1, size) == Offset(k, size) + size
  {
  }

  lemma {:induction false} Times(k: nat, l: nat, size: nat)
    requires k <= l
    ensures Offset(k, size) <= Offset(l, size) && (k < l ==> Offset(k, size) + size <= Offset(l, size))
  {
    if k < l {
      Times(k, l - 1, size);
      assert Offset(l, size) == Offset(l - 1, size) + size;
    }
  }

  /** The batches, one after the other, are the ranking. */
  lemma BatchesConcatenate(ids: seq<ProviderId>, size: nat, duration: int, jobs: seq<BatchJob>)
    requires size >= 1 && Enqueued(ids, size, duration, jobs)
    ensures Concat(jobs) == ids
  {
    ConcatUpTo(ids, size, duration, jobs, |jobs|);
    assert jobs[..|jobs|] == jobs;
  }

  /** A batch without a size of its own in the session row has five; a size below one means single candidates. */
  function SizeOf(requested: Option<int>): nat {
    if requested == None || requested == Some(0) then 5 else if requested.value < 0 then 1 else requested.value
  }

  /** Every batch but the last is full, none is empty, and each waits for the pings of those before it to run out. */
  lemma BatchTells(ids: seq<ProviderId>, requested: Option<int>, duration: int, jobs: seq<BatchJob>, k: nat)
    requires Enqueued(ids, BatchSize(requested), duration, jobs) && k < |jobs|
    ensures jobs[k].index == k && jobs[k].countdown == k * duration && (jobs[k].isLast <==> k == |jobs| - 1)
    ensures 1 <= |jobs[k].candidates| <= SizeOf(requested)
    ensures k < |jobs| - 1 ==> |jobs[k].candidates| == SizeOf(requested)
  {
    var size := BatchSize(requested);
    assert size == SizeOf(requested);
    if k < |jobs| - 1 {
      NextOffset(k, size);
      assert Offset(k + 1, size) < |ids|;
    }
    hide Offset, BatchSize, SizeOf;
  }

  lemma NextSlice(ids: seq<ProviderId>, start: nat, size: nat)
    requires start < |ids|
    ensures ids[..start] + ids[start..Min(start + size, |ids|)] == ids[..Min(start + size, |ids|)]
  {
  }

  lemma {:induction false} ConcatUpTo(ids: seq<ProviderId>, size: nat, duration: int, jobs: seq<BatchJob>, k: nat)
    requires size >= 1 && Enqueued(ids, size, duration, jobs) && k <= |jobs|
    ensures Concat(jobs[..k]) == ids[..Min(Offset(k, size), |ids|)]
  {
    if k > 0 {
      ConcatUpTo(ids, size, duration, jobs, k - 1);
      assert jobs[..k][..k - 1] == jobs[..k - 1];
      NextOffset(k - 1, size);
      var start := Offset(k - 1, size);
      hide Offset, Delay;
      assert jobs[k - 1].candidates == ids[start..Min(start + size, |ids|)];
      NextSlice(ids, start, size);
    }
  }

  lemma QuotientOffset(place: nat, size: nat)
    requires size >= 1
    ensures Offset(place / size, size) <= place < Offset(place / size, size) + size
  {
  }

  /** Every place 1..n of the ranking lies in the number range of exactly one batch. */
  lemma RangesPartition(ids: seq<ProviderId>, size: nat, duration: int, jobs: seq<BatchJob>, place: nat)
    requires size >= 1 && Enqueued(ids, size, duration, jobs) && 1 <= place <= |ids|
    ensures var k := (place - 1) / size;
      && k < |jobs| && InRange(jobs[k], place)
      && forall l: nat | l < |jobs| && InRange(jobs[l], place) :: l == k
  {
    QuotientOffset(place - 1, size);
    BatchOfPlace(ids, size, duration, jobs, place, (place - 1) / size);
  }

  lemma BatchOfPlace(ids: seq<ProviderId>, size: nat, duration: int, jobs: seq<BatchJob>, place: nat, k: nat)
    requires size >= 1 && Enqueued(ids, size, duration, jobs) && 1 <= place <= |ids|
    requires Offset(k, size) <= place - 1 < Offset(k, size) + size
    ensures k < |jobs| && InRange(jobs[k], place)
    ensures forall l: nat | l < |jobs| && InRange(jobs[l], place) :: l == k
  {
    hide Offset, Delay;
    if k >= |jobs| {
      Times(|jobs|, k, size);
    }
    forall l: nat | l < |jobs| && InRange(jobs[l], place) ensures l == k {
      if l < k {
        Times(l, k, size);
      } else if k < l {
        Times(k, l, size);
      }
    }
  }

  predicate InRange(job: BatchJob, place: nat) {
    job.seqStart <= place < job.seqStart + |job.candidates|
  }

  /** A provider of an earlier batch scores at least as high as one of a later batch. */
  lemma EarlierBatchScoresHigher(
    ranked: seq<Scored>, size: nat, duration: int, jobs: seq<BatchJob>, k: nat, l: nat, i: nat, j: nat)
    requires size >= 1 && Descending(ranked) && Enqueued(Ids(ranked), size, duration, jobs)
    requires k < l < |jobs| && i < |jobs[k].candidates| && j < |jobs[l].candidates|
    ensures var a, b := Offset(k, size) + i, Offset(l, size) + j;
      && a < b < |ranked| && ranked[a].user == jobs[k].candidates[i] && ranked[b].user == jobs[l].candidates[j]
      && ranked[a].score >= ranked[b].score
  {
    Times(k, l, size);
  }

  // ── Numbers of the attempts ─────────────────────────────────────────────

  /** The place in the batch of its i-th winner. */
  function WinnerPlace(batch: seq<ProviderId>, duty: map<ProviderId, Duty>, i: nat): nat
    requires i < |Winners(batch, duty)|
  {
    var front := batch[..|batch| - 1];
    if i < |Winners(front, duty)| then WinnerPlace(front, duty, i) else |batch| - 1
  }

  lemma {:induction false} WinnersKeepOrder(batch: seq<ProviderId>, duty: map<ProviderId, Duty>, i: nat)
    requires i < |Winners(batch, duty)|
    ensures i <= WinnerPlace(batch, duty, i) < |batch|
    ensures batch[WinnerPlace(batch, duty, i)] == Winners(batch, duty)[i]
    ensures forall j: nat | j < i :: WinnerPlace(batch, duty, j) < WinnerPlace(batch, duty, i)
  {
    var front := batch[..|batch| - 1];
    var won := |Winners(front, duty)|;
    if i < won {
      WinnersKeepOrder(front, duty, i);
    } else {
      assert i == won;
      forall j: nat | j < i ensures WinnerPlace(batch, duty, j) < |batch| - 1 {
        WinnersKeepOrder(front, duty, j);
      }
      if i > 0 {
        WinnersKeepOrder(front, duty, i - 1);
      }
    }
  }

  lemma SameBatch(batch: seq<ProviderId>, duty: map<ProviderId, Duty>, i: nat, j: nat)
    requires i < |Winners(batch, duty)| && j < |Winners(batch, duty)|
    ensures i < j <==> WinnerPlace(batch, duty, i) < WinnerPlace(batch, duty, j)
  {
    WinnersKeepOrder(batch, duty, i);
    WinnersKeepOrder(batch, duty, j);
    hide Winners, WinnerPlace;
  }

  /** The rank (from 0) of the i-th provider won in batch k, and the number its attempt gets. */
  function WinnerRank(jobs: seq<BatchJob>, duty: map<ProviderId, Duty>, k: nat, i: nat): int
    requires k < |jobs| && i < |Winners(jobs[k].candidates, duty)|
  {
    jobs[k].seqStart - 1 + WinnerPlace(jobs[k].candidates, duty, i)
  }

  function AttemptOrder(
    jobs: seq<BatchJob>, duty: map<ProviderId, Duty>, session: SessionId, task: TaskId, k: nat, i: nat, expiresAt: int): (order: nat)
    requires k < |jobs| && i < |Winners(jobs[k].candidates, duty)|
    ensures order == jobs[k].seqStart + i
  {
    NewAttempts(Winners(jobs[k].candidates, duty), session, task, jobs[k].seqStart, expiresAt)[i].order
  }

  lemma WinnerInRange(
    ids: seq<ProviderId>, size: nat, duration: int, jobs: seq<BatchJob>, duty: map<ProviderId, Duty>, k: nat, i: nat)
    requires size >= 1 && Enqueued(ids, size, duration, jobs)
    requires k < |jobs| && i < |Winners(jobs[k].candidates, duty)|
    ensures i <= WinnerPlace(jobs[k].candidates, duty, i) < size
    ensures var rank := Offset(k, size) + WinnerPlace(jobs[k].candidates, duty, i);
      rank < |ids| && ids[rank] == Winners(jobs[k].candidates, duty)[i]
    ensures jobs[k].seqStart == 1 + Offset(k, size)
  {
    WinnersKeepOrder(jobs[k].candidates, duty, i);
    hide Winners, WinnerPlace, Offset, Delay;
  }

  /**
   Whatever races are lost while the batches are pinged, one after the other and each in its own
   duty table: numbers follow the ranking strictly, and nobody gets a number past its place.
   */
  lemma NumbersFollowRanking(
    ids: seq<ProviderId>, size: nat, duration: int, jobs: seq<BatchJob>, session: SessionId, task: TaskId,
    duties: seq<map<ProviderId, Duty>>, expiry: seq<int>, k: nat, i: nat, l: nat, j: nat)
    requires size >= 1 && Enqueued(ids, size, duration, jobs) && |duties| == |expiry| == |jobs|
    requires k < |jobs| && i < |Winners(jobs[k].candidates, duties[k])|
    requires l < |jobs| && j < |Winners(jobs[l].candidates, duties[l])|
    ensures
      var rank, order := WinnerRank(jobs, duties[k], k, i), AttemptOrder(jobs, duties[k], session, task, k, i, expiry[k]);
      var rank', order' := WinnerRank(jobs, duties[l], l, j), AttemptOrder(jobs, duties[l], session, task, l, j, expiry[l]);
      && 0 <= rank < |ids| && ids[rank] == Winners(jobs[k].candidates, duties[k])[i]
      && 1 <= order <= rank + 1 <= |ids|
      && (rank < rank' <==> order < order')
  {
    hide Winners, WinnerPlace, Enqueued, AttemptOrder, Offset;
    WinnerInRange(ids, size, duration, jobs, duties[k], k, i);
    WinnerInRange(ids, size, duration, jobs, duties[l], l, j);
    if k < l {
      Times(k, l, size);
    } else if l < k {
      Times(l, k, size);
    } else {
      SameBatch(jobs[k].candidates, duties[k], i, j);
    }
  }
}
