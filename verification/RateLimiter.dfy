/**
  The per-entity token bucket of the rate limiter.

  `BucketModel` specifies one `allow` call as a function on the bucket table and runs of
  calls as folds of it, and relates those runs to a limiter that never keeps a bucket: one
  that remembers every granted call and checks every window (`HistoryAdmits`).
  `RateLimiting` holds the object that is updated in place.
 */
module BucketModel {

  /** tokens_per_sec_ and burst_limit_. */
  datatype Limits = Limits(rate: real, burst: real)

  datatype Bucket = Bucket(tokens: real, lastUpdate: real)

  datatype Call = Call(entity: int, tokens: real, at: real)

  datatype Verdict = Verdict(buckets: map<int, Bucket>, granted: bool)

  ghost predicate Sane(l: Limits) {
    l.rate >= 0.0 && l.burst >= 0.0
  }

  function Min(a: real, b: real): real {
    if a <= b then a else b
  }

  /** The tokens that accrue between two moments. */
  function Earned(l: Limits, from: real, to: real): real {
    (to - from) * l.rate
  }

  /** What a bucket holds at time `now`, before anything is spent. */
  function Refilled(l: Limits, b: Bucket, now: real): real {
    Min(l.burst, b.tokens + Earned(l, b.lastUpdate, now))
  }

  /** One call of `allow`. A refused first call leaves no bucket behind. */
  function Allow(l: Limits, buckets: map<int, Bucket>, c: Call): Verdict {
    if c.entity !in buckets then
      if c.tokens <= l.burst
      then Verdict(buckets[c.entity := Bucket(l.burst - c.tokens, c.at)], true)
      else Verdict(buckets, false)
    else
      var level := Refilled(l, buckets[c.entity], c.at);
      if level >= c.tokens
      then Verdict(buckets[c.entity := Bucket(level - c.tokens, c.at)], true)
      else Verdict(buckets[c.entity := Bucket(level, c.at)], false)
  }

  // ----- runs -----

  /** The bucket table after a run of calls. */
  function Run(l: Limits, calls: seq<Call>): map<int, Bucket> {
    if calls == [] then map[]
    else Allow(l, Run(l, calls[..|calls| - 1]), calls[|calls| - 1]).buckets
  }

  /** Does the limiter grant `c` when it comes right after the run `calls`? */
  predicate Admits(l: Limits, calls: seq<Call>, c: Call) {
    Allow(l, Run(l, calls), c).granted
  }

  /** The granted calls of a run, oldest first. */
  function Grants(l: Limits, calls: seq<Call>): seq<Call> {
    if calls == [] then []
    else
      var before, c := calls[..|calls| - 1], calls[|calls| - 1];
      Grants(l, before) + if Admits(l, before, c) then [c] else []
  }

  /** The calls of one entity. */
  function Of(e: int, calls: seq<Call>): seq<Call> {
    if calls == [] then []
    else
      var c := calls[|calls| - 1];
      Of(e, calls[..|calls| - 1]) + if c.entity == e then [c] else []
  }

  function Total(calls: seq<Call>): real {
    if calls == [] then 0.0 else Total(calls[..|calls| - 1]) + calls[|calls| - 1].tokens
  }

  /** Requests are not negative and the clock never runs backwards. */
  ghost predicate Ordered(calls: seq<Call>) {
    && (forall i | 0 <= i < |calls| :: calls[i].tokens >= 0.0)
    && (forall i, j | 0 <= i <= j < |calls| :: calls[i].at <= calls[j].at)
  }

  ghost predicate Before(calls: seq<Call>, t: real) {
    forall i | 0 <= i < |calls| :: calls[i].at <= t
  }

  // ----- the reference limiter -----

  /** Spending `x` at time `t` after the granted calls `g` overdraws no window that starts at a grant. */
  ghost predicate Affordable(l: Limits, g: seq<Call>, t: real, x: real) {
    && x <= l.burst
    && forall k | 0 <= k < |g| :: Total(g[k..]) + x <= l.burst + Earned(l, g[k].at, t)
  }

  /** The reference limiter: it remembers every grant and checks every window. */
  ghost predicate HistoryAdmits(l: Limits, g: seq<Call>, c: Call) {
    Affordable(l, g, c.at, c.tokens)
  }

  /** The tokens left at time `t` after the granted calls `g`, from a bucket that started full. */
  function Level(l: Limits, g: seq<Call>, t: real): real {
    if g == [] then l.burst
    else
      var c := g[|g| - 1];
      Min(l.burst, Level(l, g[..|g| - 1], c.at) - c.tokens + Earned(l, c.at, t))
  }

  // ----- small facts about the folds -----

  lemma Snoc<T>(s: seq<T>, x: T)
    ensures (s + [x])[..|s + [x]| - 1] == s
    ensures (s + [x])[|s + [x]| - 1] == x
  {
  }

  lemma {:induction false} OfMembers(e: int, calls: seq<Call>)
    ensures forall c | c in Of(e, calls) :: c in calls && c.entity == e
  {
    if calls != [] {
      OfMembers(e, calls[..|calls| - 1]);
    }
  }

  lemma {:induction false} GrantsMembers(l: Limits, calls: seq<Call>)
    ensures forall c | c in Grants(l, calls) :: c in calls
  {
    if calls != [] {
      GrantsMembers(l, calls[..|calls| - 1]);
    }
  }

  lemma MembersBefore(part: seq<Call>, calls: seq<Call>, t: real)
    requires forall c | c in part :: c in calls
    requires Before(calls, t)
    ensures Before(part, t)
  {
    forall i | 0 <= i < |part| ensures part[i].at <= t {
      assert part[i] in calls;
    }
  }

  lemma OrderedPrefix(calls: seq<Call>)
    requires Ordered(calls) && calls != []
    ensures Ordered(calls[..|calls| - 1])
    ensures Before(calls[..|calls| - 1], calls[|calls| - 1].at)
  {
  }

  lemma OrderedSnoc(calls: seq<Call>, c: Call)
    requires Ordered(calls) && Before(calls, c.at) && c.tokens >= 0.0
    ensures Ordered(calls + [c])
  {
  }

  lemma {:induction false} OfOrdered(e: int, calls: seq<Call>)
    requires Ordered(calls)
    ensures Ordered(Of(e, calls))
  {
    if calls != [] {
      var before, c := calls[..|calls| - 1], calls[|calls| - 1];
      OrderedPrefix(calls);
      OfOrdered(e, before);
      OfMembers(e, before);
      MembersBefore(Of(e, before), before, c.at);
      OrderedSnoc(Of(e, before), c);
    }
  }

  lemma {:induction false} GrantsOrdered(l: Limits, calls: seq<Call>)
    requires Ordered(calls)
    ensures Ordered(Grants(l, calls))
  {
    if calls != [] {
      var before, c := calls[..|calls| - 1], calls[|calls| - 1];
      OrderedPrefix(calls);
      GrantsOrdered(l, before);
      GrantsMembers(l, before);
      MembersBefore(Grants(l, before), before, c.at);
      OrderedSnoc(Grants(l, before), c);
    }
  }

  lemma EarnedAdds(l: Limits, a: real, b: real, c: real)
    ensures Earned(l, a, c) == Earned(l, a, b) + Earned(l, b, c)
    ensures Earned(l, a, a) == 0.0
    ensures Sane(l) && a <= b ==> Earned(l, a, b) >= 0.0
  {
  }

  // ----- the level is the tightest window -----

  /** At least `x` tokens are left exactly when spending `x` overdraws no window. */
  lemma {:induction false} LevelIsTightestWindow(l: Limits, g: seq<Call>, t: real, x: real)
    requires Ordered(g)
    ensures x <= Level(l, g, t) <==> Affordable(l, g, t, x)
  {
    hide Earned, Ordered;
    if g != [] {
      var n := |g| - 1;
      var g', c := g[..n], g[n];
      OrderedPrefix(g);
      var x' := x + c.tokens - Earned(l, c.at, t);
      LevelIsTightestWindow(l, g', c.at, x');
      AffordableSnoc(l, g', c, t, x);
      assert g == g' + [c];
    }
  }

  lemma AffordableSnoc(l: Limits, g: seq<Call>, c: Call, t: real, x: real)
    ensures Affordable(l, g + [c], t, x) <==>
            x <= l.burst && Affordable(l, g, c.at, x + c.tokens - Earned(l, c.at, t))
  {
    hide Earned;
    var x' := x + c.tokens - Earned(l, c.at, t);
    forall k | 0 <= k < |g|
      ensures Total(g[k..]) + x' <= l.burst + Earned(l, g[k].at, c.at) <==>
              Total((g + [c])[k..]) + x <= l.burst + Earned(l, (g + [c])[k].at, t)
    {
      assert (g + [c])[k..] == g[k..] + [c];
      Snoc(g[k..], c);
      EarnedAdds(l, g[k].at, c.at, t);
    }
    assert (g + [c])[|g|..] == [c];
    assert Total([c]) == c.tokens by { Snoc([], c); }
    assert (g + [c])[|g|] == c;
  }

  /** Refilling in two instalments is refilling once. */
  lemma {:induction false} LevelRefills(l: Limits, g: seq<Call>, t: real, t': real)
    requires Sane(l) && t <= t'
    ensures Level(l, g, t') == Min(l.burst, Level(l, g, t) + Earned(l, t, t'))
  {
    hide Earned;
    EarnedAdds(l, t, t', t');
    if g != [] {
      EarnedAdds(l, g[|g| - 1].at, t, t');
    }
  }

  lemma LevelSnoc(l: Limits, g: seq<Call>, c: Call, t: real)
    ensures Level(l, g + [c], t) == Min(l.burst, Level(l, g, c.at) - c.tokens + Earned(l, c.at, t))
  {
    Snoc(g, c);
  }

  lemma OfSnoc(e: int, calls: seq<Call>, c: Call)
    ensures Of(e, calls + [c]) == if c.entity == e then Of(e, calls) + [c] else Of(e, calls)
  {
    Snoc(calls, c);
    assert Of(e, calls) + [] == Of(e, calls);
  }

  // ----- the lazy bucket holds that level -----

  ghost predicate Tracks(l: Limits, buckets: map<int, Bucket>, e: int, g: seq<Call>, t: real) {
    if e in buckets
    then buckets[e].lastUpdate <= t && Refilled(l, buckets[e], t) == Level(l, g, t)
    else g == []
  }

  /** The grants of one entity in a run. */
  function GrantsOf(l: Limits, e: int, calls: seq<Call>): seq<Call> {
    Of(e, Grants(l, calls))
  }

  lemma GrantsOfOrdered(l: Limits, e: int, calls: seq<Call>, t: real)
    requires Ordered(calls) && Before(calls, t)
    ensures Ordered(GrantsOf(l, e, calls)) && Before(GrantsOf(l, e, calls), t)
  {
    GrantsOrdered(l, calls);
    OfOrdered(e, Grants(l, calls));
    GrantsMembers(l, calls);
    OfMembers(e, Grants(l, calls));
    MembersBefore(GrantsOf(l, e, calls), calls, t);
  }

  lemma TracksLater(l: Limits, buckets: map<int, Bucket>, e: int, g: seq<Call>, t: real, t': real)
    requires Sane(l) && t <= t' && Tracks(l, buckets, e, g, t)
    ensures Tracks(l, buckets, e, g, t')
  {
    hide Earned, Level;
    LevelRefills(l, g, t, t');
    EarnedAdds(l, t, t', t');
    if e in buckets {
      EarnedAdds(l, buckets[e].lastUpdate, t, t');
    }
  }

  /** One call moves the bucket and the level alike. */
  lemma TracksStep(l: Limits, buckets: map<int, Bucket>, e: int, g: seq<Call>, c: Call)
    requires Sane(l) && Tracks(l, buckets, e, g, c.at) && c.tokens >= 0.0
    ensures var v := Allow(l, buckets, c);
            Tracks(l, v.buckets, e, if v.granted && c.entity == e then g + [c] else g, c.at)
  {
    hide Earned, Level;
    EarnedAdds(l, c.at, c.at, c.at);
    LevelSnoc(l, g, c, c.at);
    LevelRefills(l, g, c.at, c.at);
    LevelEmpty(l, c.at);
  }

  lemma LevelEmpty(l: Limits, t: real)
    ensures Level(l, [], t) == l.burst
  {
  }

  lemma GrantsSplit(l: Limits, e: int, before: seq<Call>, c: Call)
    ensures Grants(l, before + [c]) == if Admits(l, before, c) then Grants(l, before) + [c] else Grants(l, before)
    ensures Run(l, before + [c]) == Allow(l, Run(l, before), c).buckets
    ensures GrantsOf(l, e, before + [c]) ==
            if Admits(l, before, c) && c.entity == e then GrantsOf(l, e, before) + [c] else GrantsOf(l, e, before)
  {
    hide Allow;
    Snoc(before, c);
    assert Grants(l, before) + [] == Grants(l, before);
    OfSnoc(e, Grants(l, before), c);
  }

  lemma {:induction false} BucketTracksLevel(l: Limits, calls: seq<Call>, e: int, t: real)
    requires Sane(l) && Ordered(calls) && Before(calls, t)
    ensures Tracks(l, Run(l, calls), e, GrantsOf(l, e, calls), t)
  {
    if calls != [] {
      var before, c := calls[..|calls| - 1], calls[|calls| - 1];
      OrderedPrefix(calls);
      BucketTracksLevel(l, before, e, c.at);
      hide Level, Earned, Allow, Tracks;
      TracksStep(l, Run(l, before), e, GrantsOf(l, e, before), c);
      assert calls == before + [c];
      GrantsSplit(l, e, before, c);
      TracksLater(l, Run(l, calls), e, GrantsOf(l, e, calls), c.at, t);
    }
  }

  /** The O(1) bucket decides exactly as the limiter that keeps the whole history. */
  lemma ExactHistory(l: Limits, calls: seq<Call>, c: Call)
    requires Sane(l) && Ordered(calls + [c])
    ensures Admits(l, calls, c) <==> HistoryAdmits(l, GrantsOf(l, c.entity, calls), c)
  {
    Snoc(calls, c);
    OrderedPrefix(calls + [c]);
    BucketTracksLevel(l, calls, c.entity, c.at);
    GrantsOfOrdered(l, c.entity, calls, c.at);
    hide Level, Earned, Affordable, Refilled;
    var g := GrantsOf(l, c.entity, calls);
    LevelEmpty(l, c.at);
    LevelIsTightestWindow(l, g, c.at, c.tokens);
  }

  // ----- consequences: windows, invisibility, independence -----

  lemma NoGrants(l: Limits, e: int)
    ensures GrantsOf(l, e, []) == []
  {
  }

  lemma LastStretchBound(l: Limits, g: seq<Call>, c: Call, i: nat)
    requires Affordable(l, g, c.at, c.tokens) && i <= |g|
    ensures Total((g + [c])[i..]) <= l.burst + Earned(l, (g + [c])[i].at, c.at)
  {
    hide Earned;
    EarnedAdds(l, c.at, c.at, c.at);
    assert (g + [c])[i..] == g[i..] + [c];
    Snoc(g[i..], c);
  }

  /** Every stretch of an entity's grants stays within the burst plus what was refilled meanwhile. */
  lemma {:induction false} StretchBound(l: Limits, e: int, calls: seq<Call>, i: nat, j: nat)
    requires Sane(l) && Ordered(calls) && i < j <= |GrantsOf(l, e, calls)|
    ensures var g := GrantsOf(l, e, calls);
            Total(g[i..j]) <= l.burst + Earned(l, g[i].at, g[j - 1].at)
  {
    hide Earned, Admits, Affordable, Ordered, Before, Grants, Of, GrantsOf;
    NoGrants(l, e);
    var before, c := calls[..|calls| - 1], calls[|calls| - 1];
    OrderedPrefix(calls);
    assert calls == before + [c];
    GrantsSplit(l, e, before, c);
    var g, g' := GrantsOf(l, e, calls), GrantsOf(l, e, before);
    if j <= |g'| {
      StretchBound(l, e, before, i, j);
      assert g[i..j] == g'[i..j];
    } else {
      ExactHistory(l, before, c);
      assert j == |g| && g[i..j] == g[i..];
      LastStretchBound(l, g', c, i);
    }
  }

  predicate Inside(c: Call, lo: real, hi: real) {
    lo <= c.at <= hi
  }

  /** The calls made in a window of time. */
  function Within(calls: seq<Call>, lo: real, hi: real): seq<Call> {
    if calls == [] then []
    else
      var c := calls[|calls| - 1];
      Within(calls[..|calls| - 1], lo, hi) + if Inside(c, lo, hi) then [c] else []
  }

  lemma {:induction false} WithinIsSuffix(g: seq<Call>, lo: real, hi: real) returns (i: nat)
    requires Ordered(g) && Before(g, hi)
    ensures i <= |g| && Within(g, lo, hi) == g[i..]
    ensures i < |g| ==> lo <= g[i].at
  {
    i := 0;
    if g != [] {
      var n := |g| - 1;
      var g', c := g[..n], g[n];
      OrderedPrefix(g);
      i := WithinIsSuffix(g', lo, hi);
      assert g == g' + [c];
      if Inside(c, lo, hi) {
        assert g[i..] == g'[i..] + [c];
      } else {
        assert i == n;
        i := n + 1;
      }
    }
  }

  lemma WithinSnoc(g: seq<Call>, c: Call, lo: real, hi: real)
    requires c.at > hi
    ensures Within(g + [c], lo, hi) == Within(g, lo, hi)
  {
    Snoc(g, c);
    assert Within(g, lo, hi) + [] == Within(g, lo, hi);
  }

  /** In every window of every run an entity is granted at most the burst plus rate times length. */
  lemma {:induction false} WindowBound(l: Limits, e: int, calls: seq<Call>, lo: real, hi: real)
    requires Sane(l) && Ordered(calls) && lo <= hi
    ensures Total(Within(GrantsOf(l, e, calls), lo, hi)) <= l.burst + Earned(l, lo, hi)
  {
    var g := GrantsOf(l, e, calls);
    if calls != [] && calls[|calls| - 1].at > hi {
      var before, c := calls[..|calls| - 1], calls[|calls| - 1];
      OrderedPrefix(calls);
      WindowBound(l, e, before, lo, hi);
      hide Earned, Ordered, Within, Grants, Of, GrantsOf;
      assert calls == before + [c];
      GrantsSplit(l, e, before, c);
      WithinSnoc(GrantsOf(l, e, before), c, lo, hi);
    } else {
      assert Before(calls, hi);
      GrantsOfOrdered(l, e, calls, hi);
      hide Earned, Ordered, Within, Grants, Of, GrantsOf;
      var i := WithinIsSuffix(g, lo, hi);
      if i < |g| {
        StretchBound(l, e, calls, i, |g|);
        assert g[i..|g|] == g[i..];
        EarnedGrows(l, lo, g[i].at, g[|g| - 1].at, hi);
      } else {
        EarnedAdds(l, lo, hi, hi);
      }
    }
  }

  lemma EarnedGrows(l: Limits, lo: real, a: real, b: real, hi: real)
    requires Sane(l) && lo <= a && b <= hi
    ensures Earned(l, a, b) <= Earned(l, lo, hi)
  {
    hide Earned;
    EarnedAdds(l, lo, a, hi);
    EarnedAdds(l, a, b, hi);
    EarnedAdds(l, b, hi, hi);
  }

  /** Two runs with the same grants for an entity decide its next call alike. */
  lemma SameGrantsSameVerdict(l: Limits, calls: seq<Call>, calls': seq<Call>, c: Call)
    requires Sane(l) && Ordered(calls + [c]) && Ordered(calls' + [c])
    requires GrantsOf(l, c.entity, calls) == GrantsOf(l, c.entity, calls')
    ensures Admits(l, calls, c) <==> Admits(l, calls', c)
  {
    ExactHistory(l, calls, c);
    ExactHistory(l, calls', c);
  }

  /** A refused call can be deleted from any run without changing which other calls are granted. */
  lemma {:induction false} RejectedCallIsInvisible(l: Limits, before: seq<Call>, r: Call, after: seq<Call>)
    requires Sane(l) && Ordered(before + [r] + after)
    requires !Admits(l, before, r)
    ensures Grants(l, before + [r] + after) == Grants(l, before + after)
  {
    hide Admits;
    if after == [] {
      assert before + [r] + after == before + [r] && before + after == before;
      GrantsSplit(l, r.entity, before, r);
    } else {
      var after', c := after[..|after| - 1], after[|after| - 1];
      var long, short := before + [r] + after', before + after';
      assert before + [r] + after == long + [c] && before + after == short + [c];
      Snoc(long, c);
      OrderedPrefix(long + [c]);
      RejectedCallIsInvisible(l, before, r, after');
      OrderedWithout(before, r, after);
      SameGrantsSameVerdict(l, long, short, c);
      GrantsSplit(l, c.entity, long, c);
      GrantsSplit(l, c.entity, short, c);
    }
  }

  lemma OrderedWithout(before: seq<Call>, r: Call, after: seq<Call>)
    requires Ordered(before + [r] + after)
    ensures Ordered(before + after)
  {
    var long, short := before + [r] + after, before + after;
    assert forall i | 0 <= i < |short| :: short[i] == long[if i < |before| then i else i + 1];
  }

  /** Deleting every other entity's calls leaves an entity's grants, hence its verdicts, unchanged. */
  lemma {:induction false} EntitiesAreIndependent(l: Limits, e: int, calls: seq<Call>)
    requires Sane(l) && Ordered(calls)
    ensures GrantsOf(l, e, calls) == Grants(l, Of(e, calls))
  {
    if calls != [] {
      hide Admits;
      var before, c := calls[..|calls| - 1], calls[|calls| - 1];
      OrderedPrefix(calls);
      EntitiesAreIndependent(l, e, before);
      assert calls == before + [c];
      GrantsSplit(l, e, before, c);
      OfSnoc(e, before, c);
      if c.entity == e {
        var mine := Of(e, before);
        OfMembers(e, before);
        OfOrdered(e, before);
        MembersBefore(mine, before, c.at);
        OrderedSnoc(mine, c);
        GrantsMembers(l, mine);
        AllOneEntity(e, Grants(l, mine));
        SameGrantsSameVerdict(l, before, mine, c);
        GrantsSplit(l, e, mine, c);
      }
    }
  }

  lemma {:induction false} AllOneEntity(e: int, calls: seq<Call>)
    requires forall c | c in calls :: c.entity == e
    ensures Of(e, calls) == calls
  {
    if calls != [] {
      AllOneEntity(e, calls[..|calls| - 1]);
      assert calls == calls[..|calls| - 1] + [calls[|calls| - 1]];
    }
  }

  // ----- greedy optimality -----

  /** The calls that an admission choice picks. */
  function Picked(calls: seq<Call>, picks: seq<bool>): seq<Call>
    requires |picks| == |calls|
  {
    if calls == [] then []
    else
      var n := |calls| - 1;
      Picked(calls[..n], picks[..n]) + if picks[n] then [calls[n]] else []
  }

  /** The choice never picks a call that the bucket, charged with its earlier picks, could not pay. */
  ghost predicate Respects(l: Limits, calls: seq<Call>, picks: seq<bool>)
    requires |picks| == |calls|
  {
    forall i | 0 <= i < |calls| && picks[i] :: HistoryAdmits(l, Picked(calls[..i], picks[..i]), calls[i])
  }

  lemma {:induction false} PickedMembers(calls: seq<Call>, picks: seq<bool>)
    requires |picks| == |calls|
    ensures forall c | c in Picked(calls, picks) :: c in calls
  {
    if calls != [] {
      PickedMembers(calls[..|calls| - 1], picks[..|calls| - 1]);
    }
  }

  lemma {:induction false} PickedOrdered(calls: seq<Call>, picks: seq<bool>)
    requires |picks| == |calls| && Ordered(calls)
    ensures Ordered(Picked(calls, picks))
  {
    if calls != [] {
      var n := |calls| - 1;
      OrderedPrefix(calls);
      PickedOrdered(calls[..n], picks[..n]);
      PickedMembers(calls[..n], picks[..n]);
      MembersBefore(Picked(calls[..n], picks[..n]), calls[..n], calls[n].at);
      OrderedSnoc(Picked(calls[..n], picks[..n]), calls[n]);
    }
  }

  function Times(q: real, n: nat): real {
    if n == 0 then 0.0 else Times(q, n - 1) + q
  }

  /** One entity's calls, none smaller than an earlier one, none larger than `q`. */
  ghost predicate Rising(calls: seq<Call>, e: int, q: real) {
    && (forall i | 0 <= i < |calls| :: calls[i].entity == e && calls[i].tokens <= q)
    && (forall i, j | 0 <= i <= j < |calls| :: calls[i].tokens <= calls[j].tokens)
  }

  lemma RisingPrefix(calls: seq<Call>, e: int, q: real)
    requires Rising(calls, e, q) && calls != []
    ensures Rising(calls[..|calls| - 1], e, calls[|calls| - 1].tokens)
    ensures calls[|calls| - 1].entity == e && calls[|calls| - 1].tokens <= q
  {
  }

  /** The limiter is never behind, and its lead pays for any tokens it is short of. */
  ghost predicate Leads(l: Limits, q: real, g: seq<Call>, p: seq<Call>, t: real) {
    |g| >= |p| && Level(l, g, t) + Times(q, |g| - |p|) >= Level(l, p, t)
  }

  lemma LeadsStep(l: Limits, q: real, g: seq<Call>, p: seq<Call>, c: Call, picked: bool, t: real)
    requires Sane(l) && q >= 0.0 && c.tokens == q && c.at <= t
    requires Leads(l, q, g, p, c.at)
    requires picked ==> q <= Level(l, p, c.at)
    ensures Leads(l, q, if q <= Level(l, g, c.at) then g + [c] else g, if picked then p + [c] else p, t)
  {
    hide Level, Earned;
    LevelSnoc(l, g, c, t);
    LevelSnoc(l, p, c, t);
    LevelRefills(l, g, c.at, t);
    LevelRefills(l, p, c.at, t);
    var d, lead := Earned(l, c.at, t), |g| - |p|;
    var x, y := Level(l, g, c.at), Level(l, p, c.at);
    if q <= x {
      LeadSurvivesRefill(l, q, x - q, if picked then y - q else y, if picked then lead else lead + 1, d);
    } else if picked {
      assert lead > 0;
      LeadSurvivesRefill(l, q, x, y - q, lead - 1, d);
    } else {
      LeadSurvivesRefill(l, q, x, y, lead, d);
    }
  }

  lemma LeadSurvivesRefill(l: Limits, q: real, x: real, y: real, lead: nat, d: real)
    requires q >= 0.0 && x + Times(q, lead) >= y
    ensures Min(l.burst, x + d) + Times(q, lead) >= Min(l.burst, y + d)
  {
    TimesNonNegative(q, lead);
  }

  lemma RespectsPrefix(l: Limits, calls: seq<Call>, picks: seq<bool>)
    requires |picks| == |calls| != 0 && Respects(l, calls, picks)
    ensures Respects(l, calls[..|calls| - 1], picks[..|calls| - 1])
    ensures var n := |calls| - 1;
            picks[n] ==> HistoryAdmits(l, Picked(calls[..n], picks[..n]), calls[n])
  {
    var n := |calls| - 1;
    forall i | 0 <= i < n && picks[..n][i]
      ensures HistoryAdmits(l, Picked(calls[..n][..i], picks[..n][..i]), calls[..n][i])
    {
      assert calls[..n][..i] == calls[..i] && picks[..n][..i] == picks[..i];
    }
  }

  lemma {:induction false} GreedyLead(l: Limits, e: int, q: real, calls: seq<Call>, picks: seq<bool>, t: real)
    requires Sane(l) && Ordered(calls) && Before(calls, t) && Rising(calls, e, q)
    requires |picks| == |calls| && Respects(l, calls, picks)
    ensures Leads(l, q, Grants(l, calls), Picked(calls, picks), t)
    decreases |calls|
  {
    if calls != [] {
      var n := |calls| - 1;
      var c := calls[n];
      RisingPrefix(calls, e, q);
      assert 0.0 <= c.tokens <= q;
      hide Leads, Grants, Respects, HistoryAdmits, Ordered, Rising;
      OrderedPrefix(calls);
      RespectsPrefix(l, calls, picks);
      GreedyLead(l, e, c.tokens, calls[..n], picks[..n], c.at);
      assert calls == calls[..n] + [c];
      assert Picked(calls[..n], picks[..n]) + [] == Picked(calls[..n], picks[..n]);
      GreedyLeadStep(l, e, calls[..n], c, picks[..n], picks[n], t);
      LeadsMore(l, c.tokens, q, Grants(l, calls), Picked(calls, picks), t);
    }
  }

  lemma GreedyLeadStep(
    l: Limits, e: int, before: seq<Call>, c: Call, picks: seq<bool>, picked: bool, t: real)
    requires Sane(l) && Ordered(before + [c]) && c.at <= t
    requires Rising(before, e, c.tokens) && c.entity == e && c.tokens >= 0.0
    requires |picks| == |before| && Leads(l, c.tokens, Grants(l, before), Picked(before, picks), c.at)
    requires picked ==> HistoryAdmits(l, Picked(before, picks), c)
    ensures Leads(l, c.tokens, Grants(l, before + [c]),
                  if picked then Picked(before, picks) + [c] else Picked(before, picks), t)
  {
    var q := c.tokens;
    var g, p := Grants(l, before), Picked(before, picks);
    assert Ordered(before) by { Snoc(before, c); OrderedPrefix(before + [c]); }
    GrantsMembers(l, before);
    AllOneEntity(e, g);
    GrantsOrdered(l, before);
    PickedOrdered(before, picks);
    hide Leads, Level, Affordable, Admits, Ordered, Grants, Picked, Rising;
    ExactHistory(l, before, c);
    GrantsSplit(l, e, before, c);
    LevelIsTightestWindow(l, g, c.at, q);
    LevelIsTightestWindow(l, p, c.at, q);
    LeadsStep(l, q, g, p, c, picked, t);
  }

  /** A lead is worth more when later requests are larger. */
  lemma LeadsMore(l: Limits, q: real, q': real, g: seq<Call>, p: seq<Call>, t: real)
    requires q <= q' && Leads(l, q, g, p, t)
    ensures Leads(l, q', g, p, t)
  {
    TimesMonotone(q, q', |g| - |p|);
  }

  lemma {:induction false} TimesMonotone(q: real, q': real, n: nat)
    requires q <= q'
    ensures Times(q, n) <= Times(q', n)
  {
    if n > 0 {
      TimesMonotone(q, q', n - 1);
    }
  }

  lemma {:induction false} TimesNonNegative(q: real, n: nat)
    requires q >= 0.0
    ensures Times(q, n) >= 0.0
  {
    if n > 0 {
      TimesNonNegative(q, n - 1);
    }
  }

  /**
    Admitting greedily is optimal: as long as an entity's requests do not get smaller, at every
    prefix of every run the limiter has granted at least as many as any choice that respects
    the same bucket, whatever other entities do in between.
   */
  lemma GreedyIsOptimal(l: Limits, e: int, q: real, calls: seq<Call>, picks: seq<bool>)
    requires Sane(l) && Ordered(calls) && Rising(Of(e, calls), e, q)
    requires |picks| == |Of(e, calls)| && Respects(l, Of(e, calls), picks)
    ensures |GrantsOf(l, e, calls)| >= |Picked(Of(e, calls), picks)|
  {
    var mine := Of(e, calls);
    EntitiesAreIndependent(l, e, calls);
    OfOrdered(e, calls);
    if mine != [] {
      var t := mine[|mine| - 1].at;
      GreedyLead(l, e, q, mine, picks, t);
    }
  }

  /** In particular for requests of one size, such as the dispatcher's. */
  lemma GreedyIsOptimalForOneSize(l: Limits, e: int, q: real, calls: seq<Call>, picks: seq<bool>)
    requires Sane(l) && Ordered(calls) && forall c | c in Of(e, calls) :: c.tokens == q
    requires |picks| == |Of(e, calls)| && Respects(l, Of(e, calls), picks)
    ensures |GrantsOf(l, e, calls)| >= |Picked(Of(e, calls), picks)|
  {
    OfMembers(e, calls);
    GreedyIsOptimal(l, e, q, calls, picks);
  }

  /** With the falling sizes 2, 1, 1 it is not: a greedy grant of 2 can cost two later grants of 1. */
  lemma GreedyCanLoseOnFallingSizes()
    ensures var l := Limits(0.0, 2.0);
            var calls := [Call(7, 2.0, 0.0), Call(7, 1.0, 0.0), Call(7, 1.0, 0.0)];
            && Respects(l, calls, [false, true, true])
            && |Picked(calls, [false, true, true])| == 2
            && |Grants(l, calls)| == 1
  {
    var l := Limits(0.0, 2.0);
    var a, b := Call(7, 2.0, 0.0), Call(7, 1.0, 0.0);
    RunOfThree(l, a, b, b);
    PicksOfThree(l, a, b, b);
  }

  lemma DrainedByTwo(l: Limits, a: Call, b: Call)
    requires l == Limits(0.0, 2.0) && a == Call(7, 2.0, 0.0) && b == Call(7, 1.0, 0.0)
    ensures Allow(l, map[], a) == Verdict(map[7 := Bucket(0.0, 0.0)], true)
    ensures Allow(l, map[7 := Bucket(0.0, 0.0)], b) == Verdict(map[7 := Bucket(0.0, 0.0)], false)
  {
    var empty := map[7 := Bucket(0.0, 0.0)];
    assert Earned(l, 0.0, 0.0) == 0.0;
    hide Earned;
    assert empty[7 := Bucket(0.0, 0.0)] == empty;
  }

  lemma RunOfThree(l: Limits, a: Call, b: Call, c: Call)
    requires l == Limits(0.0, 2.0) && a == Call(7, 2.0, 0.0) && b == c == Call(7, 1.0, 0.0)
    ensures Grants(l, [a, b, c]) == [a]
  {
    assert Run(l, []) == map[] && Grants(l, []) == [];
    hide Allow, Run, Grants, GrantsOf, Of;
    DrainedByTwo(l, a, b);
    assert [a, b, c] == [a, b] + [c] && [a, b] == [a] + [b] && [a] == [] + [a];
    GrantsSplit(l, 7, [], a);
    GrantsSplit(l, 7, [a], b);
    GrantsSplit(l, 7, [a, b], c);
  }

  lemma PicksOfThree(l: Limits, a: Call, b: Call, c: Call)
    requires l == Limits(0.0, 2.0) && a == Call(7, 2.0, 0.0) && b == c == Call(7, 1.0, 0.0)
    ensures Respects(l, [a, b, c], [false, true, true])
    ensures Picked([a, b, c], [false, true, true]) == [b, c]
  {
    assert [a, b, c][..2] == [a, b] && [a, b, c][..1] == [a] && [a, b][..1] == [a] && [a][..0] == [];
    var picks := [false, true, true];
    assert picks[..2] == [false, true] && picks[..1] == [false] && [false, true][..1] == [false];
    assert Picked([], []) == [] && Picked([a], [false]) == [] && Picked([a, b], [false, true]) == [b];
    assert [b][0..] == [b] && Total([b]) == 1.0 by { Snoc([], b); }
  }
}

module RateLimiting {
  import opened BucketModel

  class RateLimiter {
    const limits: Limits
    var buckets: map<int, Bucket>
    ghost var calls: seq<Call>  // every call so far

    ghost predicate Valid()
      reads this
    {
      buckets == Run(limits, calls)
    }

    constructor (tokensPerSec: real := 2.0, burstLimit: real := 5.0)
      ensures Valid() && limits == Limits(tokensPerSec, burstLimit) && calls == []
    {
      limits := Limits(tokensPerSec, burstLimit);
      buckets := map[];
      calls := [];
    }

    /** `now` is the reading of the steady clock. */
    method Allow(entityId: int, now: real, tokensRequested: real := 1.0) returns (granted: bool)
      requires Valid()
      modifies this
      ensures Valid()
      ensures calls == old(calls) + [Call(entityId, tokensRequested, now)]
      ensures granted == Admits(limits, old(calls), Call(entityId, tokensRequested, now))
      ensures Sane(limits) && Ordered(calls) ==>
                granted == HistoryAdmits(limits, GrantsOf(limits, entityId, old(calls)), Call(entityId, tokensRequested, now))
      ensures forall e | e != entityId :: (e in buckets <==> e in old(buckets)) && (e in buckets ==> buckets[e] == old(buckets[e]))
    {
      hide HistoryAdmits, Ordered, GrantsOf, Grants, Run;
      ghost var c := Call(entityId, tokensRequested, now);
      ghost var verdict := BucketModel.Allow(limits, buckets, c);
      GrantsSplit(limits, entityId, calls, c);
      if Sane(limits) && Ordered(calls + [c]) {
        ExactHistory(limits, calls, c);
      }
      calls := calls + [c];
      if entityId !in buckets {
        if tokensRequested <= limits.burst {
          buckets := buckets[entityId := Bucket(limits.burst - tokensRequested, now)];
          assert buckets == verdict.buckets;
          return true;
        }
        return false;
      }
      var b := buckets[entityId];
      var elapsed := now - b.lastUpdate;
      b := b.(lastUpdate := now);
      b := b.(tokens := Min(limits.burst, b.tokens + elapsed * limits.rate));
      assert b.tokens == Refilled(limits, buckets[entityId], now);
      granted := b.tokens >= tokensRequested;
      if granted {
        b := b.(tokens := b.tokens - tokensRequested);
      }
      buckets := buckets[entityId := b];
      assert buckets == verdict.buckets;
    }
  }
}
