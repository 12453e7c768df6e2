/**
 * The threshold filter both twins apply to a fixture once its two teams'
 * features are known: the derived quantities, the composite score, the
 * pass flag and the reason text. The arithmetic is the same in both
 * twins; only the two reason texts differ, so they are parameters here.
 */
module FilterPolicy {
  import opened Options
  import Rounding

  /** A side passes on its own with this half-time goal percentage. */
  const PctThreshold: real := 0.25
  /** Together with `XgThreshold`: enough combined first-half shots. */
  const ShotsThreshold: real := 2.5
  /** Together with `ShotsThreshold`: enough average first-half xG. */
  const XgThreshold: real := 0.2

  /** The feature keys of one side of a match (`ht_goal_pct`,
      `avg_shots_ht`, `xG_ht`); None for a missing, null or zero key. */
  datatype TeamFeatures = TeamFeatures(htGoalPct: Option<real>, avgShotsHt: Option<real>, xgHt: Option<real>)

  /** The `derived` record stored beside the score. */
  datatype Derived = Derived(
    maxPct: real, totalShots: real, avgXg: real,
    homePct: real, awayPct: real,
    homeShots: real, awayShots: real,
    homeXg: real, awayXg: real)

  /** The `_filter` record written on a match. */
  datatype Verdict = Verdict(pass: bool, score: real, reason: string, derived: Derived)

  /** A feature key as the filter reads it: a missing key counts as 0. */
  function Read(v: Option<real>): (r: real)
    ensures v.None? ==> r == 0.0
    ensures v.Some? ==> r == v.value
  {
    v.GetOr(0.0)
  }

  function Max(a: real, b: real): (m: real)
    ensures m >= a && m >= b
    ensures m == a || m == b
  {
    if a >= b then a else b
  }

  /** The mean xG of the two sides; the divisor guard only protects 0 / 0. */
  function AverageXg(homeXg: real, awayXg: real): (r: real)
    ensures r == (homeXg + awayXg) / 2.0
  {
    (homeXg + awayXg) / (if homeXg != 0.0 || awayXg != 0.0 then 2.0 else 1.0)
  }

  function Derive(home: TeamFeatures, away: TeamFeatures): (d: Derived)
    ensures d.homePct == Read(home.htGoalPct) && d.awayPct == Read(away.htGoalPct)
    ensures d.homeShots == Read(home.avgShotsHt) && d.awayShots == Read(away.avgShotsHt)
    ensures d.homeXg == Read(home.xgHt) && d.awayXg == Read(away.xgHt)
    ensures d.maxPct >= d.homePct && d.maxPct >= d.awayPct
    ensures d.maxPct == d.homePct || d.maxPct == d.awayPct
    ensures d.totalShots == d.homeShots + d.awayShots
    ensures d.avgXg == (d.homeXg + d.awayXg) / 2.0
  {
    var homePct, awayPct := Read(home.htGoalPct), Read(away.htGoalPct);
    var homeShots, awayShots := Read(home.avgShotsHt), Read(away.avgShotsHt);
    var homeXg, awayXg := Read(home.xgHt), Read(away.xgHt);
    Derived(
      Max(homePct, awayPct), homeShots + awayShots, AverageXg(homeXg, awayXg),
      homePct, awayPct, homeShots, awayShots, homeXg, awayXg)
  }

  /** The composite score: each term is rounded to 2 decimals before summing. */
  function Score(d: Derived): real {
    Rounding.Round(d.maxPct * 100.0, 2) + Rounding.Round(d.avgXg * 10.0, 2) + Rounding.Round(d.totalShots, 2)
  }

  predicate Passes(d: Derived) {
    d.maxPct >= PctThreshold || (d.totalShots >= ShotsThreshold && d.avgXg >= XgThreshold)
  }

  /**
   * The filter verdict for a match. Passing means one side scores before
   * half-time often enough, or the two sides together shoot enough and
   * create enough xG; the reason text is chosen by the flag alone.
   */
  function Evaluate(home: TeamFeatures, away: TeamFeatures, passReason: string, failReason: string): (v: Verdict)
    ensures v.derived == Derive(home, away)
    ensures v.score == Score(v.derived)
    ensures v.pass <==>
      Read(home.htGoalPct) >= 0.25 || Read(away.htGoalPct) >= 0.25 ||
      (Read(home.avgShotsHt) + Read(away.avgShotsHt) >= 2.5 && Read(home.xgHt) + Read(away.xgHt) >= 0.4)
    ensures v.reason == if v.pass then passReason else failReason
  {
    var d := Derive(home, away);
    var pass := Passes(d);
    Verdict(pass, Score(d), if pass then passReason else failReason, d)
  }

  /** Every feature of `a` is at most the same feature of `b`. */
  predicate Dominates(a: TeamFeatures, b: TeamFeatures) {
    Read(a.htGoalPct) <= Read(b.htGoalPct) &&
    Read(a.avgShotsHt) <= Read(b.avgShotsHt) &&
    Read(a.xgHt) <= Read(b.xgHt)
  }

  /** The score never decreases as any feature of either side grows. */
  lemma ScoreMonotone(home1: TeamFeatures, away1: TeamFeatures, home2: TeamFeatures, away2: TeamFeatures)
    requires Dominates(home1, home2) && Dominates(away1, away2)
    ensures Score(Derive(home1, away1)) <= Score(Derive(home2, away2))
  {
    var d1, d2 := Derive(home1, away1), Derive(home2, away2);
    assert d1.maxPct <= d2.maxPct && d1.totalShots <= d2.totalShots && d1.avgXg <= d2.avgXg;
    ScoreMonotoneDerived(d1, d2);
  }

  lemma ScoreMonotoneDerived(d1: Derived, d2: Derived)
    requires d1.maxPct <= d2.maxPct && d1.totalShots <= d2.totalShots && d1.avgXg <= d2.avgXg
    ensures Score(d1) <= Score(d2)
  {
    Rounding.MultiplyMonotone(d1.maxPct, d2.maxPct, 100.0);
    Rounding.MultiplyMonotone(d1.avgXg, d2.avgXg, 10.0);
    Rounding.RoundMonotone(d1.maxPct * 100.0, d2.maxPct * 100.0, 2);
    Rounding.RoundMonotone(d1.avgXg * 10.0, d2.avgXg * 10.0, 2);
    Rounding.RoundMonotone(d1.totalShots, d2.totalShots, 2);
  }

  /** Growing features never turn a pass into a failure. */
  lemma PassMonotone(home1: TeamFeatures, away1: TeamFeatures, home2: TeamFeatures, away2: TeamFeatures)
    requires Dominates(home1, home2) && Dominates(away1, away2)
    requires Passes(Derive(home1, away1))
    ensures Passes(Derive(home2, away2))
  {
  }

  /** With no negative feature the score is not negative. */
  lemma ScoreNonnegative(home: TeamFeatures, away: TeamFeatures)
    requires Dominates(TeamFeatures(None, None, None), home)
    requires Dominates(TeamFeatures(None, None, None), away)
    ensures Score(Derive(home, away)) >= 0.0
  {
    var zero := TeamFeatures(None, None, None);
    ScoreMonotone(zero, zero, home, away);
    ZeroFeatures();
  }

  /** A match with no features at all scores 0 and does not pass. */
  lemma ZeroFeatures()
    ensures Score(Derive(TeamFeatures(None, None, None), TeamFeatures(None, None, None))) == 0.0
    ensures !Passes(Derive(TeamFeatures(None, None, None), TeamFeatures(None, None, None)))
  {
    Rounding.RoundZero(2);
  }

  /**
   * Home (0.3, 1.5, 0.1) against away (0.1, 1.0, 0.05): the larger
   * percentage 0.3, 2.5 shots in total and a mean xG of 0.075 score
   * 30 + 0.75 + 2.5 = 33.25, and the percentage alone passes the filter.
   */
  lemma ScoreExample()
    ensures Score(Derive(TeamFeatures(Some(0.3), Some(1.5), Some(0.1)), TeamFeatures(Some(0.1), Some(1.0), Some(0.05)))) == 33.25
    ensures Passes(Derive(TeamFeatures(Some(0.3), Some(1.5), Some(0.1)), TeamFeatures(Some(0.1), Some(1.0), Some(0.05))))
  {
    var d := Derive(TeamFeatures(Some(0.3), Some(1.5), Some(0.1)), TeamFeatures(Some(0.1), Some(1.0), Some(0.05)));
    assert d.maxPct == 0.3 && d.totalShots == 2.5 && d.avgXg == 0.075;
    assert Rounding.Pow10(2) == 100;
    Rounding.RoundExact(30.0, 3000, 2);
    Rounding.RoundExact(0.75, 75, 2);
    Rounding.RoundExact(2.5, 250, 2);
  }

  /**
   * The flag is not a function of the score: a percentage of 0.25 alone
   * and 25 shots without xG both score 25, but only the first passes.
   */
  lemma PassIndependentOfScore()
    ensures Score(Derive(TeamFeatures(Some(0.25), None, None), TeamFeatures(None, None, None))) == 25.0
    ensures Score(Derive(TeamFeatures(None, Some(25.0), None), TeamFeatures(None, None, None))) == 25.0
    ensures Passes(Derive(TeamFeatures(Some(0.25), None, None), TeamFeatures(None, None, None)))
    ensures !Passes(Derive(TeamFeatures(None, Some(25.0), None), TeamFeatures(None, None, None)))
  {
    var d1 := Derive(TeamFeatures(Some(0.25), None, None), TeamFeatures(None, None, None));
    var d2 := Derive(TeamFeatures(None, Some(25.0), None), TeamFeatures(None, None, None));
    assert d1.maxPct == 0.25 && d1.avgXg == 0.0 && d1.totalShots == 0.0;
    assert d2.maxPct == 0.0 && d2.avgXg == 0.0 && d2.totalShots == 25.0;
    assert Rounding.Pow10(2) == 100;
    Rounding.RoundExact(25.0, 2500, 2);
    Rounding.RoundZero(2);
    assert Score(d1) == 25.0 + 0.0 + 0.0;
    assert Score(d2) == 0.0 + 0.0 + 25.0;
  }
}
