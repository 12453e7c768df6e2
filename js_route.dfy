/**
 * The JavaScript twin (app/api/filtro/route.js). Same features and the
 * same filter as the Python twin, read with JavaScript's rules: `??`
 * keeps an empty object, `Number(undefined)` is NaN and equals nothing,
 * `Array.find` stops at the first labelled entry whatever its value, and
 * the xG scan never raises.
 */
module JsRoute {
  import opened Options
  import opened Payload
  import opened FilterPolicy
  import Seqs
  import Rounding
  import Ranking

  const PassReason: string := "Atende critérios"
  const FailReason: string := "Não atende"

  /** `Number(x)` on an id: undefined is NaN (None), null is 0. */
  function ToNumber(id: JsonId): Option<int> {
    match id
    case Absent => None
    case Null => Some(0)
    case Int(n) => Some(n)
  }

  /** `Number(a) === Number(b)`: NaN equals nothing, not even NaN. */
  predicate SameNumber(a: JsonId, b: JsonId) {
    ToNumber(a).Some? && ToNumber(b).Some? && ToNumber(a).value == ToNumber(b).value
  }

  // ---------------------------------------------------------------------
  // Half-time goal percentage
  // ---------------------------------------------------------------------

  predicate IsHome(f: Fixture, teamId: JsonId) {
    SameNumber(f.homeId, teamId)
  }

  /** `f.score ?? f.goals ?? f`, then its `halftime` when that is truthy
      (an empty object is truthy and has no counts); there is no `ht` alias. */
  function HalfTimeOf(f: Fixture): Option<HalfTime> {
    var score := if !f.score.Missing? then f.score else if !f.goals.Missing? then f.goals else Object(f.own);
    if !score.Object? then None
    else
      match score.fields.halftime
      case Missing => None
      case EmptyObject => Some(HalfTime(None, None))
      case Object(ht) => Some(ht)
  }

  /** `isHome ? (htHome ?? 0) : (htAway ?? 0)`. */
  function HtGoals(f: Fixture, teamId: JsonId): int {
    match HalfTimeOf(f)
    case None => 0
    case Some(ht) => (if IsHome(f, teamId) then ht.home else ht.away).GetOr(0)
  }

  predicate ScoredBeforeHalfTime(f: Fixture, teamId: JsonId) {
    HtGoals(f, teamId) > 0
  }

  function ScoredTest(teamId: JsonId): Fixture -> bool {
    f => ScoredBeforeHalfTime(f, teamId)
  }

  function HtGoalFraction(fs: seq<Fixture>, teamId: JsonId): real {
    if |fs| == 0 then 0.0
    else Seqs.Count(fs, ScoredTest(teamId)) as real / |fs| as real
  }

  /** `computeHtGoalPctFromLastFixtures`. */
  method ComputeHtGoalPct(lastFixtures: seq<Fixture>, teamId: JsonId) returns (pct: real)
    ensures pct == HtGoalFraction(lastFixtures, teamId)
  {
    if |lastFixtures| == 0 {
      return 0.0;
    }
    var c, t := 0, 0;
    for i := 0 to |lastFixtures|
      invariant t == i
      invariant c == Seqs.Count(lastFixtures[..i], ScoredTest(teamId))
    {
      var f := lastFixtures[i];
      var htHome: Option<int>, htAway: Option<int> := None, None;
      var halftime := HalfTimeOf(f);
      if halftime.Some? {
        htHome := halftime.value.home;
        htAway := halftime.value.away;
      }
      var isHome := SameNumber(f.homeId, teamId);
      var htGoals := if isHome then htHome.GetOr(0) else htAway.GetOr(0);
      if htGoals > 0 {
        c := c + 1;
      }
      t := t + 1;
      assert lastFixtures[..i + 1][..i] == lastFixtures[..i];
    }
    assert lastFixtures[..|lastFixtures|] == lastFixtures;
    pct := if t != 0 then c as real / t as real else 0.0;
  }

  /** The percentage is a fraction, 0 exactly when the team never scored
      before half-time, 1 exactly when it always did. */
  lemma HtGoalFractionRange(fs: seq<Fixture>, teamId: JsonId)
    ensures |fs| == 0 ==> HtGoalFraction(fs, teamId) == 0.0
    ensures 0.0 <= HtGoalFraction(fs, teamId) <= 1.0
    ensures HtGoalFraction(fs, teamId) == 0.0 <==>
      forall i :: 0 <= i < |fs| ==> !ScoredBeforeHalfTime(fs[i], teamId)
    ensures HtGoalFraction(fs, teamId) == 1.0 <==>
      |fs| > 0 && forall i :: 0 <= i < |fs| ==> ScoredBeforeHalfTime(fs[i], teamId)
  {
    Seqs.CountExtremes(fs, ScoredTest(teamId));
    if |fs| > 0 {
      var c, n := Seqs.Count(fs, ScoredTest(teamId)) as real, |fs| as real;
      Seqs.FractionFacts(c, n);
    }
  }

  /** The side whose count is read: home exactly when the fixture's home id
      and the team id are the same number; an undefined team id is never
      the home side, so the away count is read. */
  lemma SideSelection(f: Fixture, teamId: JsonId, ht: HalfTime)
    requires HalfTimeOf(f) == Some(ht)
    ensures SameNumber(f.homeId, teamId) ==> HtGoals(f, teamId) == ht.home.GetOr(0)
    ensures !SameNumber(f.homeId, teamId) ==> HtGoals(f, teamId) == ht.away.GetOr(0)
    ensures HtGoals(f, Absent) == ht.away.GetOr(0)
  {
  }

  // ---------------------------------------------------------------------
  // Average first-half shots
  // ---------------------------------------------------------------------

  /** `Number(s.team?.id) === Number(teamId)`. */
  predicate OwnsBlock(b: StatBlock, teamId: JsonId) {
    SameNumber(b.team, teamId)
  }

  function OwnerTest(teamId: JsonId): StatBlock -> bool {
    b => OwnsBlock(b, teamId)
  }

  function ShotTest(): StatEntry -> bool {
    e => IsShotEntry(e)
  }

  function XgTest(): StatEntry -> bool {
    e => IsXgEntry(e)
  }

  /** What one fixture adds to the mean: the first shot-labelled entry of
      the team's first block, halved, when its value is a number. */
  function ShotContribution(f: Fixture, teamId: JsonId): Option<real> {
    match Seqs.Find(f.statistics, OwnerTest(teamId))
    case None => None
    case Some(b) =>
      match Seqs.Find(f.statistics[b].statistics, ShotTest())
      case None => None
      case Some(k) =>
        var v := f.statistics[b].statistics[k].value;
        if v.Some? then Some(v.value / 2.0) else None
  }

  function ShotContributions(fs: seq<Fixture>, teamId: JsonId): (r: seq<Option<real>>)
    ensures |r| == |fs|
    ensures forall i :: 0 <= i < |fs| ==> r[i] == ShotContribution(fs[i], teamId)
  {
    seq(|fs|, i requires 0 <= i < |fs| => ShotContribution(fs[i], teamId))
  }

  /** `estimateAvgShotsHTFromFixtures`. */
  method EstimateAvgShotsHt(lastFixtures: seq<Fixture>, teamId: JsonId) returns (avg: real)
    ensures avg == Seqs.MeanPresent(ShotContributions(lastFixtures, teamId))
  {
    ghost var contributions := ShotContributions(lastFixtures, teamId);
    if |lastFixtures| == 0 {
      assert contributions == [];
      return 0.0;
    }
    var sum, cnt := 0.0, 0;
    for i := 0 to |lastFixtures|
      invariant sum == Seqs.SumPresent(contributions[..i])
      invariant cnt == Seqs.CountPresent(contributions[..i])
    {
      var f := lastFixtures[i];
      var teamStats := Seqs.Find(f.statistics, OwnerTest(teamId));
      if teamStats.Some? {
        var stats := f.statistics[teamStats.value].statistics;
        var shotsObj := Seqs.Find(stats, ShotTest());
        if shotsObj.Some? && stats[shotsObj.value].value.Some? {
          sum := sum + stats[shotsObj.value].value.value / 2.0;
          cnt := cnt + 1;
        }
      }
      assert contributions[..i + 1][..i] == contributions[..i];
    }
    assert contributions[..|lastFixtures|] == contributions;
    avg := if cnt != 0 then sum / cnt as real else 0.0;
  }

  /** The average is not negative when no statistic is, and 0 for an empty history. */
  lemma AvgShotsNonnegative(fs: seq<Fixture>, teamId: JsonId)
    requires NonnegativeStats(fs)
    ensures Seqs.MeanPresent(ShotContributions(fs, teamId)) >= 0.0
    ensures |fs| == 0 ==> Seqs.MeanPresent(ShotContributions(fs, teamId)) == 0.0
  {
    var xs := ShotContributions(fs, teamId);
    forall i | 0 <= i < |xs| && xs[i].Some?
      ensures xs[i].value >= 0.0
    {
      var f := fs[i];
      var b := Seqs.Find(f.statistics, OwnerTest(teamId)).value;
      var k := Seqs.Find(f.statistics[b].statistics, ShotTest()).value;
      assert f.statistics[b].statistics[k].value.value >= 0.0;
    }
    Seqs.MeanNonnegative(xs);
  }

  /** Only the FIRST shot-labelled entry of the team's block is looked at:
      when its value is not a number the fixture contributes nothing, even
      if a later shot entry is numeric. */
  lemma FirstShotEntryDecides(f: Fixture, teamId: JsonId, b: nat, k: nat)
    requires b < |f.statistics| && OwnsBlock(f.statistics[b], teamId)
    requires forall j :: 0 <= j < b ==> !OwnsBlock(f.statistics[j], teamId)
    requires k < |f.statistics[b].statistics| && IsShotEntry(f.statistics[b].statistics[k])
    requires forall j :: 0 <= j < k ==> !IsShotEntry(f.statistics[b].statistics[j])
    ensures f.statistics[b].statistics[k].value.None? ==> ShotContribution(f, teamId).None?
    ensures f.statistics[b].statistics[k].value.Some? ==>
      ShotContribution(f, teamId) == Some(f.statistics[b].statistics[k].value.value / 2.0)
  {
    FirstOwner(f.statistics, teamId, b);
    FirstShot(f.statistics[b].statistics, k);
    ShotContributionAt(f, teamId, b, k);
  }

  lemma ShotContributionAt(f: Fixture, teamId: JsonId, b: nat, k: nat)
    requires Seqs.Find(f.statistics, OwnerTest(teamId)) == Some(b)
    requires b < |f.statistics| && Seqs.Find(f.statistics[b].statistics, ShotTest()) == Some(k)
    requires k < |f.statistics[b].statistics|
    ensures f.statistics[b].statistics[k].value.None? ==> ShotContribution(f, teamId).None?
    ensures f.statistics[b].statistics[k].value.Some? ==>
      ShotContribution(f, teamId) == Some(f.statistics[b].statistics[k].value.value / 2.0)
  {
  }

  lemma FirstOwner(blocks: seq<StatBlock>, teamId: JsonId, b: nat)
    requires b < |blocks| && OwnsBlock(blocks[b], teamId)
    requires forall j :: 0 <= j < b ==> !OwnsBlock(blocks[j], teamId)
    ensures Seqs.Find(blocks, OwnerTest(teamId)) == Some(b)
  {
    Seqs.FindIsFirstHit(blocks, OwnerTest(teamId), b);
  }

  lemma FirstShot(es: seq<StatEntry>, k: nat)
    requires k < |es| && IsShotEntry(es[k])
    requires forall j :: 0 <= j < k ==> !IsShotEntry(es[j])
    ensures Seqs.Find(es, ShotTest()) == Some(k)
  {
    Seqs.FindIsFirstHit(es, ShotTest(), k);
  }

  lemma FirstXg(es: seq<StatEntry>, k: nat)
    requires k < |es| && IsXgEntry(es[k])
    requires forall j :: 0 <= j < k ==> !IsXgEntry(es[j])
    ensures Seqs.Find(es, XgTest()) == Some(k)
  {
    Seqs.FindIsFirstHit(es, XgTest(), k);
  }

  // ---------------------------------------------------------------------
  // xG of the fixture itself
  // ---------------------------------------------------------------------

  /** `s.team?.id ?? null`: a block without a team id compares as 0. */
  function BlockTid(b: StatBlock): JsonId {
    if b.team.Int? then b.team else Null
  }

  /**
   * One block: when it has an xG-labelled entry, the first one's value (0
   * when it is missing) goes to each side of the block's team and the shot
   * fallback is skipped; otherwise half the first shot-labelled value goes
   * to each such side that is still 0.
   */
  function BlockXg(b: StatBlock, homeId: JsonId, awayId: JsonId, p: XgPair): XgPair {
    var tid := BlockTid(b);
    match Seqs.Find(b.statistics, XgTest())
    case Some(i) =>
      var v := b.statistics[i].value.GetOr(0.0);
      XgPair(if SameNumber(tid, homeId) then v else p.home, if SameNumber(tid, awayId) then v else p.away)
    case None =>
      match Seqs.Find(b.statistics, ShotTest())
      case None => p
      case Some(j) =>
        var v := b.statistics[j].value.GetOr(0.0) / 2.0;
        XgPair(
          if SameNumber(tid, homeId) then (if p.home != 0.0 then p.home else v) else p.home,
          if SameNumber(tid, awayId) then (if p.away != 0.0 then p.away else v) else p.away)
  }

  /** The xG of both sides after the blocks of `stats`, both starting at 0. */
  function XgScan(stats: seq<StatBlock>, homeId: JsonId, awayId: JsonId): XgPair {
    if |stats| == 0 then XgPair(0.0, 0.0)
    else BlockXg(stats[|stats| - 1], homeId, awayId, XgScan(stats[..|stats| - 1], homeId, awayId))
  }

  /** The xG loop of `GET`, with the statistics blocks of the fixture and
      the two team ids as inputs. */
  method ResolveXg(stats: seq<StatBlock>, homeId: JsonId, awayId: JsonId) returns (homeXg: real, awayXg: real)
    ensures XgPair(homeXg, awayXg) == XgScan(stats, homeId, awayId)
  {
    homeXg, awayXg := 0.0, 0.0;
    for i := 0 to |stats|
      invariant XgPair(homeXg, awayXg) == XgScan(stats[..i], homeId, awayId)
    {
      assert stats[..i + 1][..i] == stats[..i];
      homeXg, awayXg := ScanBlock(stats[i], homeId, awayId, homeXg, awayXg);
    }
    assert stats[..|stats|] == stats;
  }

  /** One iteration of the xG loop: the block `s` applied to the running values. */
  method ScanBlock(s: StatBlock, homeId: JsonId, awayId: JsonId, homeIn: real, awayIn: real)
    returns (homeXg: real, awayXg: real)
    ensures XgPair(homeXg, awayXg) == BlockXg(s, homeId, awayId, XgPair(homeIn, awayIn))
  {
    homeXg, awayXg := homeIn, awayIn;
    var tid := BlockTid(s);
    var xgObj := Seqs.Find(s.statistics, XgTest());
    if xgObj.Some? {
      if SameNumber(tid, homeId) {
        homeXg := s.statistics[xgObj.value].value.GetOr(0.0);
      }
      if SameNumber(tid, awayId) {
        awayXg := s.statistics[xgObj.value].value.GetOr(0.0);
      }
    } else {
      var shotsObj := Seqs.Find(s.statistics, ShotTest());
      if shotsObj.Some? {
        var half := s.statistics[shotsObj.value].value.GetOr(0.0) / 2.0;
        if SameNumber(tid, homeId) {
          homeXg := if homeXg != 0.0 then homeXg else half;
        }
        if SameNumber(tid, awayId) {
          awayXg := if awayXg != 0.0 then awayXg else half;
        }
      }
    }
  }

  /** A block with an xG-labelled entry: the FIRST one decides for each side
      of the block's team, numeric or not; other sides keep their value. */
  lemma BlockXgEntryWins(b: StatBlock, homeId: JsonId, awayId: JsonId, p: XgPair, side: Side, i: nat)
    requires i < |b.statistics| && IsXgEntry(b.statistics[i])
    requires forall j :: 0 <= j < i ==> !IsXgEntry(b.statistics[j])
    ensures SameNumber(BlockTid(b), SideId(homeId, awayId, side)) ==>
      BlockXg(b, homeId, awayId, p).Get(side) == b.statistics[i].value.GetOr(0.0)
    ensures !SameNumber(BlockTid(b), SideId(homeId, awayId, side)) ==>
      BlockXg(b, homeId, awayId, p).Get(side) == p.Get(side)
  {
    FirstXg(b.statistics, i);
  }

  /** A block without an xG-labelled entry leaves a side of another team,
      and a side already nonzero, as they were. */
  lemma BlockShotKeeps(b: StatBlock, homeId: JsonId, awayId: JsonId, p: XgPair, side: Side)
    requires forall j :: 0 <= j < |b.statistics| ==> !IsXgEntry(b.statistics[j])
    requires !SameNumber(BlockTid(b), SideId(homeId, awayId, side)) || p.Get(side) != 0.0
    ensures BlockXg(b, homeId, awayId, p).Get(side) == p.Get(side)
  {
    Seqs.FindFacts(b.statistics, XgTest());
  }

  /** A block with neither an xG- nor a shot-labelled entry changes nothing. */
  lemma BlockWithoutLabels(b: StatBlock, homeId: JsonId, awayId: JsonId, p: XgPair)
    requires forall j :: 0 <= j < |b.statistics| ==> !IsXgEntry(b.statistics[j]) && !IsShotEntry(b.statistics[j])
    ensures BlockXg(b, homeId, awayId, p) == p
  {
    Seqs.FindFacts(b.statistics, XgTest());
    Seqs.FindFacts(b.statistics, ShotTest());
  }

  /** A block without an xG-labelled entry fills a side of its team that is
      still 0 with half the FIRST shot-labelled value (0 when missing). */
  lemma BlockShotFills(b: StatBlock, homeId: JsonId, awayId: JsonId, p: XgPair, side: Side, k: nat)
    requires forall j :: 0 <= j < |b.statistics| ==> !IsXgEntry(b.statistics[j])
    requires SameNumber(BlockTid(b), SideId(homeId, awayId, side)) && p.Get(side) == 0.0
    requires k < |b.statistics| && IsShotEntry(b.statistics[k])
    requires forall j :: 0 <= j < k ==> !IsShotEntry(b.statistics[j])
    ensures BlockXg(b, homeId, awayId, p).Get(side) == b.statistics[k].value.GetOr(0.0) / 2.0
  {
    Seqs.FindFacts(b.statistics, XgTest());
    FirstShot(b.statistics, k);
  }

  /** Each side is resolved on its own: the home xG does not depend on the
      away id, nor the away xG on the home id. */
  lemma {:induction false} XgScanSidesIndependent(stats: seq<StatBlock>, homeId: JsonId, awayId: JsonId, otherHome: JsonId, otherAway: JsonId)
    ensures XgScan(stats, homeId, awayId).home == XgScan(stats, homeId, otherAway).home
    ensures XgScan(stats, homeId, awayId).away == XgScan(stats, otherHome, awayId).away
  {
    if |stats| > 0 {
      XgScanSidesIndependent(stats[..|stats| - 1], homeId, awayId, otherHome, otherAway);
    }
  }

  /** An undefined team id is NaN and owns no block: that side's xG stays 0. */
  lemma {:induction false} UndefinedIdKeepsZero(stats: seq<StatBlock>, awayId: JsonId)
    ensures XgScan(stats, Absent, awayId).home == 0.0
  {
    if |stats| > 0 {
      UndefinedIdKeepsZero(stats[..|stats| - 1], awayId);
    }
  }

  /** A block whose values are all nonnegative keeps both sides nonnegative. */
  lemma BlockXgNonnegative(b: StatBlock, homeId: JsonId, awayId: JsonId, p: XgPair)
    requires forall k :: 0 <= k < |b.statistics| && b.statistics[k].value.Some? ==> b.statistics[k].value.value >= 0.0
    requires p.Nonnegative()
    ensures BlockXg(b, homeId, awayId, p).Nonnegative()
  {
  }

  /** With no negative statistic value, neither side's xG is negative. */
  lemma {:induction false} XgScanNonnegative(stats: seq<StatBlock>, homeId: JsonId, awayId: JsonId)
    requires NonnegativeBlocks(stats)
    ensures XgScan(stats, homeId, awayId).Nonnegative()
  {
    if |stats| > 0 {
      var init := stats[..|stats| - 1];
      assert forall j :: 0 <= j < |init| ==> init[j] == stats[j];
      XgScanNonnegative(init, homeId, awayId);
      BlockXgNonnegative(stats[|stats| - 1], homeId, awayId, XgScan(init, homeId, awayId));
    }
  }

  // ---------------------------------------------------------------------
  // The filter on a match, and the request handler
  // ---------------------------------------------------------------------

  /** A match object of the handler: the feature records of its two teams
      and its `_filter` key. */
  datatype Match = Match(home: TeamFeatures, away: TeamFeatures, filter: Option<Verdict>)

  /** `computeMatchPercentagesAndFilter`: a copy of the match (`...match`)
      with the verdict under `_filter`; the argument is not changed. */
  function ComputeMatchPercentagesAndFilter(m: Match): (r: Match)
    ensures r.home == m.home && r.away == m.away
    ensures r.filter.Some? && r.filter.value == Evaluate(m.home, m.away, PassReason, FailReason)
    ensures r.filter.value.pass ==> r.filter.value.reason == "Atende critérios"
    ensures !r.filter.value.pass ==> r.filter.value.reason == "Não atende"
  {
    m.(filter := Some(Evaluate(m.home, m.away, PassReason, FailReason)))
  }

  /** The feature record `GET` stores for one side: only the shots average
      is rounded (`toFixed(2)`); percentage and xG are passed as they are. */
  function SideFeatures(id: JsonId, last: seq<Fixture>, xg: real): TeamFeatures {
    TeamFeatures(
      Some(HtGoalFraction(last, id)),
      Some(Rounding.Round(Seqs.MeanPresent(ShotContributions(last, id)), 2)),
      Some(xg))
  }

  function ScoredMatch(req: FixtureRequest): Match {
    var xg := XgScan(req.stats, req.homeId, req.awayId);
    ComputeMatchPercentagesAndFilter(Match(
      SideFeatures(req.homeId, req.homeLast, xg.home),
      SideFeatures(req.awayId, req.awayLast, xg.away),
      None))
  }

  /** With no negative statistic in the histories or in the fixture's own
      blocks, every feature is nonnegative and so is the match's score. */
  lemma ScoredMatchNonnegative(req: FixtureRequest)
    requires NonnegativeStats(req.homeLast) && NonnegativeStats(req.awayLast) && NonnegativeBlocks(req.stats)
    ensures ScoredMatch(req).filter.Some? && ScoredMatch(req).filter.value.score >= 0.0
  {
    HtGoalFractionRange(req.homeLast, req.homeId);
    HtGoalFractionRange(req.awayLast, req.awayId);
    AvgShotsNonnegative(req.homeLast, req.homeId);
    AvgShotsNonnegative(req.awayLast, req.awayId);
    Rounding.RoundZero(2);
    Rounding.RoundMonotone(0.0, Seqs.MeanPresent(ShotContributions(req.homeLast, req.homeId)), 2);
    Rounding.RoundMonotone(0.0, Seqs.MeanPresent(ShotContributions(req.awayLast, req.awayId)), 2);
    var xg := XgScan(req.stats, req.homeId, req.awayId);
    XgScanNonnegative(req.stats, req.homeId, req.awayId);
    ScoreNonnegative(SideFeatures(req.homeId, req.homeLast, xg.home), SideFeatures(req.awayId, req.awayLast, xg.away));
  }

  /** The sort key `_filter.score ?? 0`. */
  function ScoreKey(m: Match): real {
    if m.filter.Some? then m.filter.value.score else 0.0
  }

  function Scores(requests: seq<FixtureRequest>): (r: seq<real>)
    ensures |r| == |requests|
    ensures forall i :: 0 <= i < |requests| ==> r[i] == ScoreKey(ScoredMatch(requests[i]))
  {
    seq(|requests|, i requires 0 <= i < |requests| => ScoreKey(ScoredMatch(requests[i])))
  }

  /** The body of the loop of `GET` for one fixture. */
  method ScoreFixture(req: FixtureRequest) returns (m: Match)
    ensures m == ScoredMatch(req)
  {
    var homeHtPct := ComputeHtGoalPct(req.homeLast, req.homeId);
    var awayHtPct := ComputeHtGoalPct(req.awayLast, req.awayId);
    var homeShots := EstimateAvgShotsHt(req.homeLast, req.homeId);
    var awayShots := EstimateAvgShotsHt(req.awayLast, req.awayId);
    var homeXg, awayXg := ResolveXg(req.stats, req.homeId, req.awayId);
    var matchObj := Match(
      TeamFeatures(Some(homeHtPct), Some(Rounding.Round(homeShots, 2)), Some(homeXg)),
      TeamFeatures(Some(awayHtPct), Some(Rounding.Round(awayShots, 2)), Some(awayXg)),
      None);
    m := ComputeMatchPercentagesAndFilter(matchObj);
  }

  /**
   * The loop of `GET` and its final `out.sort`: one scored match per
   * fixture, ordered by score, highest first, ties in input order.
   */
  method Get(requests: seq<FixtureRequest>) returns (out: seq<Match>)
    ensures |out| == |requests|
    ensures forall k :: 0 <= k < |out| ==> out[k] == ScoredMatch(requests[Ranking.RankOrder(Scores(requests))[k]])
    ensures forall i, j :: 0 <= i < j < |out| ==> ScoreKey(out[i]) >= ScoreKey(out[j])
  {
    var scored := ScoreAll(requests);
    var keys := seq(|scored|, k requires 0 <= k < |scored| => ScoreKey(scored[k]));
    ScoredAllPointwise(requests);
    KeysAreScores(requests, scored, keys);
    out := Ranking.Reorder(scored, Ranking.RankOrder(keys));
    RankedMatches(requests, scored, out);
  }

  /** The loop of `GET`: one scored match per fixture, in input order. */
  method ScoreAll(requests: seq<FixtureRequest>) returns (scored: seq<Match>)
    ensures scored == ScoredAll(requests)
  {
    scored := [];
    for i := 0 to |requests|
      invariant scored == ScoredAll(requests[..i])
    {
      assert requests[..i + 1][..i] == requests[..i];
      var m := ScoreFixture(requests[i]);
      scored := scored + [m];
    }
    assert requests[..|requests|] == requests;
  }

  /** The scored matches of a batch, in input order. */
  function ScoredAll(requests: seq<FixtureRequest>): (r: seq<Match>)
    ensures |r| == |requests|
  {
    if |requests| == 0 then []
    else ScoredAll(requests[..|requests| - 1]) + [ScoredMatch(requests[|requests| - 1])]
  }

  lemma {:induction false} ScoredAllAt(requests: seq<FixtureRequest>, k: nat)
    requires k < |requests|
    ensures ScoredAll(requests)[k] == ScoredMatch(requests[k])
  {
    if k < |requests| - 1 {
      var init := requests[..|requests| - 1];
      ScoredAllAt(init, k);
      assert init[k] == requests[k];
    }
  }

  lemma ScoredAllPointwise(requests: seq<FixtureRequest>)
    ensures forall k :: 0 <= k < |requests| ==> ScoredAll(requests)[k] == ScoredMatch(requests[k])
  {
    forall k | 0 <= k < |requests|
      ensures ScoredAll(requests)[k] == ScoredMatch(requests[k])
    {
      ScoredAllAt(requests, k);
    }
  }

  lemma KeysAreScores(requests: seq<FixtureRequest>, scored: seq<Match>, keys: seq<real>)
    requires |scored| == |keys| == |requests|
    requires forall k :: 0 <= k < |requests| ==> scored[k] == ScoredMatch(requests[k])
    requires forall k :: 0 <= k < |requests| ==> keys[k] == ScoreKey(scored[k])
    ensures keys == Scores(requests)
  {
  }

  lemma RankedMatches(requests: seq<FixtureRequest>, scored: seq<Match>, ranked: seq<Match>)
    requires |scored| == |requests|
    requires forall k :: 0 <= k < |requests| ==> scored[k] == ScoredMatch(requests[k])
    requires ranked == Ranking.Reorder(scored, Ranking.RankOrder(Scores(requests)))
    ensures |ranked| == |requests|
    ensures forall k :: 0 <= k < |ranked| ==> ranked[k] == ScoredMatch(requests[Ranking.RankOrder(Scores(requests))[k]])
    ensures forall i, j :: 0 <= i < j < |ranked| ==> ScoreKey(ranked[i]) >= ScoreKey(ranked[j])
  {
    RankedByKeys(scored, Scores(requests), ranked);
  }

  lemma RankedByKeys(scored: seq<Match>, keys: seq<real>, ranked: seq<Match>)
    requires |scored| == |keys|
    requires forall k :: 0 <= k < |keys| ==> keys[k] == ScoreKey(scored[k])
    requires ranked == Ranking.Reorder(scored, Ranking.RankOrder(keys))
    ensures forall i, j :: 0 <= i < j < |ranked| ==> ScoreKey(ranked[i]) >= ScoreKey(ranked[j])
  {
    var order := Ranking.RankOrder(keys);
    assert forall k :: 0 <= k < |ranked| ==> ScoreKey(ranked[k]) == keys[order[k]];
  }
}
