/**
 * The Python twin (api/filtro.py): the two per-team features computed
 * from a team's recent fixtures, the xG read from the statistics of the
 * fixture itself, the filter written onto each match, and the handler's
 * batch loop with its final sort.
 */
module PyFiltro {
  import opened Options
  import opened Payload
  import opened FilterPolicy
  import Seqs
  import Rounding
  import Ranking

  const PassReason: string := "Atende critérios (pct/xG/finaliz)"
  const FailReason: string := "Não atende critérios"

  // ---------------------------------------------------------------------
  // Half-time goal percentage
  // ---------------------------------------------------------------------

  /** Python `int(x or 0)` on an id that is missing, null or an integer. */
  function IntOrZero(id: JsonId): int {
    if id.Int? then id.n else 0
  }

  /** The team played at home: `int(teams.home.id or 0) == int(team_id)`. */
  predicate IsHome(f: Fixture, teamId: int) {
    IntOrZero(f.homeId) == teamId
  }

  /** `score or goals or the fixture itself`, then `halftime or ht`; `or`
      skips both a missing key and an empty object. */
  function HalfTimeOf(f: Fixture): Option<HalfTime> {
    var keys :=
      if f.score.Object? then f.score.fields
      else if f.goals.Object? then f.goals.fields
      else f.own;
    if keys.halftime.Object? then Some(keys.halftime.fields)
    else if keys.ht.Object? then Some(keys.ht.fields)
    else None
  }

  /** The team's half-time goals in `f`; a missing count is 0. */
  function HtGoals(f: Fixture, teamId: int): int {
    match HalfTimeOf(f)
    case None => 0
    case Some(ht) => (if IsHome(f, teamId) then ht.home else ht.away).GetOr(0)
  }

  predicate ScoredBeforeHalfTime(f: Fixture, teamId: int) {
    HtGoals(f, teamId) > 0
  }

  function ScoredTest(teamId: int): Fixture -> bool {
    f => ScoredBeforeHalfTime(f, teamId)
  }

  /** Fraction of the fixtures in which the team scored before half-time. */
  function HtGoalFraction(fs: seq<Fixture>, teamId: int): real {
    if |fs| == 0 then 0.0
    else Seqs.Count(fs, ScoredTest(teamId)) as real / |fs| as real
  }

  /** `compute_ht_goal_pct_from_last_fixtures`: one count per fixture,
      every fixture in the denominator. */
  method ComputeHtGoalPct(lastFixtures: seq<Fixture>, teamId: int) returns (pct: real)
    ensures pct == HtGoalFraction(lastFixtures, teamId)
  {
    if |lastFixtures| == 0 {
      return 0.0;
    }
    var count, total := 0, 0;
    for i := 0 to |lastFixtures|
      invariant total == i
      invariant count == Seqs.Count(lastFixtures[..i], ScoredTest(teamId))
    {
      var f := lastFixtures[i];
      var htHome: Option<int>, htAway: Option<int> := None, None;
      var halftime := HalfTimeOf(f);
      if halftime.Some? {
        htHome := halftime.value.home;
        htAway := halftime.value.away;
      }
      var isHome := IntOrZero(f.homeId) == teamId;
      var htGoals := (if isHome then htHome else htAway).GetOr(0);
      if htGoals > 0 {
        count := count + 1;
      }
      total := total + 1;
      assert lastFixtures[..i + 1][..i] == lastFixtures[..i];
    }
    assert lastFixtures[..|lastFixtures|] == lastFixtures;
    pct := if total != 0 then count as real / total as real else 0.0;
  }

  /** The percentage is a fraction: 0 exactly when the team never scored
      before half-time (or has no fixtures), 1 exactly when it always did. */
  lemma HtGoalFractionRange(fs: seq<Fixture>, teamId: int)
    ensures |fs| == 0 ==> HtGoalFraction(fs, teamId) == 0.0
    ensures 0.0 <= HtGoalFraction(fs, teamId) <= 1.0
    ensures HtGoalFraction(fs, teamId) == 0.0 <==>
      forall i :: 0 <= i < |fs| ==> !ScoredBeforeHalfTime(fs[i], teamId)
    ensures HtGoalFraction(fs, teamId) == 1.0 <==>
      |fs| > 0 && forall i :: 0 <= i < |fs| ==> ScoredBeforeHalfTime(fs[i], teamId)
  {
    Seqs.CountExtremes(fs, ScoredTest(teamId));
    if |fs| > 0 {
      var c, n := Seqs.Count(fs, ScoredTest(teamId)) as real, |fs| as real;
      Seqs.FractionFacts(c, n);
    }
  }

  /** The side whose count is read: home only when the fixture's home id is
      the team's id; a missing or null home id selects the away count. */
  lemma SideSelection(f: Fixture, teamId: int, ht: HalfTime)
    requires teamId != 0
    requires HalfTimeOf(f) == Some(ht)
    ensures f.homeId == Int(teamId) ==> HtGoals(f, teamId) == ht.home.GetOr(0)
    ensures f.homeId != Int(teamId) ==> HtGoals(f, teamId) == ht.away.GetOr(0)
  {
  }

  /** A fixture without half-time data counts for the denominator only. */
  lemma NoHalfTimeNotScored(f: Fixture, teamId: int)
    requires HalfTimeOf(f).None?
    ensures !ScoredBeforeHalfTime(f, teamId)
  {
  }

  /** A home fixture the team led 1-0 at the break. */
  function ScoredFixture(teamId: int): Fixture {
    Fixture(Object(HalfTimeKeys(Object(HalfTime(Some(1), Some(0))), Missing)), Missing,
      HalfTimeKeys(Missing, Missing), Int(teamId), [])
  }

  /** A home fixture goalless at the break, its data under the `ht` alias of `goals`. */
  function GoallessFixture(teamId: int): Fixture {
    Fixture(EmptyObject, Object(HalfTimeKeys(Missing, Object(HalfTime(Some(0), Some(2))))),
      HalfTimeKeys(Missing, Missing), Int(teamId), [])
  }

  /** Four fixtures, one of them with a half-time goal, give 0.25. */
  lemma HtGoalFractionExample(teamId: int)
    requires teamId != 0
    ensures HtGoalFraction([ScoredFixture(teamId), GoallessFixture(teamId),
      GoallessFixture(teamId), GoallessFixture(teamId)], teamId) == 0.25
  {
    var s, g := ScoredFixture(teamId), GoallessFixture(teamId);
    var fs := [s, g, g, g];
    assert ScoredBeforeHalfTime(s, teamId) && !ScoredBeforeHalfTime(g, teamId);
    var p := ScoredTest(teamId);
    assert Seqs.Count([s], p) == 1 by {
      assert [s][..0] == [];
    }
    assert Seqs.Count([s, g], p) == 1 by {
      assert [s, g][..1] == [s];
    }
    assert Seqs.Count([s, g, g], p) == 1 by {
      assert [s, g, g][..2] == [s, g];
    }
    assert Seqs.Count(fs, p) == 1 by {
      assert fs[..3] == [s, g, g];
    }
  }

  // ---------------------------------------------------------------------
  // Average first-half shots
  // ---------------------------------------------------------------------

  /** `tid and int(tid) == int(team_id)`: a non-zero team id equal to the team's. */
  predicate OwnsBlock(b: StatBlock, teamId: int) {
    b.team.Int? && b.team.n != 0 && b.team.n == teamId
  }

  function OwnerTest(teamId: int): StatBlock -> bool {
    b => OwnsBlock(b, teamId)
  }

  predicate NumericShot(e: StatEntry) {
    IsShotEntry(e) && e.value.Some?
  }

  function NumericShotTest(): StatEntry -> bool {
    e => NumericShot(e)
  }

  /** What one fixture adds to the mean: half the first numeric shot
      statistic of the first block that belongs to the team. */
  function ShotContribution(f: Fixture, teamId: int): Option<real> {
    match Seqs.Find(f.statistics, OwnerTest(teamId))
    case None => None
    case Some(b) =>
      match Seqs.Find(f.statistics[b].statistics, NumericShotTest())
      case None => None
      case Some(k) =>
        Seqs.FindFacts(f.statistics[b].statistics, NumericShotTest());
        Some(f.statistics[b].statistics[k].value.value / 2.0)
  }

  function ShotContributions(fs: seq<Fixture>, teamId: int): (r: seq<Option<real>>)
    ensures |r| == |fs|
    ensures forall i :: 0 <= i < |fs| ==> r[i] == ShotContribution(fs[i], teamId)
  {
    seq(|fs|, i requires 0 <= i < |fs| => ShotContribution(fs[i], teamId))
  }

  /** `estimate_avg_shots_ht_from_fixtures`: the mean of the per-fixture
      contributions over the fixtures that have one, 0.0 when none has. */
  method EstimateAvgShotsHt(lastFixtures: seq<Fixture>, teamId: int) returns (avg: real)
    ensures avg == Seqs.MeanPresent(ShotContributions(lastFixtures, teamId))
  {
    ghost var contributions := ShotContributions(lastFixtures, teamId);
    if |lastFixtures| == 0 {
      assert contributions == [];
      return 0.0;
    }
    var sumShots, count := 0.0, 0;
    for i := 0 to |lastFixtures|
      invariant sumShots == Seqs.SumPresent(contributions[..i])
      invariant count == Seqs.CountPresent(contributions[..i])
    {
      var halfShots := FixtureHalfShots(lastFixtures[i], teamId);
      if halfShots.Some? {
        sumShots := sumShots + halfShots.value;
        count := count + 1;
      }
      assert contributions[..i + 1][..i] == contributions[..i];
    }
    assert contributions[..|lastFixtures|] == contributions;
    avg := if count != 0 then sumShots / count as real else 0.0;
  }

  /** The body of the loop over fixtures: the scan for the team's block
      (stopping at the first) and, in it, for a numeric shot statistic
      (stopping at the first). */
  method FixtureHalfShots(f: Fixture, teamId: int) returns (halfShots: Option<real>)
    ensures halfShots == ShotContribution(f, teamId)
  {
    halfShots := None;
    var statsList := f.statistics;
    if |statsList| == 0 {
      return;
    }
    var teamStats: Option<StatBlock> := None;
    var k := 0;
    while k < |statsList|
      invariant 0 <= k <= |statsList|
      invariant teamStats.None?
      invariant forall j :: 0 <= j < k ==> !OwnsBlock(statsList[j], teamId)
    {
      var s := statsList[k];
      if s.team.Int? && s.team.n != 0 && s.team.n == teamId {
        teamStats := Some(s);
        break;
      }
      k := k + 1;
    }
    if teamStats.None? {
      Seqs.FindFacts(statsList, OwnerTest(teamId));
      return;
    }
    FirstOwner(statsList, teamId, k);
    var stats := teamStats.value.statistics;
    var m := 0;
    while m < |stats|
      invariant 0 <= m <= |stats|
      invariant halfShots.None?
      invariant forall j :: 0 <= j < m ==> !NumericShot(stats[j])
    {
      var st := stats[m];
      if IsShotEntry(st) && st.value.Some? {
        FirstNumericShot(stats, m);
        halfShots := Some(st.value.value / 2.0);
        break;
      }
      m := m + 1;
    }
    if halfShots.None? {
      Seqs.FindFacts(stats, NumericShotTest());
    }
  }

  /** The average is not negative when no shot statistic is, and 0 for an empty history. */
  lemma AvgShotsNonnegative(fs: seq<Fixture>, teamId: int)
    requires NonnegativeStats(fs)
    ensures Seqs.MeanPresent(ShotContributions(fs, teamId)) >= 0.0
    ensures |fs| == 0 ==> Seqs.MeanPresent(ShotContributions(fs, teamId)) == 0.0
  {
    var xs := ShotContributions(fs, teamId);
    forall i | 0 <= i < |xs| && xs[i].Some?
      ensures xs[i].value >= 0.0
    {
      var f := fs[i];
      var b := Seqs.Find(f.statistics, OwnerTest(teamId)).value;
      var k := Seqs.Find(f.statistics[b].statistics, NumericShotTest()).value;
      Seqs.FindFacts(f.statistics[b].statistics, NumericShotTest());
      assert f.statistics[b].statistics[k].value.value >= 0.0;
    }
    Seqs.MeanNonnegative(xs);
  }

  /** A fixture contributes the first numeric shot value, skipping shot
      entries whose value is not a number, in the first block of the team. */
  lemma ShotContributionFirstNumeric(f: Fixture, teamId: int, b: nat, k: nat)
    requires b < |f.statistics| && OwnsBlock(f.statistics[b], teamId)
    requires forall j :: 0 <= j < b ==> !OwnsBlock(f.statistics[j], teamId)
    requires k < |f.statistics[b].statistics| && NumericShot(f.statistics[b].statistics[k])
    requires forall j :: 0 <= j < k ==> !NumericShot(f.statistics[b].statistics[j])
    ensures ShotContribution(f, teamId) == Some(f.statistics[b].statistics[k].value.value / 2.0)
  {
    FirstOwner(f.statistics, teamId, b);
    FirstNumericShot(f.statistics[b].statistics, k);
  }

  lemma FirstOwner(blocks: seq<StatBlock>, teamId: int, b: nat)
    requires b < |blocks| && OwnsBlock(blocks[b], teamId)
    requires forall j :: 0 <= j < b ==> !OwnsBlock(blocks[j], teamId)
    ensures Seqs.Find(blocks, OwnerTest(teamId)) == Some(b)
  {
    Seqs.FindIsFirstHit(blocks, OwnerTest(teamId), b);
  }

  lemma FirstNumericShot(es: seq<StatEntry>, k: nat)
    requires k < |es| && NumericShot(es[k])
    requires forall j :: 0 <= j < k ==> !NumericShot(es[j])
    ensures Seqs.Find(es, NumericShotTest()) == Some(k)
  {
    Seqs.FindIsFirstHit(es, NumericShotTest(), k);
  }

  /** A fixture without a block of the team contributes nothing, whatever
      the other blocks hold. */
  lemma ShotContributionNoOwner(f: Fixture, teamId: int)
    requires forall j :: 0 <= j < |f.statistics| ==> !OwnsBlock(f.statistics[j], teamId)
    ensures ShotContribution(f, teamId).None?
  {
    Seqs.FindFacts(f.statistics, OwnerTest(teamId));
  }

  // ---------------------------------------------------------------------
  // xG of the fixture itself
  // ---------------------------------------------------------------------

  /** Python `int(tid)`, `int(home id)` and `int(away id)` all succeed:
      `int(None)` raises, which aborts the whole request. */
  predicate Convertible(tid: JsonId, homeId: JsonId, awayId: JsonId) {
    tid.Int? && homeId.Int? && awayId.Int?
  }

  predicate NumericXg(e: StatEntry) {
    IsXgEntry(e) && e.value.Some?
  }

  /** One entry of the xG pass: a numeric xG value is assigned to every
      side whose id equals the block's team id. None is the exception. */
  function XgStep(e: StatEntry, tid: JsonId, homeId: JsonId, awayId: JsonId, p: XgPair): Option<XgPair> {
    if !NumericXg(e) then Some(p)
    else if !Convertible(tid, homeId, awayId) then None
    else
      var v := e.value.value;
      Some(XgPair(if tid.n == homeId.n then v else p.home, if tid.n == awayId.n then v else p.away))
  }

  /** The xG pass over the entries of one block, from the running pair `p`. */
  function XgPass(es: seq<StatEntry>, tid: JsonId, homeId: JsonId, awayId: JsonId, p: XgPair): Option<XgPair> {
    if |es| == 0 then Some(p)
    else
      match XgPass(es[..|es| - 1], tid, homeId, awayId, p)
      case None => None
      case Some(q) => XgStep(es[|es| - 1], tid, homeId, awayId, q)
  }

  /** One entry of the shot fallback: half a numeric shot value goes to a
      side of the block's team only while that side is still 0. */
  function ShotStep(e: StatEntry, tid: JsonId, homeId: JsonId, awayId: JsonId, p: XgPair): Option<XgPair> {
    if !NumericShot(e) then Some(p)
    else if !Convertible(tid, homeId, awayId) then None
    else
      var v := e.value.value / 2.0;
      Some(XgPair(
        if tid.n == homeId.n then (if p.home != 0.0 then p.home else v) else p.home,
        if tid.n == awayId.n then (if p.away != 0.0 then p.away else v) else p.away))
  }

  function ShotPass(es: seq<StatEntry>, tid: JsonId, homeId: JsonId, awayId: JsonId, p: XgPair): Option<XgPair> {
    if |es| == 0 then Some(p)
    else
      match ShotPass(es[..|es| - 1], tid, homeId, awayId, p)
      case None => None
      case Some(q) => ShotStep(es[|es| - 1], tid, homeId, awayId, q)
  }

  /** One block: skipped without statistics; otherwise the xG pass, then
      the shot fallback when either side is still 0. */
  function BlockXg(b: StatBlock, homeId: JsonId, awayId: JsonId, p: XgPair): Option<XgPair> {
    if |b.statistics| == 0 then Some(p)
    else
      match XgPass(b.statistics, b.team, homeId, awayId, p)
      case None => None
      case Some(x) =>
        if x.home == 0.0 || x.away == 0.0 then ShotPass(b.statistics, b.team, homeId, awayId, x)
        else Some(x)
  }

  /** The xG of both sides after the blocks of `stats`, both starting at 0;
      None when the scan raises. */
  function XgScan(stats: seq<StatBlock>, homeId: JsonId, awayId: JsonId): Option<XgPair> {
    if |stats| == 0 then Some(XgPair(0.0, 0.0))
    else
      match XgScan(stats[..|stats| - 1], homeId, awayId)
      case None => None
      case Some(p) => BlockXg(stats[|stats| - 1], homeId, awayId, p)
  }

  /** The block's team id is the id of `side`. */
  predicate SideOwns(tid: JsonId, homeId: JsonId, awayId: JsonId, side: Side)
    requires Convertible(tid, homeId, awayId)
  {
    tid.n == SideId(homeId, awayId, side).n
  }

  /** With convertible ids the xG pass does not raise, and a side of
      another team, or a block without numeric xG, leaves the value as it was. */
  lemma {:induction false} XgPassKeeps(es: seq<StatEntry>, tid: JsonId, homeId: JsonId, awayId: JsonId, p: XgPair, side: Side)
    requires Convertible(tid, homeId, awayId)
    ensures XgPass(es, tid, homeId, awayId, p).Some?
    ensures !SideOwns(tid, homeId, awayId, side) ==>
      XgPass(es, tid, homeId, awayId, p).value.Get(side) == p.Get(side)
    ensures (forall i :: 0 <= i < |es| ==> !NumericXg(es[i])) ==>
      XgPass(es, tid, homeId, awayId, p).value.Get(side) == p.Get(side)
  {
    if |es| > 0 {
      var init := es[..|es| - 1];
      assert forall i :: 0 <= i < |init| ==> init[i] == es[i];
      XgPassKeeps(init, tid, homeId, awayId, p, side);
    }
  }

  /** For a side of the block's team the LAST numeric xG entry wins. */
  lemma {:induction false} XgPassLastWins(es: seq<StatEntry>, tid: JsonId, homeId: JsonId, awayId: JsonId, p: XgPair, side: Side, i: nat)
    requires Convertible(tid, homeId, awayId) && SideOwns(tid, homeId, awayId, side)
    requires i < |es| && NumericXg(es[i])
    requires forall j :: i < j < |es| ==> !NumericXg(es[j])
    ensures XgPass(es, tid, homeId, awayId, p).Some?
    ensures XgPass(es, tid, homeId, awayId, p).value.Get(side) == es[i].value.value
  {
    var init := es[..|es| - 1];
    XgPassKeeps(init, tid, homeId, awayId, p, side);
    if i < |es| - 1 {
      assert init[i] == es[i];
      assert forall j :: i < j < |init| ==> init[j] == es[j];
      XgPassLastWins(init, tid, homeId, awayId, p, side, i);
    }
  }

  /** The xG pass raises exactly when the block has a numeric xG entry and
      some id is not convertible. */
  lemma {:induction false} XgPassCrash(es: seq<StatEntry>, tid: JsonId, homeId: JsonId, awayId: JsonId, p: XgPair)
    ensures XgPass(es, tid, homeId, awayId, p).None? <==>
      !Convertible(tid, homeId, awayId) && exists i :: 0 <= i < |es| && NumericXg(es[i])
  {
    if |es| > 0 {
      var init := es[..|es| - 1];
      assert forall i :: 0 <= i < |init| ==> init[i] == es[i];
      XgPassCrash(init, tid, homeId, awayId, p);
      if NumericXg(es[|es| - 1]) {
        assert exists i :: 0 <= i < |es| && NumericXg(es[i]);
      } else if exists i :: 0 <= i < |es| && NumericXg(es[i]) {
        var i :| 0 <= i < |es| && NumericXg(es[i]);
        assert i < |init| && NumericXg(init[i]);
      }
    }
  }

  predicate NonzeroShot(e: StatEntry) {
    NumericShot(e) && e.value.value != 0.0
  }

  /** With convertible ids the shot fallback does not raise, and it leaves
      a side of another team, and a side already nonzero, as they were. */
  lemma {:induction false} ShotPassKeeps(es: seq<StatEntry>, tid: JsonId, homeId: JsonId, awayId: JsonId, p: XgPair, side: Side)
    requires Convertible(tid, homeId, awayId)
    ensures ShotPass(es, tid, homeId, awayId, p).Some?
    ensures !SideOwns(tid, homeId, awayId, side) || p.Get(side) != 0.0 ==>
      ShotPass(es, tid, homeId, awayId, p).value.Get(side) == p.Get(side)
  {
    if |es| > 0 {
      ShotPassKeeps(es[..|es| - 1], tid, homeId, awayId, p, side);
    }
  }

  /** A side that is 0 stays 0 through a block without a nonzero numeric shot value. */
  lemma {:induction false} ShotPassStaysZero(es: seq<StatEntry>, tid: JsonId, homeId: JsonId, awayId: JsonId, p: XgPair, side: Side)
    requires Convertible(tid, homeId, awayId)
    requires p.Get(side) == 0.0
    requires forall i :: 0 <= i < |es| ==> !NonzeroShot(es[i])
    ensures ShotPass(es, tid, homeId, awayId, p).Some?
    ensures ShotPass(es, tid, homeId, awayId, p).value.Get(side) == 0.0
  {
    if |es| > 0 {
      var init := es[..|es| - 1];
      assert forall i :: 0 <= i < |init| ==> init[i] == es[i];
      ShotPassStaysZero(init, tid, homeId, awayId, p, side);
    }
  }

  /** A side of the block's team that is still 0 ends with half the FIRST
      nonzero numeric shot value of the block. */
  lemma {:induction false} ShotPassFirstNonzero(es: seq<StatEntry>, tid: JsonId, homeId: JsonId, awayId: JsonId, p: XgPair, side: Side, i: nat)
    requires Convertible(tid, homeId, awayId) && SideOwns(tid, homeId, awayId, side)
    requires p.Get(side) == 0.0
    requires i < |es| && NonzeroShot(es[i])
    requires forall j :: 0 <= j < i ==> !NonzeroShot(es[j])
    ensures ShotPass(es, tid, homeId, awayId, p).Some?
    ensures ShotPass(es, tid, homeId, awayId, p).value.Get(side) == es[i].value.value / 2.0
  {
    var init := es[..|es| - 1];
    assert forall k :: 0 <= k < |init| ==> init[k] == es[k];
    if i < |init| {
      ShotPassFirstNonzero(init, tid, homeId, awayId, p, side, i);
    } else {
      ShotPassStaysZero(init, tid, homeId, awayId, p, side);
    }
  }

  /** The shot fallback raises exactly when the block has a numeric shot
      entry and some id is not convertible. */
  lemma {:induction false} ShotPassCrash(es: seq<StatEntry>, tid: JsonId, homeId: JsonId, awayId: JsonId, p: XgPair)
    ensures ShotPass(es, tid, homeId, awayId, p).None? <==>
      !Convertible(tid, homeId, awayId) && exists i :: 0 <= i < |es| && NumericShot(es[i])
  {
    if |es| > 0 {
      var init := es[..|es| - 1];
      assert forall i :: 0 <= i < |init| ==> init[i] == es[i];
      ShotPassCrash(init, tid, homeId, awayId, p);
      if NumericShot(es[|es| - 1]) {
        assert exists i :: 0 <= i < |es| && NumericShot(es[i]);
      } else if exists i :: 0 <= i < |es| && NumericShot(es[i]) {
        var i :| 0 <= i < |es| && NumericShot(es[i]);
        assert i < |init| && NumericShot(init[i]);
      }
    }
  }

  /** With both team ids and every team id of a block with statistics
      present, the scan does not raise; with no block at all both sides are 0. */
  lemma {:induction false} XgScanNoCrash(stats: seq<StatBlock>, homeId: JsonId, awayId: JsonId)
    requires homeId.Int? && awayId.Int?
    requires forall i :: 0 <= i < |stats| && |stats[i].statistics| > 0 ==> stats[i].team.Int?
    ensures XgScan(stats, homeId, awayId).Some?
    ensures |stats| == 0 ==> XgScan(stats, homeId, awayId) == Some(XgPair(0.0, 0.0))
  {
    if |stats| > 0 {
      var init := stats[..|stats| - 1];
      assert forall i :: 0 <= i < |init| ==> init[i] == stats[i];
      XgScanNoCrash(init, homeId, awayId);
      var b := stats[|stats| - 1];
      if |b.statistics| > 0 {
        var p := XgScan(init, homeId, awayId).value;
        XgPassKeeps(b.statistics, b.team, homeId, awayId, p, Home);
        var x := XgPass(b.statistics, b.team, homeId, awayId, p).value;
        ShotPassKeeps(b.statistics, b.team, homeId, awayId, x, Home);
      }
    }
  }

  lemma {:induction false} XgPassCrashSticky(es: seq<StatEntry>, j: nat, tid: JsonId, homeId: JsonId, awayId: JsonId, p: XgPair)
    requires j <= |es| && XgPass(es[..j], tid, homeId, awayId, p).None?
    ensures XgPass(es, tid, homeId, awayId, p).None?
    decreases |es| - j
  {
    if j < |es| {
      assert es[..j + 1][..j] == es[..j];
      if j + 1 == |es| {
        assert es[..j + 1] == es;
      } else {
        XgPassCrashSticky(es, j + 1, tid, homeId, awayId, p);
      }
    } else {
      assert es[..j] == es;
    }
  }

  lemma {:induction false} ShotPassCrashSticky(es: seq<StatEntry>, j: nat, tid: JsonId, homeId: JsonId, awayId: JsonId, p: XgPair)
    requires j <= |es| && ShotPass(es[..j], tid, homeId, awayId, p).None?
    ensures ShotPass(es, tid, homeId, awayId, p).None?
    decreases |es| - j
  {
    if j < |es| {
      assert es[..j + 1][..j] == es[..j];
      if j + 1 == |es| {
        assert es[..j + 1] == es;
      } else {
        ShotPassCrashSticky(es, j + 1, tid, homeId, awayId, p);
      }
    } else {
      assert es[..j] == es;
    }
  }

  lemma {:induction false} XgScanCrashSticky(stats: seq<StatBlock>, i: nat, homeId: JsonId, awayId: JsonId)
    requires i <= |stats| && XgScan(stats[..i], homeId, awayId).None?
    ensures XgScan(stats, homeId, awayId).None?
    decreases |stats| - i
  {
    if i < |stats| {
      assert stats[..i + 1][..i] == stats[..i];
      if i + 1 == |stats| {
        assert stats[..i + 1] == stats;
      } else {
        XgScanCrashSticky(stats, i + 1, homeId, awayId);
      }
    } else {
      assert stats[..i] == stats;
    }
  }

  /** The xG pass treats each side on its own: two runs that agree on a
      side's id and running value agree on that side's result. */
  lemma {:induction false} XgPassSide(es: seq<StatEntry>, tid: JsonId, h1: JsonId, a1: JsonId, p1: XgPair,
                                      h2: JsonId, a2: JsonId, p2: XgPair, side: Side)
    requires Convertible(tid, h1, a1) && Convertible(tid, h2, a2)
    requires SideId(h1, a1, side).n == SideId(h2, a2, side).n && p1.Get(side) == p2.Get(side)
    ensures XgPass(es, tid, h1, a1, p1).Some? && XgPass(es, tid, h2, a2, p2).Some?
    ensures XgPass(es, tid, h1, a1, p1).value.Get(side) == XgPass(es, tid, h2, a2, p2).value.Get(side)
  {
    if |es| > 0 {
      XgPassSide(es[..|es| - 1], tid, h1, a1, p1, h2, a2, p2, side);
    }
  }

  /** The shot fallback treats each side on its own, like the xG pass. */
  lemma {:induction false} ShotPassSide(es: seq<StatEntry>, tid: JsonId, h1: JsonId, a1: JsonId, p1: XgPair,
                                        h2: JsonId, a2: JsonId, p2: XgPair, side: Side)
    requires Convertible(tid, h1, a1) && Convertible(tid, h2, a2)
    requires SideId(h1, a1, side).n == SideId(h2, a2, side).n && p1.Get(side) == p2.Get(side)
    ensures ShotPass(es, tid, h1, a1, p1).Some? && ShotPass(es, tid, h2, a2, p2).Some?
    ensures ShotPass(es, tid, h1, a1, p1).value.Get(side) == ShotPass(es, tid, h2, a2, p2).value.Get(side)
  {
    if |es| > 0 {
      ShotPassSide(es[..|es| - 1], tid, h1, a1, p1, h2, a2, p2, side);
    }
  }

  /** One block treats each side on its own. The fallback may run because
      of the OTHER side being 0, but it only changes a side that is 0. */
  lemma BlockXgSide(b: StatBlock, h1: JsonId, a1: JsonId, p1: XgPair, h2: JsonId, a2: JsonId, p2: XgPair, side: Side)
    requires h1.Int? && a1.Int? && h2.Int? && a2.Int? && (|b.statistics| > 0 ==> b.team.Int?)
    requires SideId(h1, a1, side).n == SideId(h2, a2, side).n && p1.Get(side) == p2.Get(side)
    ensures BlockXg(b, h1, a1, p1).Some? && BlockXg(b, h2, a2, p2).Some?
    ensures BlockXg(b, h1, a1, p1).value.Get(side) == BlockXg(b, h2, a2, p2).value.Get(side)
  {
    if |b.statistics| > 0 {
      XgPassSide(b.statistics, b.team, h1, a1, p1, h2, a2, p2, side);
      var x1 := XgPass(b.statistics, b.team, h1, a1, p1).value;
      var x2 := XgPass(b.statistics, b.team, h2, a2, p2).value;
      ShotPassSide(b.statistics, b.team, h1, a1, x1, h2, a2, x2, side);
      ShotPassKeeps(b.statistics, b.team, h1, a1, x1, side);
      ShotPassKeeps(b.statistics, b.team, h2, a2, x2, side);
    }
  }

  lemma {:induction false} XgScanSide(stats: seq<StatBlock>, h1: JsonId, a1: JsonId, h2: JsonId, a2: JsonId, side: Side)
    requires h1.Int? && a1.Int? && h2.Int? && a2.Int?
    requires forall i :: 0 <= i < |stats| && |stats[i].statistics| > 0 ==> stats[i].team.Int?
    requires SideId(h1, a1, side).n == SideId(h2, a2, side).n
    ensures XgScan(stats, h1, a1).Some? && XgScan(stats, h2, a2).Some?
    ensures XgScan(stats, h1, a1).value.Get(side) == XgScan(stats, h2, a2).value.Get(side)
  {
    if |stats| > 0 {
      var init := stats[..|stats| - 1];
      assert forall i :: 0 <= i < |init| ==> init[i] == stats[i];
      XgScanSide(init, h1, a1, h2, a2, side);
      BlockXgSide(stats[|stats| - 1], h1, a1, XgScan(init, h1, a1).value, h2, a2, XgScan(init, h2, a2).value, side);
    }
  }

  /** With integer ids everywhere, each side is resolved on its own: the
      home xG does not depend on the away id, nor the away xG on the home id. */
  lemma XgScanSidesIndependent(stats: seq<StatBlock>, homeId: JsonId, awayId: JsonId, otherHome: JsonId, otherAway: JsonId)
    requires homeId.Int? && awayId.Int? && otherHome.Int? && otherAway.Int?
    requires forall i :: 0 <= i < |stats| && |stats[i].statistics| > 0 ==> stats[i].team.Int?
    ensures XgScan(stats, homeId, awayId).Some?
    ensures XgScan(stats, homeId, otherAway).Some? && XgScan(stats, otherHome, awayId).Some?
    ensures XgScan(stats, homeId, awayId).value.home == XgScan(stats, homeId, otherAway).value.home
    ensures XgScan(stats, homeId, awayId).value.away == XgScan(stats, otherHome, awayId).value.away
  {
    XgScanSide(stats, homeId, awayId, homeId, otherAway, Home);
    XgScanSide(stats, homeId, awayId, otherHome, awayId, Away);
  }

  lemma {:induction false} XgPassNonnegative(es: seq<StatEntry>, tid: JsonId, homeId: JsonId, awayId: JsonId, p: XgPair)
    requires forall k :: 0 <= k < |es| && es[k].value.Some? ==> es[k].value.value >= 0.0
    requires p.Nonnegative()
    ensures XgPass(es, tid, homeId, awayId, p).Some? ==> XgPass(es, tid, homeId, awayId, p).value.Nonnegative()
  {
    if |es| > 0 {
      XgPassNonnegative(es[..|es| - 1], tid, homeId, awayId, p);
    }
  }

  lemma {:induction false} ShotPassNonnegative(es: seq<StatEntry>, tid: JsonId, homeId: JsonId, awayId: JsonId, p: XgPair)
    requires forall k :: 0 <= k < |es| && es[k].value.Some? ==> es[k].value.value >= 0.0
    requires p.Nonnegative()
    ensures ShotPass(es, tid, homeId, awayId, p).Some? ==> ShotPass(es, tid, homeId, awayId, p).value.Nonnegative()
  {
    if |es| > 0 {
      ShotPassNonnegative(es[..|es| - 1], tid, homeId, awayId, p);
    }
  }

  /** With no negative statistic value, neither side's xG is negative. */
  lemma {:induction false} XgScanNonnegative(stats: seq<StatBlock>, homeId: JsonId, awayId: JsonId)
    requires NonnegativeBlocks(stats)
    ensures XgScan(stats, homeId, awayId).Some? ==> XgScan(stats, homeId, awayId).value.Nonnegative()
  {
    if |stats| > 0 {
      var init := stats[..|stats| - 1];
      assert forall j :: 0 <= j < |init| ==> init[j] == stats[j];
      XgScanNonnegative(init, homeId, awayId);
      var b := stats[|stats| - 1];
      if XgScan(init, homeId, awayId).Some? && |b.statistics| > 0 {
        var p := XgScan(init, homeId, awayId).value;
        XgPassNonnegative(b.statistics, b.team, homeId, awayId, p);
        if XgPass(b.statistics, b.team, homeId, awayId, p).Some? {
          ShotPassNonnegative(b.statistics, b.team, homeId, awayId, XgPass(b.statistics, b.team, homeId, awayId, p).value);
        }
      }
    }
  }

  /**
   * The xG loop of the request handler, with the statistics blocks of the
   * fixture and the two team ids as inputs. None stands for the exception
   * an unconvertible id raises.
   */
  method ResolveXg(stats: seq<StatBlock>, homeId: JsonId, awayId: JsonId) returns (r: Option<XgPair>)
    ensures r == XgScan(stats, homeId, awayId)
  {
    var homeXg, awayXg := 0.0, 0.0;
    for i := 0 to |stats|
      invariant XgScan(stats[..i], homeId, awayId) == Some(XgPair(homeXg, awayXg))
    {
      var s := stats[i];
      assert stats[..i + 1][..i] == stats[..i];
      if |s.statistics| == 0 {
        continue;
      }
      var afterXg := ScanXgEntries(s.statistics, s.team, homeId, awayId, XgPair(homeXg, awayXg));
      if afterXg.None? {
        XgScanCrashSticky(stats, i + 1, homeId, awayId);
        return None;
      }
      homeXg, awayXg := afterXg.value.home, afterXg.value.away;
      if homeXg == 0.0 || awayXg == 0.0 {
        var afterShots := ScanShotEntries(s.statistics, s.team, homeId, awayId, XgPair(homeXg, awayXg));
        if afterShots.None? {
          XgScanCrashSticky(stats, i + 1, homeId, awayId);
          return None;
        }
        homeXg, awayXg := afterShots.value.home, afterShots.value.away;
      }
    }
    assert stats[..|stats|] == stats;
    return Some(XgPair(homeXg, awayXg));
  }

  /** The first inner loop of a block: xG entries. */
  method ScanXgEntries(es: seq<StatEntry>, tid: JsonId, homeId: JsonId, awayId: JsonId, start: XgPair)
    returns (r: Option<XgPair>)
    ensures r == XgPass(es, tid, homeId, awayId, start)
  {
    var homeXg, awayXg := start.home, start.away;
    for j := 0 to |es|
      invariant XgPass(es[..j], tid, homeId, awayId, start) == Some(XgPair(homeXg, awayXg))
    {
      var st := es[j];
      assert es[..j + 1][..j] == es[..j];
      if IsXgEntry(st) && st.value.Some? {
        if !tid.Int? || !homeId.Int? {
          XgPassCrashSticky(es, j + 1, tid, homeId, awayId, start);
          return None;
        }
        if tid.n == homeId.n {
          homeXg := st.value.value;
        }
        if !awayId.Int? {
          XgPassCrashSticky(es, j + 1, tid, homeId, awayId, start);
          return None;
        }
        if tid.n == awayId.n {
          awayXg := st.value.value;
        }
      }
    }
    assert es[..|es|] == es;
    return Some(XgPair(homeXg, awayXg));
  }

  /** The second inner loop of a block: the shot fallback. */
  method ScanShotEntries(es: seq<StatEntry>, tid: JsonId, homeId: JsonId, awayId: JsonId, start: XgPair)
    returns (r: Option<XgPair>)
    ensures r == ShotPass(es, tid, homeId, awayId, start)
  {
    var homeXg, awayXg := start.home, start.away;
    for j := 0 to |es|
      invariant ShotPass(es[..j], tid, homeId, awayId, start) == Some(XgPair(homeXg, awayXg))
    {
      var st := es[j];
      assert es[..j + 1][..j] == es[..j];
      if IsShotEntry(st) && st.value.Some? {
        if !tid.Int? || !homeId.Int? {
          ShotPassCrashSticky(es, j + 1, tid, homeId, awayId, start);
          return None;
        }
        if tid.n == homeId.n {
          homeXg := if homeXg != 0.0 then homeXg else st.value.value / 2.0;
        }
        if !awayId.Int? {
          ShotPassCrashSticky(es, j + 1, tid, homeId, awayId, start);
          return None;
        }
        if tid.n == awayId.n {
          awayXg := if awayXg != 0.0 then awayXg else st.value.value / 2.0;
        }
      }
    }
    assert es[..|es|] == es;
    return Some(XgPair(homeXg, awayXg));
  }

  // ---------------------------------------------------------------------
  // The filter on a match, and the request handler
  // ---------------------------------------------------------------------

  /** A match object of the handler: the feature records of its two teams
      and its `_filter` key (absent until the filter has run). */
  class Match {
    var home: TeamFeatures
    var away: TeamFeatures
    var filter: Option<Verdict>

    constructor (home: TeamFeatures, away: TeamFeatures)
      ensures this.home == home && this.away == away && filter.None?
    {
      this.home := home;
      this.away := away;
      filter := None;
    }

    /** `compute_match_percentages_and_filter`: writes the verdict under
        `_filter` and changes nothing else of the match. */
    method ComputeMatchPercentagesAndFilter()
      modifies this
      ensures home == old(home) && away == old(away)
      ensures filter == Some(Evaluate(home, away, PassReason, FailReason))
    {
      filter := Some(Evaluate(home, away, PassReason, FailReason));
    }
  }

  /** The handler computes a team's features only for a truthy id. */
  predicate TruthyId(id: JsonId) {
    id.Int? && id.n != 0
  }

  /** The feature record the handler stores for one side, each feature
      rounded (4, 2 and 4 decimals) before the filter reads it. */
  function SideFeatures(id: JsonId, last: seq<Fixture>, xg: real): TeamFeatures {
    var pct := if TruthyId(id) then HtGoalFraction(last, id.n) else 0.0;
    var shots := if TruthyId(id) then Seqs.MeanPresent(ShotContributions(last, id.n)) else 0.0;
    TeamFeatures(Some(Rounding.Round(pct, 4)), Some(Rounding.Round(shots, 2)), Some(Rounding.Round(xg, 4)))
  }

  function RequestXg(req: FixtureRequest): Option<XgPair> {
    XgScan(req.stats, req.homeId, req.awayId)
  }

  function HomeFeatures(req: FixtureRequest, xg: XgPair): TeamFeatures {
    SideFeatures(req.homeId, req.homeLast, xg.home)
  }

  function AwayFeatures(req: FixtureRequest, xg: XgPair): TeamFeatures {
    SideFeatures(req.awayId, req.awayLast, xg.away)
  }

  function RequestVerdict(req: FixtureRequest, xg: XgPair): Verdict {
    Evaluate(HomeFeatures(req, xg), AwayFeatures(req, xg), PassReason, FailReason)
  }

  /** With no negative statistic in the histories or in the fixture's own
      blocks, every stored feature is nonnegative and so is the score. */
  lemma RequestScoreNonnegative(req: FixtureRequest)
    requires NonnegativeStats(req.homeLast) && NonnegativeStats(req.awayLast) && NonnegativeBlocks(req.stats)
    ensures RequestXg(req).Some? ==> RequestVerdict(req, RequestXg(req).value).score >= 0.0
  {
    if RequestXg(req).Some? {
      var xg := RequestXg(req).value;
      XgScanNonnegative(req.stats, req.homeId, req.awayId);
      SideFeaturesNonnegative(req.homeId, req.homeLast, xg.home);
      SideFeaturesNonnegative(req.awayId, req.awayLast, xg.away);
      ScoreNonnegative(HomeFeatures(req, xg), AwayFeatures(req, xg));
    }
  }

  lemma SideFeaturesNonnegative(id: JsonId, last: seq<Fixture>, xg: real)
    requires NonnegativeStats(last) && xg >= 0.0
    ensures Dominates(TeamFeatures(None, None, None), SideFeatures(id, last, xg))
  {
    Rounding.RoundZero(4);
    Rounding.RoundZero(2);
    Rounding.RoundMonotone(0.0, xg, 4);
    if TruthyId(id) {
      HtGoalFractionRange(last, id.n);
      AvgShotsNonnegative(last, id.n);
      Rounding.RoundMonotone(0.0, HtGoalFraction(last, id.n), 4);
      Rounding.RoundMonotone(0.0, Seqs.MeanPresent(ShotContributions(last, id.n)), 2);
    }
  }

  /** The sort key `_filter.score`, 0 when there is no `_filter`. */
  function ScoreKey(filter: Option<Verdict>): real {
    if filter.Some? then filter.value.score else 0.0
  }

  /** No fixture of the batch makes the xG scan raise. */
  predicate NoCrash(requests: seq<FixtureRequest>) {
    forall i :: 0 <= i < |requests| ==> RequestXg(requests[i]).Some?
  }

  function Scores(requests: seq<FixtureRequest>): (r: seq<real>)
    requires NoCrash(requests)
    ensures |r| == |requests|
  {
    seq(|requests|, i requires 0 <= i < |requests| => RequestVerdict(requests[i], RequestXg(requests[i]).value).score)
  }

  /**
   * The batch loop of `api_filtro` and its final sort: one scored match
   * per fixture, ordered by score, highest first, ties in input order
   * (`Ranking.RankOrder`). None is the error response the handler sends
   * when the xG scan of some fixture raises.
   */
  method ApiFiltro(requests: seq<FixtureRequest>) returns (r: Option<seq<Match>>)
    ensures r.None? <==> !NoCrash(requests)
    ensures r.Some? ==> NoCrash(requests) && |r.value| == |requests|
    ensures r.Some? ==> forall k :: 0 <= k < |r.value| ==>
      Scored(r.value[k], requests[Ranking.RankOrder(Scores(requests))[k]])
    ensures r.Some? ==> forall i, j :: 0 <= i < j < |r.value| ==>
      ScoreKey(r.value[i].filter) >= ScoreKey(r.value[j].filter)
  {
    var out, keys, ok := ScoreAll(requests);
    if !ok {
      return None;
    }
    var ranked := Ranking.Reorder(out, Ranking.RankOrder(keys));
    RankedMatches(requests, out, ranked);
    r := Some(ranked);
  }

  /** The batch loop of `api_filtro`: the scored matches in input order and
      their sort keys; `ok` is false when some fixture's xG scan raises. */
  method ScoreAll(requests: seq<FixtureRequest>) returns (out: seq<Match>, keys: seq<real>, ok: bool)
    ensures ok <==> NoCrash(requests)
    ensures ok ==> |out| == |requests|
    ensures ok ==> forall k :: 0 <= k < |requests| ==> Scored(out[k], requests[k])
    ensures ok ==> keys == Scores(requests)
  {
    out, keys := [], [];
    for i := 0 to |requests|
      invariant |out| == i && |keys| == i
      invariant forall k :: 0 <= k < i ==> Scored(out[k], requests[k])
      invariant forall k :: 0 <= k < i ==> keys[k] == ScoreKey(out[k].filter)
    {
      var m := ScoreFixture(requests[i]);
      if m.None? {
        return out, keys, false;
      }
      out := out + [m.value];
      keys := keys + [ScoreKey(m.value.filter)];
    }
    KeysAreScores(requests, out, keys);
    ok := true;
  }

  lemma KeysAreScores(requests: seq<FixtureRequest>, out: seq<Match>, keys: seq<real>)
    requires |out| == |keys| == |requests|
    requires forall k :: 0 <= k < |requests| ==> Scored(out[k], requests[k])
    requires forall k :: 0 <= k < |requests| ==> keys[k] == ScoreKey(out[k].filter)
    ensures NoCrash(requests) && keys == Scores(requests)
  {
  }

  lemma RankedMatches(requests: seq<FixtureRequest>, out: seq<Match>, ranked: seq<Match>)
    requires NoCrash(requests) && |out| == |requests|
    requires forall k :: 0 <= k < |requests| ==> Scored(out[k], requests[k])
    requires ranked == Ranking.Reorder(out, Ranking.RankOrder(Scores(requests)))
    ensures forall k :: 0 <= k < |ranked| ==>
      Scored(ranked[k], requests[Ranking.RankOrder(Scores(requests))[k]])
    ensures forall i, j :: 0 <= i < j < |ranked| ==>
      ScoreKey(ranked[i].filter) >= ScoreKey(ranked[j].filter)
  {
    var keys := Scores(requests);
    var order := Ranking.RankOrder(keys);
    assert forall k :: 0 <= k < |ranked| ==> ScoreKey(ranked[k].filter) == keys[order[k]];
  }

  /** `m` is the scored match of `req`. */
  predicate Scored(m: Match, req: FixtureRequest)
    reads m
  {
    RequestXg(req).Some? &&
    m.home == HomeFeatures(req, RequestXg(req).value) &&
    m.away == AwayFeatures(req, RequestXg(req).value) &&
    m.filter == Some(RequestVerdict(req, RequestXg(req).value))
  }

  /** The body of the batch loop: the features of both teams, the xG of
      the fixture, a new match object and its filter. */
  method ScoreFixture(req: FixtureRequest) returns (m: Option<Match>)
    ensures m.None? <==> RequestXg(req).None?
    ensures m.Some? ==> fresh(m.value) && Scored(m.value, req)
  {
    var homeHtPct, awayHtPct := 0.0, 0.0;
    if TruthyId(req.homeId) {
      homeHtPct := ComputeHtGoalPct(req.homeLast, req.homeId.n);
    }
    if TruthyId(req.awayId) {
      awayHtPct := ComputeHtGoalPct(req.awayLast, req.awayId.n);
    }
    var homeShots, awayShots := 0.0, 0.0;
    if TruthyId(req.homeId) {
      homeShots := EstimateAvgShotsHt(req.homeLast, req.homeId.n);
    }
    if TruthyId(req.awayId) {
      awayShots := EstimateAvgShotsHt(req.awayLast, req.awayId.n);
    }
    var xg := ResolveXg(req.stats, req.homeId, req.awayId);
    if xg.None? {
      return None;
    }
    var scored := new Match(
      TeamFeatures(Some(Rounding.Round(homeHtPct, 4)), Some(Rounding.Round(homeShots, 2)), Some(Rounding.Round(xg.value.home, 4))),
      TeamFeatures(Some(Rounding.Round(awayHtPct, 4)), Some(Rounding.Round(awayShots, 2)), Some(Rounding.Round(xg.value.away, 4))));
    scored.ComputeMatchPercentagesAndFilter();
    return Some(scored);
  }
}
