/**
 * Where the two twins part ways: inputs on which the Python and the
 * JavaScript code compute different features or verdicts.
 */
module Twins {
  import opened Options
  import opened Payload
  import opened FilterPolicy
  import Text
  import Rounding
  import PyFiltro
  import JsRoute

  const ShotsLabel: string := "shots"
  const XgLabel: string := "xg"

  lemma Labels()
    ensures Text.Lower(ShotsLabel) == ShotsLabel && Text.Lower(XgLabel) == XgLabel
    ensures Text.StartsWith(ShotsLabel, "shot") && Text.StartsWith(XgLabel, "xg")
    ensures Text.MatchesKeyword(ShotsLabel, "shot") && Text.MatchesKeyword(XgLabel, "xg")
    ensures !Text.MatchesKeyword(ShotsLabel, "xg") && !Text.MatchesKeyword(XgLabel, "shot")
  {
    assert Text.Lower(ShotsLabel) == [Text.LowerChar('s')] + Text.Lower("hots");
    assert Text.Lower(XgLabel) == [Text.LowerChar('x')] + Text.Lower("g");
    assert ShotsLabel[1..] == "hots" && "hots"[1..] == "ots" && "ots"[1..] == "ts" && "ts"[1..] == "s";
    assert !Text.StartsWith(ShotsLabel, "xg") && !Text.StartsWith("hots", "xg");
    assert !Text.StartsWith("ots", "xg") && !Text.StartsWith("ts", "xg") && !Text.StartsWith("s", "xg");
    assert !Text.StartsWith("", "xg");
    assert XgLabel[1..] == "g";
    assert !Text.StartsWith(XgLabel, "shot") && !Text.StartsWith("g", "shot") && !Text.StartsWith("", "shot");
  }

  function Entry(text: string, value: Option<real>): StatEntry {
    StatEntry(Some(text), None, value)
  }

  /** A home fixture whose only half-time data sits under the `ht` alias:
      the Python twin counts the goal, the JavaScript twin does not. */
  lemma HtAliasOnlyInPython(teamId: int)
    requires teamId != 0
    ensures var f := Fixture(Object(HalfTimeKeys(Missing, Object(HalfTime(Some(1), Some(0))))), Missing,
      HalfTimeKeys(Missing, Missing), Int(teamId), []);
      PyFiltro.ScoredBeforeHalfTime(f, teamId) && !JsRoute.ScoredBeforeHalfTime(f, Int(teamId))
  {
  }

  /** An empty `score` object: Python's `or` moves on to `goals`, while
      JavaScript's `??` keeps the empty object and finds nothing. */
  lemma EmptyScoreObject(teamId: int)
    requires teamId != 0
    ensures var f := Fixture(EmptyObject, Object(HalfTimeKeys(Object(HalfTime(Some(1), Some(0))), Missing)),
      HalfTimeKeys(Missing, Missing), Int(teamId), []);
      PyFiltro.ScoredBeforeHalfTime(f, teamId) && !JsRoute.ScoredBeforeHalfTime(f, Int(teamId))
  {
  }

  /** A team block whose first shot entry is not a number and whose second
      is 6: the Python twin contributes 3 shots, the JavaScript twin nothing. */
  lemma NonNumericFirstShot(teamId: int)
    requires teamId != 0
    ensures var f := Fixture(Missing, Missing, HalfTimeKeys(Missing, Missing), Int(teamId),
      [StatBlock(Int(teamId), [Entry(ShotsLabel, None), Entry(ShotsLabel, Some(6.0))])]);
      PyFiltro.ShotContribution(f, teamId) == Some(3.0) && JsRoute.ShotContribution(f, Int(teamId)).None?
  {
    Labels();
    var es := [Entry(ShotsLabel, None), Entry(ShotsLabel, Some(6.0))];
    var f := Fixture(Missing, Missing, HalfTimeKeys(Missing, Missing), Int(teamId), [StatBlock(Int(teamId), es)]);
    PyFiltro.ShotContributionFirstNumeric(f, teamId, 0, 1);
    JsRoute.FirstShotEntryDecides(f, Int(teamId), 0, 0);
  }

  /** A home block with xG entries 0.3 then 0.5: the last one wins in the
      Python twin, the first one in the JavaScript twin. */
  lemma LastVersusFirstXg(homeId: int, awayId: int)
    requires homeId != awayId
    ensures var b := StatBlock(Int(homeId), [Entry(XgLabel, Some(0.3)), Entry(XgLabel, Some(0.5))]);
      PyFiltro.XgScan([b], Int(homeId), Int(awayId)) == Some(XgPair(0.5, 0.0)) &&
      JsRoute.XgScan([b], Int(homeId), Int(awayId)) == XgPair(0.3, 0.0)
  {
    Labels();
    var es := [Entry(XgLabel, Some(0.3)), Entry(XgLabel, Some(0.5))];
    var b := StatBlock(Int(homeId), es);
    assert [b][..0] == [];
    assert es[..1] == [es[0]] && [es[0]][..0] == [];
    var id, aid := Int(homeId), Int(awayId);
    assert PyFiltro.XgPass(es[..1], b.team, id, aid, XgPair(0.0, 0.0)) == Some(XgPair(0.3, 0.0));
    assert PyFiltro.XgPass(es, b.team, id, aid, XgPair(0.0, 0.0)) == Some(XgPair(0.5, 0.0));
    assert !PyFiltro.NumericShot(es[0]) && !PyFiltro.NumericShot(es[1]);
    assert PyFiltro.ShotPass(es[..1], b.team, id, aid, XgPair(0.5, 0.0)) == Some(XgPair(0.5, 0.0));
    assert PyFiltro.ShotPass(es, b.team, id, aid, XgPair(0.5, 0.0)) == Some(XgPair(0.5, 0.0));
    assert PyFiltro.XgScan([b][..0], id, aid) == Some(XgPair(0.0, 0.0));
    JsRoute.FirstXg(es, 0);
  }

  /**
   * On the same raw percentage 0.24996, the Python twin stores it rounded
   * to 4 decimals, 0.25, and the match passes; the JavaScript twin passes
   * it unrounded and the match fails.
   */
  lemma RoundingBeforeFilter()
    ensures Rounding.Round(0.24996, 4) == 0.25
    ensures Evaluate(TeamFeatures(Some(Rounding.Round(0.24996, 4)), None, None), TeamFeatures(None, None, None),
      PyFiltro.PassReason, PyFiltro.FailReason).pass
    ensures !Evaluate(TeamFeatures(Some(0.24996), None, None), TeamFeatures(None, None, None),
      JsRoute.PassReason, JsRoute.FailReason).pass
  {
    assert Rounding.Pow10(4) == 10000;
    assert (0.24996 * 10000.0 + 0.5).Floor == 2500;
  }
}
