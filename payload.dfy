/**
 * The shapes of the records the feature code reads: recent fixtures of a
 * team, their score breakdowns and embedded statistics, and the per-team
 * statistics blocks of one fixture. JSON keys that may be missing are
 * `Option`s (or `Member`s, for keys holding objects); a value that is not
 * a JSON number is `None`.
 *
 * - The fixture lists, the fixture's list of statistics blocks and a past
 *   fixture's embedded `statistics` are guarded by a list check in both
 *   twins: absent, null and non-list values there are the empty sequence.
 * - A block's own `statistics` is not guarded. Absent, null and empty are
 *   the empty sequence; a non-list value makes both twins raise, and that
 *   case is not represented.
 * - A `score` or `goals` value that is truthy but not an object gives no
 *   half-time data in either twin: it is an `Object` whose keys are both
 *   `Missing`. A falsy non-null value (`0`, `""`) is `EmptyObject`:
 *   Python's `or` skips it and JavaScript's `??` keeps it and finds nothing.
 */
module Payload {
  import opened Options
  import Text

  /** The value found at a team-id key: absent (the key or an enclosing
      object is missing), JSON null, or an integer. */
  datatype JsonId = Absent | Null | Int(n: int)

  /** A key that may hold an object: absent or null, the empty object `{}`,
      or a non-empty object. Python's `or` skips the first two; JavaScript's
      `??` skips only the first. */
  datatype Member<T> = Missing | EmptyObject | Object(fields: T)

  /** Half-time goals `{"home": .., "away": ..}`; None for a missing or null count. */
  datatype HalfTime = HalfTime(home: Option<int>, away: Option<int>)

  /** The half-time keys of a score-like object: `halftime` and its alias `ht`. */
  datatype HalfTimeKeys = HalfTimeKeys(halftime: Member<HalfTime>, ht: Member<HalfTime>)

  /** One named metric of a statistics block: its `type` and `name` labels and its value. */
  datatype StatEntry = StatEntry(kind: Option<string>, name: Option<string>, value: Option<real>)

  /** The statistics of one team in one fixture; `team` is the value of `team.id`. */
  datatype StatBlock = StatBlock(team: JsonId, statistics: seq<StatEntry>)

  /**
   * One past fixture of a team: the `score` and `goals` objects, the
   * fixture's own top-level half-time keys (read when neither object is
   * usable), the id at `teams.home.id`, and the embedded `statistics` list.
   */
  datatype Fixture = Fixture(
    score: Member<HalfTimeKeys>,
    goals: Member<HalfTimeKeys>,
    own: HalfTimeKeys,
    homeId: JsonId,
    statistics: seq<StatBlock>)

  /**
   * Everything the request handler fetches for one upcoming fixture: the
   * two team ids, each team's recent fixtures, and the fixture's
   * statistics blocks (empty when the fixture has no id or the lookup failed).
   */
  datatype FixtureRequest = FixtureRequest(
    homeId: JsonId,
    awayId: JsonId,
    homeLast: seq<Fixture>,
    awayLast: seq<Fixture>,
    stats: seq<StatBlock>)

  datatype Side = Home | Away

  /** The xG of the two sides of a fixture, as the statistics scan builds it up. */
  datatype XgPair = XgPair(home: real, away: real) {
    function Get(side: Side): real {
      if side == Home then home else away
    }

    predicate Nonnegative() {
      home >= 0.0 && away >= 0.0
    }
  }

  function SideId(homeId: JsonId, awayId: JsonId, side: Side): JsonId {
    if side == Home then homeId else awayId
  }

  /** The label a metric is matched on: `type`, else `name`, else "" (empty strings fall through). */
  function Label(e: StatEntry): string {
    if e.kind.Some? && e.kind.value != "" then e.kind.value
    else if e.name.Some? && e.name.value != "" then e.name.value
    else ""
  }

  predicate IsShotEntry(e: StatEntry) {
    Text.MatchesKeyword(Label(e), "shot")
  }

  predicate IsXgEntry(e: StatEntry) {
    Text.MatchesKeyword(Label(e), "xg")
  }

  /** No numeric statistic anywhere in a team's history is negative. */
  predicate NonnegativeStats(fs: seq<Fixture>) {
    forall i, j, k ::
      0 <= i < |fs| && 0 <= j < |fs[i].statistics| && 0 <= k < |fs[i].statistics[j].statistics| &&
      fs[i].statistics[j].statistics[k].value.Some? ==>
        fs[i].statistics[j].statistics[k].value.value >= 0.0
  }

  /** No numeric statistic of a fixture's own statistics blocks is negative. */
  predicate NonnegativeBlocks(stats: seq<StatBlock>) {
    forall j, k ::
      0 <= j < |stats| && 0 <= k < |stats[j].statistics| && stats[j].statistics[k].value.Some? ==>
        stats[j].statistics[k].value.value >= 0.0
  }
}
