/**
 * The league table, the engine's record of which weeks have results. Its
 * implementation is not part of this model: this module gives it the smallest
 * state the engine's control flow reads (the league it tracks, the results and
 * statistics fed per week) and the seven operations the engine calls.
 */
module LeagueTable {
  import opened Wrappers
  import opened Feed
  import opened Rounds

  /** The results fed for one week and the block they came from. */
  datatype WeekResults = WeekResults(block: Option<int>, outcomes: map<int, EventOutcome>)

  datatype Table = Table(
    maxWeek: nat,
    league: Option<int>,
    results: map<int, WeekResults>,
    stats: map<int, map<int, EventStats>>)

  /** `LeagueTable(max_week)`: nothing recorded yet. */
  function Fresh(maxWeek: nat): (t: Table)
    ensures t.maxWeek == maxWeek && t.results == map[] && t.league.None?
  {
    Table(maxWeek, None, map[], map[])
  }

  /** A week is satisfied once its results have been fed. */
  predicate Satisfied(t: Table, w: int)
  {
    w in t.results
  }

  /** `get_missing_weeks`: the weeks 1..maxWeek without results, ascending. */
  function MissingWeeks(t: Table): seq<int>
  {
    WeeksOutside(t.results.Keys, 1, t.maxWeek)
  }

  /** `is_complete`: every week 1..maxWeek has results. */
  predicate IsComplete(t: Table)
  {
    forall w :: 1 <= w <= t.maxWeek ==> Satisfied(t, w)
  }

  /** `check_weeks`: the weeks of `weeks` still without results, in the given order. */
  function CheckWeeks(t: Table, weeks: seq<int>): (r: seq<int>)
    ensures forall w :: w in r <==> w in weeks && !Satisfied(t, w)
    ensures |r| <= |weeks|
  {
    if weeks == [] then []
    else (if Satisfied(t, weeks[0]) then [] else [weeks[0]]) + CheckWeeks(t, weeks[1..])
  }

  /** The blocks the fed results came from. */
  function FedBlocks(t: Table): set<int>
  {
    set w | w in t.results && t.results[w].block.Some? :: t.results[w].block.value
  }

  /** `get_min_block`: the smallest block among the fed results, `None` when there is none. */
  function MinBlock(t: Table): (r: Option<int>)
    ensures r.None? <==> FedBlocks(t) == {}
    ensures r.Some? ==> r.value in FedBlocks(t) && forall b :: b in FedBlocks(t) ==> r.value <= b
  {
    if FedBlocks(t) == {} then None else Some(SetMin(FedBlocks(t)))
  }

  /**
   * `on_event`: the table follows the league of the newest fixtures; a
   * different league starts the table afresh.
   */
  function OnEvent(t: Table, league: Option<int>, week: Option<int>): (r: Table)
    ensures r.league == league && r.maxWeek == t.maxWeek
    ensures league == t.league ==> r == t
    ensures league != t.league ==> r.results == map[] && r.stats == map[]
  {
    if league != t.league then t.(league := league, results := map[], stats := map[]) else t
  }

  /** `feed_stats`: record the statistics of a week of the tracked league. */
  function FeedStats(t: Table, league: Option<int>, week: Option<int>, stats: map<int, EventStats>): (r: Table)
    ensures r.results == t.results && r.league == t.league && r.maxWeek == t.maxWeek
    ensures week.Some? && league == t.league ==> r.stats == t.stats[week.value := stats]
    ensures week.None? || league != t.league ==> r == t
  {
    if week.Some? && league == t.league then t.(stats := t.stats[week.value := stats]) else t
  }

  /**
   * `feed_result`: record the results of a week of the tracked league; results
   * for another league, or for a week the engine could not resolve, are ignored.
   */
  function FeedResult(t: Table, block: Option<int>, league: Option<int>, week: Option<int>,
                      outcomes: map<int, EventOutcome>): (r: Table)
    ensures r.league == t.league && r.maxWeek == t.maxWeek && r.stats == t.stats
    ensures t.results.Keys <= r.results.Keys
    ensures week.Some? && league == t.league ==>
      r.results == t.results[week.value := WeekResults(block, outcomes)]
    ensures week.None? || league != t.league ==> r == t
  {
    if week.Some? && league == t.league then t.(results := t.results[week.value := WeekResults(block, outcomes)])
    else t
  }

  /** The missing weeks are exactly the unsatisfied weeks of the league, ascending. */
  lemma MissingWeeksSpec(t: Table)
    ensures forall w :: w in MissingWeeks(t) <==> 1 <= w <= t.maxWeek && !Satisfied(t, w)
    ensures Increasing(MissingWeeks(t))
  {
    WeeksOutsideSpec(t.results.Keys, 1, t.maxWeek);
  }

  /** The table is complete exactly when no week is missing. */
  lemma CompleteIffNoneMissing(t: Table)
    ensures IsComplete(t) <==> MissingWeeks(t) == []
  {
    WeeksOutsideEmpty(t.results.Keys, 1, t.maxWeek);
    if IsComplete(t) {
      forall w | 1 <= w <= t.maxWeek ensures w in t.results.Keys {
        assert Satisfied(t, w);
      }
    }
    if MissingWeeks(t) == [] {
      forall w | 1 <= w <= t.maxWeek ensures Satisfied(t, w) {
        assert w in t.results.Keys;
      }
    }
  }

  /**
   * Convergence: feeding results never adds a missing week, so a complete
   * table stays complete; a fed week of the tracked league stops being missing.
   */
  lemma FeedResultConverges(t: Table, block: Option<int>, league: Option<int>, week: Option<int>,
                            outcomes: map<int, EventOutcome>)
    ensures forall w :: w in MissingWeeks(FeedResult(t, block, league, week, outcomes)) ==> w in MissingWeeks(t)
    ensures IsComplete(t) ==> IsComplete(FeedResult(t, block, league, week, outcomes))
    ensures IsComplete(t) ==> MissingWeeks(FeedResult(t, block, league, week, outcomes)) == []
    ensures week.Some? && league == t.league ==>
      week.value !in MissingWeeks(FeedResult(t, block, league, week, outcomes))
  {
    var r := FeedResult(t, block, league, week, outcomes);
    MissingWeeksSpec(t);
    MissingWeeksSpec(r);
    CompleteIffNoneMissing(r);
  }

  /** Every queried week is ready exactly when `check_weeks` reports nothing. */
  lemma CheckWeeksEmpty(t: Table, weeks: seq<int>)
    ensures CheckWeeks(t, weeks) == [] <==> forall i :: 0 <= i < |weeks| ==> Satisfied(t, weeks[i])
  {
    var r := CheckWeeks(t, weeks);
    if r != [] {
      assert r[0] in r;
    }
    assert forall i :: 0 <= i < |weeks| ==> weeks[i] in weeks;
  }
}
