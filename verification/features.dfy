/**
 * The per-row signals derived from a filled match row: the odds gap, each
 * side's form, the goal-balance difference and each side's recent-form index.
 */
module FeatureDerivation {
  import opened MatchRecords

  datatype Features = Features(
    diffCote: real,
    homeForm: int, awayForm: int,
    goalDiff: int,
    homeRecentForm: real, awayRecentForm: real)

  /** Three points a win, one a draw, minus one a loss. */
  function Form(s: SideStats): int {
    3 * s.wins + s.draws - s.losses
  }

  function NetGoals(s: SideStats): int {
    s.goalsScored - s.goalsAgainst
  }

  /** Points over the last five games, as a share of the 15 points five wins would bring. */
  function RecentForm(s: SideStats): real {
    (3 * s.last5Wins + s.last5Draws) as real / 15.0
  }

  function Derive(m: Match): (f: Features)
    ensures f.diffCote >= 0.0
    ensures f.diffCote == m.coteHome - m.coteAway || f.diffCote == m.coteAway - m.coteHome
  {
    Features(
      if m.coteHome >= m.coteAway then m.coteHome - m.coteAway else m.coteAway - m.coteHome,
      Form(m.home), Form(m.away),
      NetGoals(m.home) - NetGoals(m.away),
      RecentForm(m.home), RecentForm(m.away))
  }

  /** The features of the same fixture seen from the other side. */
  function Mirror(f: Features): Features {
    Features(f.diffCote, f.awayForm, f.homeForm, -f.goalDiff, f.awayRecentForm, f.homeRecentForm)
  }

  /**
   * Exchanging the two sides keeps the odds gap, exchanges the forms and the
   * recent-form indices, and negates the goal difference.
   */
  lemma DeriveSwap(m: Match)
    ensures Derive(Swap(m)) == Mirror(Derive(m))
  {
  }

  /** More wins or draws, or fewer losses, never lower a side's form. */
  lemma FormMonotone(s: SideStats, t: SideStats)
    requires s.wins <= t.wins && s.draws <= t.draws && t.losses <= s.losses
    ensures Form(s) <= Form(t)
  {
  }

  /** More recent wins or draws never lower a side's recent-form index. */
  lemma RecentFormMonotone(s: SideStats, t: SideStats)
    requires s.last5Wins <= t.last5Wins && s.last5Draws <= t.last5Draws
    ensures RecentForm(s) <= RecentForm(t)
  {
  }

  /**
   * When the last-five counts are non-negative and describe at most five
   * games, the recent-form index lies in [0, 1], and it is 1 exactly when
   * all five were won.
   */
  lemma RecentFormUnitRange(s: SideStats)
    requires 0 <= s.last5Wins && 0 <= s.last5Draws && 0 <= s.last5Losses
    requires s.last5Wins + s.last5Draws + s.last5Losses <= 5
    ensures 0.0 <= RecentForm(s) <= 1.0
    ensures RecentForm(s) == 1.0 <==> s.last5Wins == 5
  {
  }

  /**
   * The entry form bounds each last-five count by 5 separately, not their
   * sum, so an accepted row can carry a recent-form index above 1.
   */
  lemma RecentFormCanExceedOne()
    ensures var s := SideStats(0, 0, 0, 0, 0, 5, 5, 5);
            SideWithinWidgetRanges(s) && RecentForm(s) == 4.0 / 3.0
  {
  }
}
