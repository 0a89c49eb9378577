/**
 * The safety score: a fixed weighted sum of the derived features, clipped
 * to [0, 100].
 */
module SafetyScore {
  import opened MatchRecords
  import opened FeatureDerivation

  /** The table's `clip(lo, hi)` on one value. */
  function Clip(x: real, lo: real, hi: real): (r: real)
    requires lo <= hi
    ensures lo <= r <= hi
    ensures lo <= x <= hi ==> r == x
    ensures x < lo ==> r == lo
    ensures hi < x ==> r == hi
  {
    if x < lo then lo else if hi < x then hi else x
  }

  /** Clipping never reverses the order of two values. */
  lemma ClipMonotone(x: real, y: real, lo: real, hi: real)
    requires lo <= hi && x <= y
    ensures Clip(x, lo, hi) <= Clip(y, lo, hi)
  {
  }

  /**
   * The weighted sum before clipping. When the two sides' forms, goal
   * balances and recent forms are level, only the odds gap moves it.
   */
  function RawScore(f: Features): (r: real)
    ensures Level(f) ==> r == 47.5 - 4.0 * f.diffCote
  {
    (1.0 - f.diffCote / 10.0) * 40.0
    + ((f.homeForm - f.awayForm) as real / 20.0) * 25.0
    + ((f.goalDiff + 10) as real / 20.0) * 15.0
    + ((f.homeRecentForm - f.awayRecentForm) * 100.0) * 20.0
  }

  /** The two sides' forms, goal balances and recent forms are level. */
  predicate Level(f: Features) {
    f.homeForm == f.awayForm && f.goalDiff == 0 && f.homeRecentForm == f.awayRecentForm
  }

  /** The safety score: the weighted sum, kept within [0, 100] whatever the inputs. */
  function Score(f: Features): (r: real)
    ensures 0.0 <= r <= 100.0
    ensures 0.0 <= RawScore(f) <= 100.0 ==> r == RawScore(f)
    ensures RawScore(f) < 0.0 ==> r == 0.0
    ensures 100.0 < RawScore(f) ==> r == 100.0
  {
    Clip(RawScore(f), 0.0, 100.0)
  }

  /**
   * `g` is at least as favourable to the home side as `f`: no wider odds
   * gap, no worse home form or goal difference or recent home form, no
   * better away form or recent away form.
   */
  predicate FavoursHomeAtLeast(g: Features, f: Features) {
    && g.diffCote <= f.diffCote
    && f.homeForm <= g.homeForm && g.awayForm <= f.awayForm
    && f.goalDiff <= g.goalDiff
    && f.homeRecentForm <= g.homeRecentForm && g.awayRecentForm <= f.awayRecentForm
  }

  /**
   * The score is non-decreasing in the home form, goal difference and recent
   * home form, and non-increasing in the odds gap, away form and recent away
   * form.
   */
  lemma ScoreMonotone(f: Features, g: Features)
    requires FavoursHomeAtLeast(g, f)
    ensures RawScore(f) <= RawScore(g)
    ensures Score(f) <= Score(g)
  {
    ClipMonotone(RawScore(f), RawScore(g), 0.0, 100.0);
  }

  /** `t` is a record at least as good as `s`, in the whole season and in the last five games. */
  predicate RecordAtLeast(t: SideStats, s: SideStats) {
    && s.wins <= t.wins && s.draws <= t.draws && t.losses <= s.losses
    && s.goalsScored <= t.goalsScored && t.goalsAgainst <= s.goalsAgainst
    && s.last5Wins <= t.last5Wins && s.last5Draws <= t.last5Draws
  }

  /**
   * With the same odds, a better home record or a worse away record never
   * lowers the score.
   */
  lemma ScoreMonotoneInRecords(m: Match, n: Match)
    requires n.coteHome == m.coteHome && n.coteAway == m.coteAway
    requires RecordAtLeast(n.home, m.home) && RecordAtLeast(m.away, n.away)
    ensures Score(Derive(m)) <= Score(Derive(n))
  {
    FormMonotone(m.home, n.home);
    FormMonotone(n.away, m.away);
    RecentFormMonotone(m.home, n.home);
    RecentFormMonotone(n.away, m.away);
    ScoreMonotone(Derive(m), Derive(n));
  }

  /**
   * The unclipped score of a fixture and of the same fixture seen from the
   * other side always add up to 95 − 8·gap: the formula is not centred on 50,
   * and an even fixture sits at 47.5 from either side.
   */
  lemma RawScoreMirror(f: Features)
    ensures RawScore(f) + RawScore(Mirror(f)) == 95.0 - 8.0 * f.diffCote
  {
  }

  /**
   * If a fixture scores above 50, the same fixture seen from the other side
   * scores below 45: the two readings never both favour their home side.
   */
  lemma FavouriteSurvivesSwap(m: Match)
    requires Score(Derive(m)) > 50.0
    ensures Score(Derive(Swap(m))) < 45.0
  {
    var f := Derive(m);
    DeriveSwap(m);
    RawScoreMirror(f);
  }

  /**
   * A fixture whose two sides are indistinguishable (same odds, same
   * statistics) scores exactly 47.5.
   */
  lemma EvenFixtureScore(m: Match)
    requires m.coteHome == m.coteAway && m.home == m.away
    ensures Score(Derive(m)) == 47.5
  {
  }

  /** Bounds on the derived features of any row the entry form accepts. */
  lemma WidgetRangeFeatureBounds(m: Match)
    requires WithinWidgetRanges(m)
    ensures Derive(m).diffCote <= 8.99
    ensures -250 <= Derive(m).homeForm - Derive(m).awayForm <= 250
    ensures -400 <= Derive(m).goalDiff <= 400
  {
  }

  /**
   * For rows the entry form accepts, the recent-form term outweighs all the
   * others together: a recent-form lead of 6 points (two wins) or more over
   * the last five games pins the score at 100 ...
   */
  lemma RecentLeadSaturatesScore(m: Match)
    requires WithinWidgetRanges(m)
    requires RecentForm(m.home) - RecentForm(m.away) >= 6.0 / 15.0
    ensures RawScore(Derive(m)) > 100.0 && Score(Derive(m)) == 100.0
  {
    WidgetRangeFeatureBounds(m);
  }

  /** ... and a recent-form deficit of 5 points or more pins it at 0. */
  lemma RecentDeficitZeroesScore(m: Match)
    requires WithinWidgetRanges(m)
    requires RecentForm(m.home) - RecentForm(m.away) <= -5.0 / 15.0
    ensures RawScore(Derive(m)) < 0.0 && Score(Derive(m)) == 0.0
  {
    WidgetRangeFeatureBounds(m);
  }
}
