/**
 * The text classifier for a side's recent form: either the side has not
 * played recently, or its share of wins falls in one of four bands.
 */
module FormAnalysis {

  /** The four win-share bands, best first; each lower bound is inclusive. */
  datatype FormBand =
    | VeryGoodForm   // share of wins at least 0.8
    | GoodForm       // at least 0.6
    | AverageForm    // at least 0.4
    | InDifficulty   // below 0.4

  /**
   * What the message about one side says: the team, and for a side that has
   * played, its band, its win count and its game count.
   */
  datatype FormReport =
    | NotPlayedRecently(team: string)
    | Played(team: string, band: FormBand, wins: int, total: int)

  /** The band's position from worst (0) to best (3). */
  function Rank(b: FormBand): nat {
    match b
    case InDifficulty => 0
    case AverageForm => 1
    case GoodForm => 2
    case VeryGoodForm => 3
  }

  function AnalyseForme(team: string, wins: int, draws: int, losses: int): (r: FormReport)
    ensures r.team == team
    ensures r.NotPlayedRecently? <==> wins + draws + losses == 0
    ensures r.Played? ==> r.wins == wins && r.total == wins + draws + losses
  {
    var total := wins + draws + losses;
    if total == 0 then NotPlayedRecently(team)
    else
      var ratio := wins as real / total as real;
      if ratio >= 0.8 then Played(team, VeryGoodForm, wins, total)
      else if ratio >= 0.6 then Played(team, GoodForm, wins, total)
      else if ratio >= 0.4 then Played(team, AverageForm, wins, total)
      else Played(team, InDifficulty, wins, total)
  }

  /** For a positive game count, w / t >= k exactly when w >= k·t. */
  lemma RatioAtLeast(w: real, t: real, k: real)
    requires 0.0 < t
    ensures w / t >= k <==> w >= k * t
  {
    var r := w / t;
    assert r * t == w;
    assert w - k * t == (r - k) * t;
    if r >= k {
      assert (r - k) * t >= 0.0;
    } else {
      assert (k - r) * t > 0.0;
    }
  }

  /**
   * For a side with a positive number of recent games, the band is fixed by
   * comparing five times the wins with multiples of the game count: no
   * division is needed.
   */
  lemma BandByWholeNumbers(team: string, wins: int, draws: int, losses: int)
    requires wins + draws + losses > 0
    ensures var t := wins + draws + losses;
            var b := AnalyseForme(team, wins, draws, losses).band;
            && (b == VeryGoodForm <==> 5 * wins >= 4 * t)
            && (b == GoodForm <==> 3 * t <= 5 * wins < 4 * t)
            && (b == AverageForm <==> 2 * t <= 5 * wins < 3 * t)
            && (b == InDifficulty <==> 5 * wins < 2 * t)
  {
    var t := wins + draws + losses;
    RatioAtLeast(wins as real, t as real, 0.8);
    RatioAtLeast(wins as real, t as real, 0.6);
    RatioAtLeast(wins as real, t as real, 0.4);
  }

  /**
   * Among sides with the same positive number of recent games, more wins
   * never give a worse band.
   */
  lemma BandMonotoneInWins(team: string, w1: int, d1: int, l1: int, w2: int, d2: int, l2: int)
    requires w1 + d1 + l1 == w2 + d2 + l2 > 0
    requires w1 <= w2
    ensures Rank(AnalyseForme(team, w1, d1, l1).band) <= Rank(AnalyseForme(team, w2, d2, l2).band)
  {
    BandByWholeNumbers(team, w1, d1, l1);
    BandByWholeNumbers(team, w2, d2, l2);
  }
}
