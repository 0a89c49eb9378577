/**
 * The per-row analysis of the match table and its application to every row.
 */
module Analysis {
  import opened Wrappers
  import opened MatchRecords
  import opened FeatureDerivation
  import opened SafetyScore
  import opened Probability
  import opened FormAnalysis
  import opened Tables

  /** One row of the analysed table: the filled row and every column the analysis adds. */
  datatype AnalysedMatch = AnalysedMatch(
    row: Match,
    features: Features,
    scoreSecurite: real,
    probHome: real, probAway: real,
    winner: string,
    analyseHome: FormReport, analyseAway: FormReport)

  /** The probability pair for a safety score and the team it points to. */
  datatype Prediction = Prediction(probHome: real, probAway: real, winner: string)

  function Predict(exp: real -> real, score: real, homeTeam: string, awayTeam: string): (p: Prediction)
    requires IsExp(exp)
    ensures p.probHome == ProbHome(exp, score)
    ensures 0.0 < p.probHome < 1.0 && p.probHome + p.probAway == 1.0
    ensures score > 50.0 ==> p.winner == homeTeam
    ensures score <= 50.0 ==> p.winner == awayTeam
  {
    var ph := ProbHome(exp, score);
    var pa := ProbAway(exp, score);
    HomeWinsIffAboveFifty(exp, score);
    Prediction(ph, pa, if PickWinner(ph, pa) == HomeSide then homeTeam else awayTeam)
  }

  /** The analysis of one filled row. */
  function AnalyseRow(exp: real -> real, m: Match): (a: AnalysedMatch)
    requires IsExp(exp)
    ensures a.row == m && a.features == Derive(m)
    ensures a.scoreSecurite == Score(a.features)
    ensures a.probHome == ProbHome(exp, a.scoreSecurite)
    ensures 0.0 <= a.scoreSecurite <= 100.0
    ensures 0.0 < a.probHome < 1.0 && a.probHome + a.probAway == 1.0
    ensures a.scoreSecurite > 50.0 ==> a.winner == m.homeTeam
    ensures a.scoreSecurite <= 50.0 ==> a.winner == m.awayTeam
    ensures a.analyseHome.team == m.homeTeam && a.analyseAway.team == m.awayTeam
    ensures a.analyseHome.NotPlayedRecently? <==> RecentGames(m.home) == 0
    ensures a.analyseAway.NotPlayedRecently? <==> RecentGames(m.away) == 0
    ensures a.analyseHome == AnalyseForme(m.homeTeam, m.home.last5Wins, m.home.last5Draws, m.home.last5Losses)
    ensures a.analyseAway == AnalyseForme(m.awayTeam, m.away.last5Wins, m.away.last5Draws, m.away.last5Losses)
  {
    var f := Derive(m);
    var s := Score(f);
    var p := Predict(exp, s, m.homeTeam, m.awayTeam);
    AnalysedMatch(
      m, f, s, p.probHome, p.probAway, p.winner,
      AnalyseForme(m.homeTeam, m.home.last5Wins, m.home.last5Draws, m.home.last5Losses),
      AnalyseForme(m.awayTeam, m.away.last5Wins, m.away.last5Draws, m.away.last5Losses))
  }

  /**
   * The analysis of one row of the table as entered: missing numbers become
   * 0, then the filled row is analysed.
   */
  function AnalyseMatch(exp: real -> real, e: MatchEntry): (a: AnalysedMatch)
    requires IsExp(exp)
    ensures a.row == FillNa(e)
    ensures a.features == Derive(a.row) && a.scoreSecurite == Score(a.features)
    ensures a.probHome == ProbHome(exp, a.scoreSecurite)
    ensures a.scoreSecurite > 50.0 ==> a.winner == e.homeTeam
    ensures a.scoreSecurite <= 50.0 ==> a.winner == e.awayTeam
  {
    AnalyseRow(exp, FillNa(e))
  }

  /** The analysis of the whole table: one analysed row per row, in the same order. */
  function Analyse(exp: real -> real, rows: seq<MatchEntry>): (out: seq<AnalysedMatch>)
    requires IsExp(exp)
    ensures |out| == |rows|
    ensures forall i :: 0 <= i < |rows| ==> out[i] == AnalyseMatch(exp, rows[i])
  {
    Map(RowAnalysis(exp), rows)
  }

  /** `AnalyseMatch` with the exponential fixed, as a per-row transformation. */
  function RowAnalysis(exp: real -> real): MatchEntry --> AnalysedMatch {
    e requires IsExp(exp) => AnalyseMatch(exp, e)
  }

  /**
   * Rows are analysed independently: analysing a table with more rows
   * appended leaves the analysis of the earlier rows unchanged.
   */
  lemma AnalyseAppend(exp: real -> real, xs: seq<MatchEntry>, ys: seq<MatchEntry>)
    requires IsExp(exp)
    ensures Analyse(exp, xs + ys) == Analyse(exp, xs) + Analyse(exp, ys)
  {
    MapAppend(RowAnalysis(exp), xs, ys);
  }

  /**
   * Seen from the other side, a fixture the analysis gives to its home team
   * is still given to the same team.
   */
  lemma WinnerSurvivesSwap(exp: real -> real, m: Match)
    requires IsExp(exp)
    ensures Score(Derive(m)) > 50.0 ==> AnalyseRow(exp, m).winner == m.homeTeam
    ensures Score(Derive(m)) > 50.0 ==> AnalyseRow(exp, Swap(m)).winner == m.homeTeam
  {
    if Score(Derive(m)) > 50.0 {
      FavouriteSurvivesSwap(m);
    }
  }

  /**
   * A fixture whose two sides are indistinguishable scores 47.5, below the
   * midpoint, so the away team is predicted.
   */
  lemma EvenFixtureGoesToAway(exp: real -> real, m: Match)
    requires IsExp(exp)
    requires m.coteHome == m.coteAway && m.home == m.away
    ensures AnalyseRow(exp, m).scoreSecurite == 47.5
    ensures AnalyseRow(exp, m).winner == m.awayTeam
  {
    EvenFixtureScore(m);
  }

  /**
   * A worked example with the last-five cells left empty: odds 1.50 against
   * 2.50, records 10-2-3 against 4-3-8, goals 20:10 against 12:18. The gap is
   * 1, the forms 29 and 7, the goal difference 16, and the score
   * 36 + 27.5 + 19.5 = 83, so the home team is predicted.
   */
  lemma WorkedExample(exp: real -> real, e: MatchEntry)
    requires IsExp(exp)
    requires e.coteHome == Some(1.5) && e.coteAway == Some(2.5)
    requires e.home == SideEntry(Some(10), Some(2), Some(3), Some(20), Some(10), None, None, None)
    requires e.away == SideEntry(Some(4), Some(3), Some(8), Some(12), Some(18), None, None, None)
    ensures AnalyseMatch(exp, e).features == Features(1.0, 29, 7, 16, 0.0, 0.0)
    ensures AnalyseMatch(exp, e).scoreSecurite == 83.0
    ensures AnalyseMatch(exp, e).winner == e.homeTeam
    ensures AnalyseMatch(exp, e).analyseHome == NotPlayedRecently(e.homeTeam)
  {
    var m := FillNa(e);
    assert m.home == SideStats(10, 2, 3, 20, 10, 0, 0, 0);
    assert m.away == SideStats(4, 3, 8, 12, 18, 0, 0, 0);
    assert Form(m.home) == 29 && Form(m.away) == 7;
    assert NetGoals(m.home) == 10 && NetGoals(m.away) == -6;
    assert RecentForm(m.home) == 0.0 && RecentForm(m.away) == 0.0;
    assert Derive(m) == Features(1.0, 29, 7, 16, 0.0, 0.0);
  }
}
