/**
 * The rows of the match table: as entered (any numeric cell may be missing)
 * and after every missing numeric cell has been replaced by 0.
 */
module MatchRecords {
  import opened Wrappers

  /** One side's statistics as they sit in the table. */
  datatype SideEntry = SideEntry(
    wins: Option<int>, draws: Option<int>, losses: Option<int>,
    goalsScored: Option<int>, goalsAgainst: Option<int>,
    last5Wins: Option<int>, last5Draws: Option<int>, last5Losses: Option<int>)

  /** One row of the table as entered: two team names, two decimal odds, two sides' statistics. */
  datatype MatchEntry = MatchEntry(
    homeTeam: string, awayTeam: string,
    coteHome: Option<real>, coteAway: Option<real>,
    home: SideEntry, away: SideEntry)

  /** One side's statistics with every cell present. */
  datatype SideStats = SideStats(
    wins: int, draws: int, losses: int,
    goalsScored: int, goalsAgainst: int,
    last5Wins: int, last5Draws: int, last5Losses: int)

  /** One row of the table with every numeric cell present. */
  datatype Match = Match(
    homeTeam: string, awayTeam: string,
    coteHome: real, coteAway: real,
    home: SideStats, away: SideStats)

  /** `v` is what the cell `o` becomes when missing cells are filled with 0. */
  predicate Coerced<T(==)>(o: Option<T>, v: T, zero: T) {
    if o.Some? then v == o.value else v == zero
  }

  predicate SideCoerced(e: SideEntry, s: SideStats) {
    && Coerced(e.wins, s.wins, 0) && Coerced(e.draws, s.draws, 0)
    && Coerced(e.losses, s.losses, 0)
    && Coerced(e.goalsScored, s.goalsScored, 0) && Coerced(e.goalsAgainst, s.goalsAgainst, 0)
    && Coerced(e.last5Wins, s.last5Wins, 0) && Coerced(e.last5Draws, s.last5Draws, 0)
    && Coerced(e.last5Losses, s.last5Losses, 0)
  }

  function FillSide(e: SideEntry): (s: SideStats)
    ensures SideCoerced(e, s)
  {
    SideStats(
      e.wins.GetOr(0), e.draws.GetOr(0), e.losses.GetOr(0),
      e.goalsScored.GetOr(0), e.goalsAgainst.GetOr(0),
      e.last5Wins.GetOr(0), e.last5Draws.GetOr(0), e.last5Losses.GetOr(0))
  }

  /**
   * The table's `fillna(0)` applied to one row: the team names are kept,
   * every present number is kept and every missing number becomes 0.
   */
  function FillNa(e: MatchEntry): (m: Match)
    ensures m.homeTeam == e.homeTeam && m.awayTeam == e.awayTeam
    ensures Coerced(e.coteHome, m.coteHome, 0.0) && Coerced(e.coteAway, m.coteAway, 0.0)
    ensures SideCoerced(e.home, m.home) && SideCoerced(e.away, m.away)
  {
    Match(e.homeTeam, e.awayTeam, e.coteHome.GetOr(0.0), e.coteAway.GetOr(0.0),
          FillSide(e.home), FillSide(e.away))
  }

  /** A row in which every cell is present, holding the values of `m`. */
  function Present(m: Match): MatchEntry {
    MatchEntry(m.homeTeam, m.awayTeam, Some(m.coteHome), Some(m.coteAway),
               PresentSide(m.home), PresentSide(m.away))
  }

  function PresentSide(s: SideStats): SideEntry {
    SideEntry(Some(s.wins), Some(s.draws), Some(s.losses),
              Some(s.goalsScored), Some(s.goalsAgainst),
              Some(s.last5Wins), Some(s.last5Draws), Some(s.last5Losses))
  }

  /** Filling a row that has no missing cell changes nothing. */
  lemma FillNaKeepsCompleteRows(m: Match)
    ensures FillNa(Present(m)) == m
  {
  }

  /** The same fixture seen from the other side: teams, odds and statistics exchanged. */
  function Swap(m: Match): Match {
    Match(m.awayTeam, m.homeTeam, m.coteAway, m.coteHome, m.away, m.home)
  }

  /** The number of games the last-five counts describe. */
  function RecentGames(s: SideStats): int {
    s.last5Wins + s.last5Draws + s.last5Losses
  }

  /** The ranges the entry form's widgets allow for one side. */
  predicate SideWithinWidgetRanges(s: SideStats) {
    && 0 <= s.wins <= 50 && 0 <= s.draws <= 50 && 0 <= s.losses <= 50
    && 0 <= s.goalsScored <= 200 && 0 <= s.goalsAgainst <= 200
    && 0 <= s.last5Wins <= 5 && 0 <= s.last5Draws <= 5 && 0 <= s.last5Losses <= 5
  }

  /** The ranges the entry form's widgets allow for a whole row. */
  predicate WithinWidgetRanges(m: Match) {
    && 1.01 <= m.coteHome <= 10.0 && 1.01 <= m.coteAway <= 10.0
    && SideWithinWidgetRanges(m.home) && SideWithinWidgetRanges(m.away)
  }
}
