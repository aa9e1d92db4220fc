/** get_season: the season of the (northern-hemisphere) calendar month the
    handlers read from the clock, here passed in as a parameter. */
module Seasons {

  /** A calendar month as the clock reports it. */
  type Month = m: int | 1 <= m <= 12 witness 1

  datatype Season = Winter | Spring | Summer | Autumn
  {
    /** Position in the year, starting from winter. */
    function Index(): nat
    {
      match this
      case Winter => 0
      case Spring => 1
      case Summer => 2
      case Autumn => 3
    }

    function Name(): string
    {
      match this
      case Winter => "Winter"
      case Spring => "Spring"
      case Summer => "Summer"
      case Autumn => "Autumn"
    }
  }

  /** December to February is winter, March to May spring, June to August
      summer; every other month, out-of-range numbers included, is autumn.
      For a real month the season is the quarter of the year counted from
      December. */
  function SeasonOf(month: int): (s: Season)
    ensures 1 <= month <= 12 ==> s.Index() == (month % 12) / 3
    ensures !(1 <= month <= 12) ==> s == Autumn
  {
    if month in [12, 1, 2] then Winter
    else if month in [3, 4, 5] then Spring
    else if month in [6, 7, 8] then Summer
    else Autumn
  }

  /** The months of one season. */
  function MonthsOf(s: Season): set<Month>
  {
    set m: Month | SeasonOf(m) == s
  }

  /** The three consecutive months that make up each season. */
  function Quarter(s: Season): set<Month>
  {
    match s
    case Winter => {12, 1, 2}
    case Spring => {3, 4, 5}
    case Summer => {6, 7, 8}
    case Autumn => {9, 10, 11}
  }

  /** Every season has exactly three months, and they are the season's
      quarter of the year. */
  lemma ThreeMonthsPerSeason(s: Season)
    ensures MonthsOf(s) == Quarter(s)
    ensures |MonthsOf(s)| == 3
  {
    forall m: Month
      ensures m in MonthsOf(s) <==> m in Quarter(s)
    {
      InQuarter(m, s);
    }
    assert MonthsOf(s) == Quarter(s);
    QuarterHasThreeMonths(s);
  }

  lemma QuarterHasThreeMonths(s: Season)
    ensures |Quarter(s)| == 3
  {
    match s
    case Winter =>
    case Spring =>
    case Summer =>
    case Autumn =>
  }

  lemma InQuarter(m: Month, s: Season)
    ensures SeasonOf(m) == s <==> m in Quarter(s)
  {
  }
}
