/**
 * Field categories of the range simplifier and the classification of ICU
 * date-pattern letters into them (Ranger.php, the class constants and the
 * pattern-character table).
 */
module Categories {

  import opened Wrappers

  /** Categories run from coarsest to finest; the numbers are ordered. */
  const ERA: int := 0
  const YEAR: int := 1
  const QUARTER: int := 2
  const MONTH: int := 3
  const WEEK: int := 4
  const DAY: int := 5
  const AM: int := 6
  const HOUR: int := 7
  const MINUTE: int := 8
  const SECOND: int := 9
  /** Time zone fields sit below the ordered scale. */
  const TIMEZONE: int := -1
  /** "No shared part at all": the comparator's result for an unmergeable pair. */
  const EXPAND: int := -2

  /** The escape character of ICU patterns. */
  const Quote: char := '\''

  /**
   * The fixed table from pattern letter to category; None for a character
   * that is literal text.
   */
  function ClassOf(ch: char): (r: Option<int>)
    ensures r.Some? ==> IsCategory(r.value)
    ensures ch == Quote ==> r.None?
  {
    match ch
    case 'G' => Some(ERA)
    case 'y' => Some(YEAR)
    case 'Y' => Some(YEAR)
    case 'u' => Some(YEAR)
    case 'U' => Some(YEAR)
    case 'r' => Some(YEAR)
    case 'Q' => Some(QUARTER)
    case 'q' => Some(QUARTER)
    case 'M' => Some(MONTH)
    case 'L' => Some(MONTH)
    case 'w' => Some(WEEK)
    case 'W' => Some(WEEK)
    case 'd' => Some(DAY)
    case 'D' => Some(DAY)
    case 'F' => Some(DAY)
    case 'g' => Some(DAY)
    case 'E' => Some(DAY)
    case 'e' => Some(DAY)
    case 'c' => Some(DAY)
    case 'a' => Some(AM)
    case 'h' => Some(HOUR)
    case 'H' => Some(HOUR)
    case 'k' => Some(HOUR)
    case 'K' => Some(HOUR)
    case 'm' => Some(MINUTE)
    case 's' => Some(SECOND)
    case 'S' => Some(SECOND)
    case 'A' => Some(SECOND)
    case 'z' => Some(TIMEZONE)
    case 'Z' => Some(TIMEZONE)
    case 'O' => Some(TIMEZONE)
    case 'v' => Some(TIMEZONE)
    case 'V' => Some(TIMEZONE)
    case 'X' => Some(TIMEZONE)
    case 'x' => Some(TIMEZONE)
    case _ => None
  }

  /** A category that a pattern letter can have. */
  predicate IsCategory(c: int) {
    TIMEZONE <= c <= SECOND
  }

  /** Every category of the scale, and TIMEZONE, is reached by some letter. */
  lemma EveryCategoryHasALetter(c: int)
    requires IsCategory(c)
    ensures exists ch :: ClassOf(ch) == Some(c)
  {
    var letters := "zGyQMwdahms";
    assert ClassOf(letters[c + 1]) == Some(c);
  }
}
