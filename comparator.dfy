/**
 * The granularity comparator, find_best_match of Ranger.php: the finest
 * category down to which two points in time agree, or EXPAND when they
 * cannot share anything.
 */
module Comparator {

  import opened Categories

  /**
   * The calendar fields of a point in time as DateTime::format renders them
   * in its own time zone: 'Y', 'm', 'd', 'a', 'H', 'i' and 's'.
   */
  datatype Fields = Fields(year: string, month: string, day: string, meridiem: string,
                           hour: string, minute: string, second: string)

  /** The comparator's possible results before the time zone guard. */
  predicate IsLevel(c: int) {
    c == TIMEZONE || c == YEAR || c == MONTH || c == DAY || c == AM || c == SECOND
  }

  /**
   * The two points agree on everything a rendering at level c shares: the
   * year from YEAR on, the month from MONTH on, the day from DAY on, the
   * half day from AM on and the time of day at SECOND.
   */
  predicate AgreeAt(a: Fields, b: Fields, c: int) {
    && (c >= YEAR ==> a.year == b.year)
    && (c >= MONTH ==> a.month == b.month)
    && (c >= DAY ==> a.day == b.day)
    && (c >= AM ==> a.meridiem == b.meridiem)
    && (c >= SECOND ==> a.hour == b.hour && a.minute == b.minute && a.second == b.second)
  }

  /** The next finer level of the comparator's scale. */
  function Finer(c: int): int
    requires IsLevel(c) && c != SECOND
  {
    if c == TIMEZONE then YEAR
    else if c == YEAR then MONTH
    else if c == MONTH then DAY
    else if c == DAY then AM
    else SECOND
  }

  /** The chain of comparisons of find_best_match, first differing field first. */
  function FieldMatch(a: Fields, b: Fields): (r: int)
    ensures IsLevel(r)
    ensures AgreeAt(a, b, r)
    ensures r != SECOND ==> !AgreeAt(a, b, Finer(r))
  {
    if a.year != b.year then TIMEZONE
    else if a.month != b.month then YEAR
    else if a.day != b.day then MONTH
    else if a.meridiem != b.meridiem then DAY
    else if a.hour != b.hour then AM
    else if a.minute != b.minute then AM
    else if a.second != b.second then AM
    else SECOND
  }

  /**
   * find_best_match.  startZone is the start's zone abbreviation and
   * endZoneAtStart the abbreviation of the end's zone at the start's
   * instant; timeShown is whether a time style is set.
   */
  function BestMatch(start: Fields, end: Fields, startZone: string, endZoneAtStart: string, timeShown: bool): (r: int)
    ensures r == EXPAND || IsLevel(r)
    ensures AgreeAt(start, end, r)
  {
    var m := FieldMatch(start, end);
    if startZone != endZoneAtStart || (timeShown && m < DAY) then EXPAND else m
  }

  // ---------------------------------------------------------------------------
  // Properties

  /** Any level at which the points agree is at most the chain's result. */
  lemma FieldMatchIsMaximal(a: Fields, b: Fields, c: int)
    requires IsLevel(c) && AgreeAt(a, b, c)
    ensures c <= FieldMatch(a, b)
  {
  }

  /** SECOND exactly when the two points have the same fields. */
  lemma SecondIffEqual(a: Fields, b: Fields)
    ensures FieldMatch(a, b) == SECOND <==> a == b
  {
  }

  /** The comparison is symmetric. */
  lemma FieldMatchSymmetric(a: Fields, b: Fields)
    ensures FieldMatch(a, b) == FieldMatch(b, a)
  {
  }

  /**
   * The guard: EXPAND exactly when the zone abbreviations differ or a time
   * is shown and the points are not on the same day; otherwise the chain's
   * result is kept.
   */
  lemma BestMatchGuard(start: Fields, end: Fields, startZone: string, endZoneAtStart: string, timeShown: bool)
    ensures BestMatch(start, end, startZone, endZoneAtStart, timeShown) == EXPAND <==>
      startZone != endZoneAtStart || (timeShown && !AgreeAt(start, end, DAY))
    ensures BestMatch(start, end, startZone, endZoneAtStart, timeShown) != EXPAND ==>
      BestMatch(start, end, startZone, endZoneAtStart, timeShown) == FieldMatch(start, end)
  {
    if AgreeAt(start, end, DAY) {
      FieldMatchIsMaximal(start, end, DAY);
    }
  }
}
