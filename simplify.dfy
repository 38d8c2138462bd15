/**
 * The Drupal-facing helper of daterange_simplify (src/Simplify.php): the
 * style names a site may choose, their mapping to IntlDateFormatter styles,
 * and daterange, which configures a fresh Ranger and formats two points.
 */
module Simplify {

  import opened Wrappers
  import opened Categories
  import opened Pattern
  import opened Tokenizer
  import opened Stitch
  import opened Formatter
  import opened Loose

  /** getAllowedFormats: without intl support only "none" and "short" are offered. */
  function AllowedFormats(restrictIntl: bool): seq<string> {
    if restrictIntl then ["none", "short"] else ["none", "full", "long", "medium", "short"]
  }

  /** The restricted list is part of the full one, and the full list has no repeats. */
  lemma RestrictedFormatsAreAllowed()
    ensures forall name :: name in AllowedFormats(true) ==> name in AllowedFormats(false)
    ensures forall i, j :: 0 <= i < j < |AllowedFormats(false)| ==> AllowedFormats(false)[i] != AllowedFormats(false)[j]
  {
  }

  predicate IsStyle(style: int) {
    style == NONE || style == FULL || style == LONG || style == MEDIUM || style == SHORT
  }

  /** getDateFormat: the style for a name, MEDIUM for a name it does not know. */
  function DateFormat(name: string): (r: int)
    ensures IsStyle(r)
    ensures name !in AllowedFormats(false) ==> r == MEDIUM
  {
    match name
    case "none" => NONE
    case "full" => FULL
    case "long" => LONG
    case "medium" => MEDIUM
    case "short" => SHORT
    case _ => MEDIUM
  }

  /** Every allowed name has a style of its own. */
  lemma AllowedNamesHaveDistinctStyles(a: string, b: string)
    requires a in AllowedFormats(false) && b in AllowedFormats(false) && a != b
    ensures DateFormat(a) != DateFormat(b)
  {
    var names := AllowedFormats(false);
    assert forall k :: 0 <= k < 5 ==> DateFormat(names[k]) == k - 1;
    var i :| 0 <= i < 5 && names[i] == a;
    var j :| 0 <= j < 5 && names[j] == b;
  }

  /** Every style is the image of an allowed name; the mapping inverts on the allowed list. */
  lemma EveryStyleHasAName(style: int)
    requires IsStyle(style)
    ensures exists name :: name in AllowedFormats(false) && DateFormat(name) == style
  {
    var names := AllowedFormats(false);
    assert DateFormat(names[style + 1]) == style;
  }

  /** The settings daterange gives a fresh Ranger. */
  function RangeSettings(dateFormat: string, timeFormat: string, rangeSeparator: Option<string>,
                         dateTimeSeparator: Option<string>, locale: string): Settings
  {
    Settings(locale, rangeSeparator.GetOr(EnDash), dateTimeSeparator.GetOr(", "),
             DateFormat(dateFormat), DateFormat(timeFormat))
  }

  /**
   * daterange as a function: both points are passed to format as their ISO
   * 8601 text; a missing end is replaced by the start.
   */
  function DateRangeText(platform: Platform, iso: DateTime -> string, start: DateTime, end: Option<DateTime>,
                         dateFormat: string, timeFormat: string, rangeSeparator: Option<string>,
                         dateTimeSeparator: Option<string>, locale: string): Result<string, Error>
  {
    var settings := RangeSettings(dateFormat, timeFormat, rangeSeparator, dateTimeSeparator, locale);
    var startText := iso(start);
    var endText := if end.None? then startText else iso(end.value);
    FormatRange(platform, settings, Cache([], 0), Text(startText), Text(endText)).text
  }

  /**
   * daterange: a fresh Ranger with the two styles, the separators that were
   * given (None keeps Ranger's default), and the two points as ISO text.
   * iso stands for DrupalDateTime::format('c').
   */
  method DateRange(platform: Platform, iso: DateTime -> string, start: DateTime, end: Option<DateTime>,
                   dateFormat: string, timeFormat: string, rangeSeparator: Option<string>,
                   dateTimeSeparator: Option<string>, locale: string)
    returns (r: Result<string, Error>)
    ensures r == DateRangeText(platform, iso, start, end, dateFormat, timeFormat, rangeSeparator, dateTimeSeparator, locale)
  {
    var ranger := new Ranger(locale);
    ranger.SetDateType(DateFormat(dateFormat));
    ranger.SetTimeType(DateFormat(timeFormat));
    if dateTimeSeparator.Some? {
      ranger.SetDateTimeSeparator(dateTimeSeparator.value);
    }
    if rangeSeparator.Some? {
      ranger.SetRangeSeparator(rangeSeparator.value);
    }
    var startText := iso(start);
    var endText := if end.None? then startText else iso(end.value);
    r := ranger.Format(platform, Text(startText), Text(endText));
  }

  /** A missing end is the same as an end equal to the start. */
  lemma MissingEndIsStart(platform: Platform, iso: DateTime -> string, start: DateTime,
                          dateFormat: string, timeFormat: string, rangeSeparator: Option<string>,
                          dateTimeSeparator: Option<string>, locale: string)
    ensures DateRangeText(platform, iso, start, None, dateFormat, timeFormat, rangeSeparator, dateTimeSeparator, locale) ==
            DateRangeText(platform, iso, start, Some(start), dateFormat, timeFormat, rangeSeparator, dateTimeSeparator, locale)
  {
  }

  /**
   * With no end, daterange renders the start once, with no separator, when
   * the start's ISO text is readable and the corrected tokens of its
   * rendering give that rendering back.
   */
  lemma MissingEndRendersStartOnce(platform: Platform, iso: DateTime -> string, start: DateTime,
                                   dateFormat: string, timeFormat: string, rangeSeparator: Option<string>,
                                   dateTimeSeparator: Option<string>, locale: string)
    requires platform.parseDate(iso(start)).Some?
    requires var settings := RangeSettings(dateFormat, timeFormat, rangeSeparator, dateTimeSeparator, locale);
             var parsed := ParsePattern(Cache([], 0), PatternText(platform, settings));
             var text := Rendering(platform, settings, platform.parseDate(iso(start)).value);
             var mask := parsed.cache.mask;
             parsed.ok && Fits(mask, text) && ((mask != [] && mask[|mask| - 1].Field?) || WalkAligned(mask, text).rest == "")
    ensures DateRangeText(platform, iso, start, None, dateFormat, timeFormat, rangeSeparator, dateTimeSeparator, locale) ==
            Success(Rendering(platform, RangeSettings(dateFormat, timeFormat, rangeSeparator, dateTimeSeparator, locale),
                              platform.parseDate(iso(start)).value))
  {
    var settings := RangeSettings(dateFormat, timeFormat, rangeSeparator, dateTimeSeparator, locale);
    var d := platform.parseDate(iso(start)).value;
    SamePointRendersOnce(platform, settings, Cache([], 0), d);
    assert FormatRange(platform, settings, Cache([], 0), Text(iso(start)), Text(iso(start))) ==
           FormatRange(platform, settings, Cache([], 0), Given(d), Given(d));
  }

  /** daterange's default arguments: medium date, short time, Ranger's separators, English. */
  lemma DefaultArguments()
    ensures RangeSettings("medium", "short", None, None, "en") == Settings("en", EnDash, ", ", MEDIUM, SHORT)
  {
  }

  /**
   * The precision a fresh Ranger holds when daterange calls format: 0 once
   * one of the two setters changed a style, and otherwise the constructor's
   * null.
   */
  function StartingPrecision(dateFormat: string, timeFormat: string): (r: Scalar)
    ensures r == Null <==> DateFormat(dateFormat) == MEDIUM && DateFormat(timeFormat) == NONE
    ensures r != Null ==> r == Int(0)
  {
    if DateFormat(dateFormat) != MEDIUM || DateFormat(timeFormat) != NONE then Int(0) else Null
  }

  /** daterange as written under PHP 8: format as written on a fresh Ranger. */
  function DateRangeTextAsWritten(platform: Platform, iso: DateTime -> string, start: DateTime, end: Option<DateTime>,
                                  dateFormat: string, timeFormat: string, rangeSeparator: Option<string>,
                                  dateTimeSeparator: Option<string>, locale: string): Result<string, Error>
  {
    var settings := RangeSettings(dateFormat, timeFormat, rangeSeparator, dateTimeSeparator, locale);
    var startText := iso(start);
    var endText := if end.None? then startText else iso(end.value);
    FormatRangeAsWritten(platform, settings, Cache([], 0), StartingPrecision(dateFormat, timeFormat),
                         Text(startText), Text(endText))
  }

  /**
   * daterange as written agrees with the model on an alternating pattern
   * whose literals all sort before the digits, when a setter fired or the
   * pattern starts with a field finer than ERA.
   */
  lemma DateRangeAsWrittenAgrees(platform: Platform, iso: DateTime -> string, start: DateTime, end: Option<DateTime>,
                                 dateFormat: string, timeFormat: string, rangeSeparator: Option<string>,
                                 dateTimeSeparator: Option<string>, locale: string)
    requires var settings := RangeSettings(dateFormat, timeFormat, rangeSeparator, dateTimeSeparator, locale);
             var parsed := ParsePattern(Cache([], 0), PatternText(platform, settings));
             var mask := parsed.cache.mask;
             parsed.ok ==> && Alternating(mask) && mask != [] && LowLiterals(mask)
                           && (StartingPrecision(dateFormat, timeFormat) == Null ==> mask[0].Field? && mask[0].category > 0)
    ensures DateRangeTextAsWritten(platform, iso, start, end, dateFormat, timeFormat, rangeSeparator, dateTimeSeparator, locale) ==
            DateRangeText(platform, iso, start, end, dateFormat, timeFormat, rangeSeparator, dateTimeSeparator, locale)
  {
    var settings := RangeSettings(dateFormat, timeFormat, rangeSeparator, dateTimeSeparator, locale);
    var startText := iso(start);
    var endText := if end.None? then startText else iso(end.value);
    AsWrittenAgrees(platform, settings, Cache([], 0), StartingPrecision(dateFormat, timeFormat), Text(startText), Text(endText));
  }

  /**
   * As written under PHP 8, with no end and a pattern holding a literal
   * that sorts after the digits (a time's ":", the Spanish "de"), daterange
   * renders the start, the separator and the start's last token again.
   */
  lemma MissingEndAsWrittenRepeatsLastToken(platform: Platform, iso: DateTime -> string, start: DateTime,
                                            dateFormat: string, timeFormat: string, rangeSeparator: Option<string>,
                                            dateTimeSeparator: Option<string>, locale: string)
    requires platform.parseDate(iso(start)).Some?
    requires var settings := RangeSettings(dateFormat, timeFormat, rangeSeparator, dateTimeSeparator, locale);
             var parsed := ParsePattern(Cache([], 0), PatternText(platform, settings));
             var text := Rendering(platform, settings, platform.parseDate(iso(start)).value);
             var mask := parsed.cache.mask;
             && parsed.ok && Alternating(mask) && HasHighLiteral(mask) && Fits(mask, text)
             && (mask[|mask| - 1].Field? || WalkAligned(mask, text).rest == "")
    ensures var settings := RangeSettings(dateFormat, timeFormat, rangeSeparator, dateTimeSeparator, locale);
            var mask := ParsePattern(Cache([], 0), PatternText(platform, settings)).cache.mask;
            var text := Rendering(platform, settings, platform.parseDate(iso(start)).value);
            DateRangeTextAsWritten(platform, iso, start, None, dateFormat, timeFormat, rangeSeparator, dateTimeSeparator, locale) ==
            Success(text + platform.modifySeparator(locale, settings.dateType, settings.timeType, SECOND, settings.rangeSeparator)
                    + Content(TokensOf(mask, text), |mask| - 1))
  {
    var settings := RangeSettings(dateFormat, timeFormat, rangeSeparator, dateTimeSeparator, locale);
    var d := platform.parseDate(iso(start)).value;
    var written := StartingPrecision(dateFormat, timeFormat);
    SamePointAsWrittenRepeatsLastToken(platform, settings, Cache([], 0), written, d);
    assert FormatRangeAsWritten(platform, settings, Cache([], 0), written, Text(iso(start)), Text(iso(start))) ==
           FormatRangeAsWritten(platform, settings, Cache([], 0), written, Given(d), Given(d));
  }
}
