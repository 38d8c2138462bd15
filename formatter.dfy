/**
 * The Ranger class of Ranger.php: its settings, the cached pattern mask and
 * precision, the setters that invalidate the cache, parse_pattern and
 * push_to_mask acting on the object, prepare_date and format.
 *
 * ICU, PHP's DateTime, the clock and the separator providers are not part
 * of this model; they are gathered in a Platform value that every operation
 * receives.
 */
module Formatter {

  import opened Wrappers
  import opened Categories
  import opened Pattern
  import opened Tokenizer
  import opened Comparator
  import opened Stitch
  import opened Loose

  // The style constants of IntlDateFormatter.
  const FULL: int := 0
  const LONG: int := 1
  const MEDIUM: int := 2
  const SHORT: int := 3
  const NONE: int := -1

  /** The default range separator, an en dash. */
  const EnDash: string := "\U{2013}"

  /** A point in time as DateTime holds it: a Unix timestamp and a time zone name. */
  datatype DateTime = DateTime(timestamp: int, zone: string)

  /** What format can be given for a point; Other stands for any other PHP type, by its name. */
  datatype DateInput = Given(date: DateTime) | Text(text: string) | Timestamp(seconds: int) | Now | Other(typeName: string)

  /**
   * The exceptions of format: prepare_date's InvalidArgumentException, the
   * exception of DateTime's constructor for text it cannot read, and
   * parse_pattern's "missing separator between date parts".
   */
  datatype Error = InvalidArgument(message: string) | UnreadableDate(text: string) | MissingSeparator

  /**
   * The services Ranger calls and this model does not contain:
   * parseDate is DateTime's constructor on text (None where it throws), now
   * the current time, defaultZone the zone a new DateTime gets, fieldsAt
   * DateTime::format of 'Y', 'm', 'd', 'a', 'H', 'i' and 's' at a point,
   * abbreviation its format('T') at a timestamp in a zone, pattern
   * IntlDateFormatter::getPattern for a locale, date style and time style,
   * render IntlDateFormatter::format for a locale, date style, time style,
   * zone and timestamp, and modifySeparator the separator provider for a
   * locale, the two styles, the comparator's result and the configured
   * separator.
   */
  datatype Platform = Platform(
    parseDate: string -> Option<DateTime>,
    now: DateTime,
    defaultZone: string,
    fieldsAt: DateTime -> Fields,
    abbreviation: (int, string) -> string,
    pattern: (string, int, int) -> string,
    render: (string, int, int, string, int) -> string,
    modifySeparator: (string, int, int, int, string) -> string)

  /** The settings of a Ranger object. */
  datatype Settings = Settings(locale: string, rangeSeparator: string, dateTimeSeparator: string,
                               dateType: int, timeType: int)

  /** The result of format and the cache it leaves behind. */
  datatype Rendered = Rendered(text: Result<string, Error>, cache: Cache)

  /** prepare_date: accept a DateTime, text, a timestamp or null, and reject anything else. */
  function PrepareDate(platform: Platform, input: DateInput): (r: Result<DateTime, Error>)
    ensures input.Given? ==> r == Success(input.date)
    ensures input.Timestamp? ==> r == Success(DateTime(input.seconds, platform.defaultZone))
    ensures r.Failure? <==> input.Other? || (input.Text? && platform.parseDate(input.text).None?)
    ensures input.Other? ==> r == Failure(InvalidArgument("Don't know how to handle " + input.typeName))
  {
    match input
    case Given(d) => Success(d)
    case Text(t) =>
      (match platform.parseDate(t)
       case Some(d) => Success(d)
       case None => Failure(UnreadableDate(t)))
    case Timestamp(n) => Success(DateTime(n, platform.defaultZone))
    case Now => Success(platform.now)
    case Other(name) => Failure(InvalidArgument("Don't know how to handle " + name))
  }

  /** The pattern parse_pattern reads: the date pattern, then the time pattern when a time style is set. */
  function PatternText(platform: Platform, settings: Settings): string {
    CombinedPattern(platform.pattern(settings.locale, settings.dateType, NONE), settings.timeType != NONE,
                    settings.dateTimeSeparator, platform.pattern(settings.locale, NONE, settings.timeType))
  }

  /** The text tokenize splits: the formatted date, then the separator and the formatted time. */
  function Rendering(platform: Platform, settings: Settings, d: DateTime): string {
    platform.render(settings.locale, settings.dateType, NONE, d.zone, d.timestamp) +
    if settings.timeType != NONE
    then settings.dateTimeSeparator + platform.render(settings.locale, NONE, settings.timeType, d.zone, d.timestamp)
    else ""
  }

  /**
   * find_best_match on two points: the end's zone abbreviation is taken at
   * the start's timestamp.
   */
  function BestMatchOf(platform: Platform, settings: Settings, start: DateTime, end: DateTime): int {
    BestMatch(platform.fieldsAt(start), platform.fieldsAt(end),
              platform.abbreviation(start.timestamp, start.zone), platform.abbreviation(start.timestamp, end.zone),
              settings.timeType != NONE)
  }

  /**
   * format as a function of the settings and the cache: prepare both
   * points (start first), compare them, parse the pattern (the one step
   * that changes the cache), tokenize both renderings and join them.
   */
  function FormatRange(platform: Platform, settings: Settings, cache: Cache, start: DateInput, end: DateInput): Rendered {
    match PrepareDate(platform, start)
    case Failure(e) => Rendered(Failure(e), cache)
    case Success(s) =>
      match PrepareDate(platform, end)
      case Failure(e) => Rendered(Failure(e), cache)
      case Success(t) =>
        var best := BestMatchOf(platform, settings, s, t);
        var parsed := ParsePattern(cache, PatternText(platform, settings));
        if !parsed.ok then Rendered(Failure(MissingSeparator), parsed.cache)
        else
          var c := parsed.cache;
          var startTokens := AlignedTokensOf(c.mask, Rendering(platform, settings, s));
          var endTokens := AlignedTokensOf(c.mask, Rendering(platform, settings, t));
          var separator := platform.modifySeparator(settings.locale, settings.dateType, settings.timeType, best,
                                                    settings.rangeSeparator);
          Rendered(Success(RangeText(c.mask, best >= c.precision, best, startTokens, endTokens, separator)), c)
  }

  /**
   * format as written under PHP 8: the tokenizer as written, and the
   * precision as push_to_mask's max leaves it, a Scalar.  written is the
   * precision the object holds before the call: null on a new object, 0
   * once a setter has cleared the cache, and for a cached mask whatever the
   * parse that built it left.
   */
  function FormatRangeAsWritten(platform: Platform, settings: Settings, cache: Cache, written: Scalar,
                                start: DateInput, end: DateInput): Result<string, Error> {
    match PrepareDate(platform, start)
    case Failure(e) => Failure(e)
    case Success(s) =>
      match PrepareDate(platform, end)
      case Failure(e) => Failure(e)
      case Success(t) =>
        var best := BestMatchOf(platform, settings, s, t);
        var parsed := ParsePattern(cache, PatternText(platform, settings));
        if !parsed.ok then Failure(MissingSeparator)
        else
          var c := parsed.cache;
          var precision := if cache.mask != [] then written else WrittenPrecision(written, c.mask);
          var startTokens := TokensOf(c.mask, Rendering(platform, settings, s));
          var endTokens := TokensOf(c.mask, Rendering(platform, settings, t));
          var separator := platform.modifySeparator(settings.locale, settings.dateType, settings.timeType, best,
                                                    settings.rangeSeparator);
          Success(RangeText(c.mask, Collapses(best, precision), best, startTokens, endTokens, separator))
  }

  /** What a cache built by parse_pattern from a cleared state satisfies. */
  predicate ValidCache(cache: Cache) {
    WellFormed(cache.mask) && cache.precision == MaxField(0, cache.mask)
  }

  class Ranger {
    var locale: string
    var rangeSeparator: string
    var dateTimeSeparator: string
    var dateType: int
    var timeType: int
    var mask: seq<Segment>
    var precision: int

    predicate Valid()
      reads this
    {
      ValidCache(Cache(mask, precision))
    }

    function Current(): Settings
      reads this
    {
      Settings(locale, rangeSeparator, dateTimeSeparator, dateType, timeType)
    }

    function Cached(): Cache
      reads this
    {
      Cache(mask, precision)
    }

    /** A formatter for a locale with the default settings: medium date, no time. */
    constructor(locale: string)
      ensures Valid()
      ensures Current() == Settings(locale, EnDash, ", ", MEDIUM, NONE)
      ensures Cached() == Cache([], 0)
    {
      this.locale := locale;
      rangeSeparator := EnDash;
      dateTimeSeparator := ", ";
      dateType := MEDIUM;
      timeType := NONE;
      mask := [];
      precision := 0;
    }

    /** setDateType: a different style clears the cache; the same style changes nothing. */
    method SetDateType(style: int)
      requires Valid()
      modifies this
      ensures Valid()
      ensures Current() == old(Current()).(dateType := style)
      ensures Cached() == if style != old(dateType) then Cache([], 0) else old(Cached())
    {
      if style != dateType {
        dateType := style;
        mask := [];
        precision := 0;
      }
    }

    /** setTimeType: a different style clears the cache; the same style changes nothing. */
    method SetTimeType(style: int)
      requires Valid()
      modifies this
      ensures Valid()
      ensures Current() == old(Current()).(timeType := style)
      ensures Cached() == if style != old(timeType) then Cache([], 0) else old(Cached())
    {
      if style != timeType {
        timeType := style;
        mask := [];
        precision := 0;
      }
    }

    method SetRangeSeparator(separator: string)
      modifies this`rangeSeparator
      ensures Current() == old(Current()).(rangeSeparator := separator)
    {
      rangeSeparator := separator;
    }

    /** setDateTimeSeparator; the cached mask is kept, as in the source. */
    method SetDateTimeSeparator(separator: string)
      modifies this`dateTimeSeparator
      ensures Current() == old(Current()).(dateTimeSeparator := separator)
    {
      dateTimeSeparator := separator;
    }

    /** push_to_mask on the object. */
    method PushToMask(part: Part)
      modifies this`mask, this`precision
      ensures Cached() == Push(old(Cached()), part)
    {
      match SegmentOf(part)
      case None =>
      case Some(seg) =>
        mask := mask + [seg];
        if seg.Field? && seg.category > precision {
          precision := seg.category;
        }
    }

    /**
     * parse_pattern on the object: with a cached mask nothing happens;
     * otherwise the pattern is scanned and the segments pushed one by one.
     * ok is false where the source throws "missing separator between date
     * parts"; the segments pushed before the failure stay in the cache.
     */
    method ParsePattern(platform: Platform) returns (ok: bool)
      requires Valid()
      modifies this`mask, this`precision
      ensures Valid()
      ensures Parsed(Cached(), ok) == Pattern.ParsePattern(old(Cached()), PatternText(platform, Current()))
    {
      if mask != [] {
        return true;
      }
      var pattern := PatternText(platform, Current());
      ghost var init := Cached();
      var part: Part := Pending(None);
      var k := 0;
      while k < |pattern|
        invariant 0 <= k <= |pattern|
        invariant Current() == old(Current())
        invariant Run(Start(init), pattern) == Run(Scan(part, Cached()), pattern[k..])
      {
        var ch := pattern[k];
        ghost var before := Scan(part, Cached());
        assert pattern[k..] == [ch] + pattern[k + 1..];
        if ch == Quote {
          if part.Quoted? {
            // a closing quote; an empty pair stands for the quote itself
            PushToMask(Quoted(if part.text == "" then [Quote] else part.text));
            part := Pending(None);
          } else {
            PushToMask(part);
            part := Quoted("");
          }
        } else if part.Quoted? {
          part := Quoted(part.text + [ch]);
        } else if ClassOf(ch).None? {
          if part.Pending? {
            PushToMask(part);
            part := Plain([ch]);
          } else {
            part := Plain(part.text + [ch]);
          }
        } else {
          var c := ClassOf(ch).value;
          if part.Plain? {
            PushToMask(part);
            part := Pending(Some(c));
          } else if part.category.Some? && part.category.value != c {
            assert Run(before, pattern[k..]) == Stopped(before);
            ParseShape(0, pattern);
            return false;
          } else {
            part := Pending(Some(c));
          }
        }
        RunStep(before, ch, pattern[k + 1..], Scan(part, Cached()));
        k := k + 1;
      }
      PushToMask(part);
      ParseShape(0, pattern);
      ok := true;
    }

    /**
     * format: both points are prepared (the start first), compared, the
     * pattern is parsed, both renderings are tokenized and the pieces are
     * joined around the separator the provider chooses.
     */
    method Format(platform: Platform, start: DateInput, end: DateInput) returns (r: Result<string, Error>)
      requires Valid()
      modifies this`mask, this`precision
      ensures Valid()
      ensures Current() == old(Current())
      ensures Rendered(r, Cached()) == FormatRange(platform, old(Current()), old(Cached()), start, end)
    {
      var s := PrepareDate(platform, start);
      if s.Failure? {
        return Failure(s.error);
      }
      var t := PrepareDate(platform, end);
      if t.Failure? {
        return Failure(t.error);
      }
      var best := BestMatchOf(platform, Current(), s.value, t.value);
      var ok := ParsePattern(platform);
      if !ok {
        return Failure(MissingSeparator);
      }
      var startTokens := TokenizeAligned(mask, Rendering(platform, Current(), s.value));
      var endTokens := TokenizeAligned(mask, Rendering(platform, Current(), t.value));
      var separator := platform.modifySeparator(locale, dateType, timeType, best, rangeSeparator);
      var text := JoinRange(mask, best >= precision, best, startTokens, endTokens, separator);
      r := Success(text);
    }
  }

  // ---------------------------------------------------------------------------
  // Properties of format

  /** parse_pattern turns a valid cache into a valid cache. */
  lemma ParseKeepsValid(cache: Cache, pattern: string)
    requires ValidCache(cache)
    ensures ValidCache(ParsePattern(cache, pattern).cache)
  {
    if cache.mask == [] {
      ParseShape(cache.precision, pattern);
    }
  }

  /** find_best_match finds a point equal to itself down to the second. */
  lemma SamePointMatchesToTheSecond(platform: Platform, settings: Settings, d: DateTime)
    ensures BestMatchOf(platform, settings, d, d) == SECOND
  {
    SecondIffEqual(platform.fieldsAt(d), platform.fieldsAt(d));
  }

  /** Every category of a parsed mask is at most SECOND, and so is its precision. */
  lemma ParsedCategoriesUpToSecond(cache: Cache, pattern: string)
    requires ValidCache(cache)
    ensures var c := ParsePattern(cache, pattern).cache;
            c.precision <= SECOND && forall k :: 0 <= k < |c.mask| && c.mask[k].Field? ==> c.mask[k].category <= SECOND
  {
    ParseKeepsValid(cache, pattern);
  }

  /** format on one point given twice, unfolded down to the join of its tokens with themselves. */
  lemma SamePointJoinsItself(platform: Platform, settings: Settings, cache: Cache, d: DateTime)
    requires ParsePattern(cache, PatternText(platform, settings)).ok
    ensures var c := ParsePattern(cache, PatternText(platform, settings)).cache;
            var tokens := AlignedTokensOf(c.mask, Rendering(platform, settings, d));
            FormatRange(platform, settings, cache, Given(d), Given(d)).text ==
            Success(RangeText(c.mask, SECOND >= c.precision, SECOND, tokens, tokens,
                              platform.modifySeparator(settings.locale, settings.dateType, settings.timeType, SECOND,
                                                       settings.rangeSeparator)))
  {
    SamePointMatchesToTheSecond(platform, settings, d);
  }

  /** The same for format as written. */
  lemma SamePointJoinsItselfAsWritten(platform: Platform, settings: Settings, cache: Cache, written: Scalar, d: DateTime)
    requires cache.mask == [] && ParsePattern(cache, PatternText(platform, settings)).ok
    ensures var c := ParsePattern(cache, PatternText(platform, settings)).cache;
            var tokens := TokensOf(c.mask, Rendering(platform, settings, d));
            FormatRangeAsWritten(platform, settings, cache, written, Given(d), Given(d)) ==
            Success(RangeText(c.mask, Collapses(SECOND, WrittenPrecision(written, c.mask)), SECOND, tokens, tokens,
                              platform.modifySeparator(settings.locale, settings.dateType, settings.timeType, SECOND,
                                                       settings.rangeSeparator)))
  {
    SamePointMatchesToTheSecond(platform, settings, d);
  }

  /**
   * One point given twice renders as that point, whenever the corrected
   * tokens give back its text: the precision is never finer than SECOND,
   * so the range is collapsed.
   */
  lemma SamePointRendersOnce(platform: Platform, settings: Settings, cache: Cache, d: DateTime)
    requires ValidCache(cache)
    requires ParsePattern(cache, PatternText(platform, settings)).ok
    requires var c := ParsePattern(cache, PatternText(platform, settings)).cache;
             var text := Rendering(platform, settings, d);
             Fits(c.mask, text) && ((c.mask != [] && c.mask[|c.mask| - 1].Field?) || WalkAligned(c.mask, text).rest == "")
    ensures FormatRange(platform, settings, cache, Given(d), Given(d)).text == Success(Rendering(platform, settings, d))
  {
    var c := ParsePattern(cache, PatternText(platform, settings)).cache;
    ParseKeepsValid(cache, PatternText(platform, settings));
    ParsedCategoriesUpToSecond(cache, PatternText(platform, settings));
    SamePointJoinsItself(platform, settings, cache, d);
    CollapsedSameText(c.mask, Rendering(platform, settings, d),
                      platform.modifySeparator(settings.locale, settings.dateType, settings.timeType, SECOND,
                                               settings.rangeSeparator));
  }

  /**
   * Where the two readings of format meet: on an alternating mask whose
   * literals all sort before the digits, format as written gives what the
   * model gives, from the int precision held or, on a mask still to be
   * parsed whose first segment is a field finer than ERA, from null.
   */
  lemma AsWrittenAgrees(platform: Platform, settings: Settings, cache: Cache, written: Scalar,
                        start: DateInput, end: DateInput)
    requires ValidCache(cache)
    requires var parsed := ParsePattern(cache, PatternText(platform, settings));
             parsed.ok ==> Alternating(parsed.cache.mask) && parsed.cache.mask != [] && LowLiterals(parsed.cache.mask)
    requires var parsed := ParsePattern(cache, PatternText(platform, settings));
             || written == Int(cache.precision)
             || (written == Null && cache.mask == [] &&
                 (parsed.ok ==> parsed.cache.mask != [] && parsed.cache.mask[0].Field? && parsed.cache.mask[0].category > 0))
    ensures FormatRangeAsWritten(platform, settings, cache, written, start, end) ==
            FormatRange(platform, settings, cache, start, end).text
  {
    var parsed := ParsePattern(cache, PatternText(platform, settings));
    if PrepareDate(platform, start).Success? && PrepareDate(platform, end).Success? && parsed.ok {
      var c := parsed.cache;
      var s, t := PrepareDate(platform, start).value, PrepareDate(platform, end).value;
      CorrectionAgreesOnAlternatingMasks(c.mask, Rendering(platform, settings, s));
      CorrectionAgreesOnAlternatingMasks(c.mask, Rendering(platform, settings, t));
      var best := BestMatchOf(platform, settings, s, t);
      if cache.mask == [] {
        ParseKeepsValid(cache, PatternText(platform, settings));
        LowLiteralsKeepFieldMax(0, c.mask);
        if written == Null {
          FinerFirstFieldForgetsNull(c.mask);
        }
        IntCollapses(best, c.precision);
      } else {
        IntCollapses(best, cache.precision);
      }
    }
  }

  /**
   * As written under PHP 8, a pattern with a literal that sorts after the
   * digits (the Spanish "de", the ":" of a time) never collapses, from any
   * held precision: one point given twice renders as its text, the
   * separator and the content of its last token once more.
   */
  lemma SamePointAsWrittenRepeatsLastToken(platform: Platform, settings: Settings, cache: Cache, written: Scalar,
                                           d: DateTime)
    requires ValidCache(cache) && cache.mask == []
    requires var parsed := ParsePattern(cache, PatternText(platform, settings));
             var text := Rendering(platform, settings, d);
             && parsed.ok && Alternating(parsed.cache.mask) && HasHighLiteral(parsed.cache.mask)
             && Fits(parsed.cache.mask, text)
             && (parsed.cache.mask[|parsed.cache.mask| - 1].Field? || WalkAligned(parsed.cache.mask, text).rest == "")
    ensures var c := ParsePattern(cache, PatternText(platform, settings)).cache;
            var text := Rendering(platform, settings, d);
            FormatRangeAsWritten(platform, settings, cache, written, Given(d), Given(d)) ==
            Success(text + platform.modifySeparator(settings.locale, settings.dateType, settings.timeType, SECOND,
                                                    settings.rangeSeparator)
                    + Content(TokensOf(c.mask, text), |c.mask| - 1))
  {
    var c := ParsePattern(cache, PatternText(platform, settings)).cache;
    ParseKeepsValid(cache, PatternText(platform, settings));
    ParsedCategoriesUpToSecond(cache, PatternText(platform, settings));
    SamePointJoinsItselfAsWritten(platform, settings, cache, written, d);
    HighLiteralNeverCollapses(written, c.mask, SECOND);
    UncollapsedSameText(c.mask, Rendering(platform, settings, d),
                        platform.modifySeparator(settings.locale, settings.dateType, settings.timeType, SECOND,
                                                 settings.rangeSeparator));
  }
}
