/**
 * The pattern parser: parse_pattern and push_to_mask of Ranger.php as pure
 * functions.  The parser reads an ICU pattern one character at a time and
 * builds the pattern mask, an ordered list of field and literal segments,
 * together with the precision, the finest category seen.
 *
 * The imperative loop that performs this scan on the formatter's state is
 * Formatter.Ranger.ParsePattern; it is proved to agree with ParseFrom.
 */
module Pattern {

  import opened Wrappers
  import opened Categories

  /** One segment of the pattern mask. */
  datatype Segment = Field(category: int) | Literal(text: string)

  /**
   * The segment under construction.  Pending is a field run (None before the
   * first letter, and again after a closing quote), Plain is literal text
   * outside quotes and Quoted is literal text inside quotes.
   */
  datatype Part = Pending(category: Option<int>) | Plain(text: string) | Quoted(text: string)

  /** The cached result of parsing: the mask and its precision. */
  datatype Cache = Cache(mask: seq<Segment>, precision: int)

  /** The scanner's state between two characters. */
  datatype Scan = Scan(part: Part, cache: Cache)

  /** How a scan ended: at the end of the pattern, or at a failing character. */
  datatype Outcome = Done(state: Scan) | Stopped(state: Scan)

  /** The result of parse_pattern: the new cache and whether it succeeded. */
  datatype Parsed = Parsed(cache: Cache, ok: bool)

  /** The segment a finished part contributes, if any. */
  function SegmentOf(part: Part): (r: Option<Segment>)
    ensures r.Some? && r.value.Literal? ==> r.value.text != ""
    ensures r.None? <==> part == Pending(None) || part == Plain("") || part == Quoted("")
  {
    match part
    case Pending(c) => if c.Some? then Some(Field(c.value)) else None
    case Plain(t) => if t != "" then Some(Literal(t)) else None
    case Quoted(t) => if t != "" then Some(Literal(t)) else None
  }

  /** The finest field category of a mask, starting from an initial precision. */
  function MaxField(p: int, mask: seq<Segment>): (r: int)
    ensures r >= p
    ensures forall k :: 0 <= k < |mask| && mask[k].Field? ==> mask[k].category <= r
    ensures r == p || exists k :: 0 <= k < |mask| && mask[k].Field? && mask[k].category == r
  {
    if mask == [] then p
    else
      var q := MaxField(p, mask[..|mask| - 1]);
      var last := mask[|mask| - 1];
      if last.Field? && last.category > q then last.category else q
  }

  /** push_to_mask: append a non-empty part and raise the precision to its category. */
  function Push(cache: Cache, part: Part): (r: Cache)
    ensures r.precision >= cache.precision
    ensures SegmentOf(part).None? ==> r == cache
    ensures SegmentOf(part).Some? ==> r.mask == cache.mask + [SegmentOf(part).value]
  {
    match SegmentOf(part)
    case None => cache
    case Some(seg) =>
      Cache(cache.mask + [seg],
            if seg.Field? && seg.category > cache.precision then seg.category else cache.precision)
  }

  /**
   * One character of parse_pattern.  None is the "missing separator between
   * date parts" failure: outside quotes, a pattern letter whose category
   * differs from that of the field run in progress.
   */
  function Step(st: Scan, ch: char): Option<Scan> {
    if ch == Quote then
      match st.part
      case Quoted(t) =>
        // closing quote; an empty pair stands for the quote character itself
        Some(Scan(Pending(None), Push(st.cache, Quoted(if t == "" then [Quote] else t))))
      case _ =>
        Some(Scan(Quoted(""), Push(st.cache, st.part)))
    else if st.part.Quoted? then
      Some(Scan(Quoted(st.part.text + [ch]), st.cache))
    else
      match ClassOf(ch)
      case None =>
        if st.part.Pending? then Some(Scan(Plain([ch]), Push(st.cache, st.part)))
        else Some(Scan(Plain(st.part.text + [ch]), st.cache))
      case Some(c) =>
        if st.part.Plain? then Some(Scan(Pending(Some(c)), Push(st.cache, st.part)))
        else if st.part.category.Some? && st.part.category.value != c then None
        else Some(Scan(Pending(Some(c)), st.cache))
  }

  /** The scan over a whole pattern. */
  function Run(st: Scan, pattern: string): Outcome
    decreases |pattern|
  {
    if pattern == [] then Done(st)
    else
      match Step(st, pattern[0])
      case None => Stopped(st)
      case Some(next) => Run(next, pattern[1..])
  }

  /** The scanner's state before the first character. */
  function Start(cache: Cache): Scan {
    Scan(Pending(None), cache)
  }

  /**
   * parse_pattern after its memo check: scan the pattern, then push the part
   * in progress.  A failure keeps the segments pushed before it.
   */
  function ParseFrom(cache: Cache, pattern: string): Parsed {
    match Run(Start(cache), pattern)
    case Done(st) => Parsed(Push(st.cache, st.part), true)
    case Stopped(st) => Parsed(st.cache, false)
  }

  /** parse_pattern: a non-empty mask is reused as it is. */
  function ParsePattern(cache: Cache, pattern: string): (r: Parsed)
    ensures cache.mask != [] ==> r == Parsed(cache, true)
  {
    if cache.mask != [] then Parsed(cache, true) else ParseFrom(cache, pattern)
  }

  /**
   * The combined pattern: the date pattern, then, when a time style is
   * requested, the date-time separator in quotes and the time pattern.
   */
  function CombinedPattern(datePattern: string, timeShown: bool, separator: string, timePattern: string): (r: string)
    ensures !timeShown ==> r == datePattern
    ensures timeShown ==> |r| == |datePattern| + |separator| + |timePattern| + 2
    ensures timeShown ==> r[..|datePattern|] == datePattern && r[|datePattern|] == Quote
    ensures timeShown ==> r[|datePattern| + 1..|datePattern| + 1 + |separator|] == separator
    ensures timeShown ==> r[|datePattern| + 1 + |separator|] == Quote
    ensures timeShown ==> r[|datePattern| + 2 + |separator|..] == timePattern
  {
    if timeShown then datePattern + [Quote] + separator + [Quote] + timePattern else datePattern
  }

  // ---------------------------------------------------------------------------
  // Shape of the mask

  /**
   * No literal segment is empty, no two field segments are adjacent and
   * every field has a category of the letter table.
   */
  predicate WellFormed(mask: seq<Segment>) {
    && (forall k :: 0 <= k < |mask| && mask[k].Literal? ==> mask[k].text != "")
    && (forall k :: 0 <= k < |mask| - 1 && mask[k].Field? ==> mask[k + 1].Literal?)
    && (forall k :: 0 <= k < |mask| && mask[k].Field? ==> IsCategory(mask[k].category))
  }

  /** What the scan keeps true between characters, relative to the starting precision p. */
  predicate ScanInv(st: Scan, p: int) {
    && WellFormed(st.cache.mask)
    && st.cache.precision == MaxField(p, st.cache.mask)
    && (st.part.Plain? ==> st.part.text != "")
    && (st.part.Pending? && st.part.category.Some? ==> IsCategory(st.part.category.value))
    && (st.cache.mask != [] && st.cache.mask[|st.cache.mask| - 1].Field? ==> !st.part.Pending?)
  }

  lemma {:induction false} MaxFieldAppend(p: int, mask: seq<Segment>, seg: Segment)
    ensures MaxField(p, mask + [seg]) ==
            if seg.Field? && seg.category > MaxField(p, mask) then seg.category else MaxField(p, mask)
  {
    assert (mask + [seg])[..|mask|] == mask;
  }

  lemma PushKeepsShape(cache: Cache, part: Part, p: int)
    requires WellFormed(cache.mask) && cache.precision == MaxField(p, cache.mask)
    requires part.Pending? && cache.mask != [] ==> !cache.mask[|cache.mask| - 1].Field?
    requires part.Plain? ==> part.text != ""
    requires part.Pending? && part.category.Some? ==> IsCategory(part.category.value)
    ensures WellFormed(Push(cache, part).mask)
    ensures Push(cache, part).precision == MaxField(p, Push(cache, part).mask)
  {
    match SegmentOf(part)
    case None =>
    case Some(seg) =>
      MaxFieldAppend(p, cache.mask, seg);
      WellFormedAppend(cache.mask, seg);
  }

  lemma WellFormedAppend(mask: seq<Segment>, seg: Segment)
    requires WellFormed(mask)
    requires seg.Literal? ==> seg.text != ""
    requires seg.Field? ==> IsCategory(seg.category) && (mask != [] ==> mask[|mask| - 1].Literal?)
    ensures WellFormed(mask + [seg])
  {
    var m := mask + [seg];
    var n := |mask|;
    forall k | 0 <= k < |m| && m[k].Literal? ensures m[k].text != "" {
      if k < n { assert m[k] == mask[k]; }
    }
    forall k | 0 <= k < |m| - 1 && m[k].Field? ensures m[k + 1].Literal? {
      if k + 1 < n { assert m[k] == mask[k] && m[k + 1] == mask[k + 1]; }
    }
    forall k | 0 <= k < |m| && m[k].Field? ensures IsCategory(m[k].category) {
      if k < n { assert m[k] == mask[k]; }
    }
  }

  lemma StepKeepsShape(st: Scan, ch: char, p: int)
    requires ScanInv(st, p)
    requires Step(st, ch).Some?
    ensures ScanInv(Step(st, ch).value, p)
  {
    var next := Step(st, ch).value;
    if ch == Quote {
      QuoteKeepsShape(st, p);
    } else if st.part.Quoted? {
      assert next == Scan(Quoted(st.part.text + [ch]), st.cache);
    } else if ClassOf(ch).None? {
      if st.part.Pending? {
        assert next == Scan(Plain([ch]), Push(st.cache, st.part));
        PushKeepsShape(st.cache, st.part, p);
      } else {
        assert next == Scan(Plain(st.part.text + [ch]), st.cache);
      }
    } else {
      LetterKeepsShape(st, ch, p);
    }
  }

  lemma QuoteKeepsShape(st: Scan, p: int)
    requires ScanInv(st, p)
    ensures Step(st, Quote).Some? && ScanInv(Step(st, Quote).value, p)
  {
    match st.part
    case Quoted(t) =>
      var q := Quoted(if t == "" then [Quote] else t);
      assert Step(st, Quote) == Some(Scan(Pending(None), Push(st.cache, q)));
      PushKeepsShape(st.cache, q, p);
    case _ =>
      assert Step(st, Quote) == Some(Scan(Quoted(""), Push(st.cache, st.part)));
      PushKeepsShape(st.cache, st.part, p);
  }

  lemma LetterKeepsShape(st: Scan, ch: char, p: int)
    requires ScanInv(st, p) && ch != Quote && !st.part.Quoted? && ClassOf(ch).Some?
    requires Step(st, ch).Some?
    ensures ScanInv(Step(st, ch).value, p)
  {
    var c := ClassOf(ch).value;
    if st.part.Plain? {
      assert Step(st, ch) == Some(Scan(Pending(Some(c)), Push(st.cache, st.part)));
      PushKeepsShape(st.cache, st.part, p);
      assert Push(st.cache, st.part).mask == st.cache.mask + [Literal(st.part.text)];
    } else {
      assert Step(st, ch) == Some(Scan(Pending(Some(c)), st.cache));
    }
  }

  lemma {:induction false} RunKeepsShape(st: Scan, pattern: string, p: int)
    requires ScanInv(st, p)
    ensures ScanInv(Run(st, pattern).state, p)
    decreases |pattern|
  {
    if pattern != [] {
      match Step(st, pattern[0])
      case None =>
      case Some(next) =>
        StepKeepsShape(st, pattern[0], p);
        RunKeepsShape(next, pattern[1..], p);
    }
  }

  /**
   * Parsing from an empty mask yields a well-formed mask (no empty literal,
   * no two adjacent fields), whether it succeeds or stops at a failure, and
   * the precision is the starting precision raised to the finest field
   * category pushed.
   */
  lemma ParseShape(p: int, pattern: string)
    ensures WellFormed(ParseFrom(Cache([], p), pattern).cache.mask)
    ensures ParseFrom(Cache([], p), pattern).cache.precision == MaxField(p, ParseFrom(Cache([], p), pattern).cache.mask)
  {
    var st0 := Start(Cache([], p));
    RunKeepsShape(st0, pattern, p);
    match Run(st0, pattern)
    case Done(st) => PushKeepsShape(st.cache, st.part, p);
    case Stopped(st) =>
  }

  /**
   * parse_pattern is idempotent on the cache: a second call with the same
   * pattern leaves mask and precision as the first call left them.  (After a
   * failure that pushed some segments, the second call reuses that partial
   * mask and reports success.)
   */
  lemma ParseIdempotent(cache: Cache, pattern: string)
    ensures ParsePattern(ParsePattern(cache, pattern).cache, pattern).cache == ParsePattern(cache, pattern).cache
  {
    if cache.mask == [] {
      ParseShape(cache.precision, pattern);
      var r := ParseFrom(cache, pattern);
      if r.cache.mask == [] {
        assert r.cache == cache;
      }
    }
  }

  // ---------------------------------------------------------------------------
  // Escapes

  lemma {:induction false} RunInsideQuotes(t: string, s: string, cache: Cache)
    requires Quote !in s
    ensures Run(Scan(Quoted(t), cache), s) == Done(Scan(Quoted(t + s), cache))
    decreases |s|
  {
    if s == [] {
      assert t + s == t;
    } else {
      assert s[0] != Quote;
      RunInsideQuotes(t + [s[0]], s[1..], cache);
      assert t + [s[0]] + s[1..] == t + s;
    }
  }

  /**
   * Text between quotes becomes one literal segment, even where it holds
   * pattern letters; an empty pair of quotes becomes the literal quote.
   */
  lemma QuotedTextIsLiteral(p: int, s: string)
    requires Quote !in s
    ensures ParseFrom(Cache([], p), [Quote] + s + [Quote]) ==
            Parsed(Cache([Literal(if s == "" then [Quote] else s)], p), true)
  {
    var pat := [Quote] + s + [Quote];
    var c0 := Cache([], p);
    assert pat[0] == Quote && pat[1..] == s + [Quote];
    assert Step(Start(c0), Quote) == Some(Scan(Quoted(""), c0));
    RunInsideQuotes("", s, c0);
    RunSplit(Scan(Quoted(""), c0), s, [Quote]);
    assert "" + s == s;
    var lit := Quoted(if s == "" then [Quote] else s);
    assert Run(Scan(Quoted(s), c0), [Quote]) == Done(Scan(Pending(None), Push(c0, lit)));
  }

  // ---------------------------------------------------------------------------
  // The combined pattern

  /** A scan state with segments m in front of its mask. */
  function Prefixed(m: seq<Segment>, st: Scan): Scan {
    Scan(st.part, Cache(m + st.cache.mask, st.cache.precision))
  }

  function PrefixedOutcome(m: seq<Segment>, o: Outcome): Outcome {
    match o
    case Done(st) => Done(Prefixed(m, st))
    case Stopped(st) => Stopped(Prefixed(m, st))
  }

  lemma PushShift(m: seq<Segment>, cache: Cache, part: Part)
    ensures Push(Cache(m + cache.mask, cache.precision), part) ==
            Cache(m + Push(cache, part).mask, Push(cache, part).precision)
  {
    if SegmentOf(part).Some? {
      assert m + cache.mask + [SegmentOf(part).value] == m + (cache.mask + [SegmentOf(part).value]);
    }
  }

  lemma StepShift(m: seq<Segment>, st: Scan, ch: char)
    ensures Step(Prefixed(m, st), ch) == if Step(st, ch).None? then None else Some(Prefixed(m, Step(st, ch).value))
  {
    PushShift(m, st.cache, st.part);
    if st.part.Quoted? {
      PushShift(m, st.cache, Quoted(if st.part.text == "" then [Quote] else st.part.text));
    }
  }

  /** Segments in front of the mask ride along: the scan does not look at them. */
  lemma {:induction false} RunShift(m: seq<Segment>, st: Scan, s: string)
    ensures Run(Prefixed(m, st), s) == PrefixedOutcome(m, Run(st, s))
    decreases |s|
  {
    if s != [] {
      StepShift(m, st, s[0]);
      if Step(st, s[0]).Some? {
        RunShift(m, Step(st, s[0]).value, s[1..]);
      }
    }
  }

  /** parse_pattern from a mask m is the parse from an empty mask with m in front. */
  lemma ParseShift(m: seq<Segment>, q: int, s: string)
    ensures var r := ParseFrom(Cache([], q), s);
            ParseFrom(Cache(m, q), s) == Parsed(Cache(m + r.cache.mask, r.cache.precision), r.ok)
  {
    assert Start(Cache(m, q)) == Prefixed(m, Start(Cache([], q)));
    RunShift(m, Start(Cache([], q)), s);
    match Run(Start(Cache([], q)), s)
    case Done(st) => PushShift(m, st.cache, st.part);
    case Stopped(st) =>
  }

  /**
   * The combined pattern parses as the date pattern, the date-time
   * separator as one literal (the quote itself when it is empty), and the
   * time pattern parsed from the date's precision; the whole succeeds when
   * the time pattern does.  The separator holds no quote and the date
   * pattern leaves no quote open.
   */
  lemma CombinedPatternParse(p: int, datePattern: string, separator: string, timePattern: string)
    requires Quote !in separator
    requires Run(Start(Cache([], p)), datePattern).Done? && !Run(Start(Cache([], p)), datePattern).state.part.Quoted?
    ensures var date := ParseFrom(Cache([], p), datePattern).cache;
            var time := ParseFrom(Cache([], date.precision), timePattern);
            ParseFrom(Cache([], p), CombinedPattern(datePattern, true, separator, timePattern)) ==
            Parsed(Cache(date.mask + [Literal(if separator == "" then [Quote] else separator)] + time.cache.mask,
                         time.cache.precision), time.ok)
  {
    var st := Run(Start(Cache([], p)), datePattern).state;
    var date := Push(st.cache, st.part);
    var lit := Literal(if separator == "" then [Quote] else separator);
    var quoted := [Quote] + separator + [Quote];
    assert CombinedPattern(datePattern, true, separator, timePattern) == datePattern + (quoted + timePattern);
    RunSplit(Start(Cache([], p)), datePattern, quoted + timePattern);
    assert Step(st, Quote) == Some(Scan(Quoted(""), date));
    assert quoted + timePattern == [Quote] + (separator + ([Quote] + timePattern));
    RunStep(st, Quote, separator + ([Quote] + timePattern), Scan(Quoted(""), date));
    RunInsideQuotes("", separator, date);
    RunSplit(Scan(Quoted(""), date), separator, [Quote] + timePattern);
    assert "" + separator == separator;
    var after := Push(date, Quoted(if separator == "" then [Quote] else separator));
    assert after == Cache(date.mask + [lit], date.precision);
    RunStep(Scan(Quoted(separator), date), Quote, timePattern, Start(after));
    ParseShift(date.mask + [lit], date.precision, timePattern);
  }

  lemma {:induction false} RunSplit(st: Scan, u: string, v: string)
    requires Run(st, u).Done?
    ensures Run(st, u + v) == Run(Run(st, u).state, v)
    decreases |u|
  {
    if u == [] {
      assert u + v == v;
    } else {
      assert (u + v)[0] == u[0] && (u + v)[1..] == u[1..] + v;
      RunSplit(Step(st, u[0]).value, u[1..], v);
    }
  }

  // ---------------------------------------------------------------------------
  // Field runs and the missing-separator failure

  /** Outside quotes a character fails exactly when it is a letter of a different category than the field run. */
  lemma StepFailsExactly(st: Scan, ch: char)
    ensures Step(st, ch).None? <==>
            (ch != Quote && !st.part.Quoted? && ClassOf(ch).Some? &&
             st.part.Pending? && st.part.category.Some? && st.part.category.value != ClassOf(ch).value)
  {
  }

  lemma {:induction false} RunOfSameCategory(cache: Cache, c: int, s: string)
    requires forall k :: 0 <= k < |s| ==> ClassOf(s[k]) == Some(c)
    ensures Run(Scan(Pending(Some(c)), cache), s) == Done(Scan(Pending(Some(c)), cache))
    decreases |s|
  {
    if s != [] {
      assert ClassOf(s[0]) == Some(c);
      RunOfSameCategory(cache, c, s[1..]);
    }
  }

  /** Letters of one category merge into a single field segment. */
  lemma LettersOfOneCategoryMerge(p: int, s: string, c: int)
    requires s != [] && forall k :: 0 <= k < |s| ==> ClassOf(s[k]) == Some(c)
    ensures ParseFrom(Cache([], p), s) == Parsed(Cache([Field(c)], if c > p then c else p), true)
  {
    assert ClassOf(s[0]) == Some(c);
    assert forall k :: 0 <= k < |s[1..]| ==> ClassOf(s[1..][k]) == Some(c) by {
      forall k | 0 <= k < |s[1..]| ensures ClassOf(s[1..][k]) == Some(c) {
        assert s[1..][k] == s[k + 1];
      }
    }
    RunOfSameCategory(Cache([], p), c, s[1..]);
  }

  /**
   * Two letters of different categories with no literal between them fail
   * with "missing separator between date parts".  Nothing has been pushed.
   */
  lemma AdjacentCategoriesFail(p: int, a: char, b: char, rest: string)
    requires ClassOf(a).Some? && ClassOf(b).Some? && ClassOf(a) != ClassOf(b)
    ensures ParseFrom(Cache([], p), [a, b] + rest) == Parsed(Cache([], p), false)
  {
    var s := [a, b] + rest;
    assert s[0] == a && s[1..][0] == b;
    var st1 := Scan(Pending(ClassOf(a)), Cache([], p));
    assert Step(Start(Cache([], p)), a) == Some(st1);
    assert Step(st1, b).None?;
    assert Run(st1, s[1..]) == Stopped(st1);
  }

  // ---------------------------------------------------------------------------
  // Worked examples
  //
  // Each pattern is scanned in short pieces, named after the text they
  // cover; each character step is named after what it does to the part
  // being built (open, extend or close a field, a quote or a literal).

  lemma RunStep(st: Scan, ch: char, rest: string, next: Scan)
    requires Step(st, ch) == Some(next)
    ensures Run(st, [ch] + rest) == Run(next, rest)
  {
    assert ([ch] + rest)[0] == ch && ([ch] + rest)[1..] == rest;
  }

  /** The medium English date pattern. */
  lemma EnglishMediumDate()
    ensures ParseFrom(Cache([], 0), "MMM d, y") ==
            Parsed(Cache([Field(MONTH), Literal(" "), Field(DAY), Literal(", "), Field(YEAR)], DAY), true)
  {
    var u0 := "MMM";
    var u1 := " d,";
    var u2 := " y";
    assert "MMM d, y" == u0 + (u1 + u2);
    EnglishMediumDateScanMonth();
    RunSplit(Scan(Pending(None), Cache([], 0)), u0, u1 + u2);
    EnglishMediumDateScanSpaceDayComma();
    RunSplit(Scan(Pending(Some(MONTH)), Cache([], 0)), u1, u2);
    EnglishMediumDateScanSpaceYear();
    assert [Field(MONTH), Literal(" "), Field(DAY), Literal(", ")] + [Field(YEAR)] == [Field(MONTH), Literal(" "), Field(DAY), Literal(", "), Field(YEAR)];
  }

  lemma EnglishMediumDateScanMonth()
    ensures Run(Scan(Pending(None), Cache([], 0)), "MMM") == Done(Scan(Pending(Some(MONTH)), Cache([], 0)))
  {
    EnglishMediumDateOpenMonth();
    RunStep(Scan(Pending(None), Cache([], 0)), 'M', "MM", Scan(Pending(Some(MONTH)), Cache([], 0)));
    assert "MMM" == ['M'] + "MM";
    EnglishMediumDateExtendMonth();
    RunStep(Scan(Pending(Some(MONTH)), Cache([], 0)), 'M', "M", Scan(Pending(Some(MONTH)), Cache([], 0)));
    assert "MM" == ['M'] + "M";
    EnglishMediumDateExtendMonth();
    RunStep(Scan(Pending(Some(MONTH)), Cache([], 0)), 'M', "", Scan(Pending(Some(MONTH)), Cache([], 0)));
    assert "M" == ['M'] + "";
  }

  lemma EnglishMediumDateScanSpaceDayComma()
    ensures Run(Scan(Pending(Some(MONTH)), Cache([], 0)), " d,") == Done(Scan(Plain(","), Cache([Field(MONTH), Literal(" "), Field(DAY)], DAY)))
  {
    EnglishMediumDateCloseMonth();
    RunStep(Scan(Pending(Some(MONTH)), Cache([], 0)), ' ', "d,", Scan(Plain(" "), Cache([Field(MONTH)], MONTH)));
    assert " d," == [' '] + "d,";
    EnglishMediumDateOpenDay();
    RunStep(Scan(Plain(" "), Cache([Field(MONTH)], MONTH)), 'd', ",", Scan(Pending(Some(DAY)), Cache([Field(MONTH), Literal(" ")], MONTH)));
    assert "d," == ['d'] + ",";
    EnglishMediumDateCloseDay();
    RunStep(Scan(Pending(Some(DAY)), Cache([Field(MONTH), Literal(" ")], MONTH)), ',', "", Scan(Plain(","), Cache([Field(MONTH), Literal(" "), Field(DAY)], DAY)));
    assert "," == [','] + "";
  }

  lemma EnglishMediumDateScanSpaceYear()
    ensures Run(Scan(Plain(","), Cache([Field(MONTH), Literal(" "), Field(DAY)], DAY)), " y") == Done(Scan(Pending(Some(YEAR)), Cache([Field(MONTH), Literal(" "), Field(DAY), Literal(", ")], DAY)))
  {
    EnglishMediumDateExtendComma();
    RunStep(Scan(Plain(","), Cache([Field(MONTH), Literal(" "), Field(DAY)], DAY)), ' ', "y", Scan(Plain(", "), Cache([Field(MONTH), Literal(" "), Field(DAY)], DAY)));
    assert " y" == [' '] + "y";
    EnglishMediumDateOpenYear();
    RunStep(Scan(Plain(", "), Cache([Field(MONTH), Literal(" "), Field(DAY)], DAY)), 'y', "", Scan(Pending(Some(YEAR)), Cache([Field(MONTH), Literal(" "), Field(DAY), Literal(", ")], DAY)));
    assert "y" == ['y'] + "";
  }

  lemma EnglishMediumDateOpenMonth()
    ensures Step(Scan(Pending(None), Cache([], 0)), 'M') == Some(Scan(Pending(Some(MONTH)), Cache([], 0)))
  {
  }

  lemma EnglishMediumDateExtendMonth()
    ensures Step(Scan(Pending(Some(MONTH)), Cache([], 0)), 'M') == Some(Scan(Pending(Some(MONTH)), Cache([], 0)))
  {
  }

  lemma EnglishMediumDateCloseMonth()
    ensures Step(Scan(Pending(Some(MONTH)), Cache([], 0)), ' ') == Some(Scan(Plain(" "), Cache([Field(MONTH)], MONTH)))
  {
    assert [] + [Field(MONTH)] == [Field(MONTH)];
  }

  lemma EnglishMediumDateOpenDay()
    ensures Step(Scan(Plain(" "), Cache([Field(MONTH)], MONTH)), 'd') == Some(Scan(Pending(Some(DAY)), Cache([Field(MONTH), Literal(" ")], MONTH)))
  {
    assert [Field(MONTH)] + [Literal(" ")] == [Field(MONTH), Literal(" ")];
  }

  lemma EnglishMediumDateCloseDay()
    ensures Step(Scan(Pending(Some(DAY)), Cache([Field(MONTH), Literal(" ")], MONTH)), ',') == Some(Scan(Plain(","), Cache([Field(MONTH), Literal(" "), Field(DAY)], DAY)))
  {
    assert [Field(MONTH), Literal(" ")] + [Field(DAY)] == [Field(MONTH), Literal(" "), Field(DAY)];
  }

  lemma EnglishMediumDateExtendComma()
    ensures Step(Scan(Plain(","), Cache([Field(MONTH), Literal(" "), Field(DAY)], DAY)), ' ') == Some(Scan(Plain(", "), Cache([Field(MONTH), Literal(" "), Field(DAY)], DAY)))
  {
    assert "," + [' '] == ", ";
  }

  lemma EnglishMediumDateOpenYear()
    ensures Step(Scan(Plain(", "), Cache([Field(MONTH), Literal(" "), Field(DAY)], DAY)), 'y') == Some(Scan(Pending(Some(YEAR)), Cache([Field(MONTH), Literal(" "), Field(DAY), Literal(", ")], DAY)))
  {
    assert [Field(MONTH), Literal(" "), Field(DAY)] + [Literal(", ")] == [Field(MONTH), Literal(" "), Field(DAY), Literal(", ")];
  }

  /** A long Spanish date: each quoted word lies between two literal segments. */
  lemma SpanishLongDate()
    ensures ParseFrom(Cache([], 0), "d \'de\' MMMM \'de\' y") ==
            Parsed(Cache([Field(DAY), Literal(" "), Literal("de"), Literal(" "), Field(MONTH), Literal(" "), Literal("de"), Literal(" "), Field(YEAR)], DAY), true)
  {
    var u0 := "d \'";
    var u1 := "de\'";
    var u2 := " MM";
    var u3 := "MM ";
    var u4 := "\'de";
    var u5 := "\' y";
    assert "d \'de\' MMMM \'de\' y" == u0 + (u1 + (u2 + (u3 + (u4 + u5))));
    SpanishLongDateScanDaySpaceQuote();
    RunSplit(Scan(Pending(None), Cache([], 0)), u0, u1 + (u2 + (u3 + (u4 + u5))));
    SpanishLongDateScanDeQuote();
    RunSplit(Scan(Quoted(""), Cache([Field(DAY), Literal(" ")], DAY)), u1, u2 + (u3 + (u4 + u5)));
    SpanishLongDateScanSpaceMonth();
    RunSplit(Scan(Pending(None), Cache([Field(DAY), Literal(" "), Literal("de")], DAY)), u2, u3 + (u4 + u5));
    SpanishLongDateScanMonthSpace();
    RunSplit(Scan(Pending(Some(MONTH)), Cache([Field(DAY), Literal(" "), Literal("de"), Literal(" ")], DAY)), u3, u4 + u5);
    SpanishLongDateScanQuoteDe();
    RunSplit(Scan(Plain(" "), Cache([Field(DAY), Literal(" "), Literal("de"), Literal(" "), Field(MONTH)], DAY)), u4, u5);
    SpanishLongDateScanQuoteSpaceYear();
    assert [Field(DAY), Literal(" "), Literal("de"), Literal(" "), Field(MONTH), Literal(" "), Literal("de"), Literal(" ")] + [Field(YEAR)] == [Field(DAY), Literal(" "), Literal("de"), Literal(" "), Field(MONTH), Literal(" "), Literal("de"), Literal(" "), Field(YEAR)];
  }

  lemma SpanishLongDateScanDaySpaceQuote()
    ensures Run(Scan(Pending(None), Cache([], 0)), "d \'") == Done(Scan(Quoted(""), Cache([Field(DAY), Literal(" ")], DAY)))
  {
    SpanishLongDateOpenDay();
    RunStep(Scan(Pending(None), Cache([], 0)), 'd', " \'", Scan(Pending(Some(DAY)), Cache([], 0)));
    assert "d \'" == ['d'] + " \'";
    SpanishLongDateCloseDay();
    RunStep(Scan(Pending(Some(DAY)), Cache([], 0)), ' ', "\'", Scan(Plain(" "), Cache([Field(DAY)], DAY)));
    assert " \'" == [' '] + "\'";
    SpanishLongDateOpenFirstQuote();
    RunStep(Scan(Plain(" "), Cache([Field(DAY)], DAY)), '\'', "", Scan(Quoted(""), Cache([Field(DAY), Literal(" ")], DAY)));
    assert "\'" == ['\''] + "";
  }

  lemma SpanishLongDateScanDeQuote()
    ensures Run(Scan(Quoted(""), Cache([Field(DAY), Literal(" ")], DAY)), "de\'") == Done(Scan(Pending(None), Cache([Field(DAY), Literal(" "), Literal("de")], DAY)))
  {
    assert "" + ['d'] == "d";
    RunStep(Scan(Quoted(""), Cache([Field(DAY), Literal(" ")], DAY)), 'd', "e\'", Scan(Quoted("d"), Cache([Field(DAY), Literal(" ")], DAY)));
    assert "de\'" == ['d'] + "e\'";
    assert "d" + ['e'] == "de";
    RunStep(Scan(Quoted("d"), Cache([Field(DAY), Literal(" ")], DAY)), 'e', "\'", Scan(Quoted("de"), Cache([Field(DAY), Literal(" ")], DAY)));
    assert "e\'" == ['e'] + "\'";
    SpanishLongDateCloseFirstQuote();
    RunStep(Scan(Quoted("de"), Cache([Field(DAY), Literal(" ")], DAY)), '\'', "", Scan(Pending(None), Cache([Field(DAY), Literal(" "), Literal("de")], DAY)));
    assert "\'" == ['\''] + "";
  }

  lemma SpanishLongDateScanSpaceMonth()
    ensures Run(Scan(Pending(None), Cache([Field(DAY), Literal(" "), Literal("de")], DAY)), " MM") == Done(Scan(Pending(Some(MONTH)), Cache([Field(DAY), Literal(" "), Literal("de"), Literal(" ")], DAY)))
  {
    SpanishLongDateSpaceAfterFirstQuote();
    RunStep(Scan(Pending(None), Cache([Field(DAY), Literal(" "), Literal("de")], DAY)), ' ', "MM", Scan(Plain(" "), Cache([Field(DAY), Literal(" "), Literal("de")], DAY)));
    assert " MM" == [' '] + "MM";
    SpanishLongDateOpenMonth();
    RunStep(Scan(Plain(" "), Cache([Field(DAY), Literal(" "), Literal("de")], DAY)), 'M', "M", Scan(Pending(Some(MONTH)), Cache([Field(DAY), Literal(" "), Literal("de"), Literal(" ")], DAY)));
    assert "MM" == ['M'] + "M";
    SpanishLongDateExtendMonth();
    RunStep(Scan(Pending(Some(MONTH)), Cache([Field(DAY), Literal(" "), Literal("de"), Literal(" ")], DAY)), 'M', "", Scan(Pending(Some(MONTH)), Cache([Field(DAY), Literal(" "), Literal("de"), Literal(" ")], DAY)));
    assert "M" == ['M'] + "";
  }

  lemma SpanishLongDateScanMonthSpace()
    ensures Run(Scan(Pending(Some(MONTH)), Cache([Field(DAY), Literal(" "), Literal("de"), Literal(" ")], DAY)), "MM ") == Done(Scan(Plain(" "), Cache([Field(DAY), Literal(" "), Literal("de"), Literal(" "), Field(MONTH)], DAY)))
  {
    SpanishLongDateExtendMonth();
    RunStep(Scan(Pending(Some(MONTH)), Cache([Field(DAY), Literal(" "), Literal("de"), Literal(" ")], DAY)), 'M', "M ", Scan(Pending(Some(MONTH)), Cache([Field(DAY), Literal(" "), Literal("de"), Literal(" ")], DAY)));
    assert "MM " == ['M'] + "M ";
    SpanishLongDateExtendMonth();
    RunStep(Scan(Pending(Some(MONTH)), Cache([Field(DAY), Literal(" "), Literal("de"), Literal(" ")], DAY)), 'M', " ", Scan(Pending(Some(MONTH)), Cache([Field(DAY), Literal(" "), Literal("de"), Literal(" ")], DAY)));
    assert "M " == ['M'] + " ";
    SpanishLongDateCloseMonth();
    RunStep(Scan(Pending(Some(MONTH)), Cache([Field(DAY), Literal(" "), Literal("de"), Literal(" ")], DAY)), ' ', "", Scan(Plain(" "), Cache([Field(DAY), Literal(" "), Literal("de"), Literal(" "), Field(MONTH)], DAY)));
    assert " " == [' '] + "";
  }

  lemma SpanishLongDateScanQuoteDe()
    ensures Run(Scan(Plain(" "), Cache([Field(DAY), Literal(" "), Literal("de"), Literal(" "), Field(MONTH)], DAY)), "\'de") == Done(Scan(Quoted("de"), Cache([Field(DAY), Literal(" "), Literal("de"), Literal(" "), Field(MONTH), Literal(" ")], DAY)))
  {
    SpanishLongDateOpenSecondQuote();
    RunStep(Scan(Plain(" "), Cache([Field(DAY), Literal(" "), Literal("de"), Literal(" "), Field(MONTH)], DAY)), '\'', "de", Scan(Quoted(""), Cache([Field(DAY), Literal(" "), Literal("de"), Literal(" "), Field(MONTH), Literal(" ")], DAY)));
    assert "\'de" == ['\''] + "de";
    assert "" + ['d'] == "d";
    RunStep(Scan(Quoted(""), Cache([Field(DAY), Literal(" "), Literal("de"), Literal(" "), Field(MONTH), Literal(" ")], DAY)), 'd', "e", Scan(Quoted("d"), Cache([Field(DAY), Literal(" "), Literal("de"), Literal(" "), Field(MONTH), Literal(" ")], DAY)));
    assert "de" == ['d'] + "e";
    assert "d" + ['e'] == "de";
    RunStep(Scan(Quoted("d"), Cache([Field(DAY), Literal(" "), Literal("de"), Literal(" "), Field(MONTH), Literal(" ")], DAY)), 'e', "", Scan(Quoted("de"), Cache([Field(DAY), Literal(" "), Literal("de"), Literal(" "), Field(MONTH), Literal(" ")], DAY)));
    assert "e" == ['e'] + "";
  }

  lemma SpanishLongDateScanQuoteSpaceYear()
    ensures Run(Scan(Quoted("de"), Cache([Field(DAY), Literal(" "), Literal("de"), Literal(" "), Field(MONTH), Literal(" ")], DAY)), "\' y") == Done(Scan(Pending(Some(YEAR)), Cache([Field(DAY), Literal(" "), Literal("de"), Literal(" "), Field(MONTH), Literal(" "), Literal("de"), Literal(" ")], DAY)))
  {
    SpanishLongDateCloseSecondQuote();
    RunStep(Scan(Quoted("de"), Cache([Field(DAY), Literal(" "), Literal("de"), Literal(" "), Field(MONTH), Literal(" ")], DAY)), '\'', " y", Scan(Pending(None), Cache([Field(DAY), Literal(" "), Literal("de"), Literal(" "), Field(MONTH), Literal(" "), Literal("de")], DAY)));
    assert "\' y" == ['\''] + " y";
    SpanishLongDateSpaceAfterSecondQuote();
    RunStep(Scan(Pending(None), Cache([Field(DAY), Literal(" "), Literal("de"), Literal(" "), Field(MONTH), Literal(" "), Literal("de")], DAY)), ' ', "y", Scan(Plain(" "), Cache([Field(DAY), Literal(" "), Literal("de"), Literal(" "), Field(MONTH), Literal(" "), Literal("de")], DAY)));
    assert " y" == [' '] + "y";
    SpanishLongDateOpenYear();
    RunStep(Scan(Plain(" "), Cache([Field(DAY), Literal(" "), Literal("de"), Literal(" "), Field(MONTH), Literal(" "), Literal("de")], DAY)), 'y', "", Scan(Pending(Some(YEAR)), Cache([Field(DAY), Literal(" "), Literal("de"), Literal(" "), Field(MONTH), Literal(" "), Literal("de"), Literal(" ")], DAY)));
    assert "y" == ['y'] + "";
  }

  lemma SpanishLongDateOpenDay()
    ensures Step(Scan(Pending(None), Cache([], 0)), 'd') == Some(Scan(Pending(Some(DAY)), Cache([], 0)))
  {
  }

  lemma SpanishLongDateCloseDay()
    ensures Step(Scan(Pending(Some(DAY)), Cache([], 0)), ' ') == Some(Scan(Plain(" "), Cache([Field(DAY)], DAY)))
  {
    assert [] + [Field(DAY)] == [Field(DAY)];
  }

  lemma SpanishLongDateOpenFirstQuote()
    ensures Step(Scan(Plain(" "), Cache([Field(DAY)], DAY)), '\'') == Some(Scan(Quoted(""), Cache([Field(DAY), Literal(" ")], DAY)))
  {
    assert [Field(DAY)] + [Literal(" ")] == [Field(DAY), Literal(" ")];
  }

  lemma SpanishLongDateCloseFirstQuote()
    ensures Step(Scan(Quoted("de"), Cache([Field(DAY), Literal(" ")], DAY)), '\'') == Some(Scan(Pending(None), Cache([Field(DAY), Literal(" "), Literal("de")], DAY)))
  {
    assert [Field(DAY), Literal(" ")] + [Literal("de")] == [Field(DAY), Literal(" "), Literal("de")];
  }

  lemma SpanishLongDateSpaceAfterFirstQuote()
    ensures Step(Scan(Pending(None), Cache([Field(DAY), Literal(" "), Literal("de")], DAY)), ' ') == Some(Scan(Plain(" "), Cache([Field(DAY), Literal(" "), Literal("de")], DAY)))
  {
  }

  lemma SpanishLongDateOpenMonth()
    ensures Step(Scan(Plain(" "), Cache([Field(DAY), Literal(" "), Literal("de")], DAY)), 'M') == Some(Scan(Pending(Some(MONTH)), Cache([Field(DAY), Literal(" "), Literal("de"), Literal(" ")], DAY)))
  {
    assert [Field(DAY), Literal(" "), Literal("de")] + [Literal(" ")] == [Field(DAY), Literal(" "), Literal("de"), Literal(" ")];
  }

  lemma SpanishLongDateExtendMonth()
    ensures Step(Scan(Pending(Some(MONTH)), Cache([Field(DAY), Literal(" "), Literal("de"), Literal(" ")], DAY)), 'M') == Some(Scan(Pending(Some(MONTH)), Cache([Field(DAY), Literal(" "), Literal("de"), Literal(" ")], DAY)))
  {
  }

  lemma SpanishLongDateCloseMonth()
    ensures Step(Scan(Pending(Some(MONTH)), Cache([Field(DAY), Literal(" "), Literal("de"), Literal(" ")], DAY)), ' ') == Some(Scan(Plain(" "), Cache([Field(DAY), Literal(" "), Literal("de"), Literal(" "), Field(MONTH)], DAY)))
  {
    assert [Field(DAY), Literal(" "), Literal("de"), Literal(" ")] + [Field(MONTH)] == [Field(DAY), Literal(" "), Literal("de"), Literal(" "), Field(MONTH)];
  }

  lemma SpanishLongDateOpenSecondQuote()
    ensures Step(Scan(Plain(" "), Cache([Field(DAY), Literal(" "), Literal("de"), Literal(" "), Field(MONTH)], DAY)), '\'') == Some(Scan(Quoted(""), Cache([Field(DAY), Literal(" "), Literal("de"), Literal(" "), Field(MONTH), Literal(" ")], DAY)))
  {
    assert [Field(DAY), Literal(" "), Literal("de"), Literal(" "), Field(MONTH)] + [Literal(" ")] == [Field(DAY), Literal(" "), Literal("de"), Literal(" "), Field(MONTH), Literal(" ")];
  }

  lemma SpanishLongDateCloseSecondQuote()
    ensures Step(Scan(Quoted("de"), Cache([Field(DAY), Literal(" "), Literal("de"), Literal(" "), Field(MONTH), Literal(" ")], DAY)), '\'') == Some(Scan(Pending(None), Cache([Field(DAY), Literal(" "), Literal("de"), Literal(" "), Field(MONTH), Literal(" "), Literal("de")], DAY)))
  {
    assert [Field(DAY), Literal(" "), Literal("de"), Literal(" "), Field(MONTH), Literal(" ")] + [Literal("de")] == [Field(DAY), Literal(" "), Literal("de"), Literal(" "), Field(MONTH), Literal(" "), Literal("de")];
  }

  lemma SpanishLongDateSpaceAfterSecondQuote()
    ensures Step(Scan(Pending(None), Cache([Field(DAY), Literal(" "), Literal("de"), Literal(" "), Field(MONTH), Literal(" "), Literal("de")], DAY)), ' ') == Some(Scan(Plain(" "), Cache([Field(DAY), Literal(" "), Literal("de"), Literal(" "), Field(MONTH), Literal(" "), Literal("de")], DAY)))
  {
  }

  lemma SpanishLongDateOpenYear()
    ensures Step(Scan(Plain(" "), Cache([Field(DAY), Literal(" "), Literal("de"), Literal(" "), Field(MONTH), Literal(" "), Literal("de")], DAY)), 'y') == Some(Scan(Pending(Some(YEAR)), Cache([Field(DAY), Literal(" "), Literal("de"), Literal(" "), Field(MONTH), Literal(" "), Literal("de"), Literal(" ")], DAY)))
  {
    assert [Field(DAY), Literal(" "), Literal("de"), Literal(" "), Field(MONTH), Literal(" "), Literal("de")] + [Literal(" ")] == [Field(DAY), Literal(" "), Literal("de"), Literal(" "), Field(MONTH), Literal(" "), Literal("de"), Literal(" ")];
  }
}
