/**
 * Worked examples: the two locale patterns whose parse is computed in
 * Pattern (English medium "MMM d, y" and Spanish long "d 'de' MMMM 'de' y"),
 * tokenized and joined.  For the Spanish pattern they show what the
 * tokenizer as written does to a literal that does not follow a field, and
 * what the corrected tokenizer gives instead.
 */
module Cases {

  import opened Wrappers
  import opened Categories
  import opened Pattern
  import opened Tokenizer
  import opened Stitch
  import opened Comparator
  import opened Loose
  import opened Formatter

  /** d does not occur at q in s: the i-th characters differ. */
  lemma NotAt(s: string, d: string, q: nat, i: nat)
    requires q + |d| <= |s| && i < |d| && s[q + i] != d[i]
    ensures !OccursAt(s, d, q)
  {
  }

  /** Cutting a + d + b around d gives back a and b. */
  lemma CutAt(a: string, d: string, b: string)
    ensures OccursAt(a + d + b, d, |a|)
    ensures (a + d + b)[..|a|] == a && (a + d + b)[|a| + |d|..] == b
  {
  }

  const EnglishMask: seq<Segment> := [Field(MONTH), Literal(" "), Field(DAY), Literal(", "), Field(YEAR)]
  const SpanishMask: seq<Segment> := [Field(DAY), Literal(" "), Literal("de"), Literal(" "), Field(MONTH), Literal(" "), Literal("de"), Literal(" "), Field(YEAR)]

  /** The English medium rendering of 3 January 2020, cut at each literal. */
  lemma EnglishJan3()
    ensures AlignedTokensOf(EnglishMask, "Jan 3, 2020") == [FieldToken(Some(MONTH), "Jan"), LiteralToken(" "), FieldToken(Some(DAY), "3"), LiteralToken(", "), FieldToken(Some(YEAR), "2020")]
  {
    EnglishJan3ThroughYear();
    assert EnglishMask == [Field(MONTH), Literal(" "), Field(DAY), Literal(", "), Field(YEAR)];
    assert [FieldToken(Some(MONTH), "Jan"), LiteralToken(" "), FieldToken(Some(DAY), "3"), LiteralToken(", ")] + [FieldToken(Some(YEAR), "2020")] == [FieldToken(Some(MONTH), "Jan"), LiteralToken(" "), FieldToken(Some(DAY), "3"), LiteralToken(", "), FieldToken(Some(YEAR), "2020")];
  }

  /** " " first occurs in "Jan 3, 2020" at 3. */
  lemma EnglishJan3CutMonthSpace()
    ensures FindFirst("Jan 3, 2020", " ") == Some(3)
    ensures "Jan 3, 2020"[..3] == "Jan" && "Jan 3, 2020"[4..] == "3, 2020"
  {
    NotAt("Jan 3, 2020", " ", 0, 0);
    NotAt("Jan 3, 2020", " ", 1, 0);
    NotAt("Jan 3, 2020", " ", 2, 0);
    assert forall q :: 0 <= q < 3 ==> !OccursAt("Jan 3, 2020", " ", q);
    CutAt("Jan", " ", "3, 2020");
    assert "Jan" + " " + "3, 2020" == "Jan 3, 2020";
    FindFirstAt("Jan 3, 2020", " ", 3);
  }

  lemma EnglishJan3ThroughMonthSpace()
    ensures WalkAligned([Field(MONTH), Literal(" ")], "Jan 3, 2020") == Progress([FieldToken(Some(MONTH), "Jan"), LiteralToken(" ")], "3, 2020", None)
  {
    assert WalkAligned([Field(MONTH)], "Jan 3, 2020") == Progress([], "Jan 3, 2020", Some(MONTH));
    WalkAlignedSnoc([Field(MONTH)], Literal(" "), "Jan 3, 2020");
    assert [Field(MONTH)] + [Literal(" ")] == [Field(MONTH), Literal(" ")];
    EnglishJan3CutMonthSpace();
    assert [] + [FieldToken(Some(MONTH), "Jan"), LiteralToken(" ")] == [FieldToken(Some(MONTH), "Jan"), LiteralToken(" ")];
  }

  lemma EnglishJan3ThroughDay()
    ensures WalkAligned([Field(MONTH), Literal(" "), Field(DAY)], "Jan 3, 2020") == Progress([FieldToken(Some(MONTH), "Jan"), LiteralToken(" ")], "3, 2020", Some(DAY))
  {
    EnglishJan3ThroughMonthSpace();
    WalkAlignedSnoc([Field(MONTH), Literal(" ")], Field(DAY), "Jan 3, 2020");
    assert [Field(MONTH), Literal(" ")] + [Field(DAY)] == [Field(MONTH), Literal(" "), Field(DAY)];
  }

  /** ", " first occurs in "3, 2020" at 1. */
  lemma EnglishJan3CutDayComma()
    ensures FindFirst("3, 2020", ", ") == Some(1)
    ensures "3, 2020"[..1] == "3" && "3, 2020"[3..] == "2020"
  {
    NotAt("3, 2020", ", ", 0, 0);
    assert forall q :: 0 <= q < 1 ==> !OccursAt("3, 2020", ", ", q);
    CutAt("3", ", ", "2020");
    assert "3" + ", " + "2020" == "3, 2020";
    FindFirstAt("3, 2020", ", ", 1);
  }

  lemma EnglishJan3ThroughDayComma()
    ensures WalkAligned([Field(MONTH), Literal(" "), Field(DAY), Literal(", ")], "Jan 3, 2020") == Progress([FieldToken(Some(MONTH), "Jan"), LiteralToken(" "), FieldToken(Some(DAY), "3"), LiteralToken(", ")], "2020", None)
  {
    EnglishJan3ThroughDay();
    WalkAlignedSnoc([Field(MONTH), Literal(" "), Field(DAY)], Literal(", "), "Jan 3, 2020");
    assert [Field(MONTH), Literal(" "), Field(DAY)] + [Literal(", ")] == [Field(MONTH), Literal(" "), Field(DAY), Literal(", ")];
    EnglishJan3CutDayComma();
    assert [FieldToken(Some(MONTH), "Jan"), LiteralToken(" ")] + [FieldToken(Some(DAY), "3"), LiteralToken(", ")] == [FieldToken(Some(MONTH), "Jan"), LiteralToken(" "), FieldToken(Some(DAY), "3"), LiteralToken(", ")];
  }

  lemma EnglishJan3ThroughYear()
    ensures WalkAligned([Field(MONTH), Literal(" "), Field(DAY), Literal(", "), Field(YEAR)], "Jan 3, 2020") == Progress([FieldToken(Some(MONTH), "Jan"), LiteralToken(" "), FieldToken(Some(DAY), "3"), LiteralToken(", ")], "2020", Some(YEAR))
  {
    EnglishJan3ThroughDayComma();
    WalkAlignedSnoc([Field(MONTH), Literal(" "), Field(DAY), Literal(", ")], Field(YEAR), "Jan 3, 2020");
    assert [Field(MONTH), Literal(" "), Field(DAY), Literal(", ")] + [Field(YEAR)] == [Field(MONTH), Literal(" "), Field(DAY), Literal(", "), Field(YEAR)];
  }

  const EnglishJan3Tokens: seq<Token> := [FieldToken(Some(MONTH), "Jan"), LiteralToken(" "), FieldToken(Some(DAY), "3"), LiteralToken(", "), FieldToken(Some(YEAR), "2020")]

  /** The English medium rendering of 5 January 2020. */
  lemma EnglishJan5()
    ensures AlignedTokensOf(EnglishMask, "Jan 5, 2020") == [FieldToken(Some(MONTH), "Jan"), LiteralToken(" "), FieldToken(Some(DAY), "5"), LiteralToken(", "), FieldToken(Some(YEAR), "2020")]
  {
    EnglishJan5ThroughYear();
    assert EnglishMask == [Field(MONTH), Literal(" "), Field(DAY), Literal(", "), Field(YEAR)];
    assert [FieldToken(Some(MONTH), "Jan"), LiteralToken(" "), FieldToken(Some(DAY), "5"), LiteralToken(", ")] + [FieldToken(Some(YEAR), "2020")] == [FieldToken(Some(MONTH), "Jan"), LiteralToken(" "), FieldToken(Some(DAY), "5"), LiteralToken(", "), FieldToken(Some(YEAR), "2020")];
  }

  /** " " first occurs in "Jan 5, 2020" at 3. */
  lemma EnglishJan5CutMonthSpace()
    ensures FindFirst("Jan 5, 2020", " ") == Some(3)
    ensures "Jan 5, 2020"[..3] == "Jan" && "Jan 5, 2020"[4..] == "5, 2020"
  {
    NotAt("Jan 5, 2020", " ", 0, 0);
    NotAt("Jan 5, 2020", " ", 1, 0);
    NotAt("Jan 5, 2020", " ", 2, 0);
    assert forall q :: 0 <= q < 3 ==> !OccursAt("Jan 5, 2020", " ", q);
    CutAt("Jan", " ", "5, 2020");
    assert "Jan" + " " + "5, 2020" == "Jan 5, 2020";
    FindFirstAt("Jan 5, 2020", " ", 3);
  }

  lemma EnglishJan5ThroughMonthSpace()
    ensures WalkAligned([Field(MONTH), Literal(" ")], "Jan 5, 2020") == Progress([FieldToken(Some(MONTH), "Jan"), LiteralToken(" ")], "5, 2020", None)
  {
    assert WalkAligned([Field(MONTH)], "Jan 5, 2020") == Progress([], "Jan 5, 2020", Some(MONTH));
    WalkAlignedSnoc([Field(MONTH)], Literal(" "), "Jan 5, 2020");
    assert [Field(MONTH)] + [Literal(" ")] == [Field(MONTH), Literal(" ")];
    EnglishJan5CutMonthSpace();
    assert [] + [FieldToken(Some(MONTH), "Jan"), LiteralToken(" ")] == [FieldToken(Some(MONTH), "Jan"), LiteralToken(" ")];
  }

  lemma EnglishJan5ThroughDay()
    ensures WalkAligned([Field(MONTH), Literal(" "), Field(DAY)], "Jan 5, 2020") == Progress([FieldToken(Some(MONTH), "Jan"), LiteralToken(" ")], "5, 2020", Some(DAY))
  {
    EnglishJan5ThroughMonthSpace();
    WalkAlignedSnoc([Field(MONTH), Literal(" ")], Field(DAY), "Jan 5, 2020");
    assert [Field(MONTH), Literal(" ")] + [Field(DAY)] == [Field(MONTH), Literal(" "), Field(DAY)];
  }

  /** ", " first occurs in "5, 2020" at 1. */
  lemma EnglishJan5CutDayComma()
    ensures FindFirst("5, 2020", ", ") == Some(1)
    ensures "5, 2020"[..1] == "5" && "5, 2020"[3..] == "2020"
  {
    NotAt("5, 2020", ", ", 0, 0);
    assert forall q :: 0 <= q < 1 ==> !OccursAt("5, 2020", ", ", q);
    CutAt("5", ", ", "2020");
    assert "5" + ", " + "2020" == "5, 2020";
    FindFirstAt("5, 2020", ", ", 1);
  }

  lemma EnglishJan5ThroughDayComma()
    ensures WalkAligned([Field(MONTH), Literal(" "), Field(DAY), Literal(", ")], "Jan 5, 2020") == Progress([FieldToken(Some(MONTH), "Jan"), LiteralToken(" "), FieldToken(Some(DAY), "5"), LiteralToken(", ")], "2020", None)
  {
    EnglishJan5ThroughDay();
    WalkAlignedSnoc([Field(MONTH), Literal(" "), Field(DAY)], Literal(", "), "Jan 5, 2020");
    assert [Field(MONTH), Literal(" "), Field(DAY)] + [Literal(", ")] == [Field(MONTH), Literal(" "), Field(DAY), Literal(", ")];
    EnglishJan5CutDayComma();
    assert [FieldToken(Some(MONTH), "Jan"), LiteralToken(" ")] + [FieldToken(Some(DAY), "5"), LiteralToken(", ")] == [FieldToken(Some(MONTH), "Jan"), LiteralToken(" "), FieldToken(Some(DAY), "5"), LiteralToken(", ")];
  }

  lemma EnglishJan5ThroughYear()
    ensures WalkAligned([Field(MONTH), Literal(" "), Field(DAY), Literal(", "), Field(YEAR)], "Jan 5, 2020") == Progress([FieldToken(Some(MONTH), "Jan"), LiteralToken(" "), FieldToken(Some(DAY), "5"), LiteralToken(", ")], "2020", Some(YEAR))
  {
    EnglishJan5ThroughDayComma();
    WalkAlignedSnoc([Field(MONTH), Literal(" "), Field(DAY), Literal(", ")], Field(YEAR), "Jan 5, 2020");
    assert [Field(MONTH), Literal(" "), Field(DAY), Literal(", ")] + [Field(YEAR)] == [Field(MONTH), Literal(" "), Field(DAY), Literal(", "), Field(YEAR)];
  }

  const EnglishJan5Tokens: seq<Token> := [FieldToken(Some(MONTH), "Jan"), LiteralToken(" "), FieldToken(Some(DAY), "5"), LiteralToken(", "), FieldToken(Some(YEAR), "2020")]

  /** The English medium rendering of 5 February 2020. */
  lemma EnglishFeb5()
    ensures AlignedTokensOf(EnglishMask, "Feb 5, 2020") == [FieldToken(Some(MONTH), "Feb"), LiteralToken(" "), FieldToken(Some(DAY), "5"), LiteralToken(", "), FieldToken(Some(YEAR), "2020")]
  {
    EnglishFeb5ThroughYear();
    assert EnglishMask == [Field(MONTH), Literal(" "), Field(DAY), Literal(", "), Field(YEAR)];
    assert [FieldToken(Some(MONTH), "Feb"), LiteralToken(" "), FieldToken(Some(DAY), "5"), LiteralToken(", ")] + [FieldToken(Some(YEAR), "2020")] == [FieldToken(Some(MONTH), "Feb"), LiteralToken(" "), FieldToken(Some(DAY), "5"), LiteralToken(", "), FieldToken(Some(YEAR), "2020")];
  }

  /** " " first occurs in "Feb 5, 2020" at 3. */
  lemma EnglishFeb5CutMonthSpace()
    ensures FindFirst("Feb 5, 2020", " ") == Some(3)
    ensures "Feb 5, 2020"[..3] == "Feb" && "Feb 5, 2020"[4..] == "5, 2020"
  {
    NotAt("Feb 5, 2020", " ", 0, 0);
    NotAt("Feb 5, 2020", " ", 1, 0);
    NotAt("Feb 5, 2020", " ", 2, 0);
    assert forall q :: 0 <= q < 3 ==> !OccursAt("Feb 5, 2020", " ", q);
    CutAt("Feb", " ", "5, 2020");
    assert "Feb" + " " + "5, 2020" == "Feb 5, 2020";
    FindFirstAt("Feb 5, 2020", " ", 3);
  }

  lemma EnglishFeb5ThroughMonthSpace()
    ensures WalkAligned([Field(MONTH), Literal(" ")], "Feb 5, 2020") == Progress([FieldToken(Some(MONTH), "Feb"), LiteralToken(" ")], "5, 2020", None)
  {
    assert WalkAligned([Field(MONTH)], "Feb 5, 2020") == Progress([], "Feb 5, 2020", Some(MONTH));
    WalkAlignedSnoc([Field(MONTH)], Literal(" "), "Feb 5, 2020");
    assert [Field(MONTH)] + [Literal(" ")] == [Field(MONTH), Literal(" ")];
    EnglishFeb5CutMonthSpace();
    assert [] + [FieldToken(Some(MONTH), "Feb"), LiteralToken(" ")] == [FieldToken(Some(MONTH), "Feb"), LiteralToken(" ")];
  }

  lemma EnglishFeb5ThroughDay()
    ensures WalkAligned([Field(MONTH), Literal(" "), Field(DAY)], "Feb 5, 2020") == Progress([FieldToken(Some(MONTH), "Feb"), LiteralToken(" ")], "5, 2020", Some(DAY))
  {
    EnglishFeb5ThroughMonthSpace();
    WalkAlignedSnoc([Field(MONTH), Literal(" ")], Field(DAY), "Feb 5, 2020");
    assert [Field(MONTH), Literal(" ")] + [Field(DAY)] == [Field(MONTH), Literal(" "), Field(DAY)];
  }

  lemma EnglishFeb5ThroughDayComma()
    ensures WalkAligned([Field(MONTH), Literal(" "), Field(DAY), Literal(", ")], "Feb 5, 2020") == Progress([FieldToken(Some(MONTH), "Feb"), LiteralToken(" "), FieldToken(Some(DAY), "5"), LiteralToken(", ")], "2020", None)
  {
    EnglishFeb5ThroughDay();
    WalkAlignedSnoc([Field(MONTH), Literal(" "), Field(DAY)], Literal(", "), "Feb 5, 2020");
    assert [Field(MONTH), Literal(" "), Field(DAY)] + [Literal(", ")] == [Field(MONTH), Literal(" "), Field(DAY), Literal(", ")];
    EnglishJan5CutDayComma();
    assert [FieldToken(Some(MONTH), "Feb"), LiteralToken(" ")] + [FieldToken(Some(DAY), "5"), LiteralToken(", ")] == [FieldToken(Some(MONTH), "Feb"), LiteralToken(" "), FieldToken(Some(DAY), "5"), LiteralToken(", ")];
  }

  lemma EnglishFeb5ThroughYear()
    ensures WalkAligned([Field(MONTH), Literal(" "), Field(DAY), Literal(", "), Field(YEAR)], "Feb 5, 2020") == Progress([FieldToken(Some(MONTH), "Feb"), LiteralToken(" "), FieldToken(Some(DAY), "5"), LiteralToken(", ")], "2020", Some(YEAR))
  {
    EnglishFeb5ThroughDayComma();
    WalkAlignedSnoc([Field(MONTH), Literal(" "), Field(DAY), Literal(", ")], Field(YEAR), "Feb 5, 2020");
    assert [Field(MONTH), Literal(" "), Field(DAY), Literal(", ")] + [Field(YEAR)] == [Field(MONTH), Literal(" "), Field(DAY), Literal(", "), Field(YEAR)];
  }

  const EnglishFeb5Tokens: seq<Token> := [FieldToken(Some(MONTH), "Feb"), LiteralToken(" "), FieldToken(Some(DAY), "5"), LiteralToken(", "), FieldToken(Some(YEAR), "2020")]

  /** Two days of one month: the month and the year are written once. */
  lemma EnglishDaysOfOneMonth()
    ensures RangeText(EnglishMask, MONTH >= DAY, MONTH, EnglishJan3Tokens, EnglishJan5Tokens, EnDash) == "Jan 3\U{2013}5, 2020"
  {
    EnglishDaysOfOneMonthLeft();
    assert RightStop(EnglishJan5Tokens, MONTH, 2, 4) == 2;
    assert Contents(EnglishJan3Tokens, 2, 3) == "3";
    assert Contents(EnglishJan5Tokens, 2, 3) == "5";
    assert Contents(EnglishJan5Tokens, 3, 5) == ", 2020";
    SplitRangeTextAt(EnglishMask, MONTH >= DAY, MONTH, EnglishJan3Tokens, EnglishJan5Tokens, EnDash, 2, 2, 2);
    assert RangeText(EnglishMask, MONTH >= DAY, MONTH, EnglishJan3Tokens, EnglishJan5Tokens, EnDash) == "Jan " + "3" + EnDash + "5" + ", 2020";
    assert "Jan " + "3" + EnDash + "5" + ", 2020" == "Jan 3\U{2013}5, 2020";
  }

  lemma EnglishDaysOfOneMonthLeft()
    ensures LeftEnd(EnglishMask, MONTH) == 2 && Pieces(EnglishMask, EnglishJan3Tokens, 2) == "Jan "
  {
    assert LeftEndFrom(EnglishMask, MONTH, 2) == 2;
    assert LeftEndFrom(EnglishMask, MONTH, 1) == 2;
    assert LeftEndFrom(EnglishMask, MONTH, 0) == 2;
    assert Pieces(EnglishMask, EnglishJan3Tokens, 1) == "Jan";
    assert Pieces(EnglishMask, EnglishJan3Tokens, 2) == "Jan ";
  }

  /** Two days of different months of one year: the year is written once. */
  lemma EnglishDaysOfTwoMonths()
    ensures RangeText(EnglishMask, YEAR >= DAY, YEAR, EnglishJan3Tokens, EnglishFeb5Tokens, EnDash) == "Jan 3\U{2013}Feb 5, 2020"
  {
    assert LeftEnd(EnglishMask, YEAR) == 0 && Pieces(EnglishMask, EnglishJan3Tokens, 0) == "";
    assert RightStop(EnglishFeb5Tokens, YEAR, 0, 4) == 2;
    assert Contents(EnglishJan3Tokens, 0, 3) == "Jan 3";
    assert Contents(EnglishFeb5Tokens, 0, 3) == "Feb 5";
    assert Contents(EnglishFeb5Tokens, 3, 5) == ", 2020";
    SplitRangeTextAt(EnglishMask, YEAR >= DAY, YEAR, EnglishJan3Tokens, EnglishFeb5Tokens, EnDash, 0, 0, 2);
    assert RangeText(EnglishMask, YEAR >= DAY, YEAR, EnglishJan3Tokens, EnglishFeb5Tokens, EnDash) == "" + "Jan 3" + EnDash + "Feb 5" + ", 2020";
    assert "" + "Jan 3" + EnDash + "Feb 5" + ", 2020" == "Jan 3\U{2013}Feb 5, 2020";
  }

  /** As written, the Spanish rendering of 3 January 2020 gives 13 tokens for 9 segments: an empty field token precedes each literal that follows a literal. */
  lemma SpanishWritten3()
    ensures TokensOf(SpanishMask, "3 de enero de 2020") == [FieldToken(Some(DAY), "3"), LiteralToken(" "), FieldToken(Some(DAY), ""), LiteralToken("de"), FieldToken(Some(DAY), ""), LiteralToken(" "), FieldToken(Some(MONTH), "enero"), LiteralToken(" "), FieldToken(Some(MONTH), ""), LiteralToken("de"), FieldToken(Some(MONTH), ""), LiteralToken(" "), FieldToken(Some(YEAR), "2020")]
  {
    SpanishWritten3ThroughYear();
    assert SpanishMask == [Field(DAY), Literal(" "), Literal("de"), Literal(" "), Field(MONTH), Literal(" "), Literal("de"), Literal(" "), Field(YEAR)];
    assert [FieldToken(Some(DAY), "3"), LiteralToken(" "), FieldToken(Some(DAY), ""), LiteralToken("de"), FieldToken(Some(DAY), ""), LiteralToken(" "), FieldToken(Some(MONTH), "enero"), LiteralToken(" "), FieldToken(Some(MONTH), ""), LiteralToken("de"), FieldToken(Some(MONTH), ""), LiteralToken(" ")] + [FieldToken(Some(YEAR), "2020")] == [FieldToken(Some(DAY), "3"), LiteralToken(" "), FieldToken(Some(DAY), ""), LiteralToken("de"), FieldToken(Some(DAY), ""), LiteralToken(" "), FieldToken(Some(MONTH), "enero"), LiteralToken(" "), FieldToken(Some(MONTH), ""), LiteralToken("de"), FieldToken(Some(MONTH), ""), LiteralToken(" "), FieldToken(Some(YEAR), "2020")];
  }

  /** " " first occurs in "3 de enero de 2020" at 1. */
  lemma SpanishWritten3CutDaySpace()
    ensures FindFirst("3 de enero de 2020", " ") == Some(1)
    ensures "3 de enero de 2020"[..1] == "3" && "3 de enero de 2020"[2..] == "de enero de 2020"
  {
    NotAt("3 de enero de 2020", " ", 0, 0);
    assert forall q :: 0 <= q < 1 ==> !OccursAt("3 de enero de 2020", " ", q);
    CutAt("3", " ", "de enero de 2020");
    assert "3" + " " + "de enero de 2020" == "3 de enero de 2020";
    FindFirstAt("3 de enero de 2020", " ", 1);
  }

  lemma SpanishWritten3ThroughDaySpace()
    ensures Walk([Field(DAY), Literal(" ")], "3 de enero de 2020") == Progress([FieldToken(Some(DAY), "3"), LiteralToken(" ")], "de enero de 2020", Some(DAY))
  {
    assert Walk([Field(DAY)], "3 de enero de 2020") == Progress([], "3 de enero de 2020", Some(DAY));
    WalkSnoc([Field(DAY)], Literal(" "), "3 de enero de 2020");
    assert [Field(DAY)] + [Literal(" ")] == [Field(DAY), Literal(" ")];
    SpanishWritten3CutDaySpace();
    assert [] + [FieldToken(Some(DAY), "3"), LiteralToken(" ")] == [FieldToken(Some(DAY), "3"), LiteralToken(" ")];
  }

  lemma SpanishWritten3ThroughDaySpaceDe()
    ensures Walk([Field(DAY), Literal(" "), Literal("de")], "3 de enero de 2020") == Progress([FieldToken(Some(DAY), "3"), LiteralToken(" "), FieldToken(Some(DAY), ""), LiteralToken("de")], " enero de 2020", Some(DAY))
  {
    SpanishWritten3ThroughDaySpace();
    WalkSnoc([Field(DAY), Literal(" ")], Literal("de"), "3 de enero de 2020");
    assert [Field(DAY), Literal(" ")] + [Literal("de")] == [Field(DAY), Literal(" "), Literal("de")];
    assert FindFirst("de enero de 2020", "de") == Some(0);
    assert "de enero de 2020"[..0] == "" && "de enero de 2020"[2..] == " enero de 2020";
    assert [FieldToken(Some(DAY), "3"), LiteralToken(" ")] + [FieldToken(Some(DAY), ""), LiteralToken("de")] == [FieldToken(Some(DAY), "3"), LiteralToken(" "), FieldToken(Some(DAY), ""), LiteralToken("de")];
  }

  lemma SpanishWritten3ThroughDaySpaceDeSpace()
    ensures Walk([Field(DAY), Literal(" "), Literal("de"), Literal(" ")], "3 de enero de 2020") == Progress([FieldToken(Some(DAY), "3"), LiteralToken(" "), FieldToken(Some(DAY), ""), LiteralToken("de"), FieldToken(Some(DAY), ""), LiteralToken(" ")], "enero de 2020", Some(DAY))
  {
    SpanishWritten3ThroughDaySpaceDe();
    WalkSnoc([Field(DAY), Literal(" "), Literal("de")], Literal(" "), "3 de enero de 2020");
    assert [Field(DAY), Literal(" "), Literal("de")] + [Literal(" ")] == [Field(DAY), Literal(" "), Literal("de"), Literal(" ")];
    assert FindFirst(" enero de 2020", " ") == Some(0);
    assert " enero de 2020"[..0] == "" && " enero de 2020"[1..] == "enero de 2020";
    assert [FieldToken(Some(DAY), "3"), LiteralToken(" "), FieldToken(Some(DAY), ""), LiteralToken("de")] + [FieldToken(Some(DAY), ""), LiteralToken(" ")] == [FieldToken(Some(DAY), "3"), LiteralToken(" "), FieldToken(Some(DAY), ""), LiteralToken("de"), FieldToken(Some(DAY), ""), LiteralToken(" ")];
  }

  lemma SpanishWritten3ThroughMonth()
    ensures Walk([Field(DAY), Literal(" "), Literal("de"), Literal(" "), Field(MONTH)], "3 de enero de 2020") == Progress([FieldToken(Some(DAY), "3"), LiteralToken(" "), FieldToken(Some(DAY), ""), LiteralToken("de"), FieldToken(Some(DAY), ""), LiteralToken(" ")], "enero de 2020", Some(MONTH))
  {
    SpanishWritten3ThroughDaySpaceDeSpace();
    WalkSnoc([Field(DAY), Literal(" "), Literal("de"), Literal(" ")], Field(MONTH), "3 de enero de 2020");
    assert [Field(DAY), Literal(" "), Literal("de"), Literal(" ")] + [Field(MONTH)] == [Field(DAY), Literal(" "), Literal("de"), Literal(" "), Field(MONTH)];
  }

  /** " " first occurs in "enero de 2020" at 5. */
  lemma SpanishWritten3CutMonthSpace()
    ensures FindFirst("enero de 2020", " ") == Some(5)
    ensures "enero de 2020"[..5] == "enero" && "enero de 2020"[6..] == "de 2020"
  {
    NotAt("enero de 2020", " ", 0, 0);
    NotAt("enero de 2020", " ", 1, 0);
    NotAt("enero de 2020", " ", 2, 0);
    NotAt("enero de 2020", " ", 3, 0);
    NotAt("enero de 2020", " ", 4, 0);
    assert forall q :: 0 <= q < 5 ==> !OccursAt("enero de 2020", " ", q);
    CutAt("enero", " ", "de 2020");
    assert "enero" + " " + "de 2020" == "enero de 2020";
    FindFirstAt("enero de 2020", " ", 5);
  }

  lemma SpanishWritten3ThroughMonthSpace()
    ensures Walk([Field(DAY), Literal(" "), Literal("de"), Literal(" "), Field(MONTH), Literal(" ")], "3 de enero de 2020") == Progress([FieldToken(Some(DAY), "3"), LiteralToken(" "), FieldToken(Some(DAY), ""), LiteralToken("de"), FieldToken(Some(DAY), ""), LiteralToken(" "), FieldToken(Some(MONTH), "enero"), LiteralToken(" ")], "de 2020", Some(MONTH))
  {
    SpanishWritten3ThroughMonth();
    WalkSnoc([Field(DAY), Literal(" "), Literal("de"), Literal(" "), Field(MONTH)], Literal(" "), "3 de enero de 2020");
    assert [Field(DAY), Literal(" "), Literal("de"), Literal(" "), Field(MONTH)] + [Literal(" ")] == [Field(DAY), Literal(" "), Literal("de"), Literal(" "), Field(MONTH), Literal(" ")];
    SpanishWritten3CutMonthSpace();
    assert [FieldToken(Some(DAY), "3"), LiteralToken(" "), FieldToken(Some(DAY), ""), LiteralToken("de"), FieldToken(Some(DAY), ""), LiteralToken(" ")] + [FieldToken(Some(MONTH), "enero"), LiteralToken(" ")] == [FieldToken(Some(DAY), "3"), LiteralToken(" "), FieldToken(Some(DAY), ""), LiteralToken("de"), FieldToken(Some(DAY), ""), LiteralToken(" "), FieldToken(Some(MONTH), "enero"), LiteralToken(" ")];
  }

  lemma SpanishWritten3ThroughMonthSpaceDe()
    ensures Walk([Field(DAY), Literal(" "), Literal("de"), Literal(" "), Field(MONTH), Literal(" "), Literal("de")], "3 de enero de 2020") == Progress([FieldToken(Some(DAY), "3"), LiteralToken(" "), FieldToken(Some(DAY), ""), LiteralToken("de"), FieldToken(Some(DAY), ""), LiteralToken(" "), FieldToken(Some(MONTH), "enero"), LiteralToken(" "), FieldToken(Some(MONTH), ""), LiteralToken("de")], " 2020", Some(MONTH))
  {
    SpanishWritten3ThroughMonthSpace();
    WalkSnoc([Field(DAY), Literal(" "), Literal("de"), Literal(" "), Field(MONTH), Literal(" ")], Literal("de"), "3 de enero de 2020");
    assert [Field(DAY), Literal(" "), Literal("de"), Literal(" "), Field(MONTH), Literal(" ")] + [Literal("de")] == [Field(DAY), Literal(" "), Literal("de"), Literal(" "), Field(MONTH), Literal(" "), Literal("de")];
    assert FindFirst("de 2020", "de") == Some(0);
    assert "de 2020"[..0] == "" && "de 2020"[2..] == " 2020";
    assert [FieldToken(Some(DAY), "3"), LiteralToken(" "), FieldToken(Some(DAY), ""), LiteralToken("de"), FieldToken(Some(DAY), ""), LiteralToken(" "), FieldToken(Some(MONTH), "enero"), LiteralToken(" ")] + [FieldToken(Some(MONTH), ""), LiteralToken("de")] == [FieldToken(Some(DAY), "3"), LiteralToken(" "), FieldToken(Some(DAY), ""), LiteralToken("de"), FieldToken(Some(DAY), ""), LiteralToken(" "), FieldToken(Some(MONTH), "enero"), LiteralToken(" "), FieldToken(Some(MONTH), ""), LiteralToken("de")];
  }

  lemma SpanishWritten3ThroughMonthSpaceDeSpace()
    ensures Walk([Field(DAY), Literal(" "), Literal("de"), Literal(" "), Field(MONTH), Literal(" "), Literal("de"), Literal(" ")], "3 de enero de 2020") == Progress([FieldToken(Some(DAY), "3"), LiteralToken(" "), FieldToken(Some(DAY), ""), LiteralToken("de"), FieldToken(Some(DAY), ""), LiteralToken(" "), FieldToken(Some(MONTH), "enero"), LiteralToken(" "), FieldToken(Some(MONTH), ""), LiteralToken("de"), FieldToken(Some(MONTH), ""), LiteralToken(" ")], "2020", Some(MONTH))
  {
    SpanishWritten3ThroughMonthSpaceDe();
    WalkSnoc([Field(DAY), Literal(" "), Literal("de"), Literal(" "), Field(MONTH), Literal(" "), Literal("de")], Literal(" "), "3 de enero de 2020");
    assert [Field(DAY), Literal(" "), Literal("de"), Literal(" "), Field(MONTH), Literal(" "), Literal("de")] + [Literal(" ")] == [Field(DAY), Literal(" "), Literal("de"), Literal(" "), Field(MONTH), Literal(" "), Literal("de"), Literal(" ")];
    assert FindFirst(" 2020", " ") == Some(0);
    assert " 2020"[..0] == "" && " 2020"[1..] == "2020";
    assert [FieldToken(Some(DAY), "3"), LiteralToken(" "), FieldToken(Some(DAY), ""), LiteralToken("de"), FieldToken(Some(DAY), ""), LiteralToken(" "), FieldToken(Some(MONTH), "enero"), LiteralToken(" "), FieldToken(Some(MONTH), ""), LiteralToken("de")] + [FieldToken(Some(MONTH), ""), LiteralToken(" ")] == [FieldToken(Some(DAY), "3"), LiteralToken(" "), FieldToken(Some(DAY), ""), LiteralToken("de"), FieldToken(Some(DAY), ""), LiteralToken(" "), FieldToken(Some(MONTH), "enero"), LiteralToken(" "), FieldToken(Some(MONTH), ""), LiteralToken("de"), FieldToken(Some(MONTH), ""), LiteralToken(" ")];
  }

  lemma SpanishWritten3ThroughYear()
    ensures Walk([Field(DAY), Literal(" "), Literal("de"), Literal(" "), Field(MONTH), Literal(" "), Literal("de"), Literal(" "), Field(YEAR)], "3 de enero de 2020") == Progress([FieldToken(Some(DAY), "3"), LiteralToken(" "), FieldToken(Some(DAY), ""), LiteralToken("de"), FieldToken(Some(DAY), ""), LiteralToken(" "), FieldToken(Some(MONTH), "enero"), LiteralToken(" "), FieldToken(Some(MONTH), ""), LiteralToken("de"), FieldToken(Some(MONTH), ""), LiteralToken(" ")], "2020", Some(YEAR))
  {
    SpanishWritten3ThroughMonthSpaceDeSpace();
    WalkSnoc([Field(DAY), Literal(" "), Literal("de"), Literal(" "), Field(MONTH), Literal(" "), Literal("de"), Literal(" ")], Field(YEAR), "3 de enero de 2020");
    assert [Field(DAY), Literal(" "), Literal("de"), Literal(" "), Field(MONTH), Literal(" "), Literal("de"), Literal(" ")] + [Field(YEAR)] == [Field(DAY), Literal(" "), Literal("de"), Literal(" "), Field(MONTH), Literal(" "), Literal("de"), Literal(" "), Field(YEAR)];
  }

  const SpanishWritten3Tokens: seq<Token> := [FieldToken(Some(DAY), "3"), LiteralToken(" "), FieldToken(Some(DAY), ""), LiteralToken("de"), FieldToken(Some(DAY), ""), LiteralToken(" "), FieldToken(Some(MONTH), "enero"), LiteralToken(" "), FieldToken(Some(MONTH), ""), LiteralToken("de"), FieldToken(Some(MONTH), ""), LiteralToken(" "), FieldToken(Some(YEAR), "2020")]

  /** As written, the Spanish rendering of 5 January 2020. */
  lemma SpanishWritten5()
    ensures TokensOf(SpanishMask, "5 de enero de 2020") == [FieldToken(Some(DAY), "5"), LiteralToken(" "), FieldToken(Some(DAY), ""), LiteralToken("de"), FieldToken(Some(DAY), ""), LiteralToken(" "), FieldToken(Some(MONTH), "enero"), LiteralToken(" "), FieldToken(Some(MONTH), ""), LiteralToken("de"), FieldToken(Some(MONTH), ""), LiteralToken(" "), FieldToken(Some(YEAR), "2020")]
  {
    SpanishWritten5ThroughYear();
    assert SpanishMask == [Field(DAY), Literal(" "), Literal("de"), Literal(" "), Field(MONTH), Literal(" "), Literal("de"), Literal(" "), Field(YEAR)];
    assert [FieldToken(Some(DAY), "5"), LiteralToken(" "), FieldToken(Some(DAY), ""), LiteralToken("de"), FieldToken(Some(DAY), ""), LiteralToken(" "), FieldToken(Some(MONTH), "enero"), LiteralToken(" "), FieldToken(Some(MONTH), ""), LiteralToken("de"), FieldToken(Some(MONTH), ""), LiteralToken(" ")] + [FieldToken(Some(YEAR), "2020")] == [FieldToken(Some(DAY), "5"), LiteralToken(" "), FieldToken(Some(DAY), ""), LiteralToken("de"), FieldToken(Some(DAY), ""), LiteralToken(" "), FieldToken(Some(MONTH), "enero"), LiteralToken(" "), FieldToken(Some(MONTH), ""), LiteralToken("de"), FieldToken(Some(MONTH), ""), LiteralToken(" "), FieldToken(Some(YEAR), "2020")];
  }

  /** " " first occurs in "5 de enero de 2020" at 1. */
  lemma SpanishWritten5CutDaySpace()
    ensures FindFirst("5 de enero de 2020", " ") == Some(1)
    ensures "5 de enero de 2020"[..1] == "5" && "5 de enero de 2020"[2..] == "de enero de 2020"
  {
    NotAt("5 de enero de 2020", " ", 0, 0);
    assert forall q :: 0 <= q < 1 ==> !OccursAt("5 de enero de 2020", " ", q);
    CutAt("5", " ", "de enero de 2020");
    assert "5" + " " + "de enero de 2020" == "5 de enero de 2020";
    FindFirstAt("5 de enero de 2020", " ", 1);
  }

  lemma SpanishWritten5ThroughDaySpace()
    ensures Walk([Field(DAY), Literal(" ")], "5 de enero de 2020") == Progress([FieldToken(Some(DAY), "5"), LiteralToken(" ")], "de enero de 2020", Some(DAY))
  {
    assert Walk([Field(DAY)], "5 de enero de 2020") == Progress([], "5 de enero de 2020", Some(DAY));
    WalkSnoc([Field(DAY)], Literal(" "), "5 de enero de 2020");
    assert [Field(DAY)] + [Literal(" ")] == [Field(DAY), Literal(" ")];
    SpanishWritten5CutDaySpace();
    assert [] + [FieldToken(Some(DAY), "5"), LiteralToken(" ")] == [FieldToken(Some(DAY), "5"), LiteralToken(" ")];
  }

  lemma SpanishWritten5ThroughDaySpaceDe()
    ensures Walk([Field(DAY), Literal(" "), Literal("de")], "5 de enero de 2020") == Progress([FieldToken(Some(DAY), "5"), LiteralToken(" "), FieldToken(Some(DAY), ""), LiteralToken("de")], " enero de 2020", Some(DAY))
  {
    SpanishWritten5ThroughDaySpace();
    WalkSnoc([Field(DAY), Literal(" ")], Literal("de"), "5 de enero de 2020");
    assert [Field(DAY), Literal(" ")] + [Literal("de")] == [Field(DAY), Literal(" "), Literal("de")];
    assert FindFirst("de enero de 2020", "de") == Some(0);
    assert "de enero de 2020"[..0] == "" && "de enero de 2020"[2..] == " enero de 2020";
    assert [FieldToken(Some(DAY), "5"), LiteralToken(" ")] + [FieldToken(Some(DAY), ""), LiteralToken("de")] == [FieldToken(Some(DAY), "5"), LiteralToken(" "), FieldToken(Some(DAY), ""), LiteralToken("de")];
  }

  lemma SpanishWritten5ThroughDaySpaceDeSpace()
    ensures Walk([Field(DAY), Literal(" "), Literal("de"), Literal(" ")], "5 de enero de 2020") == Progress([FieldToken(Some(DAY), "5"), LiteralToken(" "), FieldToken(Some(DAY), ""), LiteralToken("de"), FieldToken(Some(DAY), ""), LiteralToken(" ")], "enero de 2020", Some(DAY))
  {
    SpanishWritten5ThroughDaySpaceDe();
    WalkSnoc([Field(DAY), Literal(" "), Literal("de")], Literal(" "), "5 de enero de 2020");
    assert [Field(DAY), Literal(" "), Literal("de")] + [Literal(" ")] == [Field(DAY), Literal(" "), Literal("de"), Literal(" ")];
    assert FindFirst(" enero de 2020", " ") == Some(0);
    assert " enero de 2020"[..0] == "" && " enero de 2020"[1..] == "enero de 2020";
    assert [FieldToken(Some(DAY), "5"), LiteralToken(" "), FieldToken(Some(DAY), ""), LiteralToken("de")] + [FieldToken(Some(DAY), ""), LiteralToken(" ")] == [FieldToken(Some(DAY), "5"), LiteralToken(" "), FieldToken(Some(DAY), ""), LiteralToken("de"), FieldToken(Some(DAY), ""), LiteralToken(" ")];
  }

  lemma SpanishWritten5ThroughMonth()
    ensures Walk([Field(DAY), Literal(" "), Literal("de"), Literal(" "), Field(MONTH)], "5 de enero de 2020") == Progress([FieldToken(Some(DAY), "5"), LiteralToken(" "), FieldToken(Some(DAY), ""), LiteralToken("de"), FieldToken(Some(DAY), ""), LiteralToken(" ")], "enero de 2020", Some(MONTH))
  {
    SpanishWritten5ThroughDaySpaceDeSpace();
    WalkSnoc([Field(DAY), Literal(" "), Literal("de"), Literal(" ")], Field(MONTH), "5 de enero de 2020");
    assert [Field(DAY), Literal(" "), Literal("de"), Literal(" ")] + [Field(MONTH)] == [Field(DAY), Literal(" "), Literal("de"), Literal(" "), Field(MONTH)];
  }

  lemma SpanishWritten5ThroughMonthSpace()
    ensures Walk([Field(DAY), Literal(" "), Literal("de"), Literal(" "), Field(MONTH), Literal(" ")], "5 de enero de 2020") == Progress([FieldToken(Some(DAY), "5"), LiteralToken(" "), FieldToken(Some(DAY), ""), LiteralToken("de"), FieldToken(Some(DAY), ""), LiteralToken(" "), FieldToken(Some(MONTH), "enero"), LiteralToken(" ")], "de 2020", Some(MONTH))
  {
    SpanishWritten5ThroughMonth();
    WalkSnoc([Field(DAY), Literal(" "), Literal("de"), Literal(" "), Field(MONTH)], Literal(" "), "5 de enero de 2020");
    assert [Field(DAY), Literal(" "), Literal("de"), Literal(" "), Field(MONTH)] + [Literal(" ")] == [Field(DAY), Literal(" "), Literal("de"), Literal(" "), Field(MONTH), Literal(" ")];
    SpanishWritten3CutMonthSpace();
    assert [FieldToken(Some(DAY), "5"), LiteralToken(" "), FieldToken(Some(DAY), ""), LiteralToken("de"), FieldToken(Some(DAY), ""), LiteralToken(" ")] + [FieldToken(Some(MONTH), "enero"), LiteralToken(" ")] == [FieldToken(Some(DAY), "5"), LiteralToken(" "), FieldToken(Some(DAY), ""), LiteralToken("de"), FieldToken(Some(DAY), ""), LiteralToken(" "), FieldToken(Some(MONTH), "enero"), LiteralToken(" ")];
  }

  lemma SpanishWritten5ThroughMonthSpaceDe()
    ensures Walk([Field(DAY), Literal(" "), Literal("de"), Literal(" "), Field(MONTH), Literal(" "), Literal("de")], "5 de enero de 2020") == Progress([FieldToken(Some(DAY), "5"), LiteralToken(" "), FieldToken(Some(DAY), ""), LiteralToken("de"), FieldToken(Some(DAY), ""), LiteralToken(" "), FieldToken(Some(MONTH), "enero"), LiteralToken(" "), FieldToken(Some(MONTH), ""), LiteralToken("de")], " 2020", Some(MONTH))
  {
    SpanishWritten5ThroughMonthSpace();
    WalkSnoc([Field(DAY), Literal(" "), Literal("de"), Literal(" "), Field(MONTH), Literal(" ")], Literal("de"), "5 de enero de 2020");
    assert [Field(DAY), Literal(" "), Literal("de"), Literal(" "), Field(MONTH), Literal(" ")] + [Literal("de")] == [Field(DAY), Literal(" "), Literal("de"), Literal(" "), Field(MONTH), Literal(" "), Literal("de")];
    assert FindFirst("de 2020", "de") == Some(0);
    assert "de 2020"[..0] == "" && "de 2020"[2..] == " 2020";
    assert [FieldToken(Some(DAY), "5"), LiteralToken(" "), FieldToken(Some(DAY), ""), LiteralToken("de"), FieldToken(Some(DAY), ""), LiteralToken(" "), FieldToken(Some(MONTH), "enero"), LiteralToken(" ")] + [FieldToken(Some(MONTH), ""), LiteralToken("de")] == [FieldToken(Some(DAY), "5"), LiteralToken(" "), FieldToken(Some(DAY), ""), LiteralToken("de"), FieldToken(Some(DAY), ""), LiteralToken(" "), FieldToken(Some(MONTH), "enero"), LiteralToken(" "), FieldToken(Some(MONTH), ""), LiteralToken("de")];
  }

  lemma SpanishWritten5ThroughMonthSpaceDeSpace()
    ensures Walk([Field(DAY), Literal(" "), Literal("de"), Literal(" "), Field(MONTH), Literal(" "), Literal("de"), Literal(" ")], "5 de enero de 2020") == Progress([FieldToken(Some(DAY), "5"), LiteralToken(" "), FieldToken(Some(DAY), ""), LiteralToken("de"), FieldToken(Some(DAY), ""), LiteralToken(" "), FieldToken(Some(MONTH), "enero"), LiteralToken(" "), FieldToken(Some(MONTH), ""), LiteralToken("de"), FieldToken(Some(MONTH), ""), LiteralToken(" ")], "2020", Some(MONTH))
  {
    SpanishWritten5ThroughMonthSpaceDe();
    WalkSnoc([Field(DAY), Literal(" "), Literal("de"), Literal(" "), Field(MONTH), Literal(" "), Literal("de")], Literal(" "), "5 de enero de 2020");
    assert [Field(DAY), Literal(" "), Literal("de"), Literal(" "), Field(MONTH), Literal(" "), Literal("de")] + [Literal(" ")] == [Field(DAY), Literal(" "), Literal("de"), Literal(" "), Field(MONTH), Literal(" "), Literal("de"), Literal(" ")];
    assert FindFirst(" 2020", " ") == Some(0);
    assert " 2020"[..0] == "" && " 2020"[1..] == "2020";
    assert [FieldToken(Some(DAY), "5"), LiteralToken(" "), FieldToken(Some(DAY), ""), LiteralToken("de"), FieldToken(Some(DAY), ""), LiteralToken(" "), FieldToken(Some(MONTH), "enero"), LiteralToken(" "), FieldToken(Some(MONTH), ""), LiteralToken("de")] + [FieldToken(Some(MONTH), ""), LiteralToken(" ")] == [FieldToken(Some(DAY), "5"), LiteralToken(" "), FieldToken(Some(DAY), ""), LiteralToken("de"), FieldToken(Some(DAY), ""), LiteralToken(" "), FieldToken(Some(MONTH), "enero"), LiteralToken(" "), FieldToken(Some(MONTH), ""), LiteralToken("de"), FieldToken(Some(MONTH), ""), LiteralToken(" ")];
  }

  lemma SpanishWritten5ThroughYear()
    ensures Walk([Field(DAY), Literal(" "), Literal("de"), Literal(" "), Field(MONTH), Literal(" "), Literal("de"), Literal(" "), Field(YEAR)], "5 de enero de 2020") == Progress([FieldToken(Some(DAY), "5"), LiteralToken(" "), FieldToken(Some(DAY), ""), LiteralToken("de"), FieldToken(Some(DAY), ""), LiteralToken(" "), FieldToken(Some(MONTH), "enero"), LiteralToken(" "), FieldToken(Some(MONTH), ""), LiteralToken("de"), FieldToken(Some(MONTH), ""), LiteralToken(" ")], "2020", Some(YEAR))
  {
    SpanishWritten5ThroughMonthSpaceDeSpace();
    WalkSnoc([Field(DAY), Literal(" "), Literal("de"), Literal(" "), Field(MONTH), Literal(" "), Literal("de"), Literal(" ")], Field(YEAR), "5 de enero de 2020");
    assert [Field(DAY), Literal(" "), Literal("de"), Literal(" "), Field(MONTH), Literal(" "), Literal("de"), Literal(" ")] + [Field(YEAR)] == [Field(DAY), Literal(" "), Literal("de"), Literal(" "), Field(MONTH), Literal(" "), Literal("de"), Literal(" "), Field(YEAR)];
  }

  const SpanishWritten5Tokens: seq<Token> := [FieldToken(Some(DAY), "5"), LiteralToken(" "), FieldToken(Some(DAY), ""), LiteralToken("de"), FieldToken(Some(DAY), ""), LiteralToken(" "), FieldToken(Some(MONTH), "enero"), LiteralToken(" "), FieldToken(Some(MONTH), ""), LiteralToken("de"), FieldToken(Some(MONTH), ""), LiteralToken(" "), FieldToken(Some(YEAR), "2020")]

  /** As written under PHP 8, one day rendered as a range is not collapsed, and loses its month and its year. */
  lemma SpanishWrittenSameDay()
    ensures RangeText(SpanishMask, Collapses(SECOND, WrittenPrecision(Int(0), SpanishMask)), SECOND, SpanishWritten3Tokens, SpanishWritten3Tokens, EnDash) == "3 de  de \U{2013}"
  {
    assert LeftEnd(SpanishMask, SECOND) == 9 && Pieces(SpanishMask, SpanishWritten3Tokens, 9) == "3 de  de ";
    assert SpanishMask[2].Literal? && HighText(SpanishMask[2].text);
    HighLiteralNeverCollapses(Int(0), SpanishMask, SECOND);
    assert RightStop(SpanishWritten3Tokens, SECOND, 8, 8) == 7;
    assert Contents(SpanishWritten3Tokens, 8, 8) == "";
    assert Contents(SpanishWritten3Tokens, 8, 8) == "";
    assert Contents(SpanishWritten3Tokens, 8, 9) == "";
    SplitRangeTextAt(SpanishMask, Collapses(SECOND, WrittenPrecision(Int(0), SpanishMask)), SECOND, SpanishWritten3Tokens, SpanishWritten3Tokens, EnDash, 9, 8, 7);
    assert RangeText(SpanishMask, Collapses(SECOND, WrittenPrecision(Int(0), SpanishMask)), SECOND, SpanishWritten3Tokens, SpanishWritten3Tokens, EnDash) == "3 de  de " + "" + EnDash + "" + "";
    assert "3 de  de " + "" + EnDash + "" + "" == "3 de  de \U{2013}";
  }

  /** As written, two days of one month lose the year and the day of the end ends up beside "de". */
  lemma SpanishWrittenDaysOfOneMonth()
    ensures RangeText(SpanishMask, Collapses(MONTH, WrittenPrecision(Int(0), SpanishMask)), MONTH, SpanishWritten3Tokens, SpanishWritten5Tokens, EnDash) == "3 de\U{2013}5 de enero "
  {
    SpanishWrittenDaysOfOneMonthLeft();
    assert SpanishMask[2].Literal? && HighText(SpanishMask[2].text);
    HighLiteralNeverCollapses(Int(0), SpanishMask, MONTH);
    SpanishWrittenDaysOfOneMonthRightStop();
    SpanishWrittenDaysOfOneMonthStartMiddle();
    SpanishWrittenDaysOfOneMonthEndMiddle();
    SpanishWrittenDaysOfOneMonthRightPart();
    SplitRangeTextAt(SpanishMask, Collapses(MONTH, WrittenPrecision(Int(0), SpanishMask)), MONTH, SpanishWritten3Tokens, SpanishWritten5Tokens, EnDash, 0, 0, 4);
    assert RangeText(SpanishMask, Collapses(MONTH, WrittenPrecision(Int(0), SpanishMask)), MONTH, SpanishWritten3Tokens, SpanishWritten5Tokens, EnDash) == "" + "3 de" + EnDash + "5 de" + " enero ";
    SpanishWrittenDaysOfOneMonthText();
  }

  lemma SpanishWrittenDaysOfOneMonthLeft()
    ensures LeftEnd(SpanishMask, MONTH) == 0 && Pieces(SpanishMask, SpanishWritten3Tokens, 0) == ""
  {
  }

  lemma SpanishWrittenDaysOfOneMonthRightStop()
    ensures RightStop(SpanishWritten5Tokens, MONTH, 0, 8) == 4
  {
  }

  lemma SpanishWrittenDaysOfOneMonthStartMiddle()
    ensures Contents(SpanishWritten3Tokens, 0, 5) == "3 de"
  {
  }

  lemma SpanishWrittenDaysOfOneMonthEndMiddle()
    ensures Contents(SpanishWritten5Tokens, 0, 5) == "5 de"
  {
  }

  lemma SpanishWrittenDaysOfOneMonthRightPart()
    ensures Contents(SpanishWritten5Tokens, 5, 9) == " enero "
  {
  }

  lemma SpanishWrittenDaysOfOneMonthText()
    ensures "" + "3 de" + EnDash + "5 de" + " enero " == "3 de\U{2013}5 de enero "
  {
  }

  /** Corrected, the Spanish rendering of 3 January 2020 gives one token per segment. */
  lemma SpanishAligned3()
    ensures AlignedTokensOf(SpanishMask, "3 de enero de 2020") == [FieldToken(Some(DAY), "3"), LiteralToken(" "), LiteralToken("de"), LiteralToken(" "), FieldToken(Some(MONTH), "enero"), LiteralToken(" "), LiteralToken("de"), LiteralToken(" "), FieldToken(Some(YEAR), "2020")]
  {
    SpanishAligned3ThroughYear();
    assert SpanishMask == [Field(DAY), Literal(" "), Literal("de"), Literal(" "), Field(MONTH), Literal(" "), Literal("de"), Literal(" "), Field(YEAR)];
    assert [FieldToken(Some(DAY), "3"), LiteralToken(" "), LiteralToken("de"), LiteralToken(" "), FieldToken(Some(MONTH), "enero"), LiteralToken(" "), LiteralToken("de"), LiteralToken(" ")] + [FieldToken(Some(YEAR), "2020")] == [FieldToken(Some(DAY), "3"), LiteralToken(" "), LiteralToken("de"), LiteralToken(" "), FieldToken(Some(MONTH), "enero"), LiteralToken(" "), LiteralToken("de"), LiteralToken(" "), FieldToken(Some(YEAR), "2020")];
  }

  lemma SpanishAligned3ThroughDaySpace()
    ensures WalkAligned([Field(DAY), Literal(" ")], "3 de enero de 2020") == Progress([FieldToken(Some(DAY), "3"), LiteralToken(" ")], "de enero de 2020", None)
  {
    assert WalkAligned([Field(DAY)], "3 de enero de 2020") == Progress([], "3 de enero de 2020", Some(DAY));
    WalkAlignedSnoc([Field(DAY)], Literal(" "), "3 de enero de 2020");
    assert [Field(DAY)] + [Literal(" ")] == [Field(DAY), Literal(" ")];
    SpanishWritten3CutDaySpace();
    assert [] + [FieldToken(Some(DAY), "3"), LiteralToken(" ")] == [FieldToken(Some(DAY), "3"), LiteralToken(" ")];
  }

  lemma SpanishAligned3ThroughDaySpaceDe()
    ensures WalkAligned([Field(DAY), Literal(" "), Literal("de")], "3 de enero de 2020") == Progress([FieldToken(Some(DAY), "3"), LiteralToken(" "), LiteralToken("de")], " enero de 2020", None)
  {
    SpanishAligned3ThroughDaySpace();
    WalkAlignedSnoc([Field(DAY), Literal(" ")], Literal("de"), "3 de enero de 2020");
    assert [Field(DAY), Literal(" ")] + [Literal("de")] == [Field(DAY), Literal(" "), Literal("de")];
    assert FindFirst("de enero de 2020", "de") == Some(0);
    assert "de enero de 2020"[..0] == "" && "de enero de 2020"[2..] == " enero de 2020";
    assert [FieldToken(Some(DAY), "3"), LiteralToken(" ")] + [LiteralToken("de")] == [FieldToken(Some(DAY), "3"), LiteralToken(" "), LiteralToken("de")];
  }

  lemma SpanishAligned3ThroughDaySpaceDeSpace()
    ensures WalkAligned([Field(DAY), Literal(" "), Literal("de"), Literal(" ")], "3 de enero de 2020") == Progress([FieldToken(Some(DAY), "3"), LiteralToken(" "), LiteralToken("de"), LiteralToken(" ")], "enero de 2020", None)
  {
    SpanishAligned3ThroughDaySpaceDe();
    WalkAlignedSnoc([Field(DAY), Literal(" "), Literal("de")], Literal(" "), "3 de enero de 2020");
    assert [Field(DAY), Literal(" "), Literal("de")] + [Literal(" ")] == [Field(DAY), Literal(" "), Literal("de"), Literal(" ")];
    assert FindFirst(" enero de 2020", " ") == Some(0);
    assert " enero de 2020"[..0] == "" && " enero de 2020"[1..] == "enero de 2020";
    assert [FieldToken(Some(DAY), "3"), LiteralToken(" "), LiteralToken("de")] + [LiteralToken(" ")] == [FieldToken(Some(DAY), "3"), LiteralToken(" "), LiteralToken("de"), LiteralToken(" ")];
  }

  lemma SpanishAligned3ThroughMonth()
    ensures WalkAligned([Field(DAY), Literal(" "), Literal("de"), Literal(" "), Field(MONTH)], "3 de enero de 2020") == Progress([FieldToken(Some(DAY), "3"), LiteralToken(" "), LiteralToken("de"), LiteralToken(" ")], "enero de 2020", Some(MONTH))
  {
    SpanishAligned3ThroughDaySpaceDeSpace();
    WalkAlignedSnoc([Field(DAY), Literal(" "), Literal("de"), Literal(" ")], Field(MONTH), "3 de enero de 2020");
    assert [Field(DAY), Literal(" "), Literal("de"), Literal(" ")] + [Field(MONTH)] == [Field(DAY), Literal(" "), Literal("de"), Literal(" "), Field(MONTH)];
  }

  lemma SpanishAligned3ThroughMonthSpace()
    ensures WalkAligned([Field(DAY), Literal(" "), Literal("de"), Literal(" "), Field(MONTH), Literal(" ")], "3 de enero de 2020") == Progress([FieldToken(Some(DAY), "3"), LiteralToken(" "), LiteralToken("de"), LiteralToken(" "), FieldToken(Some(MONTH), "enero"), LiteralToken(" ")], "de 2020", None)
  {
    SpanishAligned3ThroughMonth();
    WalkAlignedSnoc([Field(DAY), Literal(" "), Literal("de"), Literal(" "), Field(MONTH)], Literal(" "), "3 de enero de 2020");
    assert [Field(DAY), Literal(" "), Literal("de"), Literal(" "), Field(MONTH)] + [Literal(" ")] == [Field(DAY), Literal(" "), Literal("de"), Literal(" "), Field(MONTH), Literal(" ")];
    SpanishWritten3CutMonthSpace();
    assert [FieldToken(Some(DAY), "3"), LiteralToken(" "), LiteralToken("de"), LiteralToken(" ")] + [FieldToken(Some(MONTH), "enero"), LiteralToken(" ")] == [FieldToken(Some(DAY), "3"), LiteralToken(" "), LiteralToken("de"), LiteralToken(" "), FieldToken(Some(MONTH), "enero"), LiteralToken(" ")];
  }

  lemma SpanishAligned3ThroughMonthSpaceDe()
    ensures WalkAligned([Field(DAY), Literal(" "), Literal("de"), Literal(" "), Field(MONTH), Literal(" "), Literal("de")], "3 de enero de 2020") == Progress([FieldToken(Some(DAY), "3"), LiteralToken(" "), LiteralToken("de"), LiteralToken(" "), FieldToken(Some(MONTH), "enero"), LiteralToken(" "), LiteralToken("de")], " 2020", None)
  {
    SpanishAligned3ThroughMonthSpace();
    WalkAlignedSnoc([Field(DAY), Literal(" "), Literal("de"), Literal(" "), Field(MONTH), Literal(" ")], Literal("de"), "3 de enero de 2020");
    assert [Field(DAY), Literal(" "), Literal("de"), Literal(" "), Field(MONTH), Literal(" ")] + [Literal("de")] == [Field(DAY), Literal(" "), Literal("de"), Literal(" "), Field(MONTH), Literal(" "), Literal("de")];
    assert FindFirst("de 2020", "de") == Some(0);
    assert "de 2020"[..0] == "" && "de 2020"[2..] == " 2020";
    assert [FieldToken(Some(DAY), "3"), LiteralToken(" "), LiteralToken("de"), LiteralToken(" "), FieldToken(Some(MONTH), "enero"), LiteralToken(" ")] + [LiteralToken("de")] == [FieldToken(Some(DAY), "3"), LiteralToken(" "), LiteralToken("de"), LiteralToken(" "), FieldToken(Some(MONTH), "enero"), LiteralToken(" "), LiteralToken("de")];
  }

  lemma SpanishAligned3ThroughMonthSpaceDeSpace()
    ensures WalkAligned([Field(DAY), Literal(" "), Literal("de"), Literal(" "), Field(MONTH), Literal(" "), Literal("de"), Literal(" ")], "3 de enero de 2020") == Progress([FieldToken(Some(DAY), "3"), LiteralToken(" "), LiteralToken("de"), LiteralToken(" "), FieldToken(Some(MONTH), "enero"), LiteralToken(" "), LiteralToken("de"), LiteralToken(" ")], "2020", None)
  {
    SpanishAligned3ThroughMonthSpaceDe();
    WalkAlignedSnoc([Field(DAY), Literal(" "), Literal("de"), Literal(" "), Field(MONTH), Literal(" "), Literal("de")], Literal(" "), "3 de enero de 2020");
    assert [Field(DAY), Literal(" "), Literal("de"), Literal(" "), Field(MONTH), Literal(" "), Literal("de")] + [Literal(" ")] == [Field(DAY), Literal(" "), Literal("de"), Literal(" "), Field(MONTH), Literal(" "), Literal("de"), Literal(" ")];
    assert FindFirst(" 2020", " ") == Some(0);
    assert " 2020"[..0] == "" && " 2020"[1..] == "2020";
    assert [FieldToken(Some(DAY), "3"), LiteralToken(" "), LiteralToken("de"), LiteralToken(" "), FieldToken(Some(MONTH), "enero"), LiteralToken(" "), LiteralToken("de")] + [LiteralToken(" ")] == [FieldToken(Some(DAY), "3"), LiteralToken(" "), LiteralToken("de"), LiteralToken(" "), FieldToken(Some(MONTH), "enero"), LiteralToken(" "), LiteralToken("de"), LiteralToken(" ")];
  }

  lemma SpanishAligned3ThroughYear()
    ensures WalkAligned([Field(DAY), Literal(" "), Literal("de"), Literal(" "), Field(MONTH), Literal(" "), Literal("de"), Literal(" "), Field(YEAR)], "3 de enero de 2020") == Progress([FieldToken(Some(DAY), "3"), LiteralToken(" "), LiteralToken("de"), LiteralToken(" "), FieldToken(Some(MONTH), "enero"), LiteralToken(" "), LiteralToken("de"), LiteralToken(" ")], "2020", Some(YEAR))
  {
    SpanishAligned3ThroughMonthSpaceDeSpace();
    WalkAlignedSnoc([Field(DAY), Literal(" "), Literal("de"), Literal(" "), Field(MONTH), Literal(" "), Literal("de"), Literal(" ")], Field(YEAR), "3 de enero de 2020");
    assert [Field(DAY), Literal(" "), Literal("de"), Literal(" "), Field(MONTH), Literal(" "), Literal("de"), Literal(" ")] + [Field(YEAR)] == [Field(DAY), Literal(" "), Literal("de"), Literal(" "), Field(MONTH), Literal(" "), Literal("de"), Literal(" "), Field(YEAR)];
  }

  const SpanishAligned3Tokens: seq<Token> := [FieldToken(Some(DAY), "3"), LiteralToken(" "), LiteralToken("de"), LiteralToken(" "), FieldToken(Some(MONTH), "enero"), LiteralToken(" "), LiteralToken("de"), LiteralToken(" "), FieldToken(Some(YEAR), "2020")]

  /** Corrected, the Spanish rendering of 5 January 2020. */
  lemma SpanishAligned5()
    ensures AlignedTokensOf(SpanishMask, "5 de enero de 2020") == [FieldToken(Some(DAY), "5"), LiteralToken(" "), LiteralToken("de"), LiteralToken(" "), FieldToken(Some(MONTH), "enero"), LiteralToken(" "), LiteralToken("de"), LiteralToken(" "), FieldToken(Some(YEAR), "2020")]
  {
    SpanishAligned5ThroughYear();
    assert SpanishMask == [Field(DAY), Literal(" "), Literal("de"), Literal(" "), Field(MONTH), Literal(" "), Literal("de"), Literal(" "), Field(YEAR)];
    assert [FieldToken(Some(DAY), "5"), LiteralToken(" "), LiteralToken("de"), LiteralToken(" "), FieldToken(Some(MONTH), "enero"), LiteralToken(" "), LiteralToken("de"), LiteralToken(" ")] + [FieldToken(Some(YEAR), "2020")] == [FieldToken(Some(DAY), "5"), LiteralToken(" "), LiteralToken("de"), LiteralToken(" "), FieldToken(Some(MONTH), "enero"), LiteralToken(" "), LiteralToken("de"), LiteralToken(" "), FieldToken(Some(YEAR), "2020")];
  }

  lemma SpanishAligned5ThroughDaySpace()
    ensures WalkAligned([Field(DAY), Literal(" ")], "5 de enero de 2020") == Progress([FieldToken(Some(DAY), "5"), LiteralToken(" ")], "de enero de 2020", None)
  {
    assert WalkAligned([Field(DAY)], "5 de enero de 2020") == Progress([], "5 de enero de 2020", Some(DAY));
    WalkAlignedSnoc([Field(DAY)], Literal(" "), "5 de enero de 2020");
    assert [Field(DAY)] + [Literal(" ")] == [Field(DAY), Literal(" ")];
    SpanishWritten5CutDaySpace();
    assert [] + [FieldToken(Some(DAY), "5"), LiteralToken(" ")] == [FieldToken(Some(DAY), "5"), LiteralToken(" ")];
  }

  lemma SpanishAligned5ThroughDaySpaceDe()
    ensures WalkAligned([Field(DAY), Literal(" "), Literal("de")], "5 de enero de 2020") == Progress([FieldToken(Some(DAY), "5"), LiteralToken(" "), LiteralToken("de")], " enero de 2020", None)
  {
    SpanishAligned5ThroughDaySpace();
    WalkAlignedSnoc([Field(DAY), Literal(" ")], Literal("de"), "5 de enero de 2020");
    assert [Field(DAY), Literal(" ")] + [Literal("de")] == [Field(DAY), Literal(" "), Literal("de")];
    assert FindFirst("de enero de 2020", "de") == Some(0);
    assert "de enero de 2020"[..0] == "" && "de enero de 2020"[2..] == " enero de 2020";
    assert [FieldToken(Some(DAY), "5"), LiteralToken(" ")] + [LiteralToken("de")] == [FieldToken(Some(DAY), "5"), LiteralToken(" "), LiteralToken("de")];
  }

  lemma SpanishAligned5ThroughDaySpaceDeSpace()
    ensures WalkAligned([Field(DAY), Literal(" "), Literal("de"), Literal(" ")], "5 de enero de 2020") == Progress([FieldToken(Some(DAY), "5"), LiteralToken(" "), LiteralToken("de"), LiteralToken(" ")], "enero de 2020", None)
  {
    SpanishAligned5ThroughDaySpaceDe();
    WalkAlignedSnoc([Field(DAY), Literal(" "), Literal("de")], Literal(" "), "5 de enero de 2020");
    assert [Field(DAY), Literal(" "), Literal("de")] + [Literal(" ")] == [Field(DAY), Literal(" "), Literal("de"), Literal(" ")];
    assert FindFirst(" enero de 2020", " ") == Some(0);
    assert " enero de 2020"[..0] == "" && " enero de 2020"[1..] == "enero de 2020";
    assert [FieldToken(Some(DAY), "5"), LiteralToken(" "), LiteralToken("de")] + [LiteralToken(" ")] == [FieldToken(Some(DAY), "5"), LiteralToken(" "), LiteralToken("de"), LiteralToken(" ")];
  }

  lemma SpanishAligned5ThroughMonth()
    ensures WalkAligned([Field(DAY), Literal(" "), Literal("de"), Literal(" "), Field(MONTH)], "5 de enero de 2020") == Progress([FieldToken(Some(DAY), "5"), LiteralToken(" "), LiteralToken("de"), LiteralToken(" ")], "enero de 2020", Some(MONTH))
  {
    SpanishAligned5ThroughDaySpaceDeSpace();
    WalkAlignedSnoc([Field(DAY), Literal(" "), Literal("de"), Literal(" ")], Field(MONTH), "5 de enero de 2020");
    assert [Field(DAY), Literal(" "), Literal("de"), Literal(" ")] + [Field(MONTH)] == [Field(DAY), Literal(" "), Literal("de"), Literal(" "), Field(MONTH)];
  }

  lemma SpanishAligned5ThroughMonthSpace()
    ensures WalkAligned([Field(DAY), Literal(" "), Literal("de"), Literal(" "), Field(MONTH), Literal(" ")], "5 de enero de 2020") == Progress([FieldToken(Some(DAY), "5"), LiteralToken(" "), LiteralToken("de"), LiteralToken(" "), FieldToken(Some(MONTH), "enero"), LiteralToken(" ")], "de 2020", None)
  {
    SpanishAligned5ThroughMonth();
    WalkAlignedSnoc([Field(DAY), Literal(" "), Literal("de"), Literal(" "), Field(MONTH)], Literal(" "), "5 de enero de 2020");
    assert [Field(DAY), Literal(" "), Literal("de"), Literal(" "), Field(MONTH)] + [Literal(" ")] == [Field(DAY), Literal(" "), Literal("de"), Literal(" "), Field(MONTH), Literal(" ")];
    SpanishWritten3CutMonthSpace();
    assert [FieldToken(Some(DAY), "5"), LiteralToken(" "), LiteralToken("de"), LiteralToken(" ")] + [FieldToken(Some(MONTH), "enero"), LiteralToken(" ")] == [FieldToken(Some(DAY), "5"), LiteralToken(" "), LiteralToken("de"), LiteralToken(" "), FieldToken(Some(MONTH), "enero"), LiteralToken(" ")];
  }

  lemma SpanishAligned5ThroughMonthSpaceDe()
    ensures WalkAligned([Field(DAY), Literal(" "), Literal("de"), Literal(" "), Field(MONTH), Literal(" "), Literal("de")], "5 de enero de 2020") == Progress([FieldToken(Some(DAY), "5"), LiteralToken(" "), LiteralToken("de"), LiteralToken(" "), FieldToken(Some(MONTH), "enero"), LiteralToken(" "), LiteralToken("de")], " 2020", None)
  {
    SpanishAligned5ThroughMonthSpace();
    WalkAlignedSnoc([Field(DAY), Literal(" "), Literal("de"), Literal(" "), Field(MONTH), Literal(" ")], Literal("de"), "5 de enero de 2020");
    assert [Field(DAY), Literal(" "), Literal("de"), Literal(" "), Field(MONTH), Literal(" ")] + [Literal("de")] == [Field(DAY), Literal(" "), Literal("de"), Literal(" "), Field(MONTH), Literal(" "), Literal("de")];
    assert FindFirst("de 2020", "de") == Some(0);
    assert "de 2020"[..0] == "" && "de 2020"[2..] == " 2020";
    assert [FieldToken(Some(DAY), "5"), LiteralToken(" "), LiteralToken("de"), LiteralToken(" "), FieldToken(Some(MONTH), "enero"), LiteralToken(" ")] + [LiteralToken("de")] == [FieldToken(Some(DAY), "5"), LiteralToken(" "), LiteralToken("de"), LiteralToken(" "), FieldToken(Some(MONTH), "enero"), LiteralToken(" "), LiteralToken("de")];
  }

  lemma SpanishAligned5ThroughMonthSpaceDeSpace()
    ensures WalkAligned([Field(DAY), Literal(" "), Literal("de"), Literal(" "), Field(MONTH), Literal(" "), Literal("de"), Literal(" ")], "5 de enero de 2020") == Progress([FieldToken(Some(DAY), "5"), LiteralToken(" "), LiteralToken("de"), LiteralToken(" "), FieldToken(Some(MONTH), "enero"), LiteralToken(" "), LiteralToken("de"), LiteralToken(" ")], "2020", None)
  {
    SpanishAligned5ThroughMonthSpaceDe();
    WalkAlignedSnoc([Field(DAY), Literal(" "), Literal("de"), Literal(" "), Field(MONTH), Literal(" "), Literal("de")], Literal(" "), "5 de enero de 2020");
    assert [Field(DAY), Literal(" "), Literal("de"), Literal(" "), Field(MONTH), Literal(" "), Literal("de")] + [Literal(" ")] == [Field(DAY), Literal(" "), Literal("de"), Literal(" "), Field(MONTH), Literal(" "), Literal("de"), Literal(" ")];
    assert FindFirst(" 2020", " ") == Some(0);
    assert " 2020"[..0] == "" && " 2020"[1..] == "2020";
    assert [FieldToken(Some(DAY), "5"), LiteralToken(" "), LiteralToken("de"), LiteralToken(" "), FieldToken(Some(MONTH), "enero"), LiteralToken(" "), LiteralToken("de")] + [LiteralToken(" ")] == [FieldToken(Some(DAY), "5"), LiteralToken(" "), LiteralToken("de"), LiteralToken(" "), FieldToken(Some(MONTH), "enero"), LiteralToken(" "), LiteralToken("de"), LiteralToken(" ")];
  }

  lemma SpanishAligned5ThroughYear()
    ensures WalkAligned([Field(DAY), Literal(" "), Literal("de"), Literal(" "), Field(MONTH), Literal(" "), Literal("de"), Literal(" "), Field(YEAR)], "5 de enero de 2020") == Progress([FieldToken(Some(DAY), "5"), LiteralToken(" "), LiteralToken("de"), LiteralToken(" "), FieldToken(Some(MONTH), "enero"), LiteralToken(" "), LiteralToken("de"), LiteralToken(" ")], "2020", Some(YEAR))
  {
    SpanishAligned5ThroughMonthSpaceDeSpace();
    WalkAlignedSnoc([Field(DAY), Literal(" "), Literal("de"), Literal(" "), Field(MONTH), Literal(" "), Literal("de"), Literal(" ")], Field(YEAR), "5 de enero de 2020");
    assert [Field(DAY), Literal(" "), Literal("de"), Literal(" "), Field(MONTH), Literal(" "), Literal("de"), Literal(" ")] + [Field(YEAR)] == [Field(DAY), Literal(" "), Literal("de"), Literal(" "), Field(MONTH), Literal(" "), Literal("de"), Literal(" "), Field(YEAR)];
  }

  const SpanishAligned5Tokens: seq<Token> := [FieldToken(Some(DAY), "5"), LiteralToken(" "), LiteralToken("de"), LiteralToken(" "), FieldToken(Some(MONTH), "enero"), LiteralToken(" "), LiteralToken("de"), LiteralToken(" "), FieldToken(Some(YEAR), "2020")]

  /** Corrected, two days of one month share the month and the year. */
  lemma SpanishAlignedDaysOfOneMonth()
    ensures RangeText(SpanishMask, MONTH >= DAY, MONTH, SpanishAligned3Tokens, SpanishAligned5Tokens, EnDash) == "3\U{2013}5 de enero de 2020"
  {
    SpanishAlignedDaysOfOneMonthLeft();
    SpanishAlignedDaysOfOneMonthRightStop();
    SpanishAlignedDaysOfOneMonthStartMiddle();
    SpanishAlignedDaysOfOneMonthEndMiddle();
    SpanishAlignedDaysOfOneMonthRightPart();
    SplitRangeTextAt(SpanishMask, MONTH >= DAY, MONTH, SpanishAligned3Tokens, SpanishAligned5Tokens, EnDash, 0, 0, 0);
    assert RangeText(SpanishMask, MONTH >= DAY, MONTH, SpanishAligned3Tokens, SpanishAligned5Tokens, EnDash) == "" + "3" + EnDash + "5" + " de enero de 2020";
    SpanishAlignedDaysOfOneMonthText();
  }

  lemma SpanishAlignedDaysOfOneMonthLeft()
    ensures LeftEnd(SpanishMask, MONTH) == 0 && Pieces(SpanishMask, SpanishAligned3Tokens, 0) == ""
  {
  }

  lemma SpanishAlignedDaysOfOneMonthRightStop()
    ensures RightStop(SpanishAligned5Tokens, MONTH, 0, 8) == 0
  {
  }

  lemma SpanishAlignedDaysOfOneMonthStartMiddle()
    ensures Contents(SpanishAligned3Tokens, 0, 1) == "3"
  {
  }

  lemma SpanishAlignedDaysOfOneMonthEndMiddle()
    ensures Contents(SpanishAligned5Tokens, 0, 1) == "5"
  {
  }

  lemma SpanishAlignedDaysOfOneMonthRightPart()
    ensures Contents(SpanishAligned5Tokens, 1, 9) == " de enero de 2020"
  {
  }

  lemma SpanishAlignedDaysOfOneMonthText()
    ensures "" + "3" + EnDash + "5" + " de enero de 2020" == "3\U{2013}5 de enero de 2020"
  {
  }

  /**
   * A platform with one locale, "en", in UTC: its medium date pattern is
   * "MMM d, y", and the instants 1 and 2 are 3 and 5 January 2020.
   */
  function EnglishPlatform(): Platform {
    Platform(
      (text: string) => None, DateTime(0, "UTC"), "UTC",
      (d: DateTime) => if d.timestamp == 1 then Fields("2020", "01", "03", "am", "00", "00", "00")
           else Fields("2020", "01", "05", "am", "00", "00", "00"),
      (timestamp, zone) => "UTC",
      (locale, dateType, timeType) => if dateType == MEDIUM && timeType == NONE then "MMM d, y" else "",
      (locale, dateType, timeType, zone, timestamp) => if timestamp == 1 then "Jan 3, 2020" else "Jan 5, 2020",
      (locale, dateType, timeType, best, separator) => separator)
  }

  /**
   * format end to end on a fresh English Ranger: two days of one month
   * share the month and the year, and the parsed pattern is cached.
   */
  lemma EnglishDaysOfOneMonthFormat()
    ensures FormatRange(EnglishPlatform(), Settings("en", EnDash, ", ", MEDIUM, NONE), Cache([], 0),
                        Given(DateTime(1, "UTC")), Given(DateTime(2, "UTC"))) ==
            Rendered(Success("Jan 3\U{2013}5, 2020"), Cache(EnglishMask, DAY))
  {
    var platform := EnglishPlatform();
    var settings := Settings("en", EnDash, ", ", MEDIUM, NONE);
    assert PatternText(platform, settings) == "MMM d, y";
    EnglishMediumDate();
    assert Rendering(platform, settings, DateTime(1, "UTC")) == "Jan 3, 2020";
    assert Rendering(platform, settings, DateTime(2, "UTC")) == "Jan 5, 2020";
    assert BestMatchOf(platform, settings, DateTime(1, "UTC"), DateTime(2, "UTC")) == MONTH;
    EnglishJan3();
    EnglishJan5();
    EnglishDaysOfOneMonth();
  }

  /**
   * A platform with one locale, "es", in UTC: its long date pattern is
   * "d 'de' MMMM 'de' y", and the instants 1 and 2 are 3 and 5 January 2020.
   */
  function SpanishPlatform(): Platform {
    Platform(
      (text: string) => None, DateTime(0, "UTC"), "UTC",
      (d: DateTime) => if d.timestamp == 1 then Fields("2020", "01", "03", "am", "00", "00", "00")
                       else Fields("2020", "01", "05", "am", "00", "00", "00"),
      (timestamp, zone) => "UTC",
      (locale, dateType, timeType) => if dateType == LONG && timeType == NONE then "d 'de' MMMM 'de' y" else "",
      (locale, dateType, timeType, zone, timestamp) => if timestamp == 1 then "3 de enero de 2020" else "5 de enero de 2020",
      (locale, dateType, timeType, best, separator) => separator)
  }

  /**
   * format end to end on a Spanish Ranger with the long date style: with
   * the corrected tokenizer the month and the year are shared.
   */
  lemma SpanishDaysOfOneMonthFormat()
    ensures FormatRange(SpanishPlatform(), Settings("es", EnDash, ", ", LONG, NONE), Cache([], 0),
                        Given(DateTime(1, "UTC")), Given(DateTime(2, "UTC"))) ==
            Rendered(Success("3\U{2013}5 de enero de 2020"), Cache(SpanishMask, DAY))
  {
    var platform := SpanishPlatform();
    var settings := Settings("es", EnDash, ", ", LONG, NONE);
    assert PatternText(platform, settings) == "d 'de' MMMM 'de' y";
    SpanishLongDate();
    assert Rendering(platform, settings, DateTime(1, "UTC")) == "3 de enero de 2020";
    assert Rendering(platform, settings, DateTime(2, "UTC")) == "5 de enero de 2020";
    assert BestMatchOf(platform, settings, DateTime(1, "UTC"), DateTime(2, "UTC")) == MONTH;
    SpanishAligned3();
    SpanishAligned5();
    SpanishAlignedDaysOfOneMonth();
  }

  /**
   * format as written under PHP 8, end to end, on a Spanish Ranger whose
   * date style was just set (precision 0): two days of one month.
   */
  lemma SpanishDaysOfOneMonthAsWrittenFormat()
    ensures FormatRangeAsWritten(SpanishPlatform(), Settings("es", EnDash, ", ", LONG, NONE), Cache([], 0), Int(0),
                                 Given(DateTime(1, "UTC")), Given(DateTime(2, "UTC"))) ==
            Success("3 de\U{2013}5 de enero ")
  {
    var platform := SpanishPlatform();
    var settings := Settings("es", EnDash, ", ", LONG, NONE);
    assert PatternText(platform, settings) == "d 'de' MMMM 'de' y";
    SpanishLongDate();
    assert Rendering(platform, settings, DateTime(1, "UTC")) == "3 de enero de 2020";
    assert Rendering(platform, settings, DateTime(2, "UTC")) == "5 de enero de 2020";
    assert BestMatchOf(platform, settings, DateTime(1, "UTC"), DateTime(2, "UTC")) == MONTH;
    SpanishWritten3();
    SpanishWritten5();
    SpanishWrittenDaysOfOneMonth();
  }

  /** The same for one day given twice: the range is not collapsed. */
  lemma SpanishSameDayAsWrittenFormat()
    ensures FormatRangeAsWritten(SpanishPlatform(), Settings("es", EnDash, ", ", LONG, NONE), Cache([], 0), Int(0),
                                 Given(DateTime(1, "UTC")), Given(DateTime(1, "UTC"))) ==
            Success("3 de  de \U{2013}")
  {
    var platform := SpanishPlatform();
    var settings := Settings("es", EnDash, ", ", LONG, NONE);
    assert PatternText(platform, settings) == "d 'de' MMMM 'de' y";
    SpanishLongDate();
    assert Rendering(platform, settings, DateTime(1, "UTC")) == "3 de enero de 2020";
    assert BestMatchOf(platform, settings, DateTime(1, "UTC"), DateTime(1, "UTC")) == SECOND;
    SpanishWritten3();
    SpanishWrittenSameDay();
  }

}
