/**
 * The segment tokenizer of Ranger.php: it splits a formatted date string
 * against the pattern mask, cutting at the first occurrence of each literal
 * segment's text (PHP's explode with a limit of 2).
 *
 * TokensOf and the method Tokenize are the tokenizer as written.
 * AlignedTokensOf is the corrected tokenizer used by the range formatter:
 * it emits a field token only for a literal that follows a field segment, so
 * that tokens stay aligned with mask segments (see README, Findings).
 */
module Tokenizer {

  import opened Wrappers
  import opened Categories
  import opened Pattern

  /**
   * A token: field text tagged with the category of the most recent field
   * segment (None before the first one), or the text of a literal segment.
   */
  datatype Token = FieldToken(kind: Option<int>, content: string) | LiteralToken(content: string)

  /** The tokenizer's state after a prefix of the mask. */
  datatype Progress = Progress(tokens: seq<Token>, rest: string, kind: Option<int>)

  /** d occurs in s at position q. */
  predicate OccursAt(s: string, d: string, q: int) {
    0 <= q && q + |d| <= |s| && s[q..q + |d|] == d
  }

  /** The position where d starts in s at or after from, if it occurs there. */
  function FindFrom(s: string, d: string, from: nat): (r: Option<nat>)
    ensures r.Some? ==> from <= r.value && OccursAt(s, d, r.value)
    ensures r.Some? ==> forall q :: from <= q < r.value ==> !OccursAt(s, d, q)
    ensures r.None? ==> forall q :: from <= q ==> !OccursAt(s, d, q)
    decreases |s| - from
  {
    if from + |d| > |s| then None
    else if s[from..from + |d|] == d then Some(from)
    else FindFrom(s, d, from + 1)
  }

  /** The position of the first occurrence of d in s: where explode(d, s, 2) cuts. */
  function FindFirst(s: string, d: string): (r: Option<nat>)
    ensures r.Some? ==> OccursAt(s, d, r.value) && r.value + |d| <= |s|
    ensures r.Some? ==> forall q :: 0 <= q < r.value ==> !OccursAt(s, d, q)
    ensures r.None? ==> forall q :: !OccursAt(s, d, q)
  {
    FindFrom(s, d, 0)
  }

  /** FindFirst is characterised by its contract: the first position where d occurs. */
  lemma FindFirstAt(s: string, d: string, p: nat)
    requires OccursAt(s, d, p) && forall q :: 0 <= q < p ==> !OccursAt(s, d, q)
    ensures FindFirst(s, d) == Some(p)
  {
  }

  // ---------------------------------------------------------------------------
  // The tokenizer as written

  /** One mask segment: a field only records its category; a literal cuts the rest. */
  function Advance(st: Progress, seg: Segment): Progress {
    match seg
    case Field(c) => st.(kind := Some(c))
    case Literal(t) =>
      match FindFirst(st.rest, t)
      case Some(p) =>
        Progress(st.tokens + [FieldToken(st.kind, st.rest[..p]), LiteralToken(t)], st.rest[p + |t|..], st.kind)
      case None =>
        st.(tokens := st.tokens + [LiteralToken(t)])
  }

  function Walk(mask: seq<Segment>, s: string): Progress
    decreases |mask|
  {
    if mask == [] then Progress([], s, None)
    else Advance(Walk(mask[..|mask| - 1], s), mask[|mask| - 1])
  }

  lemma WalkSnoc(mask: seq<Segment>, seg: Segment, s: string)
    ensures Walk(mask + [seg], s) == Advance(Walk(mask, s), seg)
  {
    assert (mask + [seg])[..|mask|] == mask;
  }

  /** True when the last segment is not a literal (an empty mask counts as such). */
  predicate EndsInField(mask: seq<Segment>) {
    mask == [] || mask[|mask| - 1].Field?
  }

  /** tokenize: the walk, then the unconsumed rest as a trailing field token. */
  function TokensOf(mask: seq<Segment>, s: string): seq<Token> {
    var st := Walk(mask, s);
    if EndsInField(mask) then st.tokens + [FieldToken(st.kind, st.rest)] else st.tokens
  }

  /** The loop of tokenize. */
  method Tokenize(mask: seq<Segment>, formatted: string) returns (tokens: seq<Token>)
    ensures tokens == TokensOf(mask, formatted)
  {
    tokens := [];
    var rest := formatted;
    var kind: Option<int> := None;
    var k := 0;
    while k < |mask|
      invariant 0 <= k <= |mask|
      invariant Walk(mask[..k], formatted) == Progress(tokens, rest, kind)
    {
      assert mask[..k + 1][..k] == mask[..k];
      var part := mask[k];
      if part.Literal? {
        var at := FindFirst(rest, part.text);
        if at.Some? {
          tokens := tokens + [FieldToken(kind, rest[..at.value])];
          rest := rest[at.value + |part.text|..];
        }
        tokens := tokens + [LiteralToken(part.text)];
      } else {
        kind := Some(part.category);
      }
      k := k + 1;
    }
    assert mask[..k] == mask;
    if mask == [] || mask[|mask| - 1].Field? {
      tokens := tokens + [FieldToken(kind, rest)];
    }
  }

  // ---------------------------------------------------------------------------
  // The corrected tokenizer

  /** Like Advance, but the text before a literal becomes a token only after a field segment. */
  function AdvanceAligned(st: Progress, seg: Segment): Progress {
    match seg
    case Field(c) => st.(kind := Some(c))
    case Literal(t) =>
      match FindFirst(st.rest, t)
      case Some(p) =>
        var before := if st.kind.Some? then [FieldToken(st.kind, st.rest[..p])] else [];
        Progress(st.tokens + before + [LiteralToken(t)], st.rest[p + |t|..], None)
      case None =>
        Progress(st.tokens + [LiteralToken(t)], st.rest, None)
  }

  function WalkAligned(mask: seq<Segment>, s: string): Progress
    decreases |mask|
  {
    if mask == [] then Progress([], s, None)
    else AdvanceAligned(WalkAligned(mask[..|mask| - 1], s), mask[|mask| - 1])
  }

  lemma WalkAlignedSnoc(mask: seq<Segment>, seg: Segment, s: string)
    ensures WalkAligned(mask + [seg], s) == AdvanceAligned(WalkAligned(mask, s), seg)
  {
    assert (mask + [seg])[..|mask|] == mask;
  }

  function AlignedTokensOf(mask: seq<Segment>, s: string): seq<Token> {
    var st := WalkAligned(mask, s);
    if st.kind.Some? then st.tokens + [FieldToken(st.kind, st.rest)] else st.tokens
  }

  /** The loop of tokenize with the correction: the field kind is cleared after each literal. */
  method TokenizeAligned(mask: seq<Segment>, formatted: string) returns (tokens: seq<Token>)
    ensures tokens == AlignedTokensOf(mask, formatted)
  {
    tokens := [];
    var rest := formatted;
    var kind: Option<int> := None;
    var k := 0;
    while k < |mask|
      invariant 0 <= k <= |mask|
      invariant WalkAligned(mask[..k], formatted) == Progress(tokens, rest, kind)
    {
      assert mask[..k + 1][..k] == mask[..k];
      var part := mask[k];
      if part.Literal? {
        var at := FindFirst(rest, part.text);
        if at.Some? {
          if kind.Some? {
            tokens := tokens + [FieldToken(kind, rest[..at.value])];
          }
          rest := rest[at.value + |part.text|..];
        }
        tokens := tokens + [LiteralToken(part.text)];
        kind := None;
      } else {
        kind := Some(part.category);
      }
      k := k + 1;
    }
    assert mask[..k] == mask;
    if kind.Some? {
      tokens := tokens + [FieldToken(kind, rest)];
    }
  }

  // ---------------------------------------------------------------------------
  // Views of token lists

  /** The concatenated contents of a token list. */
  function Concat(tokens: seq<Token>): string
    decreases |tokens|
  {
    if tokens == [] then "" else Concat(tokens[..|tokens| - 1]) + tokens[|tokens| - 1].content
  }

  /** The texts of the literal tokens, in order. */
  function LiteralTokens(tokens: seq<Token>): seq<string>
    decreases |tokens|
  {
    if tokens == [] then []
    else
      var last := tokens[|tokens| - 1];
      LiteralTokens(tokens[..|tokens| - 1]) + if last.LiteralToken? then [last.content] else []
  }

  /** The texts of the literal segments, in order. */
  function LiteralTexts(mask: seq<Segment>): seq<string>
    decreases |mask|
  {
    if mask == [] then []
    else
      var last := mask[|mask| - 1];
      LiteralTexts(mask[..|mask| - 1]) + if last.Literal? then [last.text] else []
  }

  /** The token stands for the segment: its literal text, or field text tagged with its category. */
  predicate TokenFits(seg: Segment, token: Token) {
    match seg
    case Literal(t) => token == LiteralToken(t)
    case Field(c) => token.FieldToken? && token.kind == Some(c)
  }

  /** One token per segment, each standing for its segment. */
  predicate Aligned(mask: seq<Segment>, tokens: seq<Token>) {
    |tokens| == |mask| && forall k :: 0 <= k < |mask| ==> TokenFits(mask[k], tokens[k])
  }

  /** Fields and literals alternate, starting with a field. */
  predicate Alternating(mask: seq<Segment>) {
    forall k :: 0 <= k < |mask| ==> (mask[k].Field? <==> k % 2 == 0)
  }

  /** Every literal segment occurs in what is left of the string when the walk reaches it. */
  predicate Found(mask: seq<Segment>, s: string)
    decreases |mask|
  {
    mask == [] ||
    var n := |mask| - 1;
    Found(mask[..n], s) && (mask[n].Literal? ==> FindFirst(Walk(mask[..n], s).rest, mask[n].text).Some?)
  }

  /** The same for the corrected walk. */
  predicate FoundAligned(mask: seq<Segment>, s: string)
    decreases |mask|
  {
    mask == [] ||
    var n := |mask| - 1;
    FoundAligned(mask[..n], s) && (mask[n].Literal? ==> FindFirst(WalkAligned(mask[..n], s).rest, mask[n].text).Some?)
  }

  /**
   * The corrected walk loses no text: every literal occurs in the rest, and
   * one that does not follow a field segment occurs right at its start.
   */
  predicate Fits(mask: seq<Segment>, s: string)
    decreases |mask|
  {
    mask == [] ||
    var n := |mask| - 1;
    Fits(mask[..n], s) &&
    (mask[n].Literal? ==>
       var at := FindFirst(WalkAligned(mask[..n], s).rest, mask[n].text);
       at.Some? && (at.value == 0 || (n > 0 && mask[n - 1].Field?)))
  }

  // ---------------------------------------------------------------------------
  // Lemmas on views

  lemma {:induction false} ConcatAppend(a: seq<Token>, b: seq<Token>)
    ensures Concat(a + b) == Concat(a) + Concat(b)
    decreases |b|
  {
    if b == [] {
      assert a + b == a;
    } else {
      var b' := b[..|b| - 1];
      var ab := a + b;
      assert ab[..|ab| - 1] == a + b' && ab[|ab| - 1] == b[|b| - 1];
      ConcatAppend(a, b');
      var x, y, z := Concat(a), Concat(b'), b[|b| - 1].content;
      assert Concat(ab) == x + y + z;
      assert x + y + z == x + (y + z);
    }
  }

  lemma {:induction false} LiteralTokensAppend(a: seq<Token>, b: seq<Token>)
    ensures LiteralTokens(a + b) == LiteralTokens(a) + LiteralTokens(b)
    decreases |b|
  {
    if b == [] {
      assert a + b == a;
    } else {
      var b' := b[..|b| - 1];
      assert (a + b)[..|a + b| - 1] == a + b';
      LiteralTokensAppend(a, b');
    }
  }

  lemma ConcatOne(t: Token)
    ensures Concat([t]) == t.content
  {
    assert [t][..0] == [];
  }

  lemma LiteralTokensOne(t: Token)
    ensures LiteralTokens([t]) == if t.LiteralToken? then [t.content] else []
  {
    assert [t][..0] == [];
  }

  // ---------------------------------------------------------------------------
  // Properties of the tokenizer as written

  lemma {:induction false} WalkLiterals(mask: seq<Segment>, s: string)
    ensures LiteralTokens(Walk(mask, s).tokens) == LiteralTexts(mask)
    decreases |mask|
  {
    if mask != [] {
      var init := mask[..|mask| - 1];
      var st := Walk(init, s);
      WalkLiterals(init, s);
      match mask[|mask| - 1]
      case Field(c) =>
      case Literal(t) =>
        match FindFirst(st.rest, t)
        case Some(p) =>
          var f := FieldToken(st.kind, st.rest[..p]);
          assert st.tokens + [f, LiteralToken(t)] == st.tokens + [f] + [LiteralToken(t)];
          LiteralTokensAppend(st.tokens + [f], [LiteralToken(t)]);
          LiteralTokensAppend(st.tokens, [f]);
          LiteralTokensOne(f);
          LiteralTokensOne(LiteralToken(t));
        case None =>
          LiteralTokensAppend(st.tokens, [LiteralToken(t)]);
          LiteralTokensOne(LiteralToken(t));
    }
  }

  /**
   * tokenize emits one literal token per literal segment, in mask order,
   * whose content is the segment's text; and a trailing field segment gets
   * the unconsumed rest of the string.
   */
  lemma TokensFollowMask(mask: seq<Segment>, s: string)
    ensures LiteralTokens(TokensOf(mask, s)) == LiteralTexts(mask)
    ensures EndsInField(mask) ==>
      var st := Walk(mask, s);
      TokensOf(mask, s)[|TokensOf(mask, s)| - 1] == FieldToken(st.kind, st.rest)
  {
    WalkLiterals(mask, s);
    var st := Walk(mask, s);
    if EndsInField(mask) {
      LiteralTokensAppend(st.tokens, [FieldToken(st.kind, st.rest)]);
      LiteralTokensOne(FieldToken(st.kind, st.rest));
    }
  }

  lemma SplitAt(r: string, t: string, p: nat)
    requires OccursAt(r, t, p)
    ensures r == r[..p] + t + r[p + |t|..]
  {
    assert r == r[..p] + r[p..p + |t|] + r[p + |t|..];
  }

  lemma Assoc(a: string, b: string, t: string, c: string)
    ensures a + b + t + c == a + (b + t + c)
  {
  }

  /** Cutting the rest at an occurrence of t keeps the text. */
  lemma CutKeepsText(tokens: seq<Token>, before: seq<Token>, rest: string, t: string, p: nat)
    requires OccursAt(rest, t, p) && Concat(before) == rest[..p]
    ensures Concat(tokens + before + [LiteralToken(t)]) + rest[p + |t|..] == Concat(tokens) + rest
  {
    var a, b, c := Concat(tokens), rest[..p], rest[p + |t|..];
    ConcatAppend(tokens + before, [LiteralToken(t)]);
    ConcatAppend(tokens, before);
    ConcatOne(LiteralToken(t));
    assert Concat(tokens + before + [LiteralToken(t)]) == a + b + t;
    SplitAt(rest, t, p);
    Assoc(a, b, t, c);
  }

  lemma CoverStep(st: Progress, seg: Segment, s: string)
    requires Concat(st.tokens) + st.rest == s
    requires seg.Literal? ==> FindFirst(st.rest, seg.text).Some?
    ensures Concat(Advance(st, seg).tokens) + Advance(st, seg).rest == s
  {
    match seg
    case Field(c) =>
    case Literal(t) =>
      var p := FindFirst(st.rest, t).value;
      var f := FieldToken(st.kind, st.rest[..p]);
      assert Advance(st, seg).tokens == st.tokens + [f] + [LiteralToken(t)];
      assert Advance(st, seg).rest == st.rest[p + |t|..];
      ConcatOne(f);
      CutKeepsText(st.tokens, [f], st.rest, t, p);
  }

  lemma {:induction false} WalkCovers(mask: seq<Segment>, s: string)
    requires Found(mask, s)
    ensures Concat(Walk(mask, s).tokens) + Walk(mask, s).rest == s
    decreases |mask|
  {
    if mask != [] {
      var n := |mask| - 1;
      WalkCovers(mask[..n], s);
      CoverStep(Walk(mask[..n], s), mask[n], s);
    }
  }

  /**
   * Round trip: when every literal is found, the tokens followed by the
   * unconsumed rest give back the string; when the mask ends in a field
   * segment, the tokens alone do.
   */
  lemma TokensRoundTrip(mask: seq<Segment>, s: string)
    requires Found(mask, s)
    ensures Concat(TokensOf(mask, s)) + (if EndsInField(mask) then "" else Walk(mask, s).rest) == s
  {
    WalkCovers(mask, s);
    var st := Walk(mask, s);
    if EndsInField(mask) {
      ConcatAppend(st.tokens, [FieldToken(st.kind, st.rest)]);
      ConcatOne(FieldToken(st.kind, st.rest));
    }
  }

  /** The as-written walk's invariant on an alternating mask. */
  predicate WalkAlignedSoFar(mask: seq<Segment>, st: Progress) {
    && (|mask| % 2 == 1 ==> |st.tokens| == |mask| - 1 && mask[|mask| - 1].Field? && st.kind == Some(mask[|mask| - 1].category))
    && (|mask| % 2 == 0 ==> |st.tokens| == |mask|)
    && forall k :: 0 <= k < |st.tokens| ==> k < |mask| && TokenFits(mask[k], st.tokens[k])
  }

  lemma AlternatingStep(init: seq<Segment>, seg: Segment, st: Progress)
    requires Alternating(init + [seg]) && WalkAlignedSoFar(init, st)
    requires seg.Literal? ==> FindFirst(st.rest, seg.text).Some?
    ensures WalkAlignedSoFar(init + [seg], Advance(st, seg))
  {
    var mask := init + [seg];
    var n := |init|;
    assert mask[n] == seg;
    assert forall k :: 0 <= k < n ==> mask[k] == init[k];
    if seg.Literal? {
      assert n % 2 == 1;
    }
  }

  lemma {:induction false} WalkAlternating(mask: seq<Segment>, s: string)
    requires Alternating(mask) && Found(mask, s)
    ensures WalkAlignedSoFar(mask, Walk(mask, s))
    decreases |mask|
  {
    if mask != [] {
      var n := |mask| - 1;
      var init := mask[..n];
      assert init + [mask[n]] == mask;
      assert Alternating(init) by {
        forall k | 0 <= k < |init| ensures init[k].Field? <==> k % 2 == 0 {
          assert init[k] == mask[k];
        }
      }
      WalkAlternating(init, s);
      AlternatingStep(init, mask[n], Walk(init, s));
    }
  }

  /**
   * On a mask whose fields and literals alternate, starting with a field,
   * the tokens as written line up with the mask segments, one per segment.
   */
  lemma AlternatingMaskAligns(mask: seq<Segment>, s: string)
    requires Alternating(mask) && mask != [] && Found(mask, s)
    ensures Aligned(mask, TokensOf(mask, s))
  {
    WalkAlternating(mask, s);
    var n := |mask| - 1;
    assert mask[n].Field? <==> n % 2 == 0;
  }

  // ---------------------------------------------------------------------------
  // Properties of the corrected tokenizer

  /** The corrected walk's invariant on a well-formed mask. */
  predicate AlignedSoFar(mask: seq<Segment>, st: Progress) {
    && (st.kind.Some? <==> (mask != [] && mask[|mask| - 1].Field?))
    && (st.kind.Some? ==> |st.tokens| == |mask| - 1 && mask[|mask| - 1].Field? && st.kind == Some(mask[|mask| - 1].category))
    && (st.kind.None? ==> |st.tokens| == |mask|)
    && forall k :: 0 <= k < |st.tokens| ==> k < |mask| && TokenFits(mask[k], st.tokens[k])
  }

  lemma WellFormedPrefix(mask: seq<Segment>, n: nat)
    requires WellFormed(mask) && n <= |mask|
    ensures WellFormed(mask[..n])
  {
    var init := mask[..n];
    assert forall k :: 0 <= k < n ==> init[k] == mask[k];
  }

  lemma AlignedStep(init: seq<Segment>, seg: Segment, st: Progress)
    requires WellFormed(init + [seg]) && AlignedSoFar(init, st)
    requires seg.Literal? ==> FindFirst(st.rest, seg.text).Some?
    ensures AlignedSoFar(init + [seg], AdvanceAligned(st, seg))
  {
    var mask := init + [seg];
    var n := |init|;
    assert mask[n] == seg;
    assert forall k :: 0 <= k < n ==> mask[k] == init[k];
  }

  lemma {:induction false} WalkAlignedKeepsAlignment(mask: seq<Segment>, s: string)
    requires WellFormed(mask) && FoundAligned(mask, s)
    ensures AlignedSoFar(mask, WalkAligned(mask, s))
    decreases |mask|
  {
    if mask != [] {
      var n := |mask| - 1;
      var init := mask[..n];
      assert init + [mask[n]] == mask;
      WellFormedPrefix(mask, n);
      WalkAlignedKeepsAlignment(init, s);
      AlignedStep(init, mask[n], WalkAligned(init, s));
    }
  }

  /**
   * The corrected tokenizer gives exactly one token per mask segment, for
   * every mask the parser can produce, once every literal is found.
   */
  lemma AlignedTokensAlign(mask: seq<Segment>, s: string)
    requires WellFormed(mask) && FoundAligned(mask, s)
    ensures Aligned(mask, AlignedTokensOf(mask, s))
  {
    WalkAlignedKeepsAlignment(mask, s);
  }

  lemma AlignedCoverStep(st: Progress, seg: Segment, afterField: bool, s: string)
    requires Concat(st.tokens) + st.rest == s
    requires st.kind.Some? <==> afterField
    requires seg.Literal? ==>
      var at := FindFirst(st.rest, seg.text);
      at.Some? && (at.value == 0 || afterField)
    ensures Concat(AdvanceAligned(st, seg).tokens) + AdvanceAligned(st, seg).rest == s
    ensures AdvanceAligned(st, seg).kind.Some? <==> seg.Field?
  {
    match seg
    case Field(c) =>
    case Literal(t) =>
      var p := FindFirst(st.rest, t).value;
      if st.kind.Some? {
        var f := FieldToken(st.kind, st.rest[..p]);
        ConcatOne(f);
        CutKeepsText(st.tokens, [f], st.rest, t, p);
      } else {
        assert p == 0 && st.rest[..p] == "";
        assert st.tokens + [] == st.tokens;
        CutKeepsText(st.tokens, [], st.rest, t, p);
      }
  }

  lemma {:induction false} WalkAlignedCovers(mask: seq<Segment>, s: string)
    requires Fits(mask, s)
    ensures Concat(WalkAligned(mask, s).tokens) + WalkAligned(mask, s).rest == s
    ensures WalkAligned(mask, s).kind.Some? <==> (mask != [] && mask[|mask| - 1].Field?)
    decreases |mask|
  {
    if mask != [] {
      var n := |mask| - 1;
      var init := mask[..n];
      WalkAlignedCovers(init, s);
      if n > 0 {
        assert init[n - 1] == mask[n - 1];
      }
      AlignedCoverStep(WalkAligned(init, s), mask[n], n > 0 && mask[n - 1].Field?, s);
    }
  }

  /**
   * Round trip of the corrected tokenizer: the tokens give back the string
   * when the mask ends in a field segment, and the tokens followed by the
   * unconsumed rest do otherwise.
   */
  lemma AlignedTokensRoundTrip(mask: seq<Segment>, s: string)
    requires Fits(mask, s)
    ensures Concat(AlignedTokensOf(mask, s)) +
            (if mask != [] && mask[|mask| - 1].Field? then "" else WalkAligned(mask, s).rest) == s
  {
    WalkAlignedCovers(mask, s);
    var st := WalkAligned(mask, s);
    if st.kind.Some? {
      ConcatAppend(st.tokens, [FieldToken(st.kind, st.rest)]);
      ConcatOne(FieldToken(st.kind, st.rest));
    }
  }

  /** A text that fits the corrected walk has every literal found. */
  lemma {:induction false} FitsIsFound(mask: seq<Segment>, s: string)
    requires Fits(mask, s)
    ensures FoundAligned(mask, s)
    decreases |mask|
  {
    if mask != [] {
      FitsIsFound(mask[..|mask| - 1], s);
    }
  }

  lemma {:induction false} WalksAgree(mask: seq<Segment>, s: string)
    requires Alternating(mask)
    ensures Walk(mask, s).tokens == WalkAligned(mask, s).tokens
    ensures Walk(mask, s).rest == WalkAligned(mask, s).rest
    ensures mask != [] && mask[|mask| - 1].Field? ==> Walk(mask, s).kind == WalkAligned(mask, s).kind
    ensures WalkAligned(mask, s).kind.Some? <==> mask != [] && mask[|mask| - 1].Field?
    decreases |mask|
  {
    if mask != [] {
      var n := |mask| - 1;
      var init := mask[..n];
      assert Alternating(init);
      WalksAgree(init, s);
      if mask[n].Literal? {
        assert n > 0 && init[n - 1].Field?;
      }
    }
  }

  /**
   * On a non-empty alternating mask the corrected tokenizer agrees with the
   * one as written, for every string.
   */
  lemma CorrectionAgreesOnAlternatingMasks(mask: seq<Segment>, s: string)
    requires Alternating(mask) && mask != []
    ensures AlignedTokensOf(mask, s) == TokensOf(mask, s)
  {
    WalksAgree(mask, s);
  }

  /** One corrected step on a literal adds exactly that literal to the literal tokens. */
  lemma AlignedLiteralStep(st: Progress, t: string)
    ensures LiteralTokens(AdvanceAligned(st, Literal(t)).tokens) == LiteralTokens(st.tokens) + [t]
  {
    var at := FindFirst(st.rest, t);
    var before := if at.Some? && st.kind.Some? then [FieldToken(st.kind, st.rest[..at.value])] else [];
    assert AdvanceAligned(st, Literal(t)).tokens == st.tokens + before + [LiteralToken(t)];
    LiteralTokensAppend(st.tokens + before, [LiteralToken(t)]);
    LiteralTokensAppend(st.tokens, before);
    LiteralTokensOne(LiteralToken(t));
    if before != [] {
      LiteralTokensOne(before[0]);
    } else {
      assert LiteralTokens(before) == [];
    }
  }

  /** The corrected tokenizer also emits one literal token per literal segment, in order. */
  lemma {:induction false} AlignedWalkLiterals(mask: seq<Segment>, s: string)
    ensures LiteralTokens(WalkAligned(mask, s).tokens) == LiteralTexts(mask)
    decreases |mask|
  {
    if mask != [] {
      var init := mask[..|mask| - 1];
      AlignedWalkLiterals(init, s);
      if mask[|mask| - 1].Literal? {
        AlignedLiteralStep(WalkAligned(init, s), mask[|mask| - 1].text);
      }
    }
  }

  // ---------------------------------------------------------------------------
  // Why the tokenizer as written misaligns

  function LiteralCount(mask: seq<Segment>): nat
    decreases |mask|
  {
    if mask == [] then 0 else LiteralCount(mask[..|mask| - 1]) + if mask[|mask| - 1].Literal? then 1 else 0
  }

  function FieldCount(mask: seq<Segment>): nat
    decreases |mask|
  {
    if mask == [] then 0 else FieldCount(mask[..|mask| - 1]) + if mask[|mask| - 1].Field? then 1 else 0
  }

  /** The number of literal segments that directly follow a field segment. */
  function FieldLedCount(mask: seq<Segment>): nat
    decreases |mask|
  {
    if mask == [] then 0
    else
      var n := |mask| - 1;
      FieldLedCount(mask[..n]) + if mask[n].Literal? && n > 0 && mask[n - 1].Field? then 1 else 0
  }

  /** Some literal segment does not follow a field: it leads the mask or follows another literal. */
  predicate HasUnledLiteral(mask: seq<Segment>) {
    exists k :: 0 <= k < |mask| && mask[k].Literal? && (k == 0 || mask[k - 1].Literal?)
  }

  lemma {:induction false} CountsAddUp(mask: seq<Segment>)
    ensures LiteralCount(mask) + FieldCount(mask) == |mask|
    ensures FieldLedCount(mask) <= LiteralCount(mask)
    ensures HasUnledLiteral(mask) ==> FieldLedCount(mask) < LiteralCount(mask)
    decreases |mask|
  {
    if mask != [] {
      var n := |mask| - 1;
      var init := mask[..n];
      CountsAddUp(init);
      if HasUnledLiteral(init) {
        var k :| 0 <= k < |init| && init[k].Literal? && (k == 0 || init[k - 1].Literal?);
        assert mask[k] == init[k] && (k > 0 ==> mask[k - 1] == init[k - 1]);
      }
    }
  }

  /** In a well-formed mask every field but a final one is followed by a literal. */
  lemma {:induction false} FieldsAreLed(mask: seq<Segment>)
    requires WellFormed(mask)
    ensures FieldCount(mask) <= FieldLedCount(mask) + if EndsInField(mask) && mask != [] then 1 else 0
    decreases |mask|
  {
    if mask != [] {
      var n := |mask| - 1;
      WellFormedPrefix(mask, n);
      FieldsAreLed(mask[..n]);
      if n > 0 {
        assert mask[..n][n - 1] == mask[n - 1];
      }
    }
  }

  lemma {:induction false} WalkLength(mask: seq<Segment>, s: string)
    requires Found(mask, s)
    ensures |Walk(mask, s).tokens| == 2 * LiteralCount(mask)
    decreases |mask|
  {
    if mask != [] {
      WalkLength(mask[..|mask| - 1], s);
    }
  }

  /**
   * As written, tokenize puts an extra field token before every literal
   * that does not follow a field segment, so on such a mask its tokens never
   * line up with the segments, whatever the string.
   */
  lemma UnledLiteralMisaligns(mask: seq<Segment>, s: string)
    requires WellFormed(mask) && HasUnledLiteral(mask) && Found(mask, s)
    ensures |TokensOf(mask, s)| > |mask|
    ensures !Aligned(mask, TokensOf(mask, s))
  {
    WalkLength(mask, s);
    CountsAddUp(mask);
    FieldsAreLed(mask);
  }
}
