# daterange_simplify — a Dafny model of the date range formatter

daterange_simplify is a Drupal module. It renders a date range in the
shortest locale-correct form: "Jan 3–5, 2020" instead of
"Jan 3, 2020 – Jan 5, 2020". The work is done by the `Ranger` class of the
bundled openpsa/ranger library. This project models that class and the
module's `Simplify` helper, and proves properties of the model.

Modules, one per part of the program:

- `Categories` — the field categories (ERA … SECOND, TIMEZONE and the
  "always expand" sentinel EXPAND = -2) and the table that maps pattern
  letters to categories.
- `Pattern` — `parse_pattern` and `push_to_mask`. The character scan is a
  step function with an explicit state. A `Push` step adds a non-empty part
  to the cached mask and raises the precision. A letter of another category
  directly after an open field stops the scan, as the source's
  "missing separator between date parts" exception does. The two locale
  patterns `MMM d, y` (English medium) and `d 'de' MMMM 'de' y` (Spanish
  long) are parsed as worked examples. The pattern that joins a date and a
  time style is parsed as the date's mask, the separator as one literal,
  then the time's mask.
- `Tokenizer` — `tokenize`, first as written and then corrected. `Tokenize`
  and `TokenizeAligned` are the loops, each proved equal to its
  specification function.
- `Comparator` — `find_best_match`: the chain of field comparisons, then
  the time-zone guard.
- `Stitch` — the three loops at the end of `format` (shared left part,
  shared right part, the two middles). `JoinRange` is proved equal to the
  specification `RangeText`.
- `Formatter` — the `Ranger` class: its settings, the cached mask and
  precision, the setters that clear the cache, `push_to_mask` and
  `parse_pattern` acting on the object, `prepare_date` and `format`.
- `Loose` — PHP 8's `<=>` and `max` on the values the precision can hold
  (null, an int, a literal's text). It models `push_to_mask`'s precision
  as written and `format`'s `>=` test on it, and says when they agree with
  the int precision of the main model.
- `Simplify` — `getAllowedFormats`, `getDateFormat` and `daterange`.
- `Cases` — the worked examples tokenized and joined, with one end-to-end
  worked example of `format` for each of the two locales and two of
  `format` as written.

ICU, PHP's `DateTime`, the clock and the separator providers are not in
this model. They are gathered in a `Platform` value that the operations
receive:

- `parseDate`: DateTime's constructor on text; None where it throws.
- `now`: the current time.
- `defaultZone`: the zone a new DateTime gets.
- `fieldsAt`: the `Y m d a H i s` renderings of a point.
- `abbreviation`: `format('T')` of a zone at a timestamp.
- `pattern`: `IntlDateFormatter::getPattern`.
- `render`: `IntlDateFormatter::format`.
- `modifySeparator`: the locale separator provider that
  `get_range_separator` looks up.

Points where the model follows the code exactly:

- **Time-zone guard.** The guard compares the start's zone abbreviation with
  the abbreviation of the *end's* zone taken at the *start's* instant
  (`endZoneAtStart`). It does not compare the wall-clock offsets of the two
  instants. So two points in the same zone always pass the zone comparison,
  even across a daylight-saving change.
- **Missing tokens.** A token index past the end of a token list reads as
  the empty string (PHP's null in a concatenation), in `Stitch.Content`.
- **Empty mask.** With an empty mask, `$i` is never assigned in the source.
  The model uses -1, which yields the same output.

Two points where the main model keeps an int precision and the code
does not. Each is modelled both ways, with lemmas that relate the two:

- **Precision.** The constructor leaves the precision null, and the two
  setters set it to 0 only when they change a style. Null is not 0 under
  PHP 8: `max(null, 0)` stays null, `max(null, -1)` is -1, and
  `$best_match >= null` holds for every comparator result, EXPAND included
  (`Loose.NullAlwaysCollapses`). The main model holds an int that starts at
  0 and is raised by field categories only. `Loose.WrittenPrecision` is
  the precision as written. The two agree while every literal starts with a
  character before '0', such as " ", "/" or "."
  (`Loose.LowLiteralsKeepFieldMax`), and, from null, once the first pushed
  segment is a field finer than ERA (`Loose.FinerFirstFieldForgetsNull`).
  See "Left out" and the second finding.
- **Literals in the precision.** Under PHP 8, `max` of an int and a
  non-numeric string compares the int's decimal text with the string. A
  literal that sorts after the digits, such as the Spanish "de" or the ":"
  of a time pattern, therefore becomes the precision, and no comparator
  result is `>=` it (`Loose.HighLiteralNeverCollapses`). Such a range is
  never collapsed. This covers every time pattern written with ":", such
  as the English `h:mm a` of `daterange`'s default 'short' time style.
  `Formatter.FormatRangeAsWritten` and `Simplify.DateRangeTextAsWritten`
  model this reading.

## Model

| member | source | states |
|---|---|---|
| Categories.ClassOf | vendor/openpsa/ranger/src/Ranger.php:29-65 | every classified letter maps to a category between TIMEZONE and SECOND; the escape quote is unclassified |
| Categories.EveryCategoryHasALetter | vendor/openpsa/ranger/src/Ranger.php:17-65 | every category from TIMEZONE to SECOND is the class of some pattern letter |
| Pattern.SegmentOf | vendor/openpsa/ranger/src/Ranger.php:400-403 | a part is dropped exactly when its content is empty; no kept literal is empty |
| Pattern.Push | vendor/openpsa/ranger/src/Ranger.php:400-406 | a dropped part leaves the cache unchanged; a kept part is appended to the mask; the precision never decreases |
| Pattern.MaxField | vendor/openpsa/ranger/src/Ranger.php:404 | the precision is at least its start value, bounds every field category in the mask, and is either the start value or one of those categories |
| Pattern.MaxFieldAppend | vendor/openpsa/ranger/src/Ranger.php:402-405 | appending a segment raises the precision exactly when it is a field of a finer category |
| Pattern.ParsePattern | vendor/openpsa/ranger/src/Ranger.php:341-343 | a non-empty cached mask is reused unchanged and the parse succeeds |
| Pattern.CombinedPattern | vendor/openpsa/ranger/src/Ranger.php:345-351 | without a time style the pattern is the date pattern; with one, the date pattern is followed by the quoted date-time separator and the time pattern |
| Pattern.ParseShift | vendor/openpsa/ranger/src/Ranger.php:355-406 | a scan that starts with segments already in the mask keeps them in front and otherwise pushes, ends and fails as the scan from an empty mask with the same precision |
| Pattern.CombinedPatternParse | vendor/openpsa/ranger/src/Ranger.php:345-395 | with a separator holding no quote and a date pattern that leaves no quote open, the joined pattern parses to the date mask, the separator as one literal (a lone quote for an empty separator), then the time pattern's mask parsed from the date's precision; it fails exactly when the time part fails |
| Pattern.PushKeepsShape | vendor/openpsa/ranger/src/Ranger.php:400-406 | pushing a part the scan can produce keeps the mask well formed and the precision equal to the mask's maximum |
| Pattern.QuoteKeepsShape | vendor/openpsa/ranger/src/Ranger.php:357-371 | a quote character never fails the scan and keeps the scan invariant |
| Pattern.LetterKeepsShape | vendor/openpsa/ranger/src/Ranger.php:381-391 | an unquoted pattern letter that does not fail the scan keeps the scan invariant |
| Pattern.StepKeepsShape | vendor/openpsa/ranger/src/Ranger.php:355-393 | every step of the character scan keeps the scan invariant: no empty literal, no two adjacent fields, precision equal to the mask's maximum |
| Pattern.RunKeepsShape | vendor/openpsa/ranger/src/Ranger.php:355-393 | the invariant holds after the whole scan, whether it finishes or stops |
| Pattern.ParseShape | vendor/openpsa/ranger/src/Ranger.php:339-395 | parsing from an empty mask yields a well-formed mask (no empty literal, a literal after every field but the last, only known categories) whose precision is the maximum field category |
| Pattern.ParseIdempotent | vendor/openpsa/ranger/src/Ranger.php:339-343 | parsing a second time leaves the cache as the first parse left it |
| Pattern.RunInsideQuotes | vendor/openpsa/ranger/src/Ranger.php:372-373 | inside quotes every character other than the quote is appended to the literal |
| Pattern.QuotedTextIsLiteral | vendor/openpsa/ranger/src/Ranger.php:357-371 | a quoted text is one literal segment; an empty quote pair is the quote character itself |
| Pattern.RunSplit | vendor/openpsa/ranger/src/Ranger.php:355-393 | scanning u then v is scanning u + v when the scan of u finishes |
| Pattern.StepFailsExactly | vendor/openpsa/ranger/src/Ranger.php:381-391 | a step fails if and only if an unquoted classified letter follows an open field of another category |
| Pattern.RunOfSameCategory | vendor/openpsa/ranger/src/Ranger.php:385-390 | letters of the open field's category are absorbed into that field |
| Pattern.LettersOfOneCategoryMerge | vendor/openpsa/ranger/src/Ranger.php:381-394 | a run of letters of one category parses to a single field segment |
| Pattern.AdjacentCategoriesFail | vendor/openpsa/ranger/src/Ranger.php:386-389 | two letters of different categories side by side make the parse fail with nothing pushed |
| Pattern.EnglishMediumDate | vendor/openpsa/ranger/src/Ranger.php:339-395 | "MMM d, y" parses to month, literal " ", day, literal ", ", year, with precision DAY |
| Pattern.SpanishLongDate | vendor/openpsa/ranger/src/Ranger.php:339-395 | "d 'de' MMMM 'de' y" parses to day, " ", "de", " ", month, " ", "de", " ", year, with precision DAY: two literals side by side |
| Tokenizer.FindFirst | vendor/openpsa/ranger/src/Ranger.php:282-284 | where explode(·, ·, 2) cuts: the first occurrence of the delimiter, or none at all |
| Tokenizer.FindFirstAt | vendor/openpsa/ranger/src/Ranger.php:282-284 | the first position where the delimiter occurs is the cut point |
| Tokenizer.Tokenize | vendor/openpsa/ranger/src/Ranger.php:279-296 | the loop of tokenize computes the as-written token list TokensOf |
| Tokenizer.TokenizeAligned | vendor/openpsa/ranger/src/Ranger.php:279-296 | the corrected loop, with the field kind cleared after each literal, computes AlignedTokensOf |
| Tokenizer.TokensFollowMask | vendor/openpsa/ranger/src/Ranger.php:280-295 | the literal tokens are the mask's literals in order; a mask ending in a field ends in a field token with the unconsumed rest |
| Tokenizer.TokensRoundTrip | vendor/openpsa/ranger/src/Ranger.php:280-295 | when every literal is found, the tokens' contents concatenated (plus the unconsumed rest after a final literal) give back the formatted text |
| Tokenizer.AlternatingMaskAligns | vendor/openpsa/ranger/src/Ranger.php:280-295 | for a mask that alternates fields and literals, starting with a field, the as-written tokens line up one to one with the mask |
| Tokenizer.UnledLiteralMisaligns | vendor/openpsa/ranger/src/Ranger.php:280-292 | as written, a well-formed mask with a literal not preceded by a field yields more tokens than segments, so the tokens do not line up with the mask |
| Tokenizer.WalkLength | vendor/openpsa/ranger/src/Ranger.php:280-292 | as written, the walk emits exactly two tokens per literal when every literal is found |
| Tokenizer.CountsAddUp | vendor/openpsa/ranger/src/Ranger.php:280-292 | literals and fields add up to the mask; a literal with no field before it makes the field-led literals fewer than the literals |
| Tokenizer.FieldsAreLed | vendor/openpsa/ranger/src/Ranger.php:280-292 | in a well-formed mask every field but a final one is followed by a literal |
| Tokenizer.AlignedTokensAlign | vendor/openpsa/ranger/src/Ranger.php:279-296 | corrected, a well-formed mask whose literals are all found gets one token per segment, each of the segment's kind |
| Tokenizer.AlignedTokensRoundTrip | vendor/openpsa/ranger/src/Ranger.php:279-296 | corrected, the tokens' contents give back the formatted text when it fits the mask, followed by the unconsumed rest when the mask does not end in a field |
| Tokenizer.FitsIsFound | vendor/openpsa/ranger/src/Ranger.php:282-284 | a text that fits the mask has every literal found by the corrected walk |
| Tokenizer.CorrectionAgreesOnAlternatingMasks | vendor/openpsa/ranger/src/Ranger.php:279-296 | on alternating masks the corrected tokenizer gives exactly the tokens of the one as written |
| Tokenizer.AlignedLiteralStep | vendor/openpsa/ranger/src/Ranger.php:281-288 | one literal step of the corrected walk adds exactly that literal to the literal tokens |
| Tokenizer.AlignedWalkLiterals | vendor/openpsa/ranger/src/Ranger.php:281-288 | the corrected walk keeps the mask's literals in order |
| Comparator.FieldMatch | vendor/openpsa/ranger/src/Ranger.php:307-326 | the points agree down to the result, and do not agree at the next finer level unless the result is SECOND |
| Comparator.FieldMatchIsMaximal | vendor/openpsa/ranger/src/Ranger.php:307-326 | any level the points agree at is at most the result |
| Comparator.SecondIffEqual | vendor/openpsa/ranger/src/Ranger.php:324-326 | the result is SECOND if and only if all seven fields agree |
| Comparator.FieldMatchSymmetric | vendor/openpsa/ranger/src/Ranger.php:307-326 | the comparison does not depend on the order of the points |
| Comparator.BestMatch | vendor/openpsa/ranger/src/Ranger.php:305-337 | the result is EXPAND or a level at which the points agree |
| Comparator.BestMatchGuard | vendor/openpsa/ranger/src/Ranger.php:328-336 | EXPAND if and only if the zone abbreviations differ, or a time is shown and the days differ; otherwise the chain's result is kept |
| Stitch.LeftEnd | vendor/openpsa/ranger/src/Ranger.php:183-192 | the left loop stops at the first field finer than the shared level, or runs to the end of the mask |
| Stitch.RightStop | vendor/openpsa/ranger/src/Ranger.php:200-210 | the right loop stops at the last end token finer than the shared level, or one before the left stop when there is none |
| Stitch.LeftPart | vendor/openpsa/ranger/src/Ranger.php:182-192 | the left loop builds the literals and start tokens before the first finer field, and leaves its index at that field or at the last segment |
| Stitch.RightPart | vendor/openpsa/ranger/src/Ranger.php:199-210 | the right loop stops where RightStop says and builds the end tokens after that point |
| Stitch.Middles | vendor/openpsa/ranger/src/Ranger.php:212-217 | the middle loop builds the start's and the end's tokens from i to j |
| Stitch.JoinRange | vendor/openpsa/ranger/src/Ranger.php:182-219 | format's three loops compute RangeText, for either outcome of the precision test |
| Stitch.ContentsSplit | vendor/openpsa/ranger/src/Ranger.php:212-217 | the contents of a token range split at any midpoint |
| Stitch.PiecesAreTokens | vendor/openpsa/ranger/src/Ranger.php:183-192 | with aligned tokens the left part is the concatenation of the start's first tokens |
| Stitch.CollapsedRangeIsStart | vendor/openpsa/ranger/src/Ranger.php:194-197 | when the precision test passes and no field is finer than the shared level, the result is the start point's text, with no separator |
| Stitch.SharedContents | vendor/openpsa/ranger/src/Ranger.php:183-210 | on segments not finer than the shared level the two points' tokens agree |
| Stitch.SplitRangeText | vendor/openpsa/ranger/src/Ranger.php:194-219 | when the precision test fails: left, start middle, separator, end middle, right |
| Stitch.SplitRangeTextAt | vendor/openpsa/ranger/src/Ranger.php:194-219 | when the precision test fails, cut at the left stop i and the right stop j, the result is left, tokens i..j of the start, separator, tokens i..j of the end, the end's tokens after j |
| Stitch.PointInThree | vendor/openpsa/ranger/src/Ranger.php:182-217 | aligned tokens cut at any two points still concatenate to the point's text |
| Stitch.RightOfStopIsShared | vendor/openpsa/ranger/src/Ranger.php:199-210 | no end token after the right stop is finer than the shared level |
| Stitch.TwoPointsInThree | vendor/openpsa/ranger/src/Ranger.php:182-217 | with shared outer parts, the start's and the end's texts are the same left, their own middle, and the same right |
| Stitch.SplitRangeRebuildsBothPoints | vendor/openpsa/ranger/src/Ranger.php:182-219 | the result is shared left + start middle + separator + end middle + shared right, where left + start middle + right is the start's text and left + end middle + right is the end's |
| Stitch.UncollapsedSamePoint | vendor/openpsa/ranger/src/Ranger.php:182-219 | a point joined with itself while the precision test fails gives its text, the separator and its last token once more |
| Stitch.CollapsedSameText | vendor/openpsa/ranger/src/Ranger.php:182-197 | a point's rendering that fits a well-formed mask of categories up to SECOND, joined with itself while the test passes, gives back that rendering |
| Stitch.UncollapsedSameText | vendor/openpsa/ranger/src/Ranger.php:182-219 | on an alternating mask, the as-written tokens of such a rendering joined with themselves while the test fails give the rendering, the separator and the last token's content |
| Formatter.PrepareDate | vendor/openpsa/ranger/src/Ranger.php:227-244 | a DateTime is kept, a timestamp gets the default zone, and it fails exactly for an unsupported type (with "Don't know how to handle " and the type name) or unreadable text |
| Formatter.Ranger.constructor | vendor/openpsa/ranger/src/Ranger.php:80-114 | a new formatter has the locale, the en dash, ", ", MEDIUM, NONE and an empty cache with precision 0 |
| Formatter.Ranger.SetDateType | vendor/openpsa/ranger/src/Ranger.php:120-128 | the date style is set; the cache is cleared only when the style changes |
| Formatter.Ranger.SetTimeType | vendor/openpsa/ranger/src/Ranger.php:134-142 | the time style is set; the cache is cleared only when the style changes |
| Formatter.Ranger.SetRangeSeparator | vendor/openpsa/ranger/src/Ranger.php:148-152 | only the range separator changes |
| Formatter.Ranger.SetDateTimeSeparator | vendor/openpsa/ranger/src/Ranger.php:158-162 | only the date-time separator changes; the cached mask is kept |
| Formatter.Ranger.PushToMask | vendor/openpsa/ranger/src/Ranger.php:400-406 | the object's cache becomes Push of the old cache |
| Formatter.Ranger.ParsePattern | vendor/openpsa/ranger/src/Ranger.php:339-395 | the object's loop computes Pattern.ParsePattern of its pattern and keeps the cache valid; false where the source throws |
| Formatter.Ranger.Format | vendor/openpsa/ranger/src/Ranger.php:170-220 | format computes FormatRange (prepare start, prepare end, compare, parse, tokenize, join) and leaves the settings unchanged and the cache valid |
| Formatter.ParseKeepsValid | vendor/openpsa/ranger/src/Ranger.php:339-406 | parse_pattern turns a valid cache (well-formed mask, precision its maximum) into a valid cache |
| Formatter.SamePointMatchesToTheSecond | vendor/openpsa/ranger/src/Ranger.php:305-337 | find_best_match on one point given twice is SECOND |
| Formatter.ParsedCategoriesUpToSecond | vendor/openpsa/ranger/src/Ranger.php:339-406 | every category of a parsed mask, and its precision, is at most SECOND |
| Formatter.SamePointRendersOnce | vendor/openpsa/ranger/src/Ranger.php:170-197 | one point given twice renders as that point alone, when its rendering fits the parsed pattern and nothing is left over after a final literal |
| Formatter.AsWrittenAgrees | vendor/openpsa/ranger/src/Ranger.php:170-220 | format as written under PHP 8 (tokenizer as written, Scalar precision) gives the model's result on an alternating mask whose literals all sort before the digits, from the int precision held or, on a mask still to be parsed that starts with a field finer than ERA, from null |
| Formatter.SamePointAsWrittenRepeatsLastToken | vendor/openpsa/ranger/src/Ranger.php:170-220 | as written under PHP 8, one point given twice on an alternating pattern holding a literal that sorts after the digits renders as its text, the separator and its last token again, from any held precision on a cache still to be parsed |
| Loose.IntCollapses | vendor/openpsa/ranger/src/Ranger.php:194 | for an int precision the test is the integer comparison |
| Loose.NullAlwaysCollapses | vendor/openpsa/ranger/src/Ranger.php:194 | with a null precision the test passes for every comparator result |
| Loose.HighTextNeverCollapses | vendor/openpsa/ranger/src/Ranger.php:194 | no comparator result passes the test against a text that sorts after the digits |
| Loose.HighLiteralIsTaken | vendor/openpsa/ranger/src/Ranger.php:404 | max of any precision with a literal that sorts after the digits is a text that sorts after the digits |
| Loose.HighStaysHigh | vendor/openpsa/ranger/src/Ranger.php:404 | such a precision stays such a text whatever segment is pushed next |
| Loose.HighLiteralCapturesPrecision | vendor/openpsa/ranger/src/Ranger.php:400-406 | once the mask holds a literal sorting after the digits, the precision as written is a text sorting after the digits, from any initial value |
| Loose.HighLiteralNeverCollapses | vendor/openpsa/ranger/src/Ranger.php:194-219 | on such a mask the test fails for every comparator result: the range is never collapsed |
| Loose.LowLiteralsKeepFieldMax | vendor/openpsa/ranger/src/Ranger.php:400-406 | from an int of at least 0, when every literal starts with a character before '0' (" ", ", ", "/" and "." among them), the precision as written is the int maximum over the field categories |
| Loose.FinerFirstFieldForgetsNull | vendor/openpsa/ranger/src/Ranger.php:400-406 | from null and from 0 the precision as written is the same once the first segment is a field finer than ERA |
| Loose.EraOnlyKeepsNull | vendor/openpsa/ranger/src/Ranger.php:400-406 | from null, a mask of ERA fields leaves the precision null |
| Simplify.RestrictedFormatsAreAllowed | src/Simplify.php:29-34 | the restricted list is part of the full one, and the full list has no repeats |
| Simplify.DateFormat | src/Simplify.php:39-57 | the result is an IntlDateFormatter style; an unknown name gives MEDIUM |
| Simplify.AllowedNamesHaveDistinctStyles | src/Simplify.php:39-57 | different allowed names give different styles |
| Simplify.EveryStyleHasAName | src/Simplify.php:39-57 | every style is given by some allowed name |
| Simplify.DateRange | src/Simplify.php:62-84 | daterange configures a fresh Ranger and returns what DateRangeText specifies |
| Simplify.MissingEndIsStart | src/Simplify.php:76-82 | an absent end gives the same result as an end equal to the start |
| Simplify.MissingEndRendersStartOnce | src/Simplify.php:62-84 | with no end, the start is rendered once, with no separator, when its rendering fits the parsed pattern and nothing is left over after a final literal |
| Simplify.DefaultArguments | src/Simplify.php:62 | the defaults select the MEDIUM date style, the SHORT time style, Ranger's own separators and English |
| Simplify.StartingPrecision | src/Simplify.php:63-69 | the fresh Ranger's precision is null exactly when neither setter changes a style (date 'medium', time 'none'), and 0 otherwise |
| Simplify.DateRangeAsWrittenAgrees | src/Simplify.php:62-84 | daterange as written under PHP 8 gives the model's result on an alternating pattern with literals sorting before the digits, when a setter fired or the pattern starts with a field finer than ERA |
| Simplify.MissingEndAsWrittenRepeatsLastToken | src/Simplify.php:76-84 | as written under PHP 8, with no end and a pattern holding a literal that sorts after the digits, the start is rendered, then the separator and its last token again |
| Cases.EnglishDaysOfOneMonth | vendor/openpsa/ranger/src/Ranger.php:182-219 | Jan 3 and Jan 5, 2020 join to "Jan 3–5, 2020" |
| Cases.EnglishDaysOfTwoMonths | vendor/openpsa/ranger/src/Ranger.php:182-219 | Jan 3 and Feb 5, 2020 join to "Jan 3–Feb 5, 2020" |
| Cases.EnglishDaysOfOneMonthFormat | vendor/openpsa/ranger/src/Ranger.php:170-220 | format on a fresh English Ranger gives "Jan 3–5, 2020" and caches the parsed mask with precision DAY |
| Cases.SpanishWritten3 | vendor/openpsa/ranger/src/Ranger.php:279-296 | as written, "3 de enero de 2020" is cut into 13 tokens for the 9 segments |
| Cases.SpanishWrittenSameDay | vendor/openpsa/ranger/src/Ranger.php:182-219 | as written under PHP 8 (tokenizer as written, "de" as the precision), 3 January 2020 to itself renders as "3 de  de –" |
| Cases.SpanishWrittenDaysOfOneMonth | vendor/openpsa/ranger/src/Ranger.php:182-219 | as written under PHP 8, 3 and 5 January 2020 render as "3 de–5 de enero ", losing the year |
| Cases.SpanishAligned3 | vendor/openpsa/ranger/src/Ranger.php:279-296 | corrected, "3 de enero de 2020" is cut into one token per segment |
| Cases.SpanishAlignedDaysOfOneMonth | vendor/openpsa/ranger/src/Ranger.php:182-219 | corrected, 3 and 5 January 2020 join to "3–5 de enero de 2020" |
| Cases.SpanishDaysOfOneMonthFormat | vendor/openpsa/ranger/src/Ranger.php:170-220 | format on a Spanish Ranger with the long style gives "3–5 de enero de 2020" |
| Cases.SpanishDaysOfOneMonthAsWrittenFormat | vendor/openpsa/ranger/src/Ranger.php:170-220 | format as written under PHP 8, on a Spanish Ranger whose long style was just set, gives "3 de–5 de enero " for 3 and 5 January 2020 |
| Cases.SpanishSameDayAsWrittenFormat | vendor/openpsa/ranger/src/Ranger.php:170-220 | the same Ranger as written gives "3 de  de –" for 3 January 2020 given twice |

## Left out

- ICU (`IntlDateFormatter`) and PHP's `DateTime` are not modelled. Patterns, renderings, zone abbreviations and calendar fields come from the `Platform` parameter.
- The clock is not modelled. `new Datetime` with no argument is the `Platform.now` value.
- `get_range_separator`'s provider lookup is not modelled (building a class name from the locale's first two letters and falling back to the default provider). The separator is `Platform.modifySeparator` applied to the locale, the styles, the comparator's result and the configured separator.
- `Formatter.PrepareDate`: DateTime's constructor throwing on unreadable text is modelled as `parseDate` returning None. Its other exceptions, such as an invalid time zone, are not modelled.
- `Pattern.Push`: the precision is an int raised only by field segments; the model takes the maximum over field categories. Under PHP 8, `max` with a literal's text makes the precision a string whenever a literal sorts after the digits (the Spanish "de", the ":" of a time), and then no range is collapsed. That reading is `Loose.WrittenPrecision`, used by `Formatter.FormatRangeAsWritten`; `Loose.LowLiteralsKeepFieldMax` says when the two agree.
- `Formatter.Ranger.constructor`: the precision starts at 0, where the source leaves it null. The two agree when the first segment pushed is a field finer than ERA (`Loose.FinerFirstFieldForgetsNull`). On an empty pattern or one of ERA fields only, null stays (`Loose.EraOnlyKeepsNull`) and passes the test where 0 fails for EXPAND and TIMEZONE. `Formatter.FormatRangeAsWritten` takes the held precision as a parameter, and `Simplify.StartingPrecision` gives null or 0 for `daterange`.
- `Formatter.SamePointRendersOnce`: holds for the corrected tokenizer and the int precision. As written under PHP 8, a pattern holding a literal that sorts after the digits is never collapsed, and `Formatter.SamePointAsWrittenRepeatsLastToken` states what one point given twice renders as then.
- `Simplify.MissingEndRendersStartOnce`: the same reading as `Formatter.SamePointRendersOnce`. The as-written counterpart is `Simplify.MissingEndAsWrittenRepeatsLastToken`, which covers the default 'short' English time style.
- `Simplify.DateRange`: returns `DateRangeText`, built on the corrected tokenizer and the int precision. `Simplify.DateRangeTextAsWritten` is daterange as written under PHP 8; `Simplify.DateRangeAsWrittenAgrees` names the patterns on which the two agree.
- `Loose.Compare`: a numeric string is only a non-empty run of decimal digits. PHP also accepts a sign, a fraction, an exponent and surrounding whitespace. Pattern literals of those forms are not modelled.
- `Pattern.ParseIdempotent` is about the cache only. The second call's success flag is always true, as in the source, where an early return does nothing.
- `str_split` splits bytes; the model scans characters. This is the same for ASCII patterns. Non-ASCII literals in a pattern would be split into single bytes in the source, but they are delimiters either way.
- PHP's loose comparisons in `format`'s right loop (`'delimiter' == 'delimiter'`, `null > $best_match`) are modelled by their PHP 8 outcomes: a literal token and a token with no category never stop the loop.
- `explode` with an empty delimiter throws in PHP 8. It cannot happen here, because a parsed mask never holds an empty literal (`Pattern.ParseShape`).
- `Simplify.DateRange`: `DrupalDateTime::format('c')` is the `iso` parameter. `empty($end)` is modelled by making the end an `Option`, since PHP's type declaration otherwise rules out a missing end.
- `toDrupalDateTime` (user time zone lookup), the Drupal field formatter plugin and the Twig extension are not part of this model: they are configuration and I/O around `daterange`.
- `Formatter.Ranger.Format` uses the corrected tokenizer (see Findings). The tokenizer as written is modelled by `Tokenizer.Tokenize` and compared with the corrected one in the lemmas and in `Cases`.

## Findings

| source | as written | input that shows it | evidently intended | confidence | as-written member | corrected member |
|---|---|---|---|---|---|---|
| vendor/openpsa/ranger/src/Ranger.php:279-292 | tokenize keeps the last field's category after a literal, and cuts a field token before every literal it finds. A literal that follows another literal, or opens the pattern, therefore gets an extra, usually empty, field token. From there on, token indexes no longer match mask indexes, and format reads the wrong tokens. | Spanish long date pattern `d 'de' MMMM 'de' y`, 3 and 5 January 2020: 13 tokens for 9 segments. The range renders as "3 de–5 de enero ". The same day would render as "3 de  de " with a field-only precision; under PHP 8 it is "3 de  de –" (second row). | one token per segment: "3–5 de enero de 2020" for the range and "3 de enero de 2020" for one day | not executed | Tokenizer.UnledLiteralMisaligns, Cases.SpanishWrittenDaysOfOneMonth, Cases.SpanishDaysOfOneMonthAsWrittenFormat | Tokenizer.AlignedTokensAlign, Cases.SpanishDaysOfOneMonthFormat |
| vendor/openpsa/ranger/src/Ranger.php:404 | push_to_mask raises the precision with `max` over every pushed part's content, literals included. Under PHP 8 an int and a non-numeric string compare as strings, so a literal that sorts after the digits becomes the precision, and format's test at line 194 then fails for every comparator result. | the Spanish long date pattern, 3 January 2020 given twice: "3 de  de –" instead of one date; a ":" in a time pattern does the same | the precision is the finest field category, so a range whose points agree down to it collapses, and one point renders once | not executed | Loose.HighLiteralNeverCollapses, Formatter.SamePointAsWrittenRepeatsLastToken, Cases.SpanishSameDayAsWrittenFormat | Loose.LowLiteralsKeepFieldMax, Formatter.SamePointRendersOnce |
