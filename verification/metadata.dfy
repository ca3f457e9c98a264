/** `parse_simple_metadata`: the line-based `key: value` reader for the metadata
    block in front of a manifest. Only the three keys the scorer reads are kept:
    `user_count`, `rating` and `rating_count`. */
module Metadata {
  import opened Wrappers
  import opened Text
  import opened Factors

  /** The metadata the scorer reads; `None` when the key never appeared. */
  datatype Metadata = Metadata(userCount: Option<nat>, rating: Option<real>, ratingCount: Option<nat>)

  const Empty := Metadata(None, None, None)

  /** The quote characters stripped from both ends of a value. */
  const Quotes: set<char> := {'"', '\''}

  /** The `(key, value)` of a line, both stripped, the value also unquoted; `None`
      for a line the parser skips: one without `:`, or one whose stripped text
      starts with `-` (a list item). */
  function LineEntry(line: string): (r: Option<(string, string)>)
    ensures r.None? <==> ':' !in line || StartsWith(Strip(line, Whitespace), "-")
    ensures r.Some? ==>
      var (before, after) := SplitOnce(line, ':').value;
      r.value == (Strip(before, Whitespace), Strip(Strip(after, Whitespace), Quotes))
  {
    if ':' !in line || StartsWith(Strip(line, Whitespace), "-") then None
    else
      var (before, after) := SplitOnce(line, ':').value;
      Some((Strip(before, Whitespace), Strip(Strip(after, Whitespace), Quotes)))
  }

  /** A count value: commas and spaces dropped, then the number when what is left
      is all digits and 0 otherwise. */
  function CountValue(value: string): (n: nat)
    ensures IsDigits(RemoveChars(value, Separators)) ==> n == DigitsValue(RemoveChars(value, Separators))
    ensures !IsDigits(RemoveChars(value, Separators)) ==> n == 0
  {
    var clean := RemoveChars(value, Separators);
    if IsDigits(clean) then DigitsValue(clean) else 0
  }

  /** A rating value: commas and spaces dropped, then the float parser, with 5.0
      when it refuses. */
  function RatingValue(value: string, parseFloat: string -> Option<real>): (x: real)
    ensures parseFloat(RemoveChars(value, Separators)).Some? ==>
              x == parseFloat(RemoveChars(value, Separators)).value
    ensures parseFloat(RemoveChars(value, Separators)).None? ==> x == 5.0
  {
    parseFloat(RemoveChars(value, Separators)).GetOr(5.0)
  }

  /** One line's effect: a line naming one of the three keys overwrites that field;
      every other line leaves the metadata alone. */
  function ApplyLine(md: Metadata, line: string, parseFloat: string -> Option<real>): (r: Metadata)
    ensures LineEntry(line).None? ==> r == md
    ensures r.userCount != md.userCount ==> LineEntry(line).Some? && LineEntry(line).value.0 == "user_count"
    ensures r.rating != md.rating ==> LineEntry(line).Some? && LineEntry(line).value.0 == "rating"
    ensures r.ratingCount != md.ratingCount ==> LineEntry(line).Some? && LineEntry(line).value.0 == "rating_count"
    ensures LineEntry(line).Some? && LineEntry(line).value.0 == "user_count" ==>
              r == md.(userCount := Some(CountValue(LineEntry(line).value.1)))
    ensures LineEntry(line).Some? && LineEntry(line).value.0 == "rating_count" ==>
              r == md.(ratingCount := Some(CountValue(LineEntry(line).value.1)))
    ensures LineEntry(line).Some? && LineEntry(line).value.0 == "rating" ==>
              r == md.(rating := Some(RatingValue(LineEntry(line).value.1, parseFloat)))
  {
    match LineEntry(line)
    case None => md
    case Some((key, value)) =>
      if key == "user_count" then md.(userCount := Some(CountValue(value)))
      else if key == "rating_count" then md.(ratingCount := Some(CountValue(value)))
      else if key == "rating" then md.(rating := Some(RatingValue(value, parseFloat)))
      else md
  }

  /** The lines applied in order, so a later line for a key overrides an earlier one. */
  function ApplyLines(md: Metadata, lines: seq<string>, parseFloat: string -> Option<real>): (r: Metadata)
    ensures lines == [] ==> r == md
    decreases |lines|
  {
    if |lines| == 0 then md
    else ApplyLines(ApplyLine(md, lines[0], parseFloat), lines[1..], parseFloat)
  }

  /** `parse_simple_metadata`: the lines of the block, split at `\n`. Each field is
      read from the last line of the block naming its key, and is missing when no
      line names it. */
  function ParseSimpleMetadata(text: string, parseFloat: string -> Option<real>): (r: Metadata)
    ensures !Contains(text, "\n") ==> r == ApplyLine(Empty, text, parseFloat)
    ensures var lines := Split(text, "\n");
      && r.userCount == (match LastValue(lines, "user_count")
                         case Some(v) => Some(CountValue(v)) case None => None)
      && r.ratingCount == (match LastValue(lines, "rating_count")
                           case Some(v) => Some(CountValue(v)) case None => None)
      && r.rating == (match LastValue(lines, "rating")
                      case Some(v) => Some(RatingValue(v, parseFloat)) case None => None)
  {
    ApplyLinesLastWins(Empty, Split(text, "\n"), parseFloat);
    ApplyLines(Empty, Split(text, "\n"), parseFloat)
  }

  // ---------------------------------------------------------------- properties

  /** The reader cleans a value the way the two factors clean a string, so a count
      of digits (after commas and spaces go) scores the same whether the factor gets
      the reader's number or the raw text, and a rating scores the same either way
      unless the float parser refuses the text, where the reader's 5.0 stands in
      for the factor's fallback. */
  lemma MetadataValuesAsFactorInput(value: string, parseFloat: string -> Option<real>)
    ensures IsDigits(RemoveChars(value, Separators)) ==> ToCount(Str(value)) == Some(CountValue(value))
    ensures IsDigits(RemoveChars(value, Separators)) ==> UserFactor(Str(value)) == UserFactor(Int(CountValue(value)))
    ensures ToRating(Str(value), parseFloat).Some? ==> ToRating(Str(value), parseFloat) == Some(RatingValue(value, parseFloat))
    ensures ToRating(Str(value), parseFloat).None? ==> RatingValue(value, parseFloat) == 5.0
  {
  }

  /** The value text of the last line naming `key`, searching from the end. */
  function LastValue(lines: seq<string>, key: string): (r: Option<string>)
    decreases |lines|
  {
    if |lines| == 0 then None
    else
      var line := lines[|lines| - 1];
      if LineEntry(line).Some? && LineEntry(line).value.0 == key then Some(LineEntry(line).value.1)
      else LastValue(lines[..|lines| - 1], key)
  }

  /** Applying `a + [x]` is applying `a`, then `x`. */
  lemma {:induction false} ApplyLinesSnoc(md: Metadata, a: seq<string>, x: string, parseFloat: string -> Option<real>)
    ensures ApplyLines(md, a + [x], parseFloat) == ApplyLine(ApplyLines(md, a, parseFloat), x, parseFloat)
    decreases |a|
  {
    if |a| == 0 {
      assert a + [x] == [x];
    } else {
      assert (a + [x])[1..] == a[1..] + [x];
      ApplyLinesSnoc(ApplyLine(md, a[0], parseFloat), a[1..], x, parseFloat);
    }
  }

  /** Last writer wins: each field holds the value of the last line naming its key,
      read the way that key is read, and keeps its start value when no line names it. */
  lemma {:induction false} ApplyLinesLastWins(md: Metadata, lines: seq<string>, parseFloat: string -> Option<real>)
    ensures var r := ApplyLines(md, lines, parseFloat);
      && r.userCount == (match LastValue(lines, "user_count")
                         case Some(v) => Some(CountValue(v)) case None => md.userCount)
      && r.ratingCount == (match LastValue(lines, "rating_count")
                           case Some(v) => Some(CountValue(v)) case None => md.ratingCount)
      && r.rating == (match LastValue(lines, "rating")
                      case Some(v) => Some(RatingValue(v, parseFloat)) case None => md.rating)
    decreases |lines|
  {
    if |lines| > 0 {
      var init := lines[..|lines| - 1];
      var x := lines[|lines| - 1];
      assert lines == init + [x];
      ApplyLinesSnoc(md, init, x, parseFloat);
      ApplyLinesLastWins(md, init, parseFloat);
    }
  }

  /** A block without a line naming one of the three keys yields no metadata, so
      the scorer falls back to its defaults. */
  lemma NoKeysNoMetadata(text: string, parseFloat: string -> Option<real>)
    requires LastValue(Split(text, "\n"), "user_count").None?
    requires LastValue(Split(text, "\n"), "rating").None?
    requires LastValue(Split(text, "\n"), "rating_count").None?
    ensures ParseSimpleMetadata(text, parseFloat) == Empty
  {
    ApplyLinesLastWins(Empty, Split(text, "\n"), parseFloat);
  }

  /** The line `key: value` for a key and a decimal count. */
  function CountLine(key: string, n: nat): string {
    key + ": " + DecimalString(n)
  }

  /** Writing the two counts as `user_count: U` and `rating_count: C` lines and
      parsing the block gives the two counts back, and no rating. */
  lemma CountsRoundTrip(u: nat, c: nat, parseFloat: string -> Option<real>)
    ensures ParseSimpleMetadata(CountLine("user_count", u) + "\n" + CountLine("rating_count", c), parseFloat)
            == Metadata(Some(u), None, Some(c))
  {
    var a := CountLine("user_count", u);
    var b := CountLine("rating_count", c);
    var md := Metadata(Some(u), None, None);
    UserCountLine(u, parseFloat);
    RatingCountLine(c, md, parseFloat);
    SplitTwoLines(a, b);
    ApplyTwoLines(Empty, a, b, parseFloat);
  }

  lemma ApplyTwoLines(md: Metadata, a: string, b: string, parseFloat: string -> Option<real>)
    ensures ApplyLines(md, [a, b], parseFloat) == ApplyLine(ApplyLine(md, a, parseFloat), b, parseFloat)
  {
    assert [a, b][1..] == [b];
    assert [b][1..] == [];
  }

  /** A `user_count` line sets the user count. */
  lemma UserCountLine(n: nat, parseFloat: string -> Option<real>)
    ensures '\n' !in CountLine("user_count", n)
    ensures ApplyLine(Empty, CountLine("user_count", n), parseFloat) == Metadata(Some(n), None, None)
  {
    var key := "user_count";
    assert key[0] == 'u' && key[|key| - 1] == 't';
    CountLineEntry(key, n);
  }

  /** A `rating_count` line sets the review count and nothing else. */
  lemma RatingCountLine(n: nat, md: Metadata, parseFloat: string -> Option<real>)
    ensures '\n' !in CountLine("rating_count", n)
    ensures ApplyLine(md, CountLine("rating_count", n), parseFloat) == md.(ratingCount := Some(n))
  {
    var key := "rating_count";
    assert key[0] == 'r' && key[|key| - 1] == 't';
    CountLineEntry(key, n);
    assert key != "user_count";
  }

  /** Two newline-free lines joined by a newline split back into the two lines. */
  lemma SplitTwoLines(a: string, b: string)
    requires '\n' !in a && '\n' !in b
    ensures Split(a + "\n" + b, "\n") == [a, b]
  {
    assert "\n" == ['\n'];
    ContainsChar(a, '\n');
    ContainsChar(b, '\n');
    SplitAfterFirst(a, "\n", b);
    assert Split(b, "\n") == [b] by {
      var r := Split(b, "\n");
      assert |r| == 1 && Join(r, "\n") == r[0];
    }
  }

  /** The line `key: value` reads back as `(key, value)` when neither part has
      padding the reader strips and the key is neither empty, nor a list item,
      nor holding a `:`. */
  lemma LineEntryRoundTrip(key: string, value: string)
    requires |key| > 0 && ':' !in key
    requires key[0] !in Whitespace && key[0] != '-' && key[|key| - 1] !in Whitespace
    requires value != [] ==> value[0] !in Whitespace + Quotes && value[|value| - 1] !in Whitespace + Quotes
    ensures LineEntry(key + ": " + value) == Some((key, value))
  {
    LineShape(key, value);
    LineNotItem(key, value);
    StripUnchanged(key, Whitespace);
    ValuePart(value);
  }

  /** The first `:` of `key: value` is the one after the key. */
  lemma LineShape(key: string, value: string)
    requires ':' !in key
    ensures ':' in key + ": " + value
    ensures SplitOnce(key + ": " + value, ':') == Some((key, " " + value))
  {
    assert key + ": " + value == key + [':'] + (" " + value);
    SplitOnceAfter(key, ':', " " + value);
  }

  /** `key: value` is not a list item when the key starts with neither
      whitespace nor `-`. */
  lemma LineNotItem(key: string, value: string)
    requires |key| > 0 && key[0] !in Whitespace && key[0] != '-'
    ensures !StartsWith(Strip(key + ": " + value, Whitespace), "-")
  {
    var line := key + ": " + value;
    assert line[0] == key[0];
    StripFirst(line, Whitespace);
  }

  /** The value part ` value` strips and unquotes to `value`. */
  lemma ValuePart(value: string)
    requires value != [] ==> value[0] !in Whitespace + Quotes && value[|value| - 1] !in Whitespace + Quotes
    ensures Strip(Strip(" " + value, Whitespace), Quotes) == value
  {
    LeadingSpace(value);
    StripUnchanged(value, Whitespace);
    StripUnchanged(value, Quotes);
  }

  /** The entry of a count line is its key and its digits, and the digits read
      back as the count. */
  lemma CountLineEntry(key: string, n: nat)
    requires ':' !in key && '\n' !in key
    requires |key| > 0 && key[0] !in Whitespace && key[0] != '-' && key[|key| - 1] !in Whitespace
    ensures '\n' !in CountLine(key, n)
    ensures LineEntry(CountLine(key, n)) == Some((key, DecimalString(n)))
    ensures CountValue(DecimalString(n)) == n
  {
    var d := DecimalString(n);
    DigitNotWhitespace(d[0]);
    DigitNotWhitespace(d[|d| - 1]);
    LineEntryRoundTrip(key, d);
    CountLineNoNewline(key, n);
    DecimalNoSeparators(n);
    DecimalStringRoundTrip(n);
  }

  /** A count line holds no newline when its key holds none. */
  lemma CountLineNoNewline(key: string, n: nat)
    requires '\n' !in key
    ensures '\n' !in CountLine(key, n)
  {
    var d := DecimalString(n);
    var line := CountLine(key, n);
    assert forall k :: 0 <= k < |d| ==> IsDigit(d[k]);
    assert forall k :: 0 <= k < |line| ==> line[k] != '\n' by {
      forall k | 0 <= k < |line|
        ensures line[k] != '\n'
      {
        if k > |key| + 1 {
          assert line[k] == d[k - |key| - 2];
        }
      }
    }
  }

  lemma LeadingSpace(s: string)
    ensures Strip(" " + s, Whitespace) == Strip(s, Whitespace)
  {
    StripSkip(" " + s, Whitespace);
    assert (" " + s)[1..] == s;
  }

  lemma DecimalNoSeparators(n: nat)
    ensures RemoveChars(DecimalString(n), Separators) == DecimalString(n)
  {
    var d := DecimalString(n);
    assert forall k :: 0 <= k < |d| ==> IsDigit(d[k]);
  }
}
