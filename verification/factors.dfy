/** The two metadata factors and the risk level of `ExtensionRiskScorer`:
    `calculate_user_factor`, `calculate_rating_factor` and `get_risk_level`.
    Every score is kept in integer half-points, so 0.5 is 1 and 18 is 36. */
module Factors {
  import opened Wrappers
  import opened Seqs
  import opened Text

  /** A score in half-points. */
  type HalfPoints = int

  /** A value handed to a factor: Python `None`, an `int`, a `float`, a `str`, or
      any other value (a list, a dict) that `int()` and `float()` refuse. */
  datatype Raw = Null | Int(i: int) | Float(x: real) | Str(text: string) | Other

  /** `int(x)` of a float: truncation toward zero. */
  function Trunc(x: real): (n: int)
    ensures x >= 0.0 ==> n >= 0 && n as real <= x < n as real + 1.0
    ensures x < 0.0 ==> n <= 0 && n as real - 1.0 < x <= n as real
  {
    if x >= 0.0 then x.Floor else -((-x).Floor)
  }

  /** The characters both factors delete from a string before converting it. */
  const Separators: set<char> := {',', ' '}

  /** How both factors turn a count into an `int`: `None` is 0, a string loses its
      commas and spaces and goes through `int()`, a float is truncated, anything
      else raises (`None` here). */
  function ToCount(raw: Raw): (r: Option<int>)
    ensures raw.Null? ==> r == Some(0)
    ensures raw.Int? ==> r == Some(raw.i)
    ensures raw.Float? ==> r == Some(Trunc(raw.x))
    ensures raw.Other? ==> r.None?
    ensures raw.Str? && IsDigits(RemoveChars(raw.text, Separators)) ==>
              r == Some(DigitsValue(RemoveChars(raw.text, Separators)))
    ensures raw.Str? ==> r == ParseInt(RemoveChars(raw.text, Separators))
  {
    match raw
    case Null => Some(0)
    case Int(i) => Some(i)
    case Float(x) => Some(Trunc(x))
    case Str(t) => ParseInt(RemoveChars(t, Separators))
    case Other => None
  }

  /** Deleting the separators twice deletes nothing more. */
  lemma RemoveSeparatorsIdempotent(t: string)
    ensures RemoveChars(RemoveChars(t, Separators), Separators) == RemoveChars(t, Separators)
  {
    var c := RemoveChars(t, Separators);
    assert forall k :: 0 <= k < |c| ==> c[k] !in Separators;
  }

  /** The count coercion agrees across representations: `None` counts as the
      integer 0, a whole float as its integer, and a string as the same string with
      its commas and spaces already deleted. */
  lemma CountCoercionAgrees(i: int, t: string)
    ensures ToCount(Null) == ToCount(Int(0))
    ensures ToCount(Float(i as real)) == ToCount(Int(i))
    ensures ToCount(Str(t)) == ToCount(Str(RemoveChars(t, Separators)))
  {
    RemoveSeparatorsIdempotent(t);
    TruncWhole(i);
  }

  /** Truncating a whole number gives it back. */
  lemma TruncWhole(i: int)
    ensures Trunc(i as real) == i
  {
    if i >= 0 {
      assert (i as real).Floor == i;
    } else {
      assert -(i as real) == (-i) as real;
      assert ((-i) as real).Floor == -i;
    }
  }

  // ------------------------------------------------------------ user factor

  /** The user-count breakpoints, in increasing order. */
  const UserBreakpoints: seq<int> := [1000, 10000, 100000, 1000000]

  /** The step function of `calculate_user_factor`: 0, 0.5, 1.0, 1.5 or 2.0 points. */
  function UserFactorOfCount(n: int): (f: HalfPoints)
    ensures 0 <= f <= 4
    ensures n < 1000 ==> f == 0
    ensures n >= 1000000 ==> f == 4
  {
    if n >= 1000000 then 4
    else if n >= 100000 then 3
    else if n >= 10000 then 2
    else if n >= 1000 then 1
    else 0
  }

  /** The factor is half a point per breakpoint the count reaches. */
  lemma UserFactorByBreakpoints(n: int)
    ensures UserFactorOfCount(n) == CountWhere((b: int) => b <= n, UserBreakpoints)
  {
    var p := (b: int) => b <= n;
    assert UserBreakpoints[1..] == [10000, 100000, 1000000];
    assert UserBreakpoints[2..] == [100000, 1000000];
    assert UserBreakpoints[3..] == [1000000];
    assert UserBreakpoints[4..] == [];
    assert CountWhere(p, UserBreakpoints[3..]) == (if p(1000000) then 1 else 0);
  }

  /** More users never give a smaller factor. */
  lemma UserFactorMonotone(a: int, b: int)
    requires a <= b
    ensures UserFactorOfCount(a) <= UserFactorOfCount(b)
  {
  }

  /** The four breakpoints are inclusive lower bounds. */
  lemma UserFactorBoundaries()
    ensures UserFactorOfCount(999) == 0 && UserFactorOfCount(1000) == 1
    ensures UserFactorOfCount(9999) == 1 && UserFactorOfCount(10000) == 2
    ensures UserFactorOfCount(99999) == 2 && UserFactorOfCount(100000) == 3
    ensures UserFactorOfCount(999999) == 3 && UserFactorOfCount(1000000) == 4
  {
  }

  /** `calculate_user_factor`: the step function of the coerced count, or 0 when
      the coercion raises. */
  function UserFactor(raw: Raw): (f: HalfPoints)
    ensures 0 <= f <= 4
    ensures ToCount(raw).None? ==> f == 0
    ensures ToCount(raw).Some? ==> f == UserFactorOfCount(ToCount(raw).value)
  {
    match ToCount(raw)
    case None => 0
    case Some(n) => UserFactorOfCount(n)
  }

  /** A count written out in decimal scores as the number itself. */
  lemma UserFactorOfDecimalText(n: int)
    ensures UserFactor(Str(IntToString(n))) == UserFactor(Int(n))
  {
    NoSeparatorsInDecimal(n);
    IntToStringRoundTrip(n);
  }

  lemma NoSeparatorsInDecimal(n: int)
    ensures RemoveChars(IntToString(n), Separators) == IntToString(n)
  {
    var d := DecimalString(if n < 0 then -n else n);
    assert forall k :: 0 <= k < |d| ==> IsDigit(d[k]);
    assert forall k :: 0 <= k < |IntToString(n)| ==> IntToString(n)[k] !in Separators;
  }

  /** A count padded with an information separator is not a number for `int()`,
      so the factor falls back to 0 although the digits name 5000 users. */
  lemma SeparatorPaddedCountScoresZero()
    ensures ToCount(Str("\U{1C}5000")) == None
    ensures UserFactor(Str("\U{1C}5000")) == 0
    ensures UserFactor(Int(5000)) == 1
  {
    var s := "\U{1C}5000";
    assert forall k :: 0 <= k < |s| ==> s[k] !in Separators;
    SeparatorPaddingRejected();
  }

  // ---------------------------------------------------------- rating factor

  /** How `calculate_rating_factor` turns a rating into a `float`: `None` is 5.0,
      a string loses its commas and spaces and goes to the float parser, anything
      other than a number or string raises. */
  function ToRating(raw: Raw, parseFloat: string -> Option<real>): (r: Option<real>)
    ensures raw.Null? ==> r == Some(5.0)
    ensures raw.Int? ==> r == Some(raw.i as real)
    ensures raw.Float? ==> r == Some(raw.x)
    ensures raw.Str? ==> r == parseFloat(RemoveChars(raw.text, Separators))
    ensures raw.Other? ==> r.None?
  {
    match raw
    case Null => Some(5.0)
    case Int(i) => Some(i as real)
    case Float(x) => Some(x)
    case Str(t) => parseFloat(RemoveChars(t, Separators))
    case Other => None
  }

  /** The rating coercion agrees across representations: `None` rates as the
      float 5.0, an integer as the same float, and a string as the same string with
      its commas and spaces already deleted. */
  lemma RatingCoercionAgrees(i: int, t: string, parseFloat: string -> Option<real>)
    ensures ToRating(Null, parseFloat) == ToRating(Float(5.0), parseFloat)
    ensures ToRating(Int(i), parseFloat) == ToRating(Float(i as real), parseFloat)
    ensures ToRating(Str(t), parseFloat) == ToRating(Str(RemoveChars(t, Separators)), parseFloat)
  {
    RemoveSeparatorsIdempotent(t);
  }

  /** The first-match cascade of `calculate_rating_factor`: -1.5, -1.0, -0.5, +1.0,
      +0.5 or 0 points. */
  function RatingCascade(rating: real, reviews: int): (f: HalfPoints)
    ensures -3 <= f <= 2
  {
    if rating >= 4.5 && reviews >= 1000 then -3
    else if rating >= 4.0 && reviews >= 500 then -2
    else if rating >= 3.5 && reviews >= 100 then -1
    else if rating < 2.5 || reviews < 10 then 2
    else if rating < 3.0 then 1
    else 0
  }

  /** The factor is a bonus exactly when the rating reaches 3.5 with at least 100
      reviews; fewer than 10 reviews always cost a full point, whatever the
      rating; a rating under 2.5 always costs a full point. */
  lemma RatingCascadeCases(rating: real, reviews: int)
    ensures RatingCascade(rating, reviews) < 0 <==> rating >= 3.5 && reviews >= 100
    ensures reviews < 10 ==> RatingCascade(rating, reviews) == 2
    ensures rating < 2.5 ==> RatingCascade(rating, reviews) == 2
    ensures RatingCascade(rating, reviews) == 1 <==> 2.5 <= rating < 3.0 && reviews >= 10
    ensures RatingCascade(rating, reviews) == 0 <==>
              3.0 <= rating && reviews >= 10 && !(rating >= 3.5 && reviews >= 100)
  {
  }

  /** A better rating never gives a larger factor. */
  lemma RatingCascadeAntitoneInRating(r1: real, r2: real, reviews: int)
    requires r1 <= r2
    ensures RatingCascade(r2, reviews) <= RatingCascade(r1, reviews)
  {
  }

  /** More reviews never give a larger factor. */
  lemma RatingCascadeAntitoneInReviews(rating: real, n1: int, n2: int)
    requires n1 <= n2
    ensures RatingCascade(rating, n2) <= RatingCascade(rating, n1)
  {
  }

  /** `calculate_rating_factor`: the cascade over the coerced rating and review
      count, or 0 when either coercion raises. */
  function RatingFactor(rating: Raw, reviews: Raw, parseFloat: string -> Option<real>): (f: HalfPoints)
    ensures -3 <= f <= 2
    ensures ToRating(rating, parseFloat).None? || ToCount(reviews).None? ==> f == 0
    ensures ToRating(rating, parseFloat).Some? && ToCount(reviews).Some? ==>
              f == RatingCascade(ToRating(rating, parseFloat).value, ToCount(reviews).value)
  {
    match (ToRating(rating, parseFloat), ToCount(reviews))
    case (Some(x), Some(n)) => RatingCascade(x, n)
    case _ => 0
  }

  /** A highly rated extension with only five reviews still gets +1.0. */
  lemma FewReviewsPenalised(parseFloat: string -> Option<real>)
    ensures RatingFactor(Float(4.6), Int(5), parseFloat) == 2
  {
  }

  // ------------------------------------------------------------- risk level

  /** The five levels of `get_risk_level`, in increasing severity. */
  datatype RiskLevel = NoRisk | Low | Medium | High | Critical

  /** The position of a level in the order No Risk < Low < Medium < High < Critical. */
  function Severity(l: RiskLevel): (s: nat)
    ensures s <= 4
  {
    match l
    case NoRisk => 0
    case Low => 1
    case Medium => 2
    case High => 3
    case Critical => 4
  }

  /** The name `get_risk_level` returns for a level. */
  function LevelName(l: RiskLevel): string {
    match l
    case NoRisk => "No Risk"
    case Low => "Low"
    case Medium => "Medium"
    case High => "High"
    case Critical => "Critical"
  }

  /** The level thresholds 1, 6, 12 and 18 points, in half-points. */
  const LevelThresholds: seq<int> := [2, 12, 24, 36]

  /** `get_risk_level` of a total in half-points. */
  function Level(total: HalfPoints): (l: RiskLevel)
    ensures total < 2 <==> l == NoRisk
    ensures total >= 36 <==> l == Critical
  {
    if total >= 36 then Critical
    else if total >= 24 then High
    else if total >= 12 then Medium
    else if total >= 2 then Low
    else NoRisk
  }

  /** A level's severity is the number of thresholds its total reaches. */
  lemma LevelByThresholds(total: HalfPoints)
    ensures Severity(Level(total)) == CountWhere((b: int) => b <= total, LevelThresholds)
  {
    var p := (b: int) => b <= total;
    assert LevelThresholds[1..] == [12, 24, 36];
    assert LevelThresholds[2..] == [24, 36];
    assert LevelThresholds[3..] == [36];
    assert LevelThresholds[4..] == [];
    assert CountWhere(p, LevelThresholds[3..]) == (if p(36) then 1 else 0);
  }

  /** A higher total never gets a lower level. */
  lemma LevelMonotone(a: HalfPoints, b: HalfPoints)
    requires a <= b
    ensures Severity(Level(a)) <= Severity(Level(b))
  {
  }
}
