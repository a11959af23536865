/**
 * Shared vocabulary of the procurement model: Java's nullable references
 * (Option), exceptions (Result), the CHANGED/UNCHANGED answer of every
 * setter, the text-length clamp applied by the setters, and the decimal and
 * boolean text conversions that the XML serializers rely on.
 */
module Common {

  datatype Option<T> = None | Some(value: T)

  /** The kinds of exception the modelled Java code throws. */
  datatype Error =
    | NullPointer(what: string)        // NullPointerException
    | IllegalArgument(what: string)    // IllegalArgumentException
    | IllegalState(what: string)       // IllegalStateException

  datatype Result<T> = Ok(value: T) | Err(error: Error)

  /** EChange: the answer of every setter. */
  datatype Change = Changed | Unchanged

  /** CHANGED exactly when the stored value differs from the new one. */
  function ChangeOf<T(==)>(current: T, proposed: T): (r: Change)
    ensures r == Unchanged <==> current == proposed
  {
    if current == proposed then Unchanged else Changed
  }

  /** StringHelper.hasText: not null and not empty. */
  predicate HasText(s: Option<string>)
  {
    s.Some? && |s.value| > 0
  }

  /** ILLEGAL_UINT of CGlobal: the marker for "no valid id". */
  const ILLEGAL_UINT: int := -1

  /**
   * The maximum text lengths of CProcLengthConstraints. That class is not part
   * of this model, so the values are left unspecified: every property proved
   * here holds whatever they are.
   */
  const LENGTH_TEXT: nat
  const LENGTH_TEXT_LONG: nat

  /**
   * MasterdataUtils.getEnsuredLength: null stays null, a text longer than the
   * maximum is cut to its first max characters, a shorter one is kept.
   */
  function EnsuredLength(s: Option<string>, max: nat): (r: Option<string>)
    ensures r.None? <==> s.None?
    ensures r.Some? ==> |r.value| <= max && r.value <= s.value
    ensures s.Some? && |s.value| <= max ==> r == s
    ensures s.Some? && |s.value| > max ==> |r.value| == max
  {
    match s
    case None => None
    case Some(t) => if |t| <= max then s else Some(t[..max])
  }

  /** Clamping twice is clamping once, so a setter called again reports UNCHANGED. */
  lemma EnsuredLengthIdempotent(s: Option<string>, max: nat)
    ensures EnsuredLength(EnsuredLength(s, max), max) == EnsuredLength(s, max)
  {
  }

  predicate FitsIn(s: Option<string>, max: nat)
  {
    s.None? || |s.value| <= max
  }

  /**
   * A clamping setter: it stores the argument cut to `max` characters and
   * answers CHANGED exactly when that differs from the value held before.
   */
  function ClampedSet(current: Option<string>, s: Option<string>, max: nat): (r: (Option<string>, Change))
    ensures r.0 == EnsuredLength(s, max) && FitsIn(r.0, max)
    ensures r.1 == Unchanged <==> current == EnsuredLength(s, max)
  {
    var clamped := EnsuredLength(s, max);
    (clamped, ChangeOf(current, clamped))
  }

  /** Calling a clamping setter a second time with the same argument changes nothing. */
  lemma ClampedSetRepeat(current: Option<string>, s: Option<string>, max: nat)
    ensures var (v, _) := ClampedSet(current, s, max); ClampedSet(v, s, max) == (v, Unchanged)
  {
  }

  /** A value that already fits is stored as it is. */
  lemma ClampedSetKeepsFitting(current: Option<string>, s: Option<string>, max: nat)
    requires FitsIn(s, max)
    ensures ClampedSet(current, s, max).0 == s
  {
  }

  /**
   * The lookups getXOfID of the domain objects: the index of the first
   * element satisfying p, or None when there is none.
   */
  function FirstMatch<T>(xs: seq<T>, p: T -> bool): (r: Option<nat>)
    ensures r.Some? ==> r.value < |xs| && p(xs[r.value]) && forall j :: 0 <= j < r.value ==> !p(xs[j])
    ensures r.None? ==> forall j :: 0 <= j < |xs| ==> !p(xs[j])
  {
    if |xs| == 0 then None
    else if p(xs[0]) then Some(0)
    else match FirstMatch(xs[1..], p)
         case None => None
         case Some(k) => Some(k + 1)
  }

  /** A list setter's normalisation: an empty list is stored as null. */
  function NonEmpty<T>(xs: seq<T>): (r: Option<seq<T>>)
    ensures r.None? <==> |xs| == 0
    ensures r.Some? ==> r.value == xs
  {
    if |xs| == 0 then None else Some(xs)
  }

  /**
   * A reading loop that builds a list element by element and stops at the
   * first element it cannot read: f gets each position and element in turn.
   */
  function MapResult<A, B>(xs: seq<A>, f: (nat, A) -> Result<B>): (r: Result<seq<B>>)
    ensures r.Ok? <==> forall i :: 0 <= i < |xs| ==> f(i, xs[i]).Ok?
    ensures r.Ok? ==> |r.value| == |xs| && forall i :: 0 <= i < |xs| ==> f(i, xs[i]) == Ok(r.value[i])
    ensures r.Err? ==> exists i :: 0 <= i < |xs| && f(i, xs[i]) == Err(r.error)
                                   && forall j :: 0 <= j < i ==> f(j, xs[j]).Ok?
    decreases |xs|
  {
    if |xs| == 0 then Ok([])
    else
      match MapResult(xs[..|xs| - 1], f)
      case Err(e) => Err(e)
      case Ok(init) =>
        match f(|xs| - 1, xs[|xs| - 1])
        case Err(e) => Err(e)
        case Ok(y) => Ok(init + [y])
  }

  // ---------------------------------------------------------------------
  // Decimal text of integers (Integer.toString / Integer.parseInt)
  // ---------------------------------------------------------------------

  const INT_MIN: int := -0x8000_0000
  const INT_MAX: int := 0x7FFF_FFFF
  const LONG_MIN: int := -0x8000_0000_0000_0000
  const LONG_MAX: int := 0x7FFF_FFFF_FFFF_FFFF

  predicate IsInt32(n: int) { INT_MIN <= n <= INT_MAX }

  predicate IsDigit(c: char) { '0' <= c <= '9' }

  predicate AllDigits(s: string)
  {
    forall i :: 0 <= i < |s| ==> IsDigit(s[i])
  }

  function DigitChar(d: nat): (c: char)
    requires d < 10
    ensures IsDigit(c)
  {
    ('0' as int + d) as char
  }

  /** The decimal digits of n, most significant first, without leading zeros. */
  function NatToDigits(n: nat): (s: string)
    ensures |s| > 0 && AllDigits(s)
    decreases n
  {
    if n < 10 then [DigitChar(n)] else NatToDigits(n / 10) + [DigitChar(n % 10)]
  }

  /** The value of a string of decimal digits. */
  function DigitsValue(s: string): nat
    requires AllDigits(s)
    decreases |s|
  {
    if |s| == 0 then 0
    else DigitsValue(s[..|s| - 1]) * 10 + (s[|s| - 1] as int - '0' as int)
  }

  lemma {:induction false} DigitsValueOfNatToDigits(n: nat)
    ensures DigitsValue(NatToDigits(n)) == n
    decreases n
  {
    var s := NatToDigits(n);
    if n >= 10 {
      DigitsValueOfNatToDigits(n / 10);
      assert s[..|s| - 1] == NatToDigits(n / 10);
    }
  }

  /** Integer.toString / Long.toString: an optional minus sign and the digits. */
  function IntToString(n: int): (s: string)
    ensures |s| > 0
  {
    if n < 0 then "-" + NatToDigits(-n) else NatToDigits(n)
  }

  /**
   * The value of decimal text as Long.parseLong reads it: an optional '+' or
   * '-' sign followed by at least one ASCII digit; anything else is None.
   * The range check is left to the caller.
   */
  function DecimalValue(s: string): (r: Option<int>)
    ensures r.Some? ==> |s| > 0
  {
    if |s| == 0 then None
    else if s[0] == '-' || s[0] == '+' then
      var digits := s[1..];
      if |digits| > 0 && AllDigits(digits) then
        var v: int := DigitsValue(digits);
        Some(if s[0] == '-' then -v else v)
      else None
    else if AllDigits(s) then Some(DigitsValue(s))
    else None
  }

  /**
   * StringParser.parseInt(s, default): the value of s when it is decimal text
   * within the 32-bit range, otherwise the default (also for null).
   */
  function ParseInt(s: Option<string>, default: int): (r: int)
    ensures s.None? ==> r == default
    ensures r == default || IsInt32(r)
  {
    match s
    case None => default
    case Some(t) =>
      match DecimalValue(t)
      case Some(v) => if IsInt32(v) then v else default
      case None => default
  }

  /** StringParser.parseLong(s, default): as ParseInt, for the 64-bit range. */
  function ParseLong(s: Option<string>, default: int): (r: int)
    ensures s.None? ==> r == default
    ensures r == default || LONG_MIN <= r <= LONG_MAX
  {
    match s
    case None => default
    case Some(t) =>
      match DecimalValue(t)
      case Some(v) => if LONG_MIN <= v <= LONG_MAX then v else default
      case None => default
  }

  /** Unsigned and minus-signed digit strings have the value of their digits. */
  lemma DecimalValueOfDigits(d: string)
    requires |d| > 0 && AllDigits(d)
    ensures DecimalValue(d) == Some(DigitsValue(d))
    ensures DecimalValue("-" + d) == Some(-(DigitsValue(d) as int))
  {
    assert IsDigit(d[0]);
    assert ("-" + d)[0] == '-' && ("-" + d)[1..] == d;
  }

  lemma DecimalValueOfIntToString(n: int)
    ensures DecimalValue(IntToString(n)) == Some(n)
  {
    var d := NatToDigits(if n < 0 then -n else n);
    DigitsValueOfNatToDigits(if n < 0 then -n else n);
    DecimalValueOfDigits(d);
  }

  /** Every 32-bit int written with Integer.toString is read back by parseInt. */
  lemma ParseIntOfIntToString(n: int, default: int)
    requires IsInt32(n)
    ensures ParseInt(Some(IntToString(n)), default) == n
  {
    DecimalValueOfIntToString(n);
  }

  /** The same for 64-bit longs and parseLong. */
  lemma ParseLongOfIntToString(n: int, default: int)
    requires LONG_MIN <= n <= LONG_MAX
    ensures ParseLong(Some(IntToString(n)), default) == n
  {
    DecimalValueOfIntToString(n);
  }

  // ---------------------------------------------------------------------
  // Boolean text (Boolean.toString / StringParser.parseBool)
  // ---------------------------------------------------------------------

  function BoolToString(b: bool): (s: string)
    ensures |s| > 0
  {
    if b then "true" else "false"
  }

  function LowerAscii(c: char): (l: char)
    ensures 'A' <= c <= 'Z' ==> l as int == c as int + 32
    ensures !('A' <= c <= 'Z') ==> l == c
  {
    if 'A' <= c <= 'Z' then (c as int + 32) as char else c
  }

  /**
   * StringParser.parseBool(s, default): null gives the default; otherwise
   * Boolean.parseBoolean, which is true exactly for "true" in any letter case.
   */
  function ParseBool(s: Option<string>, default: bool): (r: bool)
    ensures s.None? ==> r == default
    ensures s.Some? ==> (r <==> |s.value| == 4 && LowerAscii(s.value[0]) == 't' && LowerAscii(s.value[1]) == 'r'
                                 && LowerAscii(s.value[2]) == 'u' && LowerAscii(s.value[3]) == 'e')
  {
    match s
    case None => default
    case Some(t) =>
      |t| == 4 && LowerAscii(t[0]) == 't' && LowerAscii(t[1]) == 'r'
      && LowerAscii(t[2]) == 'u' && LowerAscii(t[3]) == 'e'
  }

  /** A flag written with Boolean.toString is read back, whatever the default. */
  lemma ParseBoolOfBoolToString(b: bool, default: bool)
    ensures ParseBool(Some(BoolToString(b)), default) == b
  {
  }
}
