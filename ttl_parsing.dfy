/**
  The two time helpers of the orchestrator: reading a TTL string such as
  "3600s" or "1.5s" as seconds, and turning a remote `expireTime` timestamp
  into the seconds still left. Values are exact reals; timestamp parsing is
  the parameter `fromIsoFormat` (epoch seconds, or None when it fails).
*/
module TtlParsing {
  import opened Wrappers

  /** The TTL used when none is given or the given one cannot be read. */
  const DefaultTtlSeconds: real := 3600.0

  predicate IsDigit(c: char)
  {
    '0' <= c <= '9'
  }

  predicate AllDigits(s: string)
  {
    forall i :: 0 <= i < |s| ==> IsDigit(s[i])
  }

  function DigitValue(c: char): nat
    requires IsDigit(c)
  {
    c as int - '0' as int
  }

  /** The number written by a string of decimal digits, most significant first ("" is 0). */
  function DigitsValue(s: string): nat
    requires AllDigits(s)
  {
    if s == [] then 0 else 10 * DigitsValue(s[..|s| - 1]) + DigitValue(s[|s| - 1])
  }

  function Pow10(n: nat): (p: nat)
    ensures p > 0
  {
    if n == 0 then 1 else 10 * Pow10(n - 1)
  }

  /** The position of the first '.' in s, if there is one. */
  function DotIndex(s: string): (r: Option<nat>)
    ensures r.Some? ==> r.value < |s| && s[r.value] == '.' && forall j :: 0 <= j < r.value ==> s[j] != '.'
    ensures r.None? ==> forall j :: 0 <= j < |s| ==> s[j] != '.'
  {
    if s == [] then None
    else if s[0] == '.' then Some(0)
    else match DotIndex(s[1..])
      case None => None
      case Some(i) => Some(i + 1)
  }

  /** Whether s as a whole matches `[0-9]*\.?[0-9]+`: digits, or digits, a dot and at least one digit. */
  predicate IsDecimal(s: string)
  {
    match DotIndex(s)
    case None => |s| > 0 && AllDigits(s)
    case Some(i) => AllDigits(s[..i]) && i + 1 < |s| && AllDigits(s[i + 1..])
  }

  /** The language of `[0-9]*\.?[0-9]+`, written as the grammar: optional digits, an optional dot, then digits. */
  ghost predicate InDecimalLanguage(s: string)
  {
    exists a: string, b: string :: AllDigits(a) && AllDigits(b) && |b| > 0 && (s == a + b || s == a + "." + b)
  }

  /** The value Python's `float` gives a string matching `[0-9]*\.?[0-9]+`, without rounding. */
  function DecimalValue(s: string): real
    requires IsDecimal(s)
  {
    match DotIndex(s)
    case None => DigitsValue(s) as real
    case Some(i) => DigitsValue(s[..i]) as real + DigitsValue(s[i + 1..]) as real / Pow10(|s| - i - 1) as real
  }

  /** Whether s matches `^([0-9]*\.?[0-9]+)s$`. */
  predicate IsTtlLiteral(s: string)
  {
    |s| > 0 && s[|s| - 1] == 's' && IsDecimal(s[..|s| - 1])
  }

  /**
    parse_ttl_to_seconds: the number of seconds a TTL string denotes; the
    default for an absent, empty or malformed string.
  */
  function ParseTtlToSeconds(ttl: Option<string>): (seconds: real)
    ensures seconds >= 0.0
    ensures !NonEmpty(ttl) ==> seconds == DefaultTtlSeconds
    ensures NonEmpty(ttl) && !IsTtlLiteral(ttl.value) ==> seconds == DefaultTtlSeconds
  {
    if !NonEmpty(ttl) then DefaultTtlSeconds
    else if !IsTtlLiteral(ttl.value) then DefaultTtlSeconds
    else DecimalValue(ttl.value[..|ttl.value| - 1])
  }

  /** The recogniser accepts exactly the grammar's language. */
  lemma IsDecimalMatchesGrammar(s: string)
    ensures IsDecimal(s) <==> InDecimalLanguage(s)
  {
    if IsDecimal(s) {
      DecimalIsInLanguage(s);
    }
    if InDecimalLanguage(s) {
      var a: string, b: string :| AllDigits(a) && AllDigits(b) && |b| > 0 && (s == a + b || s == a + "." + b);
      if s == a + b {
        DigitsAreDecimal(a, b);
      } else {
        DigitsDotDigitsAreDecimal(a, b);
      }
    }
  }

  lemma DecimalIsInLanguage(s: string)
    requires IsDecimal(s)
    ensures InDecimalLanguage(s)
  {
    match DotIndex(s)
    case None =>
      assert s == "" + s;
    case Some(i) =>
      assert s == s[..i] + "." + s[i + 1..];
  }

  lemma DigitsAreDecimal(a: string, b: string)
    requires AllDigits(a) && AllDigits(b) && |b| > 0
    ensures IsDecimal(a + b)
  {
    var s := a + b;
    forall j | 0 <= j < |s| ensures IsDigit(s[j]) {
      if j < |a| { assert s[j] == a[j]; } else { assert s[j] == b[j - |a|]; }
    }
    assert DotIndex(s).None?;
  }

  lemma DigitsDotDigitsAreDecimal(a: string, b: string)
    requires AllDigits(a) && AllDigits(b) && |b| > 0
    ensures IsDecimal(a + "." + b)
  {
    var s := a + "." + b;
    DotInDigitsDotDigits(a, b);
    assert s[..|a|] == a;
    assert s[|a| + 1..] == b;
  }

  /** In `a + "." + b` with `a` all digits, the first dot is the one after `a`. */
  lemma DotInDigitsDotDigits(a: string, b: string)
    requires AllDigits(a)
    ensures DotIndex(a + "." + b) == Some(|a|)
  {
    var s := a + "." + b;
    assert s[|a|] == '.';
    assert forall j :: 0 <= j < |a| ==> s[j] == a[j];
  }

  /** A whole number of seconds: `"<digits>s"` reads as that number. */
  lemma ParseWholeSeconds(a: string)
    requires AllDigits(a) && |a| > 0
    ensures ParseTtlToSeconds(Some(a + "s")) == DigitsValue(a) as real
  {
    var s := a + "s";
    assert s[..|s| - 1] == a;
    assert DotIndex(a).None?;
  }

  /** A fractional number of seconds: `"<digits>.<digits>s"` reads as whole part plus fraction. */
  lemma ParseFractionalSeconds(a: string, b: string)
    requires AllDigits(a) && AllDigits(b) && |b| > 0
    ensures ParseTtlToSeconds(Some(a + "." + b + "s")) == DigitsValue(a) as real + DigitsValue(b) as real / Pow10(|b|) as real
  {
    var s := a + "." + b + "s";
    var body := a + "." + b;
    assert s[..|s| - 1] == body;
    DotInDigitsDotDigits(a, b);
    assert body[..|a|] == a;
    assert body[|a| + 1..] == b;
    assert |body| - |a| - 1 == |b|;
    assert IsDecimal(body);
    assert DecimalValue(body) == DigitsValue(a) as real + DigitsValue(b) as real / Pow10(|b|) as real;
  }

  /** Anything outside `[0-9]*\.?[0-9]+s` reads as the default. */
  lemma ParseRejectsOthers(s: string)
    requires !(|s| > 0 && s[|s| - 1] == 's' && InDecimalLanguage(s[..|s| - 1]))
    ensures ParseTtlToSeconds(Some(s)) == DefaultTtlSeconds
  {
    if |s| > 0 && s[|s| - 1] == 's' {
      IsDecimalMatchesGrammar(s[..|s| - 1]);
    }
  }

  /** The decimal digits of n, most significant first. */
  function NatToDigits(n: nat): (s: string)
    ensures AllDigits(s) && |s| > 0
  {
    if n < 10 then ['0' + n as char] else NatToDigits(n / 10) + ['0' + (n % 10) as char]
  }

  lemma {:induction false} DigitsOfNat(n: nat)
    ensures DigitsValue(NatToDigits(n)) == n
  {
    var s := NatToDigits(n);
    if n >= 10 {
      DigitsOfNat(n / 10);
      assert s[..|s| - 1] == NatToDigits(n / 10);
    }
  }

  /** A TTL written the way the remote API writes one, `"<n>s"`, reads back as n seconds. */
  lemma ParseTtlRoundTrip(n: nat)
    ensures ParseTtlToSeconds(Some(NatToDigits(n) + "s")) == n as real
  {
    ParseWholeSeconds(NatToDigits(n));
    DigitsOfNat(n);
  }

  /** "3600s" reads as an hour. */
  lemma ParseTtlHourExample()
    ensures ParseTtlToSeconds(Some("3600s")) == 3600.0
  {
    assert "3600s" == "3600" + "s";
    assert "3600"[..3] == "360" && "360"[..2] == "36" && "36"[..1] == "3" && "3"[..0] == "";
    assert DigitsValue("3600") == 3600;
    ParseWholeSeconds("3600");
  }

  /** A fraction: "1.5s" reads as 1.5. */
  lemma ParseTtlFractionExample()
    ensures ParseTtlToSeconds(Some("1.5s")) == 1.5
  {
    assert "1.5s" == "1" + "." + "5" + "s";
    assert "1"[..0] == "" && "5"[..0] == "";
    assert DigitsValue("1") == 1 && DigitsValue("5") == 5;
    ParseFractionalSeconds("1", "5");
  }

  /** No whole part: ".5s" reads as 0.5. */
  lemma ParseTtlLeadingDotExample()
    ensures ParseTtlToSeconds(Some(".5s")) == 0.5
  {
    assert ".5s" == "" + "." + "5" + "s";
    assert "5"[..0] == "";
    assert DigitsValue("5") == 5;
    ParseFractionalSeconds("", "5");
  }

  /** A dot with no digit after it, or a missing unit, falls back to the default. */
  lemma ParseTtlRejectExamples()
    ensures ParseTtlToSeconds(Some("1.s")) == DefaultTtlSeconds
    ensures ParseTtlToSeconds(Some("3600")) == DefaultTtlSeconds
  {
    assert "1.s"[..2] == "1." && "1." == "1" + "." + "";
    DotInDigitsDotDigits("1", "");
  }

  /** Python's `s.replace(c, rep)`: every occurrence of c replaced. */
  function ReplaceAll(s: string, c: char, rep: string): (r: string)
    ensures c !in rep ==> c !in r
    ensures c !in s ==> r == s
    ensures |s| == 1 ==> r == (if s[0] == c then rep else s)
  {
    if s == [] then []
    else (if s[0] == c then rep else [s[0]]) + ReplaceAll(s[1..], c, rep)
  }

  /** Replacing in a concatenation is replacing in each part: every other character is kept, in order. */
  lemma {:induction false} ReplaceAllAppend(s: string, t: string, c: char, rep: string)
    ensures ReplaceAll(s + t, c, rep) == ReplaceAll(s, c, rep) + ReplaceAll(t, c, rep)
  {
    if s == [] {
      assert s + t == t;
    } else {
      assert (s + t)[0] == s[0];
      assert (s + t)[1..] == s[1..] + t;
      ReplaceAllAppend(s[1..], t, c, rep);
    }
  }

  /** A trailing 'Z' (UTC) is rewritten as the offset "+00:00" before parsing. */
  function NormalizeZulu(s: string): (r: string)
    ensures |s| > 0 && s[|s| - 1] == 'Z' ==> 'Z' !in r
    ensures |s| > 0 && s[|s| - 1] == 'Z' && 'Z' !in s[..|s| - 1] ==> r == s[..|s| - 1] + "+00:00"
    ensures !(|s| > 0 && s[|s| - 1] == 'Z') ==> r == s
  {
    if |s| > 0 && s[|s| - 1] == 'Z' then
      assert s == s[..|s| - 1] + "Z";
      ReplaceAllAppend(s[..|s| - 1], "Z", 'Z', "+00:00");
      ReplaceAll(s, 'Z', "+00:00")
    else s
  }

  /**
    parse_expire_time_to_remaining_ttl: None for an empty or unparsable
    timestamp or one not after `now`, otherwise the seconds remaining, which
    reach exactly the expiry time.
  */
  function ParseExpireTimeToRemainingTtl(expireTime: string, fromIsoFormat: string -> Option<real>, now: real): (remaining: Option<real>)
    ensures expireTime == "" ==> remaining == None
    ensures remaining.Some? ==> remaining.value > 0.0
    ensures remaining.Some? <==> (expireTime != "" && fromIsoFormat(NormalizeZulu(expireTime)).Some?
                                  && fromIsoFormat(NormalizeZulu(expireTime)).value > now)
    ensures remaining.Some? ==> now + remaining.value == fromIsoFormat(NormalizeZulu(expireTime)).value
  {
    if expireTime == "" then None
    else
      match fromIsoFormat(NormalizeZulu(expireTime))
      case None => None
      case Some(expiry) =>
        var remainingSeconds := expiry - now;
        if remainingSeconds <= 0.0 then None else Some(remainingSeconds)
  }
}
