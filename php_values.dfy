/** The PHP values that reach the loan handlers after `json_decode($body, true)`, and the
    engine conversions the handlers apply to them: `isset`, the `(int)` cast (and
    `settype($v, 'int')`, which is the same conversion), and integer-to-string interpolation. */
module PhpValues {

  /** One decoded JSON value.  Objects and lists both decode to PHP arrays; a nested array or a
      float is `JOther`, carrying the integer the engine's `(int)` gives for it. */
  datatype JVal =
    | JNull
    | JBool(b: bool)
    | JInt(i: int)
    | JStr(s: string)
    | JOther(cast: int)

  /** A decoded JSON object (or list, keyed "0", "1", ...) as a PHP array. */
  type Payload = map<string, JVal>

  /** `isset($data[$key])`: the key is present and its value is not null. */
  predicate IsSet(data: Payload, key: string)
  {
    key in data && !data[key].JNull?
  }

  predicate IsDigit(c: char)
  {
    '0' <= c <= '9'
  }

  /** The whitespace PHP skips in front of a numeric string. */
  predicate IsSpace(c: char)
  {
    c == ' ' || c == '\t' || c == '\n' || c == '\r' || c == '\U{000B}' || c == '\U{000C}'
  }

  function DigitValue(c: char): int
    requires IsDigit(c)
  {
    c as int - '0' as int
  }

  function DigitChar(d: int): char
    requires 0 <= d < 10
  {
    ('0' as int + d) as char
  }

  predicate AllSpace(w: string)
  {
    forall c | c in w :: IsSpace(c)
  }

  /** The whitespace that the engine skips before reading a number. */
  function TrimLeadingSpace(s: string): (t: string)
    ensures |t| <= |s|
    ensures t == [] || !IsSpace(t[0])
  {
    if |s| > 0 && IsSpace(s[0]) then TrimLeadingSpace(s[1..]) else s
  }

  /** What the trim drops is a run of whitespace, and what it keeps is the rest of the string,
      starting at its first character that is not whitespace. */
  lemma {:induction false} TrimLeadingSpaceDropsWhitespace(s: string)
    ensures var t := TrimLeadingSpace(s);
      t == s[|s| - |t|..] && AllSpace(s[..|s| - |t|]) && (t == [] || !IsSpace(t[0]))
  {
    if |s| > 0 && IsSpace(s[0]) {
      TrimLeadingSpaceDropsWhitespace(s[1..]);
      var t := TrimLeadingSpace(s);
      assert s[1..][|s[1..]| - |t|..] == s[|s| - |t|..];
      assert s[..|s| - |t|] == [s[0]] + s[1..][..|s[1..]| - |t|];
    }
  }

  /** The longest prefix of `s` made of decimal digits. */
  function DigitPrefix(s: string): (d: string)
    ensures |d| <= |s| && d == s[..|d|]
    ensures forall c | c in d :: IsDigit(c)
    ensures |d| < |s| ==> !IsDigit(s[|d|])
  {
    if |s| > 0 && IsDigit(s[0]) then [s[0]] + DigitPrefix(s[1..]) else []
  }

  /** The number a string of decimal digits denotes. */
  function DigitsValue(d: string): (n: nat)
    requires forall c | c in d :: IsDigit(c)
  {
    if |d| == 0 then 0 else DigitsValue(d[..|d| - 1]) * 10 + DigitValue(d[|d| - 1])
  }

  /** `(int)` of a string: skip leading whitespace, read an optional sign, then the run of digits
      that follows; a string with no such digits gives 0. */
  function LeadingInt(s: string): int
  {
    var t := TrimLeadingSpace(s);
    if |t| > 0 && t[0] == '-' then -(DigitsValue(DigitPrefix(t[1..])) as int)
    else if |t| > 0 && t[0] == '+' then DigitsValue(DigitPrefix(t[1..]))
    else DigitsValue(DigitPrefix(t))
  }

  /** `(int) $v` and `settype($v, 'int')` on a decoded JSON value. */
  function IntCast(v: JVal): int
  {
    match v
    case JNull => 0
    case JBool(b) => if b then 1 else 0
    case JInt(i) => i
    case JStr(s) => LeadingInt(s)
    case JOther(c) => c
  }

  /** The decimal text of a natural number, as PHP writes it. */
  function NatToString(n: nat): (s: string)
    ensures |s| > 0
    ensures forall c | c in s :: IsDigit(c)
  {
    if n < 10 then [DigitChar(n)] else NatToString(n / 10) + [DigitChar(n % 10)]
  }

  /** `"{$n}"`: the decimal text PHP interpolates for an integer. */
  function IntToString(n: int): (s: string)
    ensures |s| > 0
    ensures forall c | c in s :: IsDigit(c) || c == '-'
  {
    if n < 0 then "-" + NatToString(-n) else NatToString(n)
  }

  lemma {:induction false} DigitsValueOfNatToString(n: nat)
    ensures DigitsValue(NatToString(n)) == n
  {
    var s := NatToString(n);
    if n >= 10 {
      DigitsValueOfNatToString(n / 10);
      assert s[..|s| - 1] == NatToString(n / 10);
    }
  }

  lemma {:induction false} DigitPrefixOfDigitsThenOther(d: string, t: string)
    requires forall c | c in d :: IsDigit(c)
    requires t == [] || !IsDigit(t[0])
    ensures DigitPrefix(d + t) == d
  {
    if |d| > 0 {
      assert (d + t)[1..] == d[1..] + t;
      DigitPrefixOfDigitsThenOther(d[1..], t);
    }
  }

  /** Reading back the text of an integer through `(int)` gives the integer, even when other
      text that is not a digit follows it: `(int) "12abc"` is 12. */
  lemma LeadingIntOfIntToString(n: int, t: string)
    requires t == [] || !IsDigit(t[0])
    ensures LeadingInt(IntToString(n) + t) == n
  {
    var m: nat := if n < 0 then -n else n;
    var digits := NatToString(m);
    DigitsValueOfNatToString(m);
    if n < 0 {
      var s := IntToString(n) + t;
      assert s == "-" + (digits + t);
      assert TrimLeadingSpace(s) == s;
      assert s[1..] == digits + t;
      DigitPrefixOfDigitsThenOther(digits, t);
    } else {
      assert digits[0] in digits;
      assert TrimLeadingSpace(digits + t) == digits + t;
      DigitPrefixOfDigitsThenOther(digits, t);
    }
  }

  /** The cast of the text of an integer is that integer: the only strings the handlers ever
      write into SQL read back as the values they came from. */
  lemma CastOfIntString(n: int)
    ensures IntCast(JStr(IntToString(n))) == n
  {
    LeadingIntOfIntToString(n, []);
    assert IntToString(n) + [] == IntToString(n);
  }

  /** Whitespace in front of a numeric string does not change its cast. */
  lemma {:induction false} LeadingIntSkipsSpace(ws: string, s: string)
    requires forall c | c in ws :: IsSpace(c)
    ensures LeadingInt(ws + s) == LeadingInt(s)
  {
    if |ws| > 0 {
      assert (ws + s)[1..] == ws[1..] + s;
      LeadingIntSkipsSpace(ws[1..], s);
      assert TrimLeadingSpace(ws + s) == TrimLeadingSpace(ws[1..] + s);
    } else {
      assert ws + s == s;
    }
  }

  /** A string with no digit right after its leading whitespace and optional sign casts to 0. */
  lemma LeadingIntOfNonNumeric(s: string)
    requires var t := TrimLeadingSpace(s);
      var r := if |t| > 0 && (t[0] == '-' || t[0] == '+') then t[1..] else t;
      r == [] || !IsDigit(r[0])
    ensures LeadingInt(s) == 0
  {
  }
}
