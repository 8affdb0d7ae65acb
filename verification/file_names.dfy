/**
  The remote file's name, `year-planner-<year>.json`, and the metadata part that names it
  when the file is created.
 */
module FileNames {
  import opened Outcomes

  const Prefix: string := "year-planner-"
  const Suffix: string := ".json"

  predicate IsDigit(c: char) {
    '0' <= c <= '9'
  }

  predicate AllDigits(s: string) {
    forall i :: 0 <= i < |s| ==> IsDigit(s[i])
  }

  /** No carriage return anywhere in `s`. */
  predicate CrFree(s: string) {
    forall i :: 0 <= i < |s| ==> s[i] != '\r'
  }

  function DigitChar(d: nat): (c: char)
    requires d < 10
    ensures IsDigit(c) && (c as int) - ('0' as int) == d
  {
    (('0' as int) + d) as char
  }

  /** The decimal digits of `n`, most significant first, without leading zeros. */
  function Digits(n: nat): (s: string)
    ensures |s| >= 1 && AllDigits(s)
    ensures |s| > 1 ==> s[0] != '0'
    decreases n
  {
    if n < 10 then [DigitChar(n)] else Digits(n / 10) + [DigitChar(n % 10)]
  }

  /** How a JavaScript integer is written by a template literal: `-` then the digits when negative. */
  function DecimalString(n: int): (s: string)
    ensures |s| >= 1
    ensures s[0] == '-' <==> n < 0
  {
    if n < 0 then "-" + Digits(-n) else Digits(n)
  }

  /** The value of a string of decimal digits. */
  function DigitsValue(s: string): nat
    requires AllDigits(s)
  {
    if s == [] then 0 else DigitsValue(s[..|s| - 1]) * 10 + ((s[|s| - 1] as int) - ('0' as int))
  }

  /** Reads back what DecimalString writes. */
  function ParseDecimal(s: string): Option<int> {
    if |s| >= 2 && s[0] == '-' && AllDigits(s[1..]) then Some(0 - DigitsValue(s[1..]) as int)
    else if |s| >= 1 && AllDigits(s) then Some(DigitsValue(s))
    else None
  }

  lemma {:induction false} DigitsRoundTrip(n: nat)
    ensures DigitsValue(Digits(n)) == n
  {
    if n >= 10 {
      var s := Digits(n);
      assert s[..|s| - 1] == Digits(n / 10);
      DigitsRoundTrip(n / 10);
    }
  }

  lemma DecimalRoundTrip(n: int)
    ensures ParseDecimal(DecimalString(n)) == Some(n)
  {
    var s := DecimalString(n);
    if n < 0 {
      var digits := Digits(-n);
      assert s == "-" + digits;
      assert s[1..] == digits;
      DigitsRoundTrip(-n);
    } else {
      assert s == Digits(n);
      assert IsDigit(s[0]);
      DigitsRoundTrip(n);
    }
  }

  /** `year-planner-${selectedYear}.json` */
  function FileName(year: int): (name: string)
    ensures Prefix <= name
    ensures |name| >= |Prefix| + |Suffix| && name[|name| - |Suffix|..] == Suffix
    ensures CrFree(name)
  {
    var digits := DecimalString(year);
    assert CrFree(digits) by {
      if year < 0 { assert digits[1..] == Digits(-year); }
    }
    CrFreeConcat(Prefix, digits);
    CrFreeConcat(Prefix + digits, Suffix);
    Prefix + digits + Suffix
  }

  /** Reads the year back out of a file name. */
  function ParseFileName(name: string): Option<int> {
    if |name| >= |Prefix| + |Suffix| && name[..|Prefix|] == Prefix && name[|name| - |Suffix|..] == Suffix
    then ParseDecimal(name[|Prefix|..|name| - |Suffix|])
    else None
  }

  lemma FileNameRoundTrip(year: int)
    ensures ParseFileName(FileName(year)) == Some(year)
  {
    var name := FileName(year);
    assert name[|Prefix|..|name| - |Suffix|] == DecimalString(year);
    DecimalRoundTrip(year);
  }

  /** Different years are saved under different names. */
  lemma FileNameInjective(a: int, b: int)
    ensures FileName(a) == FileName(b) <==> a == b
  {
    FileNameRoundTrip(a);
    FileNameRoundTrip(b);
  }

  lemma CrFreeConcat(a: string, b: string)
    requires CrFree(a) && CrFree(b)
    ensures CrFree(a + b)
  {
    forall i | 0 <= i < |a + b|
      ensures (a + b)[i] != '\r'
    {
      if i >= |a| { assert (a + b)[i] == b[i - |a|]; }
    }
  }

  /** The text around the file name in the metadata JSON. */
  const MetadataOpen: string := "{\"name\":\""
  const MetadataClose: string := "\",\"mimeType\":\"application/json\"}"

  /**
    `JSON.stringify({ name: fileName, mimeType: "application/json" })`. The name holds only
    letters, digits, `-` and `.`, so it is written between quotes without escapes.
   */
  function MetadataJson(year: int): (json: string)
    ensures CrFree(json)
    ensures |json| > 2 && json[0] == '{' && json[|json| - 1] == '}'
    ensures |json| == |MetadataOpen| + |FileName(year)| + |MetadataClose|
    ensures json[|MetadataOpen|..|json| - |MetadataClose|] == FileName(year)
    ensures MetadataOpen <= json && json[|json| - |MetadataClose|..] == MetadataClose
  {
    var name := FileName(year);
    assert CrFree(MetadataOpen) && CrFree(MetadataClose);
    CrFreeConcat(MetadataOpen, name);
    CrFreeConcat(MetadataOpen + name, MetadataClose);
    MetadataOpen + name + MetadataClose
  }
}
