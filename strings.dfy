/** Character-level services the core relies on: the flash-resident constant
    strings that name every element, Arduino's case-insensitive comparison,
    and the C library's `atoi` together with the decimal text of a number. */
module Strings {

  /** A `ConstantString` lives at a fixed address in flash: `addr` is that
      address and `text` its characters. Distinct objects have distinct
      addresses, so two references denote the same object exactly when their
      addresses agree. */
  datatype ConstantString = ConstantString(addr: nat, text: string)

  /** `constants::empty_constant_string` */
  const EmptyConstantString := ConstantString(0, "")

  /** Pointer identity, `&a == &b` in the source. */
  predicate SameObject(a: ConstantString, b: ConstantString)
  {
    a.addr == b.addr
  }

  /** The two overloads every `compareName` and `find*Index` comes in: by
      reference to a constant string, or by a `const char *` taken from a
      request. */
  datatype NameQuery = ByConstant(c: ConstantString) | ByText(t: string)

  /** AVR libc `tolower`: only the ASCII capitals change. */
  function ToLower(c: char): char
  {
    if 'A' <= c <= 'Z' then (c as int + 32) as char else c
  }

  function Lowered(s: string): (r: string)
    ensures |r| == |s|
    ensures forall i {:trigger r[i]} :: 0 <= i < |s| ==> r[i] == ToLower(s[i])
  {
    if s == [] then [] else [ToLower(s[0])] + Lowered(s[1..])
  }

  /** Arduino `String::equalsIgnoreCase`: equal lengths and equal characters
      after lower-casing each one. */
  predicate EqualsIgnoreCase(a: string, b: string)
  {
    |a| == |b| && forall i :: 0 <= i < |a| ==> ToLower(a[i]) == ToLower(b[i])
  }

  /** The comparison is equality of the lower-cased texts. */
  lemma EqualsIgnoreCaseMeansLoweredEqual(a: string, b: string)
    ensures EqualsIgnoreCase(a, b) <==> Lowered(a) == Lowered(b)
  {
    if EqualsIgnoreCase(a, b) {
      assert Lowered(a) == Lowered(b);
    }
    if Lowered(a) == Lowered(b) {
      assert forall i :: 0 <= i < |a| ==> ToLower(a[i]) == Lowered(a)[i] == Lowered(b)[i] == ToLower(b[i]);
    }
  }

  /** Lower-casing twice is lower-casing once. */
  lemma LoweredIdempotent(s: string)
    ensures Lowered(Lowered(s)) == Lowered(s)
  {
    assert forall i :: 0 <= i < |s| ==> Lowered(Lowered(s))[i] == ToLower(ToLower(s[i])) == Lowered(s)[i];
  }

  /** Whether an element called `name` answers a lookup for `q`: by pointer
      identity for a constant string, case-insensitively for request text. */
  predicate Matches(name: ConstantString, q: NameQuery)
  {
    match q
    case ByConstant(c) => SameObject(c, name)
    case ByText(t) => EqualsIgnoreCase(name.text, t)
  }

  /** The linear search every `find*Index` loop performs: the first position
      whose name matches, or -1. */
  function IndexOfName(names: seq<ConstantString>, q: NameQuery): (r: int)
    ensures -1 <= r < |names|
    ensures r >= 0 ==> Matches(names[r], q)
    ensures forall j :: 0 <= j < |names| && (r < 0 || j < r) ==> !Matches(names[j], q)
  {
    if |names| == 0 then -1
    else if Matches(names[0], q) then 0
    else
      var k := IndexOfName(names[1..], q);
      assert forall j :: 1 <= j < |names| ==> names[j] == names[1..][j - 1];
      if k < 0 then -1 else k + 1
  }

  /** No two entries are the same constant string object. */
  predicate DistinctObjects(names: seq<ConstantString>)
  {
    forall i, j :: 0 <= i < j < |names| ==> !SameObject(names[i], names[j])
  }

  /** With distinct names, looking an entry up by its own name gives back
      its position: the numeric id of a registered element is stable. */
  lemma IndexOfOwnName(names: seq<ConstantString>, i: nat)
    requires DistinctObjects(names)
    requires i < |names|
    ensures IndexOfName(names, ByConstant(names[i])) == i
  {
  }

  // ---------------------------------------------------------------------
  // Decimal text and `atoi`

  predicate IsDigit(c: char)
  {
    '0' <= c <= '9'
  }

  predicate AllDigits(s: string)
  {
    forall i :: 0 <= i < |s| ==> IsDigit(s[i])
  }

  /** C `isspace` */
  predicate IsSpace(c: char)
  {
    c == ' ' || 9 <= c as int <= 13
  }

  function DigitChar(d: nat): (c: char)
    requires d < 10
    ensures IsDigit(c) && c as int - '0' as int == d
  {
    ('0' as int + d) as char
  }

  /** The decimal digits of a natural number, most significant first. */
  function NatText(n: nat): (s: string)
    ensures |s| > 0 && AllDigits(s)
  {
    if n < 10 then [DigitChar(n)] else NatText(n / 10) + [DigitChar(n % 10)]
  }

  /** The text a number is written as: an optional minus sign and digits. */
  function DecimalText(n: int): string
  {
    if n < 0 then "-" + NatText(-n) else NatText(n)
  }

  /** What `atoi` skips first: the leading white space. */
  function SkipSpace(s: string): string
  {
    if |s| > 0 && IsSpace(s[0]) then SkipSpace(s[1..]) else s
  }

  /** The longest prefix of digits. */
  function LeadingDigits(s: string): (r: string)
    ensures AllDigits(r)
  {
    if |s| > 0 && IsDigit(s[0]) then [s[0]] + LeadingDigits(s[1..]) else []
  }

  /** The value of a string of digits read left to right. */
  function DigitsValue(ds: string): nat
    requires AllDigits(ds)
  {
    if |ds| == 0 then 0
    else DigitsValue(ds[..|ds| - 1]) * 10 + (ds[|ds| - 1] as int - '0' as int)
  }

  /** C `atoi`: leading white space, an optional sign, then as many digits
      as follow; no digits give 0. (Overflow is undefined in C and absent
      here, where integers are unbounded.) */
  function Atoi(s: string): int
  {
    var t := SkipSpace(s);
    if |t| > 0 && t[0] == '-' then 0 - DigitsValue(LeadingDigits(t[1..]))
    else if |t| > 0 && t[0] == '+' then DigitsValue(LeadingDigits(t[1..]))
    else DigitsValue(LeadingDigits(t))
  }

  lemma {:induction false} LeadingDigitsOfDigits(s: string)
    requires AllDigits(s)
    ensures LeadingDigits(s) == s
  {
    if |s| > 0 {
      LeadingDigitsOfDigits(s[1..]);
    }
  }

  lemma {:induction false} DigitsValueOfNatText(n: nat)
    ensures DigitsValue(NatText(n)) == n
  {
    var s := NatText(n);
    if n >= 10 {
      DigitsValueOfNatText(n / 10);
      assert s[..|s| - 1] == NatText(n / 10);
    }
  }

  /** `atoi` reads back every number from its decimal text. */
  lemma AtoiInvertsDecimalText(n: int)
    ensures Atoi(DecimalText(n)) == n
  {
    var m: nat := if n < 0 then -n else n;
    var digits := NatText(m);
    LeadingDigitsOfDigits(digits);
    DigitsValueOfNatText(m);
    assert IsDigit(digits[0]);
    if n < 0 {
      var s := "-" + digits;
      assert s == DecimalText(n);
      assert SkipSpace(s) == s by { assert !IsSpace(s[0]); }
      assert s[1..] == digits;
      assert Atoi(s) == 0 - DigitsValue(LeadingDigits(digits));
    } else {
      assert digits == DecimalText(n);
      assert SkipSpace(digits) == digits by { assert !IsSpace(digits[0]); }
      assert Atoi(digits) == DigitsValue(LeadingDigits(digits));
    }
  }
}
