/**
 * The text the session store writes for the employee profile
 * (`JSON.stringify(employee)`) and reads back (`JSON.parse`), for the
 * profile's five fields in the order the service sends them. `Decode`
 * reads exactly the texts `Encode` writes (no whitespace, this key order,
 * only the escapes `\"` and `\\`, integers without leading zeros or `-0`),
 * a strict subset of what `JSON.parse` accepts; on that subset the two are
 * inverse bijections, which is what makes a stored session restorable.
 */
module EmployeeJson {
  import opened Common

  // ---------------------------------------------------------------------
  // Strings: `"` + escaped characters + `"`

  function EscapeChar(c: char): string
  {
    if c == '"' || c == '\\' then ['\\', c] else [c]
  }

  function Escape(s: string): string
  {
    if s == [] then [] else EscapeChar(s[0]) + Escape(s[1..])
  }

  /** A JSON string literal holding exactly `s`. */
  function Quote(s: string): string
  {
    ['"'] + (Escape(s) + ['"'])
  }

  /**
   * Reads the characters of a string literal whose opening quote has been
   * consumed, up to and including its closing quote; yields the value and
   * the text after the literal.
   */
  function ParseStringBody(s: string): (r: Option<(string, string)>)
    ensures r.Some? ==> |r.value.1| < |s|
    decreases |s|
  {
    if s == [] then None
    else if s[0] == '"' then Some(([], s[1..]))
    else if s[0] == '\\' then
      if |s| >= 2 && (s[1] == '"' || s[1] == '\\') then
        var p :- ParseStringBody(s[2..]);
        Some(([s[1]] + p.0, p.1))
      else None
    else
      var p :- ParseStringBody(s[1..]);
      Some(([s[0]] + p.0, p.1))
  }

  function ParseQuoted(s: string): Option<(string, string)>
  {
    if s != [] && s[0] == '"' then ParseStringBody(s[1..]) else None
  }

  /** Whatever a string literal is read as, the text was that value escaped, then the closing quote. */
  lemma {:induction false} ParseStringBodyInverse(s: string)
    requires ParseStringBody(s).Some?
    ensures s == Escape(ParseStringBody(s).value.0) + (['"'] + ParseStringBody(s).value.1)
    decreases |s|
  {
    var p := ParseStringBody(s).value;
    if s[0] == '"' {
      assert s == ['"'] + s[1..];
    } else {
      var k := if s[0] == '\\' then 2 else 1;
      var c := if s[0] == '\\' then s[1] else s[0];
      var q := ParseStringBody(s[k..]).value;
      ParseStringBodyInverse(s[k..]);
      assert p.0 == [c] + q.0 && p.1 == q.1;
      assert ([c] + q.0)[1..] == q.0;
      assert Escape(p.0) == EscapeChar(c) + Escape(q.0);
      assert EscapeChar(c) == s[..k];
      assert s == s[..k] + s[k..];
    }
  }

  lemma {:induction false} ParseStringBodyEscape(x: string, rest: string)
    ensures ParseStringBody(Escape(x) + (['"'] + rest)) == Some((x, rest))
  {
    var s := Escape(x) + (['"'] + rest);
    if x == [] {
      assert s == ['"'] + rest;
    } else {
      var tail := Escape(x[1..]) + (['"'] + rest);
      ParseStringBodyEscape(x[1..], rest);
      assert s == EscapeChar(x[0]) + tail;
      if x[0] == '"' || x[0] == '\\' {
        assert s[2..] == tail;
      } else {
        assert s[1..] == tail;
      }
      assert [x[0]] + x[1..] == x;
    }
  }

  /** A quoted string reads back as itself, whatever follows it. */
  lemma ParseQuotedQuote(x: string, rest: string)
    ensures ParseQuoted(Quote(x) + rest) == Some((x, rest))
  {
    var s := Quote(x) + rest;
    assert s[1..] == Escape(x) + (['"'] + rest);
    ParseStringBodyEscape(x, rest);
  }

  /** A text read as a string literal is that literal, quoted, followed by the rest. */
  lemma ParseQuotedInverse(s: string)
    requires ParseQuoted(s).Some?
    ensures s == Quote(ParseQuoted(s).value.0) + ParseQuoted(s).value.1
  {
    var p := ParseQuoted(s).value;
    ParseStringBodyInverse(s[1..]);
    assert s == ['"'] + s[1..];
  }

  // ---------------------------------------------------------------------
  // Integers: an optional `-` and decimal digits, most significant first

  predicate IsDigit(c: char)
  {
    '0' <= c <= '9'
  }

  function Digit(d: nat): (c: char)
    requires d < 10
    ensures IsDigit(c)
  {
    ('0' as int + d) as char
  }

  function DigitValue(c: char): (d: nat)
    requires IsDigit(c)
    ensures d < 10
  {
    (c as int - '0' as int) as nat
  }

  /** The decimal digits of `n`, most significant first: never empty, no leading zero. */
  function DigitsOf(n: nat): (ds: string)
    ensures |ds| > 0
    ensures forall i :: 0 <= i < |ds| ==> IsDigit(ds[i])
    ensures ds[0] == '0' ==> n == 0 && |ds| == 1
  {
    if n < 10 then [Digit(n)] else DigitsOf(n / 10) + [Digit(n % 10)]
  }

  function Value(ds: string): nat
    requires forall i :: 0 <= i < |ds| ==> IsDigit(ds[i])
  {
    if ds == [] then 0 else Value(ds[..|ds| - 1]) * 10 + DigitValue(ds[|ds| - 1])
  }

  /** Length of the longest prefix of `s` made of digits. */
  function DigitRun(s: string): (k: nat)
    ensures k <= |s|
    ensures forall i :: 0 <= i < k ==> IsDigit(s[i])
    ensures k < |s| ==> !IsDigit(s[k])
  {
    if s != [] && IsDigit(s[0]) then 1 + DigitRun(s[1..]) else 0
  }

  /** A JSON natural number: at least one digit, and no leading zero unless it is `0` itself. */
  function ParseNat(s: string): Option<(nat, string)>
  {
    var k := DigitRun(s);
    if k == 0 || (k > 1 && s[0] == '0') then None else Some((Value(s[..k]), s[k..]))
  }

  function IntText(n: int): string
  {
    if n < 0 then ['-'] + DigitsOf(-n) else DigitsOf(n)
  }

  function ParseInt(s: string): Option<(int, string)>
  {
    if s != [] && s[0] == '-' then
      var p :- ParseNat(s[1..]);
      if p.0 == 0 then None else Some((-(p.0 as int), p.1))
    else
      ParseNat(s)
  }

  lemma {:induction false} ValueDigitsOf(n: nat)
    ensures Value(DigitsOf(n)) == n
  {
    if n < 10 {
      assert DigitValue(Digit(n)) == n;
    } else {
      var ds := DigitsOf(n);
      assert ds[..|ds| - 1] == DigitsOf(n / 10);
      assert DigitValue(ds[|ds| - 1]) == n % 10;
      ValueDigitsOf(n / 10);
    }
  }

  lemma {:induction false} DigitRunStopsAt(ds: string, rest: string)
    requires forall i :: 0 <= i < |ds| ==> IsDigit(ds[i])
    requires rest == [] || !IsDigit(rest[0])
    ensures DigitRun(ds + rest) == |ds|
  {
    if ds != [] {
      assert (ds + rest)[1..] == ds[1..] + rest;
      DigitRunStopsAt(ds[1..], rest);
    }
  }

  lemma {:induction false} ValuePositive(ds: string)
    requires ds != [] && ds[0] != '0'
    requires forall i :: 0 <= i < |ds| ==> IsDigit(ds[i])
    ensures Value(ds) >= 1
    decreases |ds|
  {
    if |ds| == 1 {
      assert ds[..0] == [];
    } else {
      var pre := ds[..|ds| - 1];
      assert pre[0] == ds[0];
      ValuePositive(pre);
    }
  }

  /** Digits without a leading zero are the digits of their value. */
  lemma {:induction false} DigitsOfValue(ds: string)
    requires ds != [] && (|ds| == 1 || ds[0] != '0')
    requires forall i :: 0 <= i < |ds| ==> IsDigit(ds[i])
    ensures DigitsOf(Value(ds)) == ds
    decreases |ds|
  {
    var pre := ds[..|ds| - 1];
    var last := ds[|ds| - 1];
    if |ds| == 1 {
      assert pre == [];
      assert Digit(DigitValue(last)) == last;
    } else {
      assert pre[0] == ds[0];
      ValuePositive(pre);
      DigitsOfValue(pre);
      var v := Value(ds);
      assert v == Value(pre) * 10 + DigitValue(last);
      assert v / 10 == Value(pre) && v % 10 == DigitValue(last);
      assert Digit(DigitValue(last)) == last;
      assert ds == pre + [last];
    }
  }

  lemma ParseNatInverse(s: string)
    requires ParseNat(s).Some?
    ensures s == DigitsOf(ParseNat(s).value.0) + ParseNat(s).value.1
    ensures ParseNat(s).value.1 == [] || !IsDigit(ParseNat(s).value.1[0])
  {
    var k := DigitRun(s);
    DigitsOfValue(s[..k]);
    assert s == s[..k] + s[k..];
  }

  /** A text read as a number is that number's text, followed by a rest that starts with no digit. */
  lemma ParseIntInverse(s: string)
    requires ParseInt(s).Some?
    ensures s == IntText(ParseInt(s).value.0) + ParseInt(s).value.1
    ensures ParseInt(s).value.1 == [] || !IsDigit(ParseInt(s).value.1[0])
  {
    if s != [] && s[0] == '-' {
      var p := ParseNat(s[1..]).value;
      ParseNatInverse(s[1..]);
      assert ParseInt(s) == Some((-(p.0 as int), p.1));
      assert s == ['-'] + s[1..];
    } else {
      ParseNatInverse(s);
    }
  }

  /** A number reads back as itself when no digit follows it. */
  lemma ParseIntText(n: int, rest: string)
    requires rest == [] || !IsDigit(rest[0])
    ensures ParseInt(IntText(n) + rest) == Some((n, rest))
  {
    var m: nat := if n < 0 then -n else n;
    var ds := DigitsOf(m);
    DigitRunStopsAt(ds, rest);
    ValueDigitsOf(m);
    assert (ds + rest)[..|ds|] == ds && (ds + rest)[|ds|..] == rest;
    if n < 0 {
      assert (IntText(n) + rest)[1..] == ds + rest;
    } else {
      assert IntText(n) + rest == ds + rest;
    }
  }

  // ---------------------------------------------------------------------
  // The employee object

  const EmployeeIdKey := "{\"employee_id\":"
  const FirstNameKey := ",\"first_name\":"
  const LastNameKey := ",\"last_name\":"
  const EmployeeTypeKey := ",\"employee_type\":"
  const PaidLeavesKey := ",\"available_paid_leaves\":"
  const CloseBrace := "}"

  function TypeName(t: EmployeeType): string
  {
    match t
    case STANDARD => "STANDARD"
    case PRIVILEGED => "PRIVILEGED"
  }

  function TypeOfName(s: string): (r: Option<EmployeeType>)
    ensures forall t :: TypeName(t) == s ==> r == Some(t)
    ensures r.Some? ==> TypeName(r.value) == s
  {
    if s == "STANDARD" then Some(STANDARD)
    else if s == "PRIVILEGED" then Some(PRIVILEGED)
    else None
  }

  /** Removes the literal `lit` from the front of `s`, if it is there. */
  function Expect(lit: string, s: string): (r: Option<string>)
    ensures r.Some? <==> lit <= s
    ensures r.Some? ==> s == lit + r.value
  {
    if lit <= s then Some(s[|lit|..]) else None
  }

  lemma ExpectLiteral(lit: string, rest: string)
    ensures Expect(lit, lit + rest) == Some(rest)
  {
    assert lit <= lit + rest;
    assert (lit + rest)[|lit|..] == rest;
  }

  /** `JSON.stringify(employee)`: the encoding written to storage, always a JSON object. */
  function Encode(e: Employee): (text: string)
    ensures EmployeeIdKey <= text
  {
    EmployeeIdKey + (Quote(e.employeeId) +
    (FirstNameKey + (Quote(e.firstName) +
    (LastNameKey + (Quote(e.lastName) +
    (EmployeeTypeKey + (Quote(TypeName(e.employeeType)) +
    (PaidLeavesKey + (IntText(e.availablePaidLeaves) + CloseBrace)))))))))
  }

  /**
   * Reads a profile from exactly the text `Encode` writes for it, and from
   * nothing else (`EncodeDecode`); in particular only from a JSON object.
   */
  function Decode(text: string): (r: Option<Employee>)
    ensures r.Some? ==> EmployeeIdKey <= text
  {
    var s0 :- Expect(EmployeeIdKey, text);
    var id :- ParseQuoted(s0);
    var s1 :- Expect(FirstNameKey, id.1);
    var first :- ParseQuoted(s1);
    var s2 :- Expect(LastNameKey, first.1);
    var last :- ParseQuoted(s2);
    var s3 :- Expect(EmployeeTypeKey, last.1);
    var typeName :- ParseQuoted(s3);
    var employeeType :- TypeOfName(typeName.0);
    var s4 :- Expect(PaidLeavesKey, typeName.1);
    var leaves :- ParseInt(s4);
    var s5 :- Expect(CloseBrace, leaves.1);
    if s5 == [] then Some(Employee(id.0, first.0, last.0, employeeType, leaves.0)) else None
  }

  /** Reading back what was written yields the same profile. */
  lemma DecodeEncode(e: Employee)
    ensures Decode(Encode(e)) == Some(e)
  {
    var t5 := IntText(e.availablePaidLeaves) + CloseBrace;
    var t4 := PaidLeavesKey + t5;
    var t3 := Quote(TypeName(e.employeeType)) + t4;
    var t2 := EmployeeTypeKey + t3;
    var u2 := Quote(e.lastName) + t2;
    var u1 := LastNameKey + u2;
    var v2 := Quote(e.firstName) + u1;
    var v1 := FirstNameKey + v2;
    var w2 := Quote(e.employeeId) + v1;
    assert Encode(e) == EmployeeIdKey + w2;
    ExpectLiteral(EmployeeIdKey, w2);
    ParseQuotedQuote(e.employeeId, v1);
    ExpectLiteral(FirstNameKey, v2);
    ParseQuotedQuote(e.firstName, u1);
    ExpectLiteral(LastNameKey, u2);
    ParseQuotedQuote(e.lastName, t2);
    ExpectLiteral(EmployeeTypeKey, t3);
    ParseQuotedQuote(TypeName(e.employeeType), t4);
    ExpectLiteral(PaidLeavesKey, t5);
    ParseIntText(e.availablePaidLeaves, CloseBrace);
    ExpectLiteral(CloseBrace, []);
    assert CloseBrace + [] == CloseBrace;
  }

  /** Two profiles that encode to the same text are the same profile. */
  lemma EncodeInjective(e1: Employee, e2: Employee)
    requires Encode(e1) == Encode(e2)
    ensures e1 == e2
  {
    DecodeEncode(e1);
    DecodeEncode(e2);
  }

  /** A text that reads as a profile is exactly the text `Encode` writes for that profile. */
  lemma EncodeDecode(text: string)
    requires Decode(text).Some?
    ensures Encode(Decode(text).value) == text
  {
    var s0 := Expect(EmployeeIdKey, text).value;
    ParseQuotedInverse(s0);
    var id := ParseQuoted(s0).value;
    var s1 := Expect(FirstNameKey, id.1).value;
    ParseQuotedInverse(s1);
    var first := ParseQuoted(s1).value;
    var s2 := Expect(LastNameKey, first.1).value;
    ParseQuotedInverse(s2);
    var last := ParseQuoted(s2).value;
    var s3 := Expect(EmployeeTypeKey, last.1).value;
    ParseQuotedInverse(s3);
    var typeName := ParseQuoted(s3).value;
    var employeeType := TypeOfName(typeName.0).value;
    var s4 := Expect(PaidLeavesKey, typeName.1).value;
    ParseIntInverse(s4);
    var leaves := ParseInt(s4).value;
    var s5 := Expect(CloseBrace, leaves.1).value;
    assert s5 == [];
    assert leaves.1 == CloseBrace;
    assert Decode(text).value == Employee(id.0, first.0, last.0, employeeType, leaves.0);
  }

  const NullText := "null"

  /**
   * What `JSON.parse` makes of a stored profile text, as far as the session
   * store is concerned: a profile, JSON `null`, or a value this model does
   * not represent (including a text on which parsing throws).
   */
  datatype Parsed = Profile(employee: Employee) | Null | Unreadable

  function Parse(text: string): (r: Parsed)
    ensures r.Null? <==> text == NullText
    ensures r.Profile? <==> Decode(text).Some?
    ensures r.Profile? ==> Encode(r.employee) == text
  {
    if text == NullText then Null
    else match Decode(text)
      case Some(e) => EncodeDecode(text); Profile(e)
      case None => Unreadable
  }
}
