/** The few JavaScript value semantics the two pages rely on: truthiness of a
    stored string, `String(n)` of an integer id and `Number(s)` of a form value. */
module JsValues {

  /** A value that may be absent (`null` from storage, `undefined` from `find`). */
  datatype Option<+T> = None | Some(value: T)

  /** A JavaScript number, restricted to what these pages can produce from
      integer ids and form strings: an integer or NaN. */
  datatype JsNumber = Num(n: int) | NaN

  /** `if (token)` on the result of `localStorage.getItem`: `null` and `""` are falsy. */
  predicate Truthy(s: Option<string>): (b: bool)
    ensures s == None || s == Some("") ==> !b
    ensures b <==> s.Some? && |s.value| > 0
  {
    s.Some? && s.value != ""
  }

  predicate IsDigit(c: char)
  {
    '0' <= c <= '9'
  }

  predicate AllDigits(s: string)
  {
    forall i :: 0 <= i < |s| ==> IsDigit(s[i])
  }

  /** The characters `String.prototype.trim` (and so `Number`) strips:
      ECMAScript WhiteSpace and LineTerminator. */
  predicate IsJsSpace(c: char)
  {
    c == ' ' || c == '\t' || c == '\n' || c == '\r' || c == '\U{B}' || c == '\U{C}'
    || c == '\U{A0}' || c == '\U{1680}' || ('\U{2000}' <= c <= '\U{200A}')
    || c == '\U{2028}' || c == '\U{2029}' || c == '\U{202F}' || c == '\U{205F}'
    || c == '\U{3000}' || c == '\U{FEFF}'
  }

  function DigitChar(d: nat): (c: char)
    requires d < 10
    ensures IsDigit(c) && c as int - '0' as int == d
  {
    ('0' as int + d) as char
  }

  /** The value of a string of decimal digits, most significant first. */
  function DigitsValue(s: string): nat
    requires AllDigits(s)
  {
    if s == [] then 0 else DigitsValue(s[..|s| - 1]) * 10 + (s[|s| - 1] as int - '0' as int)
  }

  /** Decimal notation of a natural number, as `String(n)` writes it. */
  function NatToString(n: nat): (s: string)
    ensures s != [] && AllDigits(s)
    ensures s == "0" <==> n == 0
    ensures s[0] != '0' || s == "0"
  {
    if n < 10 then [DigitChar(n)] else NatToString(n / 10) + [DigitChar(n % 10)]
  }

  /** `String(id)` for an integer id. */
  function IdString(id: int): (s: string)
    ensures s != [] && !IsJsSpace(s[0]) && IsDigit(s[|s| - 1])
  {
    if id < 0 then "-" + NatToString(-id) else NatToString(id)
  }

  function TrimStart(s: string): (r: string)
    ensures |r| <= |s| && r == s[|s| - |r|..]
    ensures r == [] || !IsJsSpace(r[0])
  {
    if s != [] && IsJsSpace(s[0]) then TrimStart(s[1..]) else s
  }

  function TrimEnd(s: string): (r: string)
    ensures |r| <= |s| && r == s[..|r|]
    ensures r == [] || !IsJsSpace(r[|r| - 1])
  {
    if s != [] && IsJsSpace(s[|s| - 1]) then TrimEnd(s[..|s| - 1]) else s
  }

  function Trim(s: string): string
  {
    TrimEnd(TrimStart(s))
  }

  /** `Number(s)`: surrounding white space is ignored, the empty string is 0,
      an optionally signed run of decimal digits is its value, anything else NaN. */
  function ToNumber(s: string): (r: JsNumber)
    ensures Trim(s) == [] ==> r == Num(0)
    ensures r.Num? && Trim(s) != [] ==> IsDigit(Trim(s)[|Trim(s)| - 1])
    ensures r.Num? && r.n < 0 ==> Trim(s)[0] == '-'
  {
    var t := Trim(s);
    if t == [] then Num(0)
    else if AllDigits(t) then Num(DigitsValue(t))
    else if |t| > 1 && (t[0] == '-' || t[0] == '+') && AllDigits(t[1..]) then
      var v: int := DigitsValue(t[1..]);
      Num(if t[0] == '-' then -v else v)
    else NaN
  }

  /** Reading back the digits `NatToString` writes gives the number. */
  lemma {:induction false} DigitsRoundTrip(n: nat)
    ensures DigitsValue(NatToString(n)) == n
  {
    if n >= 10 {
      var s := NatToString(n);
      var p := NatToString(n / 10);
      assert s == p + [DigitChar(n % 10)];
      assert s[..|s| - 1] == p;
      DigitsRoundTrip(n / 10);
    }
  }

  /** A string with no white space at either end is its own trim. */
  lemma TrimUnchanged(s: string)
    requires s != [] && !IsJsSpace(s[0]) && !IsJsSpace(s[|s| - 1])
    ensures Trim(s) == s
  {
  }

  /** `Number(String(id)) === id`: an option value built from an id converts
      back to that id. */
  lemma NumberOfIdString(id: int)
    ensures ToNumber(IdString(id)) == Num(id)
  {
    var s := IdString(id);
    TrimUnchanged(s);
    if id < 0 {
      assert s[1..] == NatToString(-id);
      assert !AllDigits(s) by { assert !IsDigit(s[0]); }
      DigitsRoundTrip(-id);
    } else {
      DigitsRoundTrip(id);
    }
  }

  /** `NumberOfIdString` for every id at once. */
  lemma NumberOfEveryIdString()
    ensures forall id :: ToNumber(IdString(id)) == Num(id)
  {
    forall id
      ensures ToNumber(IdString(id)) == Num(id)
    {
      NumberOfIdString(id);
    }
  }

  /** Distinct ids give distinct option values, so `String(e.id) === v`
      singles out one id. */
  lemma IdStringInjective(a: int, b: int)
    requires IdString(a) == IdString(b)
    ensures a == b
  {
    NumberOfIdString(a);
    NumberOfIdString(b);
  }

  /** `Number("")` is 0: an unselected equipment value converts to the id 0. */
  lemma NumberOfEmpty()
    ensures ToNumber("") == Num(0)
  {
  }
}
