/** JavaScript and Mongoose value semantics that the handlers depend on:
    truthiness of request-body fields, `Number(...)` conversion, ObjectId
    validity and the lower-case form Mongoose casts an id string to. */
module Js {

  datatype Option<+T> = None | Some(value: T)

  /** Identifier of a stored document (the hex string of a Mongo ObjectId). */
  type Id = string

  /** A scalar request-body value as JSON delivers it.  Numbers are integers
      in this model. */
  datatype Value = Undefined | Null | Bool(b: bool) | Num(n: int) | Str(s: string)

  /** A body field after Mongoose has tried to cast it to the schema type:
      missing, not castable (or null), or a castable value. */
  datatype Field<+T> = Absent | Malformed | Given(value: T)

  /** JavaScript truthiness of a scalar. */
  predicate Truthy(v: Value)
  {
    match v
    case Undefined => false
    case Null => false
    case Bool(b) => b
    case Num(n) => n != 0
    case Str(s) => s != ""
  }

  predicate IsDigit(c: char) { '0' <= c <= '9' }

  predicate AllDigits(s: string) { forall i :: 0 <= i < |s| ==> IsDigit(s[i]) }

  /** Value of a string of decimal digits. */
  function DigitsValue(s: string): (n: nat)
    requires AllDigits(s)
    decreases |s|
  {
    if s == [] then 0
    else DigitsValue(s[..|s| - 1]) * 10 + (s[|s| - 1] as int - '0' as int)
  }

  /** Decimal digits of a natural number, most significant first. */
  function Digits(n: nat): (s: string)
    ensures |s| > 0 && AllDigits(s)
  {
    if n < 10 then [('0' as int + n) as char]
    else Digits(n / 10) + [('0' as int + n % 10) as char]
  }

  /** Reading back the digits of `n` gives `n`. */
  lemma {:induction false} DigitsRoundTrip(n: nat)
    ensures DigitsValue(Digits(n)) == n
  {
    var s := Digits(n);
    if n >= 10 {
      DigitsRoundTrip(n / 10);
      assert s[..|s| - 1] == Digits(n / 10);
    }
  }

  /** `Number(v)`: `None` stands for NaN.  A string converts when it is empty
      (0) or an optionally signed run of decimal digits. */
  function ToNumber(v: Value): (r: Option<int>)
    ensures v.Num? ==> r == Some(v.n)
    ensures v.Undefined? ==> r == None
    ensures v.Null? || v == Str("") || v == Bool(false) ==> r == Some(0)
  {
    match v
    case Undefined => None
    case Null => Some(0)
    case Bool(b) => Some(if b then 1 else 0)
    case Num(n) => Some(n)
    case Str(s) =>
      if s == "" then Some(0)
      else if AllDigits(s) then Some(DigitsValue(s))
      else if (s[0] == '-' || s[0] == '+') && |s| > 1 && AllDigits(s[1..]) then
        var m: int := DigitsValue(s[1..]);
        Some(if s[0] == '-' then -m else m)
      else None
  }

  /** The decimal text of an integer converts back to that integer. */
  lemma NumberOfDecimalText(n: int)
    ensures ToNumber(Str(if n < 0 then "-" + Digits(-n) else Digits(n))) == Some(n)
  {
    if n < 0 {
      var s := "-" + Digits(-n);
      assert s[1..] == Digits(-n);
      assert !AllDigits(s) by { assert !IsDigit(s[0]); }
      DigitsRoundTrip(-n);
    } else {
      DigitsRoundTrip(n);
    }
  }

  predicate IsHexDigit(c: char)
  {
    ('0' <= c <= '9') || ('a' <= c <= 'f') || ('A' <= c <= 'F')
  }

  /** `mongoose.Types.ObjectId.isValid` for strings: 24 hexadecimal digits. */
  predicate IsValidObjectId(s: string)
  {
    |s| == 24 && forall i :: 0 <= i < |s| ==> IsHexDigit(s[i])
  }

  function LowerChar(c: char): (r: char)
    ensures 'A' <= c <= 'Z' ==> 'a' <= r <= 'z' && r as int == c as int + 32
    ensures !('A' <= c <= 'Z') ==> r == c
  {
    if 'A' <= c <= 'Z' then (c as int + 32) as char else c
  }

  /** ASCII `toLowerCase()`. */
  function Lower(s: string): (r: string)
    ensures |r| == |s|
    ensures forall i :: 0 <= i < |s| ==> r[i] == LowerChar(s[i])
  {
    seq(|s|, i requires 0 <= i < |s| => LowerChar(s[i]))
  }

  /** The canonical key of a stored document: lower-case hex. */
  predicate IsKey(s: string)
  {
    IsValidObjectId(s) && Lower(s) == s
  }

  /** Casting a valid ObjectId string gives a canonical key, and casting a key
      gives the key back. */
  lemma CastIsCanonical(s: string)
    requires IsValidObjectId(s)
    ensures IsKey(Lower(s))
    ensures IsKey(s) ==> Lower(s) == s
  {
    var k := Lower(s);
    forall i | 0 <= i < |k| ensures IsHexDigit(k[i]) && LowerChar(k[i]) == k[i] {
      assert IsHexDigit(s[i]);
    }
    assert Lower(k) == k;
  }
}
