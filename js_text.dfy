/** JavaScript text and values as the profile page sees them.

    A JavaScript string is a sequence of UTF-16 code units, and every
    string operation the page uses (length, equality, regular-expression
    matching without the `u` flag) works unit by unit, so strings are
    modelled as sequences of 16-bit code units rather than Dafny `char`s
    (which are Unicode scalar values). */
module JsText {

  /** One UTF-16 code unit. */
  newtype CodeUnit = u: int | 0 <= u < 0x1_0000

  /** A JavaScript string. */
  type JsString = seq<CodeUnit>

  /** A property of a JavaScript object that may be missing: reading it
      then gives `undefined`. */
  datatype Slot<T> = Undefined | Defined(value: T)

  /** The code unit of a character of the Basic Multilingual Plane. */
  function Unit(ch: char): (u: CodeUnit)
    requires ch as int < 0x1_0000
    ensures u as int == ch as int
  {
    ch as int as CodeUnit
  }

  ghost predicate InBmp(s: string)
  {
    forall i :: 0 <= i < |s| ==> s[i] as int < 0x1_0000
  }

  /** The JavaScript string written as the literal `s` (every character of
      `s` lies in the Basic Multilingual Plane, so each is one code unit). */
  function Js(s: string): (r: JsString)
    requires InBmp(s)
    ensures |r| == |s|
    ensures forall i :: 0 <= i < |s| ==> r[i] as int == s[i] as int
  {
    seq(|s|, i requires 0 <= i < |s| && InBmp(s) => Unit(s[i]))
  }
}
