/**
 * The slice of PHP's value semantics that the camera setters depend on:
 * the scalar type tags tested by is_int / is_float, strict (===) comparison,
 * the truthiness used by empty() and the (bool) cast, and the ASCII
 * lower-casing PHP applies when it looks a method up by name.
 */
module Php {

  /**
   * A PHP scalar as a setter receives it. The constructor tag is the PHP type,
   * so datatype equality is PHP's strict comparison: Int(90) and Str("90") differ,
   * and so do Int(-12) and Float(-12.0). Floats are exact reals (no NaN, no rounding).
   */
  datatype Value = Int(i: int) | Float(f: real) | Str(s: string) | Bool(b: bool) | Null

  /** The scalars PHP treats as false: null, false, 0, 0.0, "" and "0". */
  const FALSY: set<Value> := {Null, Bool(false), Int(0), Float(0.0), Str(""), Str("0")}

  /** PHP's empty(): true exactly for the falsy scalars, which include the string "0". */
  predicate Empty(v: Value)
    ensures Empty(v) <==> v in FALSY
  {
    match v
    case Null => true
    case Bool(b) => !b
    case Int(i) => i == 0
    case Float(f) => f == 0.0
    case Str(s) => s == "" || s == "0"
  }

  /** PHP's (bool) cast, defined by its own conversion table; it is the negation of empty(). */
  function ToBool(v: Value): (b: bool)
    ensures b <==> !Empty(v)
  {
    match v
    case Null => false
    case Bool(b) => b
    case Int(i) => i != 0
    case Float(f) => f != 0.0
    case Str(s) => |s| != 0 && s != "0"
  }

  /** ASCII lower-casing of one character (PHP folds method names byte-wise, locale independent). */
  function LowerChar(c: char): (d: char)
    ensures 'A' <= c <= 'Z' ==> 'a' <= d <= 'z' && d as int - c as int == 32
    ensures !('A' <= c <= 'Z') ==> d == c
  {
    if 'A' <= c <= 'Z' then (c as int + 32) as char else c
  }

  /** ASCII lower-casing of a method name. */
  function LowerAscii(s: string): (r: string)
    ensures |r| == |s|
    ensures forall i :: 0 <= i < |s| ==> r[i] == LowerChar(s[i])
  {
    if s == [] then [] else [LowerChar(s[0])] + LowerAscii(s[1..])
  }

  /** Folding case twice is folding it once, so a name and its lower-cased form find the same method. */
  lemma {:induction false} LowerAsciiIdempotent(s: string)
    ensures LowerAscii(LowerAscii(s)) == LowerAscii(s)
  {
    if s != [] {
      LowerAsciiIdempotent(s[1..]);
      assert LowerAscii(s)[1..] == LowerAscii(s[1..]);
    }
  }

  /** A name without upper-case ASCII letters is already in lower case. */
  lemma {:induction false} LowerAsciiOfLower(s: string)
    requires forall i :: 0 <= i < |s| ==> !('A' <= s[i] <= 'Z')
    ensures LowerAscii(s) == s
  {
    if s != [] {
      assert forall i :: 0 <= i < |s[1..]| ==> s[1..][i] == s[i + 1];
      LowerAsciiOfLower(s[1..]);
    }
  }
}
