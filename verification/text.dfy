/**
 * Case handling of Java strings, restricted to the ASCII letters that the
 * game's type names and tags are made of.
 */
module Text {
  /** `Character.toUpperCase` on one character (ASCII letters only). */
  function UpperChar(c: char): char
  {
    if 'a' <= c <= 'z' then (c as int - 32) as char else c
  }

  /** `String.toUpperCase`: the same length, every character upper-cased. */
  function Upper(s: string): (r: string)
    ensures |r| == |s|
    ensures forall i :: 0 <= i < |s| ==> r[i] == UpperChar(s[i])
  {
    if s == [] then [] else [UpperChar(s[0])] + Upper(s[1..])
  }

  /** `String.equalsIgnoreCase` for ASCII text: the same length, and equal characters once upper-cased. */
  predicate EqualsIgnoreCase(a: string, b: string): (r: bool)
    ensures r <==> |a| == |b| && forall i :: 0 <= i < |a| ==> UpperChar(a[i]) == UpperChar(b[i])
    ensures a == b ==> r
  {
    Upper(a) == Upper(b)
  }

  /** Upper-casing twice is upper-casing once. */
  lemma UpperIdempotent(s: string)
    ensures Upper(Upper(s)) == Upper(s)
  {
  }

  /** The three colour names of the game, upper-cased. */
  lemma UpperColours()
    ensures Upper("green") == "GREEN" && Upper("blue") == "BLUE" && Upper("red") == "RED"
    ensures Upper("GREEN") == "GREEN" && Upper("BLUE") == "BLUE" && Upper("RED") == "RED"
  {
    UpperGreen();
    UpperBlue();
    UpperRed();
  }

  lemma UpperGreen()
    ensures Upper("green") == "GREEN" && Upper("GREEN") == "GREEN"
  {
  }

  lemma UpperBlue()
    ensures Upper("blue") == "BLUE" && Upper("BLUE") == "BLUE"
  {
  }

  lemma UpperRed()
    ensures Upper("red") == "RED" && Upper("RED") == "RED"
  {
  }
}
