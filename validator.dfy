/**
 * The character classes of otomata.py and the validity check `compile`
 * runs before scanning.  The upper-case 'E' stands for epsilon.
 */
module Validator {

  /** `alpha`: a lower-case letter. */
  predicate Alpha(ch: char)
  {
    ch >= 'a' && ch <= 'z'
  }

  /** `alphabet`: a letter or the epsilon symbol. */
  predicate Alphabet(ch: char)
  {
    Alpha(ch) || ch == 'E'
  }

  /** `regexOp`: one of the four operator characters. */
  predicate RegexOp(ch: char)
  {
    ch == '(' || ch == ')' || ch == '*' || ch == '|'
  }

  /** `regexChar`: a symbol or an operator. */
  predicate RegexChar(ch: char)
  {
    Alphabet(ch) || RegexOp(ch)
  }

  /** The loop of `validRegex`: no character makes it return early. */
  function AllRegexChars(s: string): (r: bool)
    ensures r <==> forall i | 0 <= i < |s| :: RegexChar(s[i])
  {
    if s == [] then true
    else if !RegexChar(s[0]) then false
    else AllRegexChars(s[1..])
  }

  /** `validRegex`: false on the empty string, else every character passes. */
  function ValidRegex(regex: string): (r: bool)
    ensures r <==> |regex| > 0 && forall i | 0 <= i < |regex| :: RegexChar(regex[i])
  {
    if |regex| == 0 then false else AllRegexChars(regex)
  }

  /**
   * The classes a valid character falls into are exclusive: a symbol is no
   * operator, and the operators are told apart by the character itself.
   */
  lemma CharClasses(ch: char)
    ensures RegexChar(ch) <==> ('a' <= ch <= 'z' || ch in "E()*|")
    ensures Alphabet(ch) ==> !RegexOp(ch)
  {
  }
}
