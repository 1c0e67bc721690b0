/** What several components take from JavaScript's strings. */
module JsText {
  /** What `\s` and `trim` call white space. */
  predicate IsSpace(c: char) {
    || '\t' <= c <= '\r' || c in {' ', '\U{a0}', '\U{1680}', '\U{202f}', '\U{205f}', '\U{3000}', '\U{feff}'}
    || '\U{2000}' <= c <= '\U{200a}' || c in {'\U{2028}', '\U{2029}'}
  }

  /** A text is blank when trimming leaves nothing. */
  predicate IsBlank(text: string) { forall i :: 0 <= i < |text| ==> IsSpace(text[i]) }

  /** `indexOf`: the first place of a character, or -1. */
  function IndexOf(s: string, c: char): (i: int)
    ensures -1 <= i < |s|
    ensures i >= 0 ==> s[i] == c && forall j :: 0 <= j < i ==> s[j] != c
    ensures i < 0 ==> forall j :: 0 <= j < |s| ==> s[j] != c
  {
    if s == "" then -1
    else if s[0] == c then 0
    else var i := IndexOf(s[1..], c); if i < 0 then -1 else i + 1
  }
}
