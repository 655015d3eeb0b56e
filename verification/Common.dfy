/** Result types and the few string operations the components share. */
module Common {
  datatype Option<+T> = None | Some(value: T)

  datatype Result<+T, +E> = Ok(value: T) | Err(error: E)

  /** The characters Python's `str.strip` removes. */
  predicate IsSpace(c: char) {
    || '\U{9}' <= c <= '\U{d}' || '\U{1c}' <= c <= ' ' || c == '\U{85}' || c == '\U{a0}' || c == '\U{1680}'
    || '\U{2000}' <= c <= '\U{200a}' || c == '\U{2028}' || c == '\U{2029}' || c == '\U{202f}' || c == '\U{205f}' || c == '\U{3000}'
  }

  predicate Blank(s: string) {
    forall i :: 0 <= i < |s| ==> IsSpace(s[i])
  }

  function Strip(s: string): (r: string)
    ensures r == "" <==> Blank(s)
    ensures r != "" ==> !IsSpace(r[0]) && !IsSpace(r[|r| - 1])
  {
    if s == "" then s
    else if IsSpace(s[0]) then Strip(s[1..])
    else if IsSpace(s[|s| - 1]) then Strip(s[..|s| - 1])
    else s
  }

  lemma OneMoreBlank(c: char, s: string)
    requires IsSpace(c) && Blank(s)
    ensures Blank([c] + s) && Blank(s + [c])
  {}

  /** What is stripped are blanks at both ends. */
  lemma {:induction false} StripTakesBlanks(s: string) returns (before: string, after: string)
    ensures s == before + Strip(s) + after && Blank(before) && Blank(after)
  {
    before, after := "", "";
    if s != "" && IsSpace(s[0]) {
      before, after := StripTakesBlanks(s[1..]);
      OneMoreBlank(s[0], before);
      RebuildFront(s, before, Strip(s[1..]), after);
      before := [s[0]] + before;
    } else if s != "" && IsSpace(s[|s| - 1]) {
      before, after := StripTakesBlanks(s[..|s| - 1]);
      OneMoreBlank(s[|s| - 1], after);
      RebuildBack(s, before, Strip(s[..|s| - 1]), after);
      after := after + [s[|s| - 1]];
    }
  }

  lemma RebuildFront(s: string, before: string, middle: string, after: string)
    requires s != "" && s[1..] == before + middle + after
    ensures s == ([s[0]] + before) + middle + after
  {
    assert s == [s[0]] + s[1..];
  }

  lemma RebuildBack(s: string, before: string, middle: string, after: string)
    requires s != "" && s[..|s| - 1] == before + middle + after
    ensures s == before + middle + (after + [s[|s| - 1]])
  {
    assert s == s[..|s| - 1] + [s[|s| - 1]];
  }

  /** Neither the first nor the last character is a space. */
  predicate Trim(s: string) {
    s != "" ==> !IsSpace(s[0]) && !IsSpace(s[|s| - 1])
  }

  lemma TrimStays(s: string)
    requires Trim(s)
    ensures Strip(s) == s
  {}
}
