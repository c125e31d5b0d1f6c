/** Stripping and lowering text, as ASCII: whitespace is the ASCII whitespace, and lowering maps 'A' to 'Z'. */
module Texts {
  predicate IsSpace(c: char) {
    c == ' ' || '\t' <= c <= '\r' || '\U{1C}' <= c <= '\U{1F}'
  }

  function LowerChar(c: char): char {
    if 'A' <= c <= 'Z' then (c as int + 32) as char else c
  }

  function Lower(s: string): string {
    seq(|s|, i requires 0 <= i < |s| => LowerChar(s[i]))
  }

  function Strip(s: string): string {
    if s == "" then s
    else if IsSpace(s[0]) then Strip(s[1..])
    else if IsSpace(s[|s| - 1]) then Strip(s[..|s| - 1])
    else s
  }

  lemma {:induction false} StripTrims(s: string)
    ensures Strip(s) == "" || (!IsSpace(Strip(s)[0]) && !IsSpace(Strip(s)[|Strip(s)| - 1]))
  {
    if s != "" {
      if IsSpace(s[0]) { StripTrims(s[1..]); }
      else if IsSpace(s[|s| - 1]) { StripTrims(s[..|s| - 1]); }
    }
  }

  predicate AllSpace(s: string) {
    forall i :: 0 <= i < |s| ==> IsSpace(s[i])
  }

  /** Stripping takes nothing but whitespace, and nothing but from the two ends. */
  lemma {:induction false} StripTakes(s: string) returns (before: string, after: string)
    ensures s == before + Strip(s) + after && AllSpace(before) && AllSpace(after)
  {
    if s == "" {
      before, after := "", "";
    } else if IsSpace(s[0]) {
      before, after := StripTakes(s[1..]);
      before := [s[0]] + before;
      assert s == [s[0]] + s[1..];
    } else if IsSpace(s[|s| - 1]) {
      before, after := StripTakes(s[..|s| - 1]);
      after := after + [s[|s| - 1]];
      assert s == s[..|s| - 1] + [s[|s| - 1]];
    } else {
      before, after := "", "";
    }
  }

  lemma TrimmedStays(s: string)
    requires s == "" || (!IsSpace(s[0]) && !IsSpace(s[|s| - 1]))
    ensures Strip(s) == s && Strip(Lower(s)) == Lower(s) && Lower(Lower(s)) == Lower(s)
  {
    assert Lower(Lower(s)) == Lower(s);
  }
}
