/** Strings as JavaScript trims them. */
module Text {
  import opened Prelude

  /** White space and line terminators of ECMAScript, the characters `String.prototype.trim` removes. */
  predicate IsSpace(c: char) {
    || '\t' <= c <= '\r'
    || c == ' '
    || c == '\U{A0}'
    || c == '\U{1680}'
    || '\U{2000}' <= c <= '\U{200A}'
    || c == '\U{2028}'
    || c == '\U{2029}'
    || c == '\U{202F}'
    || c == '\U{205F}'
    || c == '\U{3000}'
    || c == '\U{FEFF}'
  }

  function TrimStart(s: string): (r: string)
    ensures |r| <= |s|
  {
    if s != "" && IsSpace(s[0]) then TrimStart(s[1..]) else s
  }

  function TrimEnd(s: string): (r: string)
    ensures |r| <= |s|
  {
    if s != "" && IsSpace(s[|s| - 1]) then TrimEnd(s[..|s| - 1]) else s
  }

  function Trim(s: string): string {
    TrimEnd(TrimStart(s))
  }

  /** The trimmed text, if it is not blank. */
  function NonBlank(value: Option<string>): Option<string> {
    if value.Some? && Trim(value.value) != "" then Some(Trim(value.value)) else None
  }

  predicate AllSpace(s: string) {
    forall i :: 0 <= i < |s| ==> IsSpace(s[i])
  }

  /** No white space at either end. */
  predicate Trimmed(s: string) {
    s != "" ==> !IsSpace(s[0]) && !IsSpace(s[|s| - 1])
  }

  /** `TrimStart` drops exactly the leading white space. */
  lemma {:induction false} TrimStartFacts(s: string)
    ensures TrimStart(s) == s[|s| - |TrimStart(s)|..]
    ensures AllSpace(s[..|s| - |TrimStart(s)|])
    ensures TrimStart(s) != "" ==> !IsSpace(TrimStart(s)[0])
  {
    if s != "" && IsSpace(s[0]) {
      TrimStartFacts(s[1..]);
      var n := |s| - |TrimStart(s)|;
      assert s[..n] == [s[0]] + s[1..][..n - 1];
    }
  }

  /** `TrimEnd` drops exactly the trailing white space. */
  lemma {:induction false} TrimEndFacts(s: string)
    ensures TrimEnd(s) == s[..|TrimEnd(s)|]
    ensures AllSpace(s[|TrimEnd(s)|..])
    ensures TrimEnd(s) != "" ==> !IsSpace(TrimEnd(s)[|TrimEnd(s)| - 1])
  {
    if s != "" && IsSpace(s[|s| - 1]) {
      TrimEndFacts(s[..|s| - 1]);
      var n := |TrimEnd(s)|;
      assert s[n..] == s[..|s| - 1][n..] + [s[|s| - 1]];
    }
  }

  /** Trimming removes white space at the two ends and nothing else. */
  lemma TrimIsTrimmed(s: string)
    ensures Trimmed(Trim(s))
    ensures exists front, back :: AllSpace(front) && AllSpace(back) && s == front + Trim(s) + back
  {
    TrimStartFacts(s);
    var start := TrimStart(s);
    TrimEndFacts(start);
    var front, back := s[..|s| - |start|], start[|Trim(s)|..];
    assert s == front + Trim(s) + back;
  }

  lemma TrimFixesTrimmed(s: string)
    requires Trimmed(s)
    ensures Trim(s) == s
  {
  }

  lemma TrimTwice(s: string)
    ensures Trim(Trim(s)) == Trim(s)
  {
    TrimIsTrimmed(s);
    TrimFixesTrimmed(Trim(s));
  }

  /** A text is there unless it is all white space, and then without white space at its ends. */
  lemma NonBlankMeans(value: Option<string>)
    ensures NonBlank(value).Some? <==> value.Some? && !AllSpace(value.value)
    ensures NonBlank(value).Some? ==> Canonical(NonBlank(value).value)
    ensures NonBlank(value).Some? ==>
      exists front, back :: AllSpace(front) && AllSpace(back) && value.value == front + NonBlank(value).value + back
  {
    if value.Some? {
      var s := value.value;
      TrimIsTrimmed(s);
      var front, back :| AllSpace(front) && AllSpace(back) && s == front + Trim(s) + back;
      if Trim(s) == "" {
        assert s == front + back;
      } else {
        assert s[|front|] == Trim(s)[0];
      }
    }
  }

  /** A message id as the history cache keeps it: trimmed and not blank. */
  predicate Canonical(id: string) {
    id != "" && Trimmed(id)
  }
}
