/** Canonical tokens for the names of upstream errors (backend/app/integrations/a2a_error_contract.py). */
module ErrorTokens {
  import opened Prelude

  /** What the string methods of Python know about characters. */
  datatype Alphabet = Alphabet(isAlnum: char -> bool, isSpace: char -> bool, lower: string -> string)

  ghost predicate Sound(a: Alphabet) {
    !a.isAlnum('_') && forall c :: a.isSpace(c) ==> !a.isAlnum(c)
  }

  function Strip(s: string, drop: char -> bool): (r: string)
    ensures |r| <= |s|
  {
    if s == "" then s
    else if drop(s[0]) then Strip(s[1..], drop)
    else if drop(s[|s| - 1]) then Strip(s[..|s| - 1], drop)
    else s
  }

  /** The maximal runs of alphanumeric characters. */
  function Words(s: string, isAlnum: char -> bool): seq<string> {
    if s == "" then []
    else
      var n := |s| - 1;
      var before := Words(s[..n], isAlnum);
      if !isAlnum(s[n]) then before
      else if n > 0 && isAlnum(s[n - 1]) && before != [] then before[..|before| - 1] + [before[|before| - 1] + [s[n]]]
      else before + [[s[n]]]
  }

  /** `"_".join(words)`. */
  function Joined(words: seq<string>): string {
    if words == [] then ""
    else if |words| == 1 then words[0]
    else Joined(words[..|words| - 1]) + "_" + words[|words| - 1]
  }

  predicate IsRun(word: string, isAlnum: char -> bool) {
    word != "" && forall k :: 0 <= k < |word| ==> isAlnum(word[k])
  }

  predicate AreWords(words: seq<string>, isAlnum: char -> bool) {
    forall i :: 0 <= i < |words| ==> IsRun(words[i], isAlnum)
  }

  function Token(a: Alphabet, value: string): Option<string> {
    var words := Words(a.lower(Strip(value, a.isSpace)), a.isAlnum);
    if words == [] then None else Some(Joined(words))
  }

  // ---------------------------------------------------------------- the loop

  lemma {:induction false} WordsFacts(s: string, isAlnum: char -> bool)
    ensures AreWords(Words(s, isAlnum), isAlnum)
    ensures s != "" && isAlnum(s[|s| - 1]) ==> Words(s, isAlnum) != []
  {
    if s != "" {
      WordsFacts(s[..|s| - 1], isAlnum);
    }
  }

  lemma JoinedExtended(words: seq<string>, c: char)
    requires words != []
    ensures Joined(words[..|words| - 1] + [words[|words| - 1] + [c]]) == Joined(words) + [c]
  {
    var longer := words[..|words| - 1] + [words[|words| - 1] + [c]];
    assert longer[..|longer| - 1] == words[..|words| - 1];
    if |words| > 1 {
      var front := Joined(words[..|words| - 1]);
      assert front + "_" + (words[|words| - 1] + [c]) == (front + "_" + words[|words| - 1]) + [c];
    }
  }

  lemma JoinedAppended(words: seq<string>, word: string)
    ensures Joined(words + [word]) == if words == [] then word else Joined(words) + "_" + word
  {
    assert (words + [word])[..|words|] == words;
  }

  lemma {:induction false} JoinedEnds(words: seq<string>, isAlnum: char -> bool)
    requires words != [] && AreWords(words, isAlnum)
    ensures Joined(words) != "" && isAlnum(Joined(words)[0]) && isAlnum(Joined(words)[|Joined(words)| - 1])
  {
    if |words| > 1 {
      JoinedEnds(words[..|words| - 1], isAlnum);
    }
  }

  lemma WordsGrow(s: string, c: char, isAlnum: char -> bool)
    ensures
      var before := Words(s, isAlnum);
      Words(s + [c], isAlnum) ==
        if !isAlnum(c) then before
        else if s != "" && isAlnum(s[|s| - 1]) && before != [] then
          before[..|before| - 1] + [before[|before| - 1] + [c]]
        else before + [[c]]
  {
    assert (s + [c])[..|s|] == s;
  }

  /** What one more character does to the joined words. */
  lemma JoinedGrows(s: string, c: char, isAlnum: char -> bool)
    ensures
      var before := Joined(Words(s, isAlnum));
      Joined(Words(s + [c], isAlnum)) ==
        if !isAlnum(c) then before
        else if before == "" || (s != "" && isAlnum(s[|s| - 1])) then before + [c]
        else before + "_" + [c]
  {
    var words := Words(s, isAlnum);
    WordsGrow(s, c, isAlnum);
    WordsFacts(s, isAlnum);
    if words == [] {
      JoinedAppended(words, [c]);
    } else {
      JoinedEnds(words, isAlnum);
      JoinedExtended(words, c);
      JoinedAppended(words, [c]);
    }
  }

  lemma StripKeeps(words: seq<string>, isAlnum: char -> bool)
    requires AreWords(words, isAlnum) && !isAlnum('_')
    ensures Strip(Joined(words), c => c == '_') == Joined(words)
    ensures Joined(words) == "" <==> words == []
  {
    if words != [] {
      JoinedEnds(words, isAlnum);
    }
  }

  /** The separator is written when the next run begins, so that none stands at an end or beside another. */
  method NormalizeErrorToken(value: string, a: Alphabet) returns (token: Option<string>)
    requires Sound(a)
    ensures token == Token(a, value)
  {
    var s := a.lower(Strip(value, a.isSpace));
    var normalized := "";
    var pendingSep := false;
    var i := 0;
    while i < |s|
      invariant i <= |s|
      invariant normalized == Joined(Words(s[..i], a.isAlnum))
      invariant pendingSep <==> i > 0 && !a.isAlnum(s[i - 1])
    {
      var ch := s[i];
      JoinedGrows(s[..i], ch, a.isAlnum);
      assert s[..i + 1] == s[..i] + [ch];
      if a.isAlnum(ch) {
        if pendingSep && normalized != "" {
          normalized := normalized + "_";
        }
        normalized := normalized + [ch];
        pendingSep := false;
      } else {
        pendingSep := true;
      }
      i := i + 1;
    }
    assert s[..i] == s;
    WordsFacts(s, a.isAlnum);
    StripKeeps(Words(s, a.isAlnum), a.isAlnum);
    var stripped := Strip(normalized, c => c == '_');
    token := if stripped == "" then None else Some(stripped);
  }

  // ---------------------------------------------------------------- the shape of a token

  /** Non-empty alphanumeric runs with single underscores between them. */
  ghost predicate IsToken(t: string, isAlnum: char -> bool) {
    exists words :: words != [] && AreWords(words, isAlnum) && t == Joined(words)
  }

  lemma TokenShape(a: Alphabet, value: string)
    ensures Token(a, value).Some? ==> IsToken(Token(a, value).value, a.isAlnum)
  {
    WordsFacts(a.lower(Strip(value, a.isSpace)), a.isAlnum);
  }

  /** No token exactly when no alphanumeric character is left. */
  lemma {:induction false} NoWords(s: string, isAlnum: char -> bool)
    ensures Words(s, isAlnum) == [] <==> forall i :: 0 <= i < |s| ==> !isAlnum(s[i])
  {
    if s != "" {
      NoWords(s[..|s| - 1], isAlnum);
      WordsFacts(s, isAlnum);
      assert forall i :: 0 <= i < |s| - 1 ==> s[..|s| - 1][i] == s[i];
    }
  }

  lemma {:induction false} WordsOfRun(s: string, word: string, isAlnum: char -> bool)
    requires IsRun(word, isAlnum)
    requires s != "" ==> !isAlnum(s[|s| - 1])
    ensures Words(s + word, isAlnum) == Words(s, isAlnum) + [word]
  {
    var n := |word| - 1;
    if n == 0 {
      FirstOfRun(s, word[0], isAlnum);
      assert word == [word[0]];
    } else {
      var front := word[..n];
      assert IsRun(front, isAlnum);
      WordsOfRun(s, front, isAlnum);
      OneMoreInRun(s, front, word[n], isAlnum);
      assert word == front + [word[n]];
    }
  }

  lemma FirstOfRun(s: string, c: char, isAlnum: char -> bool)
    requires isAlnum(c)
    requires s != "" ==> !isAlnum(s[|s| - 1])
    ensures Words(s + [c], isAlnum) == Words(s, isAlnum) + [[c]]
  {
    WordsGrow(s, c, isAlnum);
  }

  lemma OneMoreInRun(s: string, front: string, c: char, isAlnum: char -> bool)
    requires IsRun(front, isAlnum) && isAlnum(c)
    requires Words(s + front, isAlnum) == Words(s, isAlnum) + [front]
    ensures Words(s + (front + [c]), isAlnum) == Words(s, isAlnum) + [front + [c]]
  {
    var t, words := s + front, Words(s, isAlnum) + [front];
    assert t[|t| - 1] == front[|front| - 1];
    calc {
      Words(s + (front + [c]), isAlnum);
      { assert t + [c] == s + (front + [c]); }
      Words(t + [c], isAlnum);
      { WordsGrow(t, c, isAlnum); }
      words[..|words| - 1] + [words[|words| - 1] + [c]];
      { assert words[..|words| - 1] == Words(s, isAlnum); }
      Words(s, isAlnum) + [front + [c]];
    }
  }

  lemma {:induction false} WordsOfJoined(words: seq<string>, isAlnum: char -> bool)
    requires AreWords(words, isAlnum) && !isAlnum('_')
    ensures Words(Joined(words), isAlnum) == words
  {
    if |words| == 1 {
      WordsOfRun("", words[0], isAlnum);
      assert "" + words[0] == words[0];
    } else if words != [] {
      var n := |words| - 1;
      WordsOfJoined(words[..n], isAlnum);
      var front := Joined(words[..n]);
      assert (front + "_")[..|front|] == front;
      assert Words(front + "_", isAlnum) == words[..n];
      WordsOfRun(front + "_", words[n], isAlnum);
      assert words == words[..n] + [words[n]];
    }
  }

  /** A token of which `lower` changes nothing is its own token. */
  lemma TokenIsFixed(a: Alphabet, t: string)
    requires Sound(a) && IsToken(t, a.isAlnum) && a.lower(t) == t
    ensures Token(a, t) == Some(t)
  {
    var words :| words != [] && AreWords(words, a.isAlnum) && t == Joined(words);
    JoinedEnds(words, a.isAlnum);
    WordsOfJoined(words, a.isAlnum);
  }

  // ---------------------------------------------------------------- ASCII

  function LowerChar(c: char): char {
    if 'A' <= c <= 'Z' then c - 'A' + 'a' else c
  }

  function AsciiLower(s: string): (r: string)
    ensures |r| == |s| && forall i :: 0 <= i < |s| ==> r[i] == LowerChar(s[i])
  {
    seq(|s|, i requires 0 <= i < |s| => LowerChar(s[i]))
  }

  predicate IsAscii(s: string) {
    forall i :: 0 <= i < |s| ==> s[i] < '\U{80}'
  }

  predicate AsciiAlnum(c: char) {
    'a' <= c <= 'z' || 'A' <= c <= 'Z' || '0' <= c <= '9'
  }

  /** Python's methods on characters below 128. */
  ghost predicate AgreesOnAscii(a: Alphabet) {
    && (forall c :: c < '\U{80}' ==> (a.isAlnum(c) <==> AsciiAlnum(c)))
    && (forall s :: IsAscii(s) ==> a.lower(s) == AsciiLower(s))
  }

  predicate AsciiTokenChar(c: char) {
    'a' <= c <= 'z' || '0' <= c <= '9' || c == '_'
  }

  lemma {:induction false} StripIsPart(s: string, drop: char -> bool)
    requires IsAscii(s)
    ensures IsAscii(Strip(s, drop))
  {
    if s != "" && drop(s[0]) {
      StripIsPart(s[1..], drop);
    } else if s != "" && drop(s[|s| - 1]) {
      StripIsPart(s[..|s| - 1], drop);
    }
  }

  ghost predicate Plain(s: string) {
    Only(s, AsciiTokenChar)
  }

  // ---------------------------------------------------------------- the characters of a token

  ghost predicate Only(s: string, ok: char -> bool) {
    forall i :: 0 <= i < |s| ==> ok(s[i])
  }

  ghost predicate AlnumOnly(s: string, isAlnum: char -> bool, ok: char -> bool) {
    forall i :: 0 <= i < |s| && isAlnum(s[i]) ==> ok(s[i])
  }

  ghost predicate AllOnly(words: seq<string>, ok: char -> bool) {
    forall i :: 0 <= i < |words| ==> Only(words[i], ok)
  }

  lemma OnlySplit(a: string, b: string, ok: char -> bool)
    ensures Only(a + b, ok) <==> Only(a, ok) && Only(b, ok)
  {
    forall i | 0 <= i < |a| ensures (a + b)[i] == a[i] {
    }
    forall i | 0 <= i < |b| ensures (a + b)[|a| + i] == b[i] {
    }
  }

  /** One more character in the last word, or as a word of its own. */
  lemma AllOnlyGrows(words: seq<string>, c: char, ok: char -> bool)
    ensures AllOnly(words + [[c]], ok) <==> AllOnly(words, ok) && ok(c)
    ensures words != [] ==>
      (AllOnly(words[..|words| - 1] + [words[|words| - 1] + [c]], ok) <==> AllOnly(words, ok) && ok(c))
  {
    var n := |words|;
    assert Only([c], ok) <==> ok(c) by { assert [c][0] == c; }
    AllOnlyAppended(words, [c], ok);
    if words != [] {
      OnlySplit(words[n - 1], [c], ok);
      AllOnlyAppended(words[..n - 1], words[n - 1] + [c], ok);
      AllOnlyAppended(words[..n - 1], words[n - 1], ok);
      assert words == words[..n - 1] + [words[n - 1]];
    }
  }

  lemma AllOnlyAppended(words: seq<string>, word: string, ok: char -> bool)
    ensures AllOnly(words + [word], ok) <==> AllOnly(words, ok) && Only(word, ok)
  {
    var more := words + [word];
    assert more[|words|] == word;
    assert forall i :: 0 <= i < |words| ==> more[i] == words[i];
  }

  lemma {:induction false} WordsKeepAlnum(s: string, isAlnum: char -> bool, ok: char -> bool)
    ensures AllOnly(Words(s, isAlnum), ok) <==> AlnumOnly(s, isAlnum, ok)
  {
    if s != "" {
      var n := |s| - 1;
      WordsKeepAlnum(s[..n], isAlnum, ok);
      AllOnlyGrows(Words(s[..n], isAlnum), s[n], ok);
      assert AlnumOnly(s, isAlnum, ok) <==> AlnumOnly(s[..n], isAlnum, ok) && (isAlnum(s[n]) ==> ok(s[n])) by {
        assert forall i :: 0 <= i < n ==> s[..n][i] == s[i];
      }
    }
  }

  lemma {:induction false} JoinedOnly(words: seq<string>, ok: char -> bool)
    requires ok('_')
    ensures Only(Joined(words), ok) <==> AllOnly(words, ok)
  {
    var n := |words| - 1;
    if |words| > 1 {
      JoinedOnly(words[..n], ok);
      OnlySplit(Joined(words[..n]) + "_", words[n], ok);
      OnlySplit(Joined(words[..n]), "_", ok);
      AllOnlyAppended(words[..n], words[n], ok);
      assert words == words[..n] + [words[n]];
    } else if |words| == 1 {
      assert words[0] == Joined(words);
    }
  }

  /**
   * For every input and every class of characters with the underscore: the token is made of that
   * class exactly when the alphanumeric characters of the lowered text are.
   */
  lemma TokenCharacters(a: Alphabet, value: string, ok: char -> bool)
    requires ok('_') && Token(a, value).Some?
    ensures Only(Token(a, value).value, ok) <==> AlnumOnly(a.lower(Strip(value, a.isSpace)), a.isAlnum, ok)
  {
    var s := a.lower(Strip(value, a.isSpace));
    WordsKeepAlnum(s, a.isAlnum, ok);
    JoinedOnly(Words(s, a.isAlnum), ok);
  }

  /** A token is ASCII exactly when the alphanumeric characters of the lowered text are. */
  lemma TokenIsAsciiExactly(a: Alphabet, value: string)
    requires Token(a, value).Some?
    ensures
      var s := a.lower(Strip(value, a.isSpace));
      IsAscii(Token(a, value).value) <==> forall i :: 0 <= i < |s| && a.isAlnum(s[i]) ==> s[i] < '\U{80}'
  {
    TokenCharacters(a, value, c => c < '\U{80}');
  }

  /** On ASCII the token consists of lower-case letters, digits and underscores, and is its own token. */
  lemma AsciiTokens(a: Alphabet, value: string)
    requires Sound(a) && AgreesOnAscii(a) && IsAscii(value)
    ensures Token(a, value).Some? ==>
      Plain(Token(a, value).value) && Token(a, Token(a, value).value) == Token(a, value)
  {
    if Token(a, value).Some? {
      var stripped := Strip(value, a.isSpace);
      StripIsPart(value, a.isSpace);
      var s := a.lower(stripped);
      assert s == AsciiLower(stripped);
      assert forall i :: 0 <= i < |s| ==> s[i] < '\U{80}' && !('A' <= s[i] <= 'Z');
      TokenCharacters(a, value, AsciiTokenChar);
      var t := Joined(Words(s, a.isAlnum));
      TokenShape(a, value);
      assert IsAscii(t);
      assert AsciiLower(t) == t;
      TokenIsFixed(a, t);
    }
  }
}
