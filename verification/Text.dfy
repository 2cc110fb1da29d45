/** Text cleaning: runs of whitespace become single spaces, then the text is cut at a limit. */
module Text {
  import opened Wrappers

  /** The characters that Python's str.split() takes as whitespace. */
  predicate IsSpace(c: char) {
    || '\U{09}' <= c <= '\U{0D}' || '\U{1C}' <= c <= '\U{20}'
    || c == '\U{85}' || c == '\U{A0}' || c == '\U{1680}' || '\U{2000}' <= c <= '\U{200A}'
    || c == '\U{2028}' || c == '\U{2029}' || c == '\U{202F}' || c == '\U{205F}' || c == '\U{3000}'
  }

  /** s.strip() */
  function Strip(s: string): string
    decreases |s|
  {
    if s == "" then ""
    else if IsSpace(s[0]) then Strip(s[1..])
    else if IsSpace(s[|s| - 1]) then Strip(s[..|s| - 1])
    else s
  }

  /** Stripping takes whitespace off both ends, and all there is. */
  lemma {:induction false} StripShape(s: string) returns (i: nat, j: nat)
    ensures i <= j <= |s| && Strip(s) == s[i..j]
    ensures forall k :: 0 <= k < i || j <= k < |s| ==> IsSpace(s[k])
    ensures i < j ==> !IsSpace(s[i]) && !IsSpace(s[j - 1])
    decreases |s|
  {
    if s != "" && IsSpace(s[0]) {
      var rest := s[1..];
      i, j := StripShape(rest);
      assert rest[i..j] == s[i + 1..j + 1];
      i, j := i + 1, j + 1;
      assert forall k :: 1 <= k < |s| ==> s[k] == rest[k - 1];
    } else if s != "" && IsSpace(s[|s| - 1]) {
      var init := s[..|s| - 1];
      i, j := StripShape(init);
      assert init[i..j] == s[i..j];
      assert forall k :: 0 <= k < |init| ==> s[k] == init[k];
    } else {
      i, j := 0, |s|;
    }
  }

  /** The length of the word s starts with. */
  function WordLength(s: string): (n: nat)
    ensures n <= |s| && (forall i :: 0 <= i < n ==> !IsSpace(s[i]))
    ensures n < |s| ==> IsSpace(s[n])
  {
    if s == "" || IsSpace(s[0]) then 0 else 1 + WordLength(s[1..])
  }

  /** s.split() */
  function Words(s: string): seq<string>
    decreases |s|
  {
    if s == "" then []
    else if IsSpace(s[0]) then Words(s[1..])
    else [s[..WordLength(s)]] + Words(s[WordLength(s)..])
  }

  /** " ".join(words) */
  function Join(words: seq<string>): string {
    if words == [] then ""
    else if |words| == 1 then words[0]
    else words[0] + " " + Join(words[1..])
  }

  /** _clean_text */
  function CleanText(value: Option<string>, maxLen: nat): Option<string> {
    if value.None? then None
    else
      var cleaned := Join(Words(value.value));
      if cleaned == "" then None else Some(if |cleaned| <= maxLen then cleaned else cleaned[..maxLen])
  }

  // ---------------------------------------------------------------- words and joining are inverse

  predicate IsWord(w: string) {
    w != "" && forall i :: 0 <= i < |w| ==> !IsSpace(w[i])
  }

  predicate AreWords(words: seq<string>) {
    forall i :: 0 <= i < |words| ==> IsWord(words[i])
  }

  lemma {:induction false} WordsAreWords(s: string)
    ensures AreWords(Words(s))
    decreases |s|
  {
    if s != "" {
      WordsAreWords(if IsSpace(s[0]) then s[1..] else s[WordLength(s)..]);
    }
  }

  lemma {:induction false} WordLengthAhead(w: string, rest: string)
    requires forall i :: 0 <= i < |w| ==> !IsSpace(w[i])
    requires rest != "" ==> IsSpace(rest[0])
    ensures WordLength(w + rest) == |w|
  {
    if w == "" {
      assert w + rest == rest;
    } else {
      assert (w + rest)[1..] == w[1..] + rest;
      WordLengthAhead(w[1..], rest);
    }
  }

  /** A word in front, then either nothing or a space. */
  lemma WordsAhead(w: string, rest: string)
    requires IsWord(w) && (rest != "" ==> IsSpace(rest[0]))
    ensures Words(w + rest) == [w] + Words(rest)
  {
    WordLengthAhead(w, rest);
    assert (w + rest)[..|w|] == w && (w + rest)[|w|..] == rest;
  }

  /** The words of any text: whitespace in front is passed over, a word ends at the next whitespace. */
  lemma WordsRead(space: char, word: string, rest: string)
    requires IsSpace(space) && IsWord(word)
    ensures Words("") == [] && Words([space] + rest) == Words(rest)
    ensures Words(word) == [word] && Words(word + ([space] + rest)) == [word] + Words(rest)
  {
    assert ([space] + rest)[1..] == rest && word + "" == word;
    WordsAhead(word, "");
    WordsAhead(word, [space] + rest);
  }

  /** Splitting undoes joining. */
  lemma {:induction false} WordsOfJoin(words: seq<string>)
    requires AreWords(words)
    ensures Words(Join(words)) == words
  {
    if |words| == 1 {
      WordsAhead(words[0], "");
      assert words[0] + "" == words[0];
    } else if words != [] {
      var rest := Join(words[1..]);
      WordsOfJoin(words[1..]);
      WordsAhead(words[0], " " + rest);
      assert words[0] + " " + rest == words[0] + (" " + rest);
      assert (" " + rest)[1..] == rest;
    }
  }

  // ---------------------------------------------------------------- tidy text

  /** No leading whitespace, no two adjacent whitespace characters, none but the space. */
  predicate Tidy(s: string) {
    && (s != "" ==> !IsSpace(s[0]))
    && forall i :: 0 <= i < |s| && IsSpace(s[i]) ==> s[i] == ' ' && (i + 1 < |s| ==> !IsSpace(s[i + 1]))
  }

  predicate EndsInSpace(s: string) {
    s != "" && IsSpace(s[|s| - 1])
  }

  lemma {:induction false} JoinIsTidy(words: seq<string>)
    requires AreWords(words)
    ensures Tidy(Join(words)) && !EndsInSpace(Join(words))
    ensures Join(words) == "" <==> words == []
  {
    if |words| > 1 {
      var rest := Join(words[1..]);
      JoinIsTidy(words[1..]);
      var n := |words[0]|;
      assert IsWord(words[0]);
      var s := words[0] + " " + rest;
      forall i | 0 <= i < |s| && IsSpace(s[i])
        ensures s[i] == ' ' && (i + 1 < |s| ==> !IsSpace(s[i + 1]))
      {
        if i > n {
          assert s[i] == rest[i - n - 1];
        }
      }
    } else if words != [] {
      assert IsWord(words[0]);
    }
  }

  function WithoutLastSpace(s: string): string {
    if EndsInSpace(s) then s[..|s| - 1] else s
  }

  /** Splitting and joining a tidy text drops at most its last space. */
  lemma {:induction false} JoinOfTidy(s: string)
    requires Tidy(s)
    ensures Join(Words(s)) == WithoutLastSpace(s)
    decreases |s|
  {
    if s != "" {
      var n := WordLength(s);
      if n == |s| {
        assert s[..n] == s && s[n..] == "";
      } else {
        var w, tail := s[..n], s[n + 1..];
        TidyTail(s, n);
        JoinOfTidy(tail);
        SplitAtSpace(s, n);
        if tail != "" {
          TidyHasWords(tail);
          JoinAhead(w, Words(tail));
          WithoutLastSpaceAhead(w + " ", tail);
        }
      }
    }
  }

  /** A text whose first word ends at a space. */
  lemma SplitAtSpace(s: string, n: nat)
    requires 0 < n == WordLength(s) < |s| && s[n] == ' '
    ensures s == s[..n] + " " + s[n + 1..]
    ensures Words(s) == [s[..n]] + Words(s[n + 1..])
  {
    CutAtSpace(s, n);
    WordsFromFirst(s, n, s[n..]);
    WordsBehindSpace(s[n..], s[n + 1..]);
  }

  lemma CutAtSpace(s: string, n: nat)
    requires n < |s| && s[n] == ' '
    ensures s == s[..n] + " " + s[n + 1..] && s[n..] == " " + s[n + 1..]
  {
  }

  lemma WordsFromFirst(s: string, n: nat, rest: string)
    requires 0 < n == WordLength(s) && rest == s[n..]
    ensures Words(s) == [s[..n]] + Words(rest)
  {
  }

  lemma WordsBehindSpace(s: string, rest: string)
    requires s == " " + rest
    ensures Words(s) == Words(rest)
  {
    assert s[1..] == rest;
  }

  lemma JoinAhead(w: string, words: seq<string>)
    requires words != []
    ensures Join([w] + words) == w + " " + Join(words)
  {
    assert ([w] + words)[1..] == words;
  }

  lemma WithoutLastSpaceAhead(front: string, tail: string)
    requires tail != ""
    ensures WithoutLastSpace(front + tail) == front + WithoutLastSpace(tail)
  {
    var s := front + tail;
    assert s[|s| - 1] == tail[|tail| - 1];
    assert s[..|s| - 1] == front + tail[..|tail| - 1];
  }

  lemma TidyTail(s: string, n: nat)
    requires Tidy(s) && n < |s| && IsSpace(s[n])
    ensures s[n] == ' ' && Tidy(s[n + 1..])
  {
    var tail := s[n + 1..];
    assert forall i :: 0 <= i < |tail| ==> tail[i] == s[n + 1 + i];
  }

  lemma TidyHasWords(s: string)
    requires Tidy(s) && s != ""
    ensures Words(s) != []
  {
  }

  // ---------------------------------------------------------------- what cleaning does

  /** Whitespace alone cleans to nothing; any other text to a tidy, non-empty text within the limit that
      starts the words of the original, one space apart, and is all of them unless it was cut. */
  lemma {:induction false} CleanTextShape(value: string, maxLen: nat)
    requires maxLen >= 1
    ensures CleanText(Some(value), maxLen) == None <==> forall i :: 0 <= i < |value| ==> IsSpace(value[i])
    ensures var r := CleanText(Some(value), maxLen); r.Some? ==>
      && 1 <= |r.value| <= maxLen && Tidy(r.value) && r.value <= Join(Words(value))
      && |r.value| == (if |Join(Words(value))| < maxLen then |Join(Words(value))| else maxLen)
      && (|Join(Words(value))| <= maxLen ==> Words(r.value) == Words(value) && !EndsInSpace(r.value))
    ensures CleanText(None, maxLen) == None
  {
    WordsAreWords(value);
    JoinIsTidy(Words(value));
    NoWords(value);
    WordsOfJoin(Words(value));
  }

  lemma {:induction false} NoWords(s: string)
    ensures Words(s) == [] <==> forall i :: 0 <= i < |s| ==> IsSpace(s[i])
    decreases |s|
  {
    if s != "" && IsSpace(s[0]) {
      NoWords(s[1..]);
      assert forall i :: 1 <= i < |s| ==> s[i] == s[1..][i - 1];
    }
  }

  /** Cleaning its own output again removes at most one trailing space. */
  lemma {:induction false} CleanTextAgain(value: string, maxLen: nat)
    requires maxLen >= 1 && CleanText(Some(value), maxLen).Some?
    ensures var once := CleanText(Some(value), maxLen).value;
            CleanText(Some(once), maxLen) == Some(WithoutLastSpace(once))
  {
    var once := CleanText(Some(value), maxLen).value;
    CleanTextShape(value, maxLen);
    JoinOfTidy(once);
  }

  /** A third cleaning changes nothing. */
  lemma {:induction false} CleanTextSettles(value: string, maxLen: nat)
    requires maxLen >= 1
    ensures var twice := CleanText(CleanText(Some(value), maxLen), maxLen);
            CleanText(twice, maxLen) == twice
  {
    if CleanText(Some(value), maxLen).Some? {
      var once := CleanText(Some(value), maxLen).value;
      CleanTextShape(value, maxLen);
      CleanTextAgain(value, maxLen);
      var twice := WithoutLastSpace(once);
      assert Tidy(twice) && !EndsInSpace(twice);
      JoinOfTidy(twice);
    }
  }

  /** One cleaning is final exactly when the cut did not fall just behind a space. */
  lemma {:induction false} CleanTextIdempotent(value: string, maxLen: nat)
    requires maxLen >= 1
    ensures var joined := Join(Words(value));
            CleanText(CleanText(Some(value), maxLen), maxLen) == CleanText(Some(value), maxLen) <==>
            !(|joined| > maxLen && joined[maxLen - 1] == ' ')
  {
    var joined := Join(Words(value));
    WordsAreWords(value);
    JoinIsTidy(Words(value));
    if joined != "" {
      CleanTextAgain(value, maxLen);
    }
  }
}
