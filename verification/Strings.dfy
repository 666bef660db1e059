/** The string operations that the gates use, on ASCII case and white space. */
module Strings {

  function LowerChar(c: char): char {
    if 'A' <= c <= 'Z' then (c as int + 32) as char else c
  }

  function Lower(s: string): (r: string)
    ensures |r| == |s|
    ensures forall i :: 0 <= i < |s| ==> r[i] == LowerChar(s[i])
  {
    seq(|s|, i requires 0 <= i < |s| => LowerChar(s[i]))
  }

  predicate IsSpace(c: char) {
    '\t' <= c <= '\r' || '\U{1C}' <= c <= ' '
  }

  /** The white space of ASCII: tab, line feed, vertical tab, form feed, return, four separators, and space. */
  lemma SpaceMeaning(c: char)
    ensures IsSpace(c) <==>
            c in {'\t', '\n', '\U{0B}', '\U{0C}', '\r', '\U{1C}', '\U{1D}', '\U{1E}', '\U{1F}', ' '}
  {
    if IsSpace(c) {
      assert c as int in {9, 10, 11, 12, 13, 28, 29, 30, 31, 32};
    }
  }

  function TrimLeft(s: string): string {
    if s != [] && IsSpace(s[0]) then TrimLeft(s[1..]) else s
  }

  function TrimRight(s: string): string {
    if s != [] && IsSpace(s[|s| - 1]) then TrimRight(s[..|s| - 1]) else s
  }

  function Strip(s: string): string {
    TrimRight(TrimLeft(s))
  }

  /** The length of the leading run of non-space characters. */
  function WordLength(s: string): (n: nat)
    ensures n <= |s|
    ensures s != [] && !IsSpace(s[0]) ==> n > 0
  {
    if s == [] || IsSpace(s[0]) then 0 else 1 + WordLength(s[1..])
  }

  /** The words between runs of white space. */
  function Words(s: string): seq<string> {
    if s == [] then []
    else if IsSpace(s[0]) then Words(s[1..])
    else [s[..WordLength(s)]] + Words(s[WordLength(s)..])
  }

  predicate OccursAt(s: string, part: string, i: nat) {
    i <= |s| - |part| && s[i..i + |part|] == part
  }

  predicate Contains(s: string, part: string) {
    exists i | 0 <= i <= |s| :: OccursAt(s, part, i)
  }

  lemma ContainsWider(before: string, s: string, after: string, part: string)
    requires Contains(s, part)
    ensures Contains(before + s + after, part)
  {
    var i :| 0 <= i <= |s| && OccursAt(s, part, i);
    assert OccursAt(before + s + after, part, |before| + i);
  }

  lemma LowerConcat(s: string, t: string)
    ensures Lower(s + t) == Lower(s) + Lower(t)
  {
  }

  lemma {:induction false} WordsAreParts(s: string, word: string)
    requires word in Words(s)
    ensures Contains(s, word)
  {
    if IsSpace(s[0]) {
      WordsAreParts(s[1..], word);
      ContainsWider(s[..1], s[1..], [], word);
      assert s[..1] + s[1..] + [] == s;
    } else {
      var n := WordLength(s);
      if word == s[..n] {
        assert OccursAt(s, word, 0);
      } else {
        WordsAreParts(s[n..], word);
        ContainsWider(s[..n], s[n..], [], word);
        assert s[..n] + s[n..] + [] == s;
      }
    }
  }

  predicate LowerLetters(s: string) {
    forall i :: 0 <= i < |s| ==> 'a' <= s[i] <= 'z'
  }

  lemma {:induction false} WholeWord(s: string)
    requires LowerLetters(s)
    ensures WordLength(s) == |s|
  {
    if s != [] {
      WholeWord(s[1..]);
    }
  }

  /** A text of lower-case letters is its own lower-case form and its only word. */
  lemma OneWord(s: string)
    requires s != [] && LowerLetters(s)
    ensures Lower(s) == s && Words(s) == [s]
  {
    WholeWord(s);
    assert s[..|s|] == s && s[|s|..] == [];
  }

  /** Equal up to the case of ASCII letters. */
  predicate SameButCase(s: string, t: string) {
    |s| == |t| && forall i :: 0 <= i < |s| ==> SameLetter(s[i], t[i])
  }

  predicate SameLetter(c: char, d: char) {
    || c == d
    || ('A' <= c <= 'Z' && 'a' <= d <= 'z' && d as int - c as int == 'a' as int - 'A' as int)
    || ('a' <= c <= 'z' && 'A' <= d <= 'Z' && c as int - d as int == 'a' as int - 'A' as int)
  }

  lemma LowerForgetsCase(s: string, t: string)
    ensures SameButCase(s, t) <==> Lower(s) == Lower(t)
  {
    if Lower(s) == Lower(t) {
      forall i | 0 <= i < |s| ensures SameLetter(s[i], t[i]) {
        assert Lower(s)[i] == Lower(t)[i];
      }
    }
  }

  predicate AllSpace(s: string) {
    forall i :: 0 <= i < |s| ==> IsSpace(s[i])
  }

  lemma {:induction false} TrimLeftMeaning(s: string) returns (left: string)
    ensures s == left + TrimLeft(s) && AllSpace(left) && (TrimLeft(s) != [] ==> !IsSpace(TrimLeft(s)[0]))
  {
    left := [];
    if s != [] && IsSpace(s[0]) {
      var more := TrimLeftMeaning(s[1..]);
      left := [s[0]] + more;
    }
  }

  lemma {:induction false} TrimRightMeaning(s: string) returns (right: string)
    ensures s == TrimRight(s) + right && AllSpace(right)
    ensures TrimRight(s) != [] ==> !IsSpace(TrimRight(s)[|TrimRight(s)| - 1])
  {
    right := [];
    if s != [] && IsSpace(s[|s| - 1]) {
      var more := TrimRightMeaning(s[..|s| - 1]);
      right := more + [s[|s| - 1]];
      assert s == s[..|s| - 1] + [s[|s| - 1]];
    }
  }

  /** Stripping takes the white space away at both ends, and nothing else. */
  lemma StripMeaning(s: string) returns (left: string, right: string)
    ensures s == left + Strip(s) + right && AllSpace(left) && AllSpace(right)
    ensures Strip(s) != [] ==> !IsSpace(Strip(s)[0]) && !IsSpace(Strip(s)[|Strip(s)| - 1])
  {
    left := TrimLeftMeaning(s);
    right := TrimRightMeaning(TrimLeft(s));
    assert left + (Strip(s) + right) == left + Strip(s) + right;
  }

  /** A maximal run of characters that are no white space. */
  predicate WordAt(s: string, word: string, i: nat) {
    && word != [] && OccursAt(s, word, i)
    && (forall j :: 0 <= j < |word| ==> !IsSpace(word[j]))
    && (i > 0 ==> IsSpace(s[i - 1]))
    && (i + |word| < |s| ==> IsSpace(s[i + |word|]))
  }

  lemma {:induction false} WordLengthMeaning(s: string)
    ensures forall j :: 0 <= j < WordLength(s) ==> !IsSpace(s[j])
    ensures WordLength(s) < |s| ==> IsSpace(s[WordLength(s)])
  {
    if s != [] && !IsSpace(s[0]) {
      WordLengthMeaning(s[1..]);
      assert forall j :: 0 < j < WordLength(s) ==> s[j] == s[1..][j - 1];
    }
  }

  /** The words of a text are its maximal runs of characters that are no white space. */
  lemma {:induction false} WordsMeaning(s: string, word: string)
    ensures word in Words(s) <==> exists i :: 0 <= i <= |s| && WordAt(s, word, i)
  {
    if s == [] {
    } else if IsSpace(s[0]) {
      WordsMeaning(s[1..], word);
      SkipSpace(s, word);
    } else {
      var n := WordLength(s);
      WordLengthMeaning(s);
      WordsMeaning(s[n..], word);
      SkipWord(s, word, n);
    }
  }

  lemma WordDropped(s: string, word: string, n: nat, i: nat)
    requires n <= i <= |s| && WordAt(s, word, i)
    ensures WordAt(s[n..], word, i - n)
  {
    assert s[n..][i - n..i - n + |word|] == s[i..i + |word|];
  }

  lemma WordAdded(s: string, word: string, n: nat, i: nat)
    requires n <= |s| && i <= |s[n..]| && WordAt(s[n..], word, i) && (i == 0 && n > 0 ==> IsSpace(s[n - 1]))
    ensures WordAt(s, word, n + i)
  {
    assert s[n..][i..i + |word|] == s[n + i..n + i + |word|];
  }

  /** The character at the start of a word is no white space. */
  lemma WordStart(s: string, word: string, i: nat)
    requires WordAt(s, word, i)
    ensures i < |s| && !IsSpace(s[i])
  {
    assert s[i..i + |word|][0] == s[i];
  }

  lemma SkipSpace(s: string, word: string)
    requires s != [] && IsSpace(s[0])
    ensures (exists i :: 0 <= i <= |s| && WordAt(s, word, i)) <==> exists i :: 0 <= i <= |s[1..]| && WordAt(s[1..], word, i)
  {
    if i :| 0 <= i <= |s| && WordAt(s, word, i) {
      WordStart(s, word, i);
      WordDropped(s, word, 1, i);
    }
    if i :| 0 <= i <= |s[1..]| && WordAt(s[1..], word, i) {
      WordAdded(s, word, 1, i);
    }
  }

  lemma SkipWord(s: string, word: string, n: nat)
    requires 0 < n <= |s| && (forall j :: 0 <= j < n ==> !IsSpace(s[j])) && (n < |s| ==> IsSpace(s[n]))
    ensures (exists i :: 0 <= i <= |s| && WordAt(s, word, i)) <==>
            word == s[..n] || exists i :: 0 <= i <= |s[n..]| && WordAt(s[n..], word, i)
  {
    if word == s[..n] {
      assert WordAt(s, word, 0);
    }
    if i :| 0 <= i <= |s| && WordAt(s, word, i) {
      if i == 0 {
        FirstWord(s, word, n);
      } else {
        assert IsSpace(s[i - 1]);
        WordDropped(s, word, n, i);
      }
    }
    if i :| 0 <= i <= |s[n..]| && WordAt(s[n..], word, i) {
      WordStart(s[n..], word, i);
      assert s[n..][0] == s[n];
      WordAdded(s, word, n, i);
    }
  }

  lemma FirstWord(s: string, word: string, n: nat)
    requires 0 < n <= |s| && (forall j :: 0 <= j < n ==> !IsSpace(s[j])) && (n < |s| ==> IsSpace(s[n]))
    requires WordAt(s, word, 0)
    ensures word == s[..n]
  {
    assert forall j :: 0 <= j < |word| ==> word[j] == s[j];
    assert forall j :: 0 <= j < |word| ==> !IsSpace(s[j]);
    assert |word| == n;
  }
}
