/**
 * The few string operations of the JavaScript runtime that the models rely on. In all modules
 * a `char` stands for one UTF-16 code unit, so lengths, positions and cuts are those of the
 * runtime; the two halves of a surrogate pair, however, are no characters of Dafny's.
 */
module Text {

  /** What `\s` matches and `String.prototype.trim` removes. */
  predicate IsSpace(c: char) {
    || '\t' <= c <= '\r'
    || c == ' '
    || c == '\U{00A0}' || c == '\U{1680}' || '\U{2000}' <= c <= '\U{200A}'
    || c == '\U{2028}' || c == '\U{2029}' || c == '\U{202F}' || c == '\U{205F}'
    || c == '\U{3000}' || c == '\U{FEFF}'
  }

  predicate IsDigit(c: char) { '0' <= c <= '9' }

  predicate IsLower(c: char) { 'a' <= c <= 'z' }

  /** Neither end is white space; the empty text is trimmed. */
  predicate Trimmed(s: string) {
    s == "" || (!IsSpace(s[0]) && !IsSpace(s[|s| - 1]))
  }

  function TrimStart(s: string): (r: string)
    ensures r == "" || !IsSpace(r[0])
    ensures |r| <= |s|
    ensures r == "" || r[|r| - 1] == s[|s| - 1]
    ensures s != "" && !IsSpace(s[0]) ==> r == s
  {
    if s != "" && IsSpace(s[0]) then TrimStart(s[1..]) else s
  }

  function TrimEnd(s: string): (r: string)
    ensures r == "" || !IsSpace(r[|r| - 1])
    ensures |r| <= |s|
    ensures r == "" || r[0] == s[0]
    ensures s != "" && !IsSpace(s[|s| - 1]) ==> r == s
  {
    if s != "" && IsSpace(s[|s| - 1]) then TrimEnd(s[..|s| - 1]) else s
  }

  function Trim(s: string): (r: string)
    ensures Trimmed(r)
    ensures Trimmed(s) ==> r == s
  {
    TrimEnd(TrimStart(s))
  }

  /** Trimming takes the white space at both ends and nothing else. */
  lemma OnlySpaceIsTrimmed(s: string) returns (i: nat, j: nat)
    ensures i <= j <= |s| && Trim(s) == s[i..j]
    ensures forall k :: 0 <= k < i || j <= k < |s| ==> IsSpace(s[k])
  {
    i := StartIsTrimmed(s);
    var front := EndIsTrimmed(s[i..]);
    j := i + front;
    assert forall k :: j <= k < |s| ==> s[k] == s[i..][k - i];
  }

  lemma {:induction false} StartIsTrimmed(s: string) returns (i: nat)
    ensures i <= |s| && TrimStart(s) == s[i..] && forall k :: 0 <= k < i ==> IsSpace(s[k])
  {
    i := 0;
    if s != "" && IsSpace(s[0]) {
      var rest := StartIsTrimmed(s[1..]);
      i := rest + 1;
      forall k | 0 <= k < i ensures IsSpace(s[k]) { if k > 0 { assert s[k] == s[1..][k - 1]; } }
    }
  }

  lemma {:induction false} EndIsTrimmed(s: string) returns (j: nat)
    ensures j <= |s| && TrimEnd(s) == s[..j] && forall k :: j <= k < |s| ==> IsSpace(s[k])
  {
    j := |s|;
    if s != "" && IsSpace(s[|s| - 1]) {
      j := EndIsTrimmed(s[..|s| - 1]);
      assert s[..|s| - 1][..j] == s[..j];
    }
  }

  /**
   * `toLowerCase` on one character, as far as it can produce ASCII letters: only
   * A-Z, the Kelvin sign and the dotted capital I do.
   */
  function LowerChar(c: char): string {
    if 'A' <= c <= 'Z' then [c - 'A' + 'a']
    else if c == '\U{212A}' then "k"
    else if c == '\U{0130}' then "i\U{0307}"
    else [c]
  }

  function Lower(s: string): string {
    if s == "" then "" else LowerChar(s[0]) + Lower(s[1..])
  }

  /** But for those two characters, lower-casing turns A-Z into a-z, one by one. */
  lemma {:induction false} LettersAreLowered(s: string)
    requires forall i :: 0 <= i < |s| ==> s[i] != '\U{212A}' && s[i] != '\U{0130}'
    ensures |Lower(s)| == |s|
    ensures forall i :: 0 <= i < |s| ==> Lower(s)[i] == if 'A' <= s[i] <= 'Z' then s[i] - 'A' + 'a' else s[i]
  {
    if s != "" {
      LettersAreLowered(s[1..]);
      assert Lower(s) == LowerChar(s[0]) + Lower(s[1..]);
      forall i | 0 <= i < |s| ensures Lower(s)[i] == if 'A' <= s[i] <= 'Z' then s[i] - 'A' + 'a' else s[i] {
        if i > 0 { assert Lower(s)[i] == Lower(s[1..])[i - 1]; }
      }
    }
  }

  /** `parts.join(' ')`. */
  function JoinWords(parts: seq<string>): string {
    if |parts| == 0 then "" else
    if |parts| == 1 then parts[0] else parts[0] + " " + JoinWords(parts[1..])
  }

  /** One more word comes after one more blank. */
  lemma {:induction false} WordsAreJoinedByBlanks(parts: seq<string>, word: string)
    ensures JoinWords(parts + [word]) == if parts == [] then word else JoinWords(parts) + " " + word
  {
    if |parts| > 1 {
      WordsAreJoinedByBlanks(parts[1..], word);
      assert (parts + [word])[1..] == parts[1..] + [word];
      var rest := JoinWords(parts[1..]);
      assert JoinWords(parts + [word]) == parts[0] + " " + (rest + " " + word);
      assert parts[0] + " " + (rest + " " + word) == (parts[0] + " " + rest) + " " + word;
    } else if |parts| == 1 {
      assert (parts + [word])[1..] == [word];
    }
  }

  /** Joining trimmed, non-empty words needs no trimming and loses no word. */
  lemma {:induction false} JoinedWordsAreTrimmed(parts: seq<string>)
    requires forall i :: 0 <= i < |parts| ==> parts[i] != "" && Trimmed(parts[i])
    ensures Trimmed(JoinWords(parts))
    ensures JoinWords(parts) == "" <==> parts == []
  {
    if |parts| > 1 {
      JoinedWordsAreTrimmed(parts[1..]);
      var rest := JoinWords(parts[1..]);
      var s := parts[0] + " " + rest;
      assert JoinWords(parts) == s;
      assert s[0] == parts[0][0] && s[|s| - 1] == rest[|rest| - 1];
    }
  }

  /** The digits of a text, in order: `replace(/\D/g, '')`. */
  function DigitsOf(s: string): (r: string)
    ensures forall i :: 0 <= i < |r| ==> IsDigit(r[i])
  {
    if s == "" then "" else (if IsDigit(s[0]) then [s[0]] else "") + DigitsOf(s[1..])
  }

  lemma {:induction false} DigitsOfAppend(a: string, b: string)
    ensures DigitsOf(a + b) == DigitsOf(a) + DigitsOf(b)
  {
    if a == "" {
      assert a + b == b;
    } else {
      DigitsOfAppend(a[1..], b);
      assert (a + b)[1..] == a[1..] + b;
    }
  }

  lemma {:induction false} DigitsOfDigits(s: string)
    requires forall i :: 0 <= i < |s| ==> IsDigit(s[i])
    ensures DigitsOf(s) == s
  {
    if s != "" {
      DigitsOfDigits(s[1..]);
      assert s == [s[0]] + s[1..];
    }
  }
}
