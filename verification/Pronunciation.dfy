/**
 * Replacing terms by how they are pronounced, in a text that arrives in chunks
 * (apps/voice-agent/src/speech.ts), and in a whole text, which that stands for
 * (packages/phone-agent/src/speech.ts).
 */
module Pronunciation {
  import Text

  // ---- Where held text may be released ----

  const MAX_BUFFER_CHARS := 300

  /** Phrase-ending punctuation, in Latin and Arabic text. */
  predicate IsPunctuation(c: char) {
    c in {'.', '!', '?', ',', ';', ':', '\U{060C}', '\U{061B}', '\U{061F}', '\n'}
  }

  /** Punctuation with white space after it. */
  predicate BoundaryAt(s: string, p: nat) {
    p + 1 < |s| && IsPunctuation(s[p]) && Text.IsSpace(s[p + 1])
  }

  predicate HasBoundary(s: string) {
    exists p: nat :: p < |s| && BoundaryAt(s, p)
  }

  /** The end of the white space that starts here. */
  function RunEnd(s: string, k: nat): (r: nat)
    requires k <= |s|
    ensures k <= r <= |s|
    ensures forall i :: k <= i < r ==> Text.IsSpace(s[i])
    ensures r < |s| ==> !Text.IsSpace(s[r])
    decreases |s| - k
  {
    if k < |s| && Text.IsSpace(s[k]) then RunEnd(s, k + 1) else k
  }

  /** The end of the last boundary that starts before n, or 0. */
  function LastCut(s: string, n: nat): (r: nat)
    requires n <= |s|
    ensures r <= |s|
    ensures r > 0 ==> exists p: nat :: p < n && BoundaryAt(s, p) && r == RunEnd(s, p + 1)
    ensures forall p: nat :: p < n && BoundaryAt(s, p) ==> RunEnd(s, p + 1) <= r
  {
    if n == 0 then 0
    else if BoundaryAt(s, n - 1) then
      assert forall p: nat :: p < n && BoundaryAt(s, p) ==> RunEnd(s, p + 1) <= RunEnd(s, n) by {
        forall p: nat | p < n && BoundaryAt(s, p) ensures RunEnd(s, p + 1) <= RunEnd(s, n) { RunsInOrder(s, p + 1, n); }
      }
      RunEnd(s, n)
    else LastCut(s, n - 1)
  }

  lemma RunsInOrder(s: string, k: nat, m: nat)
    requires k <= m <= |s|
    ensures RunEnd(s, k) <= RunEnd(s, m)
    ensures m <= RunEnd(s, k) ==> RunEnd(s, k) == RunEnd(s, m)
  {
    var a, b := RunEnd(s, k), RunEnd(s, m);
    assert a == |s| || !Text.IsSpace(s[a]);
    assert b == |s| || !Text.IsSpace(s[b]);
  }

  /** One past the last plain space, or 0. */
  function AfterLastSpace(s: string): (r: nat)
    ensures r <= |s|
    ensures r > 0 ==> s[r - 1] == ' '
    ensures forall i :: r <= i < |s| ==> s[i] != ' '
  {
    if s == "" then 0 else if s[|s| - 1] == ' ' then |s| else AfterLastSpace(s[..|s| - 1])
  }

  /** How much of the held text may go: up to the last boundary, or the last space of a long text. */
  function ReleasePoint(s: string): nat {
    var cut := LastCut(s, |s|);
    if cut == 0 && |s| > MAX_BUFFER_CHARS then AfterLastSpace(s) else cut
  }

  /** The scan of the source: boundaries from left to right, the end of the last one found. */
  method FindReleasePoint(buffer: string) returns (cut: nat)
    ensures cut == ReleasePoint(buffer) <= |buffer|
  {
    cut := 0;
    var i := 0;
    while i < |buffer|
      invariant i <= |buffer| && cut == LastCut(buffer, i)
      decreases |buffer| - i
    {
      if BoundaryAt(buffer, i) {
        cut := RunEnd(buffer, i + 1);
        CutOfRun(buffer, i, cut);
        i := cut;
      } else {
        i := i + 1;
      }
    }
    if cut == 0 && |buffer| > MAX_BUFFER_CHARS {
      cut := AfterLastSpace(buffer);
    }
  }

  /** Boundaries inside the white space of one end where it ends. */
  lemma {:induction false} CutOfRun(s: string, p: nat, n: nat)
    requires p < |s| && BoundaryAt(s, p) && p < n <= RunEnd(s, p + 1)
    ensures LastCut(s, n) == RunEnd(s, p + 1)
  {
    if n > p + 1 {
      if BoundaryAt(s, n - 1) { RunsInOrder(s, p + 1, n); } else { CutOfRun(s, p, n - 1); }
    }
  }

  lemma BoundariesComeBeforeCut(s: string)
    ensures forall p: nat :: p < |s| && BoundaryAt(s, p) ==> p < LastCut(s, |s|)
  {
    assert forall p: nat :: p < |s| && BoundaryAt(s, p) ==> p < RunEnd(s, p + 1);
  }

  /** What stays behind holds no boundary, and no plain space once it is long unless a boundary was just released. */
  lemma NothingIsHeldTooLong(s: string)
    ensures
      var rest := s[ReleasePoint(s)..];
      && !HasBoundary(rest)
      && (|rest| > MAX_BUFFER_CHARS ==> ' ' !in rest || ReleasePoint(s) == LastCut(s, |s|) > 0)
  {
    var cut := ReleasePoint(s);
    var rest := s[cut..];
    BoundariesComeBeforeCut(s);
    forall p: nat | p < |rest| ensures !BoundaryAt(rest, p) {
      assert BoundaryAt(rest, p) == BoundaryAt(s, cut + p);
    }
  }

  /** A released piece ends in white space: at a boundary, or after a plain space when the text was too long. */
  lemma PiecesEndInSpace(s: string)
    requires ReleasePoint(s) > 0
    ensures
      var cut := ReleasePoint(s);
      Text.IsSpace(s[cut - 1]) && if LastCut(s, |s|) > 0 then EndsAtBoundary(s[..cut]) else s[cut - 1] == ' '
  {
    var cut := LastCut(s, |s|);
    if cut > 0 {
      var p: nat :| p < |s| && BoundaryAt(s, p) && cut == RunEnd(s, p + 1);
      assert EndsAtBoundary(s[..cut]) by { assert BoundaryAt(s[..cut], p); }
    }
  }

  /** Punctuation and then nothing but white space, at least one character of it. */
  predicate EndsAtBoundary(s: string) {
    exists p: nat :: p < |s| && BoundaryAt(s, p) && forall i :: p < i < |s| ==> Text.IsSpace(s[i])
  }

  predicate BoundaryWithin(s: string, i: nat) {
    exists p: nat :: i <= p < i + MAX_BUFFER_CHARS && BoundaryAt(s, p)
  }

  /** No stretch of 301 characters goes without a boundary; every text of up to 300 is such. */
  predicate Phrased(s: string) {
    forall i: nat :: i + MAX_BUFFER_CHARS < |s| ==> BoundaryWithin(s, i)
  }

  /** The end of such a text is never cut at a mere space. */
  lemma PhrasedIsNotCutShort(lead: string, s: string)
    requires Phrased(lead + s) && ReleasePoint(s) > 0
    ensures LastCut(s, |s|) > 0
  {
    if |s| > MAX_BUFFER_CHARS {
      var text := lead + s;
      assert BoundaryWithin(text, |lead|);
      var p: nat :| |lead| <= p < |lead| + MAX_BUFFER_CHARS && BoundaryAt(text, p);
      assert BoundaryAt(s, p - |lead|);
      assert RunEnd(s, p - |lead| + 1) > 0;
    }
  }

  lemma PhrasedPrefix(s: string, more: string)
    requires Phrased(s + more)
    ensures Phrased(s)
  {
    var text := s + more;
    forall i: nat | i + MAX_BUFFER_CHARS < |s| ensures BoundaryWithin(s, i) {
      assert BoundaryWithin(text, i);
      var p: nat :| i <= p < i + MAX_BUFFER_CHARS && BoundaryAt(text, p);
      assert BoundaryAt(s, p);
    }
  }

  // ---- Spoken forms ----

  /**
   * The owner's terms, longest first, and what the voice says instead. `fold` compares
   * without case, and `isWordChar` is a letter or a number.
   */
  datatype Rules = Rules(
    terms: seq<string>, sayAs: string -> string, fold: char -> char, isWordChar: char -> bool)

  /** Terms are trimmed, of 1 to 60 characters; white space and punctuation have no other case. */
  ghost predicate Sensible(rules: Rules) {
    && (forall k :: 0 <= k < |rules.terms| ==> 0 < |rules.terms[k]| <= 60 && Text.Trimmed(rules.terms[k]))
    && (forall j, k :: 0 <= j < k < |rules.terms| ==> |rules.terms[j]| >= |rules.terms[k]|)
    && (forall c, d :: rules.fold(c) == rules.fold(d) && (Text.IsSpace(c) || IsPunctuation(c)) ==> c == d)
    && (forall c :: Text.IsSpace(c) ==> !rules.isWordChar(c))
  }

  /** The term stands at i as a whole word. */
  ghost predicate Occurs(rules: Rules, text: string, i: nat, term: string) {
    && i + |term| <= |text|
    && (forall k :: 0 <= k < |term| ==> rules.fold(text[i + k]) == rules.fold(term[k]))
    && (i == 0 || !rules.isWordChar(text[i - 1]))
    && (i + |term| == |text| || !rules.isWordChar(text[i + |term|]))
  }

  /** The length of the first term that occurs at i; 0 when none does. */
  ghost function MatchAt(rules: Rules, terms: seq<string>, text: string, i: nat): (n: nat)
    ensures n > 0 ==> exists k :: 0 <= k < |terms| && |terms[k]| == n && Occurs(rules, text, i, terms[k])
    ensures n == 0 ==> forall k :: 0 <= k < |terms| ==> terms[k] == "" || !Occurs(rules, text, i, terms[k])
  {
    if terms == [] then 0
    else if terms[0] != "" && Occurs(rules, text, i, terms[0]) then
      assert terms[0] == terms[0];
      |terms[0]|
    else
      var n := MatchAt(rules, terms[1..], text, i);
      assert n > 0 ==> exists k :: 0 <= k < |terms| && |terms[k]| == n && Occurs(rules, text, i, terms[k]) by {
        if n > 0 {
          var k :| 0 <= k < |terms[1..]| && |terms[1..][k]| == n && Occurs(rules, text, i, terms[1..][k]);
          assert terms[k + 1] == terms[1..][k];
        }
      }
      assert n == 0 ==> forall k :: 0 <= k < |terms| ==> terms[k] == "" || !Occurs(rules, text, i, terms[k]) by {
        forall k | n == 0 && 0 <= k < |terms| ensures terms[k] == "" || !Occurs(rules, text, i, terms[k]) {
          if k > 0 { assert terms[k] == terms[1..][k - 1]; }
        }
      }
      n
  }

  /** The places where a term is replaced, from i on. */
  ghost function Spans(rules: Rules, text: string, i: nat): seq<(nat, nat)>
    requires i <= |text|
    decreases |text| - i
  {
    if i == |text| then []
    else
      var n := MatchAt(rules, rules.terms, text, i);
      if n > 0 then [(i, i + n)] + Spans(rules, text, i + n) else Spans(rules, text, i + 1)
  }

  /** The text with every term replaced, from i on. */
  ghost function Spoken(rules: Rules, text: string, i: nat): string
    requires i <= |text|
    decreases |text| - i
  {
    if i == |text| then ""
    else
      var n := MatchAt(rules, rules.terms, text, i);
      if n > 0 then rules.sayAs(text[i..i + n]) + Spoken(rules, text, i + n)
      else [text[i]] + Spoken(rules, text, i + 1)
  }

  // ---- Which terms are replaced ----

  /** This place is part of a term that is replaced. */
  ghost predicate Inside(spans: seq<(nat, nat)>, p: nat) {
    exists k :: 0 <= k < |spans| && spans[k].0 <= p < spans[k].1
  }

  ghost predicate InTurn(spans: seq<(nat, nat)>, i: nat, end: nat) {
    && (forall k :: 0 <= k < |spans| ==> i <= spans[k].0 < spans[k].1 <= end)
    && forall j, k :: 0 <= j < k < |spans| ==> spans[j].1 <= spans[k].0
  }

  /** Every term that occurs in the text stands in a replaced place, and none longer starts where that starts. */
  ghost predicate Complete(rules: Rules, text: string, i: nat, spans: seq<(nat, nat)>) {
    && (forall p: nat, k :: i <= p && 0 <= k < |rules.terms| && Occurs(rules, text, p, rules.terms[k]) ==>
          Inside(spans, p))
    && (forall j, k ::
          0 <= j < |spans| && 0 <= k < |rules.terms| && Occurs(rules, text, spans[j].0, rules.terms[k]) ==>
            spans[j].0 + |rules.terms[k]| <= spans[j].1)
  }

  /** The text with these places said as the owner wants them, and all the rest as it stands. */
  ghost function Replaced(rules: Rules, text: string, i: nat, spans: seq<(nat, nat)>): string
    requires i <= |text| && InTurn(spans, i, |text|)
    decreases |spans|
  {
    if spans == [] then text[i..]
    else
      var span := spans[0];
      assert InTurn(spans[1..], span.1, |text|) by { InTurnTail(spans, i, |text|); }
      text[i..span.0] + rules.sayAs(text[span.0..span.1]) + Replaced(rules, text, span.1, spans[1..])
  }

  lemma InTurnTail(spans: seq<(nat, nat)>, i: nat, end: nat)
    requires spans != [] && InTurn(spans, i, end)
    ensures InTurn(spans[1..], spans[0].1, end)
  {
    var rest := spans[1..];
    assert forall k :: 0 <= k < |rest| ==> rest[k] == spans[k + 1];
  }

  lemma {:induction false} MatchIsLongest(rules: Rules, terms: seq<string>, text: string, i: nat)
    requires forall k :: 0 <= k < |terms| ==> terms[k] != ""
    requires forall j, k :: 0 <= j < k < |terms| ==> |terms[j]| >= |terms[k]|
    ensures forall k :: 0 <= k < |terms| && Occurs(rules, text, i, terms[k]) ==>
              0 < |terms[k]| <= MatchAt(rules, terms, text, i)
  {
    hide Occurs;
    if terms != [] && !Occurs(rules, text, i, terms[0]) {
      var rest := terms[1..];
      MatchIsLongest(rules, rest, text, i);
      forall k | 0 <= k < |terms| && Occurs(rules, text, i, terms[k])
        ensures 0 < |terms[k]| <= MatchAt(rules, terms, text, i)
      {
        assert rest[k - 1] == terms[k];
      }
    }
  }

  lemma SpansMore(rules: Rules, text: string, i: nat, n: nat, rest: seq<(nat, nat)>)
    requires n > 0 && i + n <= |text| && InTurn(rest, i + n, |text|) && Complete(rules, text, i + n, rest)
    requires forall k :: 0 <= k < |rules.terms| && Occurs(rules, text, i, rules.terms[k]) ==> |rules.terms[k]| <= n
    ensures InTurn([(i, i + n)] + rest, i, |text|) && Complete(rules, text, i, [(i, i + n)] + rest)
  {
    hide Occurs;
    var all := [(i, i + n)] + rest;
    assert forall k :: 0 <= k < |rest| ==> all[k + 1] == rest[k];
    forall p: nat, k | i <= p && 0 <= k < |rules.terms| && Occurs(rules, text, p, rules.terms[k])
      ensures Inside(all, p)
    {
      if p < i + n {
        assert all[0].0 <= p < all[0].1;
      } else {
        assert Inside(rest, p);
        var j :| 0 <= j < |rest| && rest[j].0 <= p < rest[j].1;
        assert all[j + 1] == rest[j];
      }
    }
  }

  lemma SpansSkip(rules: Rules, text: string, i: nat, rest: seq<(nat, nat)>)
    requires i < |text| && InTurn(rest, i + 1, |text|) && Complete(rules, text, i + 1, rest)
    requires forall k :: 0 <= k < |rules.terms| ==> !Occurs(rules, text, i, rules.terms[k])
    ensures InTurn(rest, i, |text|) && Complete(rules, text, i, rest)
  {
    hide Occurs, Inside;
  }

  /**
   * The places replaced are the leftmost occurrences of terms that do not overlap, each of the
   * longest term that occurs there, and nothing but them is said otherwise than it is written.
   */
  lemma {:induction false} LongestTermsAreReplaced(rules: Rules, text: string, i: nat)
    requires Sensible(rules) && i <= |text|
    ensures
      var spans := Spans(rules, text, i);
      && InTurn(spans, i, |text|) && (forall k :: 0 <= k < |spans| ==> TermSpan(rules, text, spans[k]))
      && Complete(rules, text, i, spans) && Spoken(rules, text, i) == Replaced(rules, text, i, spans)
    decreases |text| - i
  {
    hide Occurs, Complete, InTurn, Spans, Spoken, Replaced, MatchAt, TermSpan;
    SpansAreTerms(rules, text, i);
    if i == |text| {
      NothingBeyondTheEnd(rules, text);
    } else {
      ScanStep(rules, text, i);
      MatchIsLongest(rules, rules.terms, text, i);
      var n := MatchAt(rules, rules.terms, text, i);
      hide Sensible;
      if n > 0 {
        LongestTermsAreReplaced(rules, text, i + n);
        SpansMore(rules, text, i, n, Spans(rules, text, i + n));
        ReplacedFirst(rules, text, i, n, Spans(rules, text, i + n));
      } else {
        LongestTermsAreReplaced(rules, text, i + 1);
        SpansSkip(rules, text, i, Spans(rules, text, i + 1));
        ReplacedLater(rules, text, i, Spans(rules, text, i + 1));
      }
    }
  }

  lemma NothingBeyondTheEnd(rules: Rules, text: string)
    requires Sensible(rules)
    ensures
      var n := |text|;
      && Spans(rules, text, n) == [] && Spoken(rules, text, n) == ""
      && InTurn([], n, n) && Complete(rules, text, n, []) && Replaced(rules, text, n, []) == ""
  {
  }

  lemma ReplacedFirst(rules: Rules, text: string, i: nat, n: nat, rest: seq<(nat, nat)>)
    requires i + n <= |text| && n > 0 && InTurn(rest, i + n, |text|) && InTurn([(i, i + n)] + rest, i, |text|)
    ensures
      Replaced(rules, text, i, [(i, i + n)] + rest) ==
      rules.sayAs(text[i..i + n]) + Replaced(rules, text, i + n, rest)
  {
    assert ([(i, i + n)] + rest)[1..] == rest && text[i..i] == "";
    hide InTurn;
  }

  lemma ReplacedLater(rules: Rules, text: string, i: nat, rest: seq<(nat, nat)>)
    requires i < |text| && InTurn(rest, i + 1, |text|) && InTurn(rest, i, |text|)
    ensures Replaced(rules, text, i, rest) == [text[i]] + Replaced(rules, text, i + 1, rest)
  {
    if rest == [] {
      assert text[i..] == [text[i]] + text[i + 1..];
    } else {
      var span := rest[0];
      var tail := rules.sayAs(text[span.0..span.1]);
      assert text[i..span.0] == [text[i]] + text[i + 1..span.0];
      InTurnTail(rest, i, |text|);
      hide InTurn;
    }
  }

  // ---- Cutting a text after white space ----

  function Shifted(spans: seq<(nat, nat)>, c: nat): (r: seq<(nat, nat)>)
    ensures |r| == |spans| && forall k :: 0 <= k < |r| ==> r[k] == (spans[k].0 + c, spans[k].1 + c)
  {
    if spans == [] then [] else [(spans[0].0 + c, spans[0].1 + c)] + Shifted(spans[1..], c)
  }

  ghost predicate Straddles(span: (nat, nat), c: nat) { span.0 < c < span.1 }

  /** A term of the left part occurs there exactly when it occurs in the whole text. */
  lemma OccursLeft(rules: Rules, text: string, c: nat, i: nat, term: string)
    requires Sensible(rules) && 0 < c <= |text| && Text.IsSpace(text[c - 1]) && i < c
    requires term in rules.terms
    ensures Occurs(rules, text[..c], i, term) <==> Occurs(rules, text, i, term) && i + |term| <= c
  {
    var last := |term| - 1;
    assert term != "" && !Text.IsSpace(term[last]);
    assert rules.fold(term[last]) != rules.fold(text[c - 1]);
  }

  lemma OccursRight(rules: Rules, text: string, c: nat, i: nat, term: string)
    requires Sensible(rules) && 0 < c <= |text| && Text.IsSpace(text[c - 1]) && i <= |text| - c
    ensures Occurs(rules, text[c..], i, term) <==> Occurs(rules, text, c + i, term)
  {
    var right := text[c..];
    if i + |term| <= |right| {
      assert forall m :: c + i <= m < c + i + |term| ==> text[m] == right[m - c];
      assert i > 0 ==> right[i - 1] == text[c + i - 1];
      assert i + |term| < |right| ==> right[i + |term|] == text[c + i + |term|];
    }
  }

  lemma {:induction false} MatchLeft(rules: Rules, terms: seq<string>, text: string, c: nat, i: nat)
    requires Sensible(rules) && 0 < c <= |text| && Text.IsSpace(text[c - 1]) && i < c
    requires forall k :: 0 <= k < |terms| ==> terms[k] in rules.terms
    requires i + MatchAt(rules, terms, text, i) <= c
    ensures MatchAt(rules, terms, text[..c], i) == MatchAt(rules, terms, text, i)
  {
    if terms != [] {
      OccursLeft(rules, text, c, i, terms[0]);
      if !(terms[0] != "" && Occurs(rules, text, i, terms[0])) {
        forall k | 0 <= k < |terms[1..]| ensures terms[1..][k] in rules.terms { assert terms[1..][k] == terms[k + 1]; }
        MatchLeft(rules, terms[1..], text, c, i);
      }
    }
  }

  lemma {:induction false} MatchRight(rules: Rules, terms: seq<string>, text: string, c: nat, i: nat)
    requires Sensible(rules) && 0 < c <= |text| && Text.IsSpace(text[c - 1]) && i <= |text| - c
    ensures MatchAt(rules, terms, text[c..], i) == MatchAt(rules, terms, text, c + i)
  {
    if terms != [] {
      OccursRight(rules, text, c, i, terms[0]);
      MatchRight(rules, terms[1..], text, c, i);
    }
  }

  lemma ShiftedMore(span: (nat, nat), spans: seq<(nat, nat)>, c: nat)
    ensures Shifted([span] + spans, c) == [(span.0 + c, span.1 + c)] + Shifted(spans, c)
  {
    assert ([span] + spans)[1..] == spans;
  }

  /** One step of the scan. */
  lemma ScanStep(rules: Rules, text: string, i: nat)
    requires i < |text|
    ensures i + MatchAt(rules, rules.terms, text, i) <= |text|
    ensures
      var n := MatchAt(rules, rules.terms, text, i);
      if n > 0 then
        && Spans(rules, text, i) == [(i, i + n)] + Spans(rules, text, i + n)
        && Spoken(rules, text, i) == rules.sayAs(text[i..i + n]) + Spoken(rules, text, i + n)
      else
        && Spans(rules, text, i) == Spans(rules, text, i + 1)
        && Spoken(rules, text, i) == [text[i]] + Spoken(rules, text, i + 1)
  {
  }

  lemma ScanEnd(rules: Rules, text: string)
    ensures Spans(rules, text, |text|) == [] && Spoken(rules, text, |text|) == ""
  {
  }

  lemma SliceOfRight(text: string, c: nat, i: nat, n: nat)
    requires c + i + n <= |text|
    ensures text[c..][i..i + n] == text[c + i..c + i + n]
  {
  }

  lemma SliceOfLeft(text: string, c: nat, i: nat, n: nat)
    requires i + n <= c <= |text|
    ensures text[..c][i..i + n] == text[i..i + n]
  {
  }

  lemma {:induction false} RightPart(rules: Rules, text: string, c: nat, i: nat)
    requires Sensible(rules) && 0 < c <= |text| && Text.IsSpace(text[c - 1]) && i <= |text| - c
    ensures Spans(rules, text, c + i) == Shifted(Spans(rules, text[c..], i), c)
    ensures Spoken(rules, text, c + i) == Spoken(rules, text[c..], i)
    decreases |text| - i
  {
    hide MatchAt, Sensible, Occurs, Spans, Spoken, Shifted, Text.IsSpace;
    var right := text[c..];
    if c + i < |text| {
      MatchRight(rules, rules.terms, text, c, i);
      var n := MatchAt(rules, rules.terms, text, c + i);
      ScanStep(rules, text, c + i);
      ScanStep(rules, right, i);
      if n > 0 {
        RightPart(rules, text, c, i + n);
        ShiftedMore((i, i + n), Spans(rules, right, i + n), c);
        SliceOfRight(text, c, i, n);
      } else {
        RightPart(rules, text, c, i + 1);
      }
    } else {
      ScanEnd(rules, text);
      ScanEnd(rules, right);
    }
  }

  /** No replaced term crosses the cut. */
  ghost predicate Uncrossed(spans: seq<(nat, nat)>, c: nat) {
    forall k :: 0 <= k < |spans| ==> !Straddles(spans[k], c)
  }

  lemma UncrossedTail(span: (nat, nat), spans: seq<(nat, nat)>, c: nat)
    requires Uncrossed([span] + spans, c)
    ensures !Straddles(span, c) && Uncrossed(spans, c)
  {
    var all := [span] + spans;
    assert all[0] == span;
    forall k | 0 <= k < |spans| ensures !Straddles(spans[k], c) { assert all[k + 1] == spans[k]; }
  }

  lemma {:induction false} LeftPart(rules: Rules, text: string, c: nat, i: nat)
    requires Sensible(rules) && 0 < c <= |text| && Text.IsSpace(text[c - 1]) && i <= c
    requires Uncrossed(Spans(rules, text, i), c)
    ensures Spans(rules, text, i) == Spans(rules, text[..c], i) + Shifted(Spans(rules, text[c..], 0), c)
    ensures Spoken(rules, text, i) == Spoken(rules, text[..c], i) + Spoken(rules, text[c..], 0)
    decreases c - i
  {
    hide MatchAt, Sensible, Occurs, Spans, Spoken, Uncrossed, Shifted, Text.IsSpace;
    var left := text[..c];
    if i == c {
      RightPart(rules, text, c, 0);
      ScanEnd(rules, left);
    } else {
      var n := MatchAt(rules, rules.terms, text, i);
      ScanStep(rules, text, i);
      if n > 0 { UncrossedTail((i, i + n), Spans(rules, text, i + n), c); }
      MatchLeft(rules, rules.terms, text, c, i);
      ScanStep(rules, left, i);
      if n > 0 {
        LeftPart(rules, text, c, i + n);
        SliceOfLeft(text, c, i, n);
      } else {
        LeftPart(rules, text, c, i + 1);
      }
    }
  }

  lemma {:induction false} SpansInside(rules: Rules, text: string, i: nat)
    requires i <= |text|
    ensures forall k :: 0 <= k < |Spans(rules, text, i)| ==>
              i <= Spans(rules, text, i)[k].0 < Spans(rules, text, i)[k].1 <= |text|
    decreases |text| - i
  {
    if i < |text| {
      var n := MatchAt(rules, rules.terms, text, i);
      if n > 0 {
        SpansInside(rules, text, i + n);
      } else {
        SpansInside(rules, text, i + 1);
      }
    }
  }

  /**
   * Cut after white space, a text has the same terms replaced in its two parts as in the
   * whole exactly when none of the terms replaced in the whole crosses the cut.
   */
  lemma CutKeepsTermsExactlyWhen(rules: Rules, text: string, c: nat)
    requires Sensible(rules) && 0 < c <= |text| && Text.IsSpace(text[c - 1])
    ensures
      Uncrossed(Spans(rules, text, 0), c) <==>
      Spans(rules, text, 0) == Spans(rules, text[..c], 0) + Shifted(Spans(rules, text[c..], 0), c)
    ensures Uncrossed(Spans(rules, text, 0), c) ==>
              Spoken(rules, text, 0) == Spoken(rules, text[..c], 0) + Spoken(rules, text[c..], 0)
  {
    if Uncrossed(Spans(rules, text, 0), c) {
      LeftPart(rules, text, c, 0);
    } else {
      SpansInside(rules, text[..c], 0);
      SpansInside(rules, text[c..], 0);
      var parts := Spans(rules, text[..c], 0) + Shifted(Spans(rules, text[c..], 0), c);
      assert Uncrossed(parts, c);
    }
  }

  // ---- The stream ----

  function Concat(parts: seq<string>): string {
    if parts == [] then "" else parts[0] + Concat(parts[1..])
  }

  lemma ConcatNone()
    ensures Concat([]) == ""
  {
  }

  lemma {:induction false} ConcatAppend(parts: seq<string>, last: string)
    ensures Concat(parts + [last]) == Concat(parts) + last
  {
    if parts == [] {
      assert [last][1..] == [] && Concat([last]) == last + Concat([]);
    } else {
      assert (parts + [last])[1..] == parts[1..] + [last];
      ConcatAppend(parts[1..], last);
    }
  }

  /** What was released, piece by piece, and what is held. */
  datatype Held = Held(pieces: seq<string>, buffer: string)

  function Feed(h: Held, chunk: string): Held {
    var text := h.buffer + chunk;
    var cut := ReleasePoint(text);
    if cut == 0 then h.(buffer := text)
    else Held(h.pieces + [text[..cut]], text[cut..])
  }

  function FeedAll(chunks: seq<string>): Held {
    if chunks == [] then Held([], "") else Feed(FeedAll(chunks[..|chunks| - 1]), chunks[|chunks| - 1])
  }

  /** The pieces once the stream has closed. */
  function Closed(h: Held): seq<string> {
    if h.buffer == "" then h.pieces else h.pieces + [h.buffer]
  }

  lemma FeedKeepsText(h: Held, chunk: string)
    ensures Concat(Feed(h, chunk).pieces) + Feed(h, chunk).buffer == Concat(h.pieces) + h.buffer + chunk
  {
    var text := h.buffer + chunk;
    var cut := ReleasePoint(text);
    assert cut <= |text|;
    hide ReleasePoint, Concat, LastCut;
    assert Concat(h.pieces) + h.buffer + chunk == Concat(h.pieces) + text;
    if cut > 0 {
      ConcatAppend(h.pieces, text[..cut]);
      assert Concat(h.pieces) + text[..cut] + text[cut..] == Concat(h.pieces) + (text[..cut] + text[cut..]);
      assert text == text[..cut] + text[cut..];
    }
  }

  /** Consecutive pieces: nothing is lost, doubled or reordered, whatever the chunks. */
  lemma {:induction false} NothingIsLost(chunks: seq<string>)
    ensures Concat(FeedAll(chunks).pieces) + FeedAll(chunks).buffer == Concat(chunks)
    ensures Concat(Closed(FeedAll(chunks))) == Concat(chunks)
  {
    hide Feed, Concat;
    var h := FeedAll(chunks);
    if chunks == [] {
      ConcatNone();
    } else {
      var before, chunk := chunks[..|chunks| - 1], chunks[|chunks| - 1];
      assert h == Feed(FeedAll(before), chunk);
      hide FeedAll;
      NothingIsLost(before);
      assert chunks == before + [chunk];
      ConcatAppend(before, chunk);
      FeedKeepsText(FeedAll(before), chunk);
    }
    hide FeedAll;
    ConcatAppend(h.pieces, h.buffer);
    if h.buffer == "" { assert Concat(h.pieces) + "" == Concat(h.pieces); }
  }

  /** After every chunk the held text has no boundary. */
  lemma NoBoundaryIsHeld(chunks: seq<string>)
    requires chunks != []
    ensures !HasBoundary(FeedAll(chunks).buffer)
  {
    var text := FeedAll(chunks[..|chunks| - 1]).buffer + chunks[|chunks| - 1];
    NothingIsHeldTooLong(text);
    assert text[0..] == text;
  }

  // ---- The stream refines the whole text ----

  ghost function SpokenPieces(rules: Rules, pieces: seq<string>): string {
    if pieces == [] then "" else Spoken(rules, pieces[0], 0) + SpokenPieces(rules, pieces[1..])
  }

  ghost function PieceSpans(rules: Rules, pieces: seq<string>): seq<(nat, nat)> {
    if pieces == [] then [] else Spans(rules, pieces[0], 0) + Shifted(PieceSpans(rules, pieces[1..]), |pieces[0]|)
  }

  /** Spoken piece by piece, the text has the same terms replaced as when spoken whole. */
  ghost predicate Refines(rules: Rules, chunks: seq<string>) {
    PieceSpans(rules, Closed(FeedAll(chunks))) == Spans(rules, Concat(chunks), 0)
  }

  /** No term replaced in the whole text crosses the end of a piece. */
  ghost predicate TermsStayWhole(rules: Rules, pieces: seq<string>) {
    forall j :: 0 < j < |pieces| ==> Uncrossed(Spans(rules, Concat(pieces), 0), |Concat(pieces[..j])|)
  }

  predicate EndsInSpace(piece: string) { piece != "" && Text.IsSpace(piece[|piece| - 1]) }

  lemma UncrossedParts(left: seq<(nat, nat)>, right: seq<(nat, nat)>, c: nat, d: nat)
    requires Uncrossed(left + Shifted(right, c), c + d)
    ensures Uncrossed(right, d)
  {
    var all := left + Shifted(right, c);
    forall k | 0 <= k < |right| ensures !Straddles(right[k], d) {
      assert all[|left| + k] == (right[k].0 + c, right[k].1 + c);
    }
  }

  lemma UncrossedJoin(left: seq<(nat, nat)>, right: seq<(nat, nat)>, c: nat, d: nat)
    requires (forall k :: 0 <= k < |left| ==> left[k].1 <= c) && Uncrossed(right, d)
    ensures Uncrossed(left + Shifted(right, c), c + d)
  {
  }

  lemma {:induction false} ConcatSplit(parts: seq<string>, j: nat)
    requires j <= |parts|
    ensures Concat(parts) == Concat(parts[..j]) + Concat(parts[j..])
  {
    if j == 0 {
      assert parts[0..] == parts;
    } else {
      var rest := parts[1..];
      ConcatSplit(rest, j - 1);
      assert parts[..j][1..] == rest[..j - 1] && parts[j..] == rest[j - 1..];
    }
  }

  lemma ConcatFirst(parts: seq<string>, j: nat)
    requires 0 < j <= |parts|
    ensures Concat(parts[..j]) == parts[0] + Concat(parts[1..][..j - 1])
  {
    assert parts[..j][1..] == parts[1..][..j - 1];
  }

  /** Terms replaced piece by piece never cross the end of a piece. */
  lemma {:induction false} PieceSpansStayWhole(rules: Rules, pieces: seq<string>, j: nat)
    requires 0 < j <= |pieces|
    ensures Uncrossed(PieceSpans(rules, pieces), |Concat(pieces[..j])|)
  {
    hide Spans, Uncrossed, Concat;
    var p, rest := pieces[0], pieces[1..];
    ConcatFirst(pieces, j);
    SpansInside(rules, p, 0);
    var none: seq<string> := [];
    if j == 1 {
      assert rest[..0] == none && Concat(none) == "" by { ConcatNone(); }
      NothingCrossesZero(PieceSpans(rules, rest));
    } else {
      PieceSpansStayWhole(rules, rest, j - 1);
    }
    UncrossedJoin(Spans(rules, p, 0), PieceSpans(rules, rest), |p|, |Concat(rest[..j - 1])|);
  }

  lemma NothingCrossesZero(spans: seq<(nat, nat)>)
    ensures Uncrossed(spans, 0)
  {
  }

  lemma {:induction false} WholeTermsRefine(rules: Rules, pieces: seq<string>)
    requires Sensible(rules) && forall k :: 0 <= k < |pieces| - 1 ==> EndsInSpace(pieces[k])
    requires TermsStayWhole(rules, pieces)
    ensures SpokenPieces(rules, pieces) == Spoken(rules, Concat(pieces), 0)
    ensures PieceSpans(rules, pieces) == Spans(rules, Concat(pieces), 0)
  {
    hide Sensible, Spoken, Spans, Uncrossed, TermsStayWhole;
    if pieces == [] {
      ScanEnd(rules, "");
    } else if |pieces| == 1 {
      ScanEnd(rules, "");
      assert pieces[1..] == [] && pieces[0] + "" == pieces[0];
      assert Concat(pieces) == pieces[0];
    } else {
      var p, rest := pieces[0], pieces[1..];
      FirstCutKeepsTerms(rules, pieces);
      forall k | 0 <= k < |rest| - 1 ensures EndsInSpace(rest[k]) { assert rest[k] == pieces[k + 1]; }
      WholeTermsRefine(rules, rest);
    }
  }

  /** The end of the first piece keeps the terms, and so do the ends of the others in the rest of the text. */
  lemma FirstCutKeepsTerms(rules: Rules, pieces: seq<string>)
    requires Sensible(rules) && |pieces| > 1 && EndsInSpace(pieces[0]) && TermsStayWhole(rules, pieces)
    ensures
      var p, rest := pieces[0], pieces[1..];
      && TermsStayWhole(rules, rest)
      && Spans(rules, Concat(pieces), 0) == Spans(rules, p, 0) + Shifted(Spans(rules, Concat(rest), 0), |p|)
      && Spoken(rules, Concat(pieces), 0) == Spoken(rules, p, 0) + Spoken(rules, Concat(rest), 0)
  {
    hide Sensible, Spoken, Spans, Uncrossed;
    var p, rest, text := pieces[0], pieces[1..], Concat(pieces);
    var none: seq<string> := [];
    ConcatFirst(pieces, 1);
    assert rest[..0] == none && p + "" == p;
    assert text[..|p|] == p && text[|p|..] == Concat(rest);
    CutKeepsTermsExactlyWhen(rules, text, |p|);
    forall j | 0 < j < |rest| ensures Uncrossed(Spans(rules, Concat(rest), 0), |Concat(rest[..j])|) {
      ConcatFirst(pieces, j + 1);
      UncrossedParts(Spans(rules, p, 0), Spans(rules, Concat(rest), 0), |p|, |Concat(rest[..j])|);
    }
  }

  lemma {:induction false} ReleasedEndInSpace(chunks: seq<string>)
    ensures forall k :: 0 <= k < |FeedAll(chunks).pieces| ==> EndsInSpace(FeedAll(chunks).pieces[k])
  {
    if chunks != [] {
      var before := chunks[..|chunks| - 1];
      ReleasedEndInSpace(before);
      var text := FeedAll(before).buffer + chunks[|chunks| - 1];
      if ReleasePoint(text) > 0 { PiecesEndInSpace(text); }
      hide ReleasePoint;
    }
  }

  /**
   * For every text and every chunking: what the voice hears piece by piece has the same terms
   * replaced as the whole text exactly when none of them crosses the end of a piece; and then
   * it is the whole text's spoken form.
   */
  lemma StreamRefinesExactlyWhen(rules: Rules, chunks: seq<string>)
    requires Sensible(rules)
    ensures Refines(rules, chunks) <==> TermsStayWhole(rules, Closed(FeedAll(chunks)))
    ensures Refines(rules, chunks) ==> SpokenPieces(rules, Closed(FeedAll(chunks))) == Spoken(rules, Concat(chunks), 0)
  {
    var pieces := Closed(FeedAll(chunks));
    ReleasedEndInSpace(chunks);
    NothingIsLost(chunks);
    hide Sensible, Spoken, Spans, FeedAll, Uncrossed, EndsInSpace, PieceSpans, SpokenPieces;
    if TermsStayWhole(rules, pieces) { WholeTermsRefine(rules, pieces); }
    if Refines(rules, chunks) {
      forall j | 0 < j < |pieces| ensures Uncrossed(Spans(rules, Concat(pieces), 0), |Concat(pieces[..j])|) {
        PieceSpansStayWhole(rules, pieces, j);
      }
    }
  }

  // ---- When the terms stay whole ----

  ghost predicate NoTermHasBoundary(rules: Rules) {
    forall k :: 0 <= k < |rules.terms| ==> !HasBoundary(rules.terms[k])
  }

  /** No term is written with a plain space, the only place where a long text is cut. */
  ghost predicate NoTermHasBlank(rules: Rules) {
    forall k :: 0 <= k < |rules.terms| ==> ' ' !in rules.terms[k]
  }

  /** No term can cross the end of such a text. */
  ghost predicate SafeEnd(rules: Rules, piece: string) {
    && EndsInSpace(piece)
    && ((EndsAtBoundary(piece) && NoTermHasBoundary(rules)) || (piece[|piece| - 1] == ' ' && NoTermHasBlank(rules)))
  }

  lemma SafeEndOfLonger(rules: Rules, lead: string, piece: string)
    requires SafeEnd(rules, piece)
    ensures SafeEnd(rules, lead + piece)
  {
    var s := lead + piece;
    if EndsAtBoundary(piece) {
      var p: nat :| p < |piece| && BoundaryAt(piece, p) && forall i :: p < i < |piece| ==> Text.IsSpace(piece[i]);
      assert BoundaryAt(s, |lead| + p);
      assert forall i :: |lead| + p < i < |s| ==> Text.IsSpace(s[i]);
    }
  }

  lemma {:induction false} SpansAreTerms(rules: Rules, text: string, i: nat)
    requires i <= |text|
    ensures forall k :: 0 <= k < |Spans(rules, text, i)| ==> TermSpan(rules, text, Spans(rules, text, i)[k])
    decreases |text| - i
  {
    hide Spans, MatchAt;
    if i < |text| {
      ScanStep(rules, text, i);
      var n := MatchAt(rules, rules.terms, text, i);
      if n > 0 {
        SpansAreTerms(rules, text, i + n);
        MatchIsTerm(rules, text, i);
      } else {
        SpansAreTerms(rules, text, i + 1);
      }
    } else {
      ScanEnd(rules, text);
    }
  }

  ghost predicate TermSpan(rules: Rules, text: string, span: (nat, nat)) {
    exists k ::
      0 <= k < |rules.terms| && span.1 == span.0 + |rules.terms[k]| && Occurs(rules, text, span.0, rules.terms[k])
  }

  lemma MatchIsTerm(rules: Rules, text: string, i: nat)
    requires MatchAt(rules, rules.terms, text, i) > 0
    ensures TermSpan(rules, text, (i, i + MatchAt(rules, rules.terms, text, i)))
  {
  }

  /** A term that crosses a cut contains the white space before the cut, and its boundary. */
  lemma CrossingTermHasSpace(rules: Rules, text: string, c: nat, i: nat, term: string)
    requires Sensible(rules) && term in rules.terms && Occurs(rules, text, i, term) && i < c < i + |term|
    requires c <= |text| && Text.IsSpace(text[c - 1])
    ensures text[c - 1] in term
  {
    assert rules.fold(text[i + (c - 1 - i)]) == rules.fold(term[c - 1 - i]);
    assert term[c - 1 - i] == text[c - 1];
  }

  lemma CrossingTermHasBoundary(rules: Rules, text: string, c: nat, i: nat, term: string)
    requires Sensible(rules) && term in rules.terms && Occurs(rules, text, i, term) && i < c < i + |term|
    requires c <= |text| && EndsAtBoundary(text[..c])
    ensures HasBoundary(term)
  {
    var left := text[..c];
    var p: nat :| p < c && BoundaryAt(left, p) && forall j :: p < j < c ==> Text.IsSpace(left[j]);
    assert rules.fold(text[i + 0]) == rules.fold(term[0]);
    assert left[i] == text[i] && !Text.IsSpace(left[i]);
    assert i <= p;
    assert rules.fold(text[i + (p - i)]) == rules.fold(term[p - i]);
    assert rules.fold(text[i + (p + 1 - i)]) == rules.fold(term[p + 1 - i]);
    assert BoundaryAt(term, p - i);
  }

  lemma CrossingTermSplits(rules: Rules, text: string, c: nat, i: nat, term: string)
    requires Sensible(rules) && term in rules.terms && Occurs(rules, text, i, term)
    requires 0 < c <= |text| && SafeEnd(rules, text[..c])
    ensures !(i < c < i + |term|)
  {
    hide Sensible, Occurs, EndsAtBoundary, HasBoundary;
    var k :| 0 <= k < |rules.terms| && rules.terms[k] == term;
    assert text[..c][c - 1] == text[c - 1];
    if i < c < i + |term| {
      CrossingTermHasSpace(rules, text, c, i, term);
      if EndsAtBoundary(text[..c]) { CrossingTermHasBoundary(rules, text, c, i, term); }
    }
  }

  lemma SafeCut(rules: Rules, text: string, c: nat)
    requires Sensible(rules) && 0 < c <= |text| && SafeEnd(rules, text[..c])
    ensures Uncrossed(Spans(rules, text, 0), c)
  {
    var spans := Spans(rules, text, 0);
    SpansAreTerms(rules, text, 0);
    hide Spans, Sensible, SafeEnd, Occurs;
    forall k | 0 <= k < |spans| ensures !Straddles(spans[k], c) {
      assert TermSpan(rules, text, spans[k]);
      var m :| 0 <= m < |rules.terms| && spans[k].1 == spans[k].0 + |rules.terms[m]|
        && Occurs(rules, text, spans[k].0, rules.terms[m]);
      CrossingTermSplits(rules, text, c, spans[k].0, rules.terms[m]);
    }
  }

  lemma SafePiecesKeepTerms(rules: Rules, pieces: seq<string>)
    requires Sensible(rules) && forall k :: 0 <= k < |pieces| - 1 ==> SafeEnd(rules, pieces[k])
    ensures TermsStayWhole(rules, pieces)
  {
    hide Sensible, SafeEnd, Spans, Uncrossed, Concat;
    var text := Concat(pieces);
    forall j | 0 < j < |pieces| ensures Uncrossed(Spans(rules, text, 0), |Concat(pieces[..j])|) {
      var left := Concat(pieces[..j]);
      ConcatSplit(pieces, j);
      assert text[..|left|] == left;
      assert pieces[..j] == pieces[..j - 1] + [pieces[j - 1]];
      ConcatAppend(pieces[..j - 1], pieces[j - 1]);
      SafeEndOfLonger(rules, Concat(pieces[..j - 1]), pieces[j - 1]);
      SafeEndIsSpace(rules, left);
      SafeCut(rules, text, |left|);
    }
  }

  lemma SafeEndIsSpace(rules: Rules, p: string)
    requires SafeEnd(rules, p)
    ensures EndsInSpace(p)
  {
  }

  /** A piece is safe when it was released at a boundary, or when no term has a plain space. */
  lemma ReleasedIsSafe(rules: Rules, lead: string, text: string)
    requires NoTermHasBoundary(rules) && (NoTermHasBlank(rules) || Phrased(lead + text))
    requires ReleasePoint(text) > 0
    ensures SafeEnd(rules, text[..ReleasePoint(text)])
  {
    hide NoTermHasBlank, NoTermHasBoundary, EndsAtBoundary, LastCut, Phrased;
    assert ReleasePoint(text) <= |text|;
    PiecesEndInSpace(text);
    if Phrased(lead + text) { PhrasedIsNotCutShort(lead, text); }
    hide ReleasePoint;
  }

  lemma {:induction false} PiecesAreSafe(rules: Rules, chunks: seq<string>)
    requires NoTermHasBoundary(rules) && (NoTermHasBlank(rules) || Phrased(Concat(chunks)))
    ensures forall k :: 0 <= k < |FeedAll(chunks).pieces| ==> SafeEnd(rules, FeedAll(chunks).pieces[k])
  {
    hide NoTermHasBlank, NoTermHasBoundary, SafeEnd, Phrased, Concat, ReleasePoint;
    if chunks != [] {
      var before, chunk := chunks[..|chunks| - 1], chunks[|chunks| - 1];
      var h := FeedAll(before);
      TextSoFar(before, chunk);
      assert chunks == before + [chunk];
      if Phrased(Concat(chunks)) { PhrasedPrefix(Concat(before), chunk); }
      PiecesAreSafe(rules, before);
      if ReleasePoint(h.buffer + chunk) > 0 { ReleasedIsSafe(rules, Concat(h.pieces), h.buffer + chunk); }
    }
  }

  lemma TextSoFar(before: seq<string>, chunk: string)
    ensures Concat(before + [chunk]) == Concat(before) + chunk
    ensures Concat(before + [chunk]) == Concat(FeedAll(before).pieces) + (FeedAll(before).buffer + chunk)
  {
    ConcatAppend(before, chunk);
    NothingIsLost(before);
    hide Concat, FeedAll;
  }

  /**
   * Whatever the chunks, the voice hears what it would hear of the whole text when no term
   * contains a boundary, and moreover no term contains a plain space or no stretch of 301
   * characters goes without a boundary.
   */
  lemma StreamRefinesWholeText(rules: Rules, chunks: seq<string>)
    requires Sensible(rules)
    requires NoTermHasBoundary(rules) && (NoTermHasBlank(rules) || Phrased(Concat(chunks)))
    ensures Refines(rules, chunks)
    ensures SpokenPieces(rules, Closed(FeedAll(chunks))) == Spoken(rules, Concat(chunks), 0)
  {
    PiecesAreSafe(rules, chunks);
    hide Sensible, SafeEnd, Spoken, Spans, FeedAll, NoTermHasBoundary, NoTermHasBlank, Phrased, Refines, TermsStayWhole;
    SafePiecesKeepTerms(rules, Closed(FeedAll(chunks)));
    StreamRefinesExactlyWhen(rules, chunks);
  }

  // ---- When the stream falls short ----

  /** Of the terms that reach to the end of the text, the first is as long as any. */
  lemma {:induction false} LongestTermMatches(rules: Rules, terms: seq<string>, text: string, i: nat, term: string)
    requires term in terms && term != "" && Occurs(rules, text, i, term) && i + |term| == |text|
    requires forall j, k :: 0 <= j < k < |terms| ==> |terms[j]| >= |terms[k]|
    ensures MatchAt(rules, terms, text, i) == |term|
  {
    if terms[0] != term {
      var k :| 0 <= k < |terms| && terms[k] == term;
      assert |terms[0]| >= |terms[k]|;
      assert terms[1..][k - 1] == term;
      LongestTermMatches(rules, terms[1..], text, i, term);
    }
  }

  /** Where no term begins, the scan moves on. */
  lemma {:induction false} SkipTo(rules: Rules, text: string, i: nat, j: nat)
    requires i <= j <= |text| && forall k: nat :: i <= k < j ==> MatchAt(rules, rules.terms, text, k) == 0
    ensures Spans(rules, text, i) == Spans(rules, text, j)
    decreases j - i
  {
    hide Spans, MatchAt;
    if i < j {
      ScanStep(rules, text, i);
      SkipTo(rules, text, i + 1, j);
    }
  }

  /** A lead-in in which no term begins, and which does not run into the term that follows. */
  ghost predicate LeadsTo(rules: Rules, lead: string, term: string) {
    && (forall k: nat :: k < |lead| ==> MatchAt(rules, rules.terms, lead + term, k) == 0)
    && (lead == "" || !rules.isWordChar(lead[|lead| - 1]))
  }

  lemma TermOccurs(rules: Rules, lead: string, term: string)
    requires lead == "" || !rules.isWordChar(lead[|lead| - 1])
    ensures Occurs(rules, lead + term, |lead|, term)
  {
  }

  lemma OneSpan(rules: Rules, text: string, i: nat)
    requires i < |text| && i + MatchAt(rules, rules.terms, text, i) == |text|
    ensures Spans(rules, text, i) == [(i, |text|)]
  {
    hide MatchAt;
    ScanStep(rules, text, i);
    ScanEnd(rules, text);
    hide Spans, Spoken;
  }

  lemma TermIsReplaced(rules: Rules, lead: string, term: string)
    requires Sensible(rules) && term in rules.terms && term != "" && LeadsTo(rules, lead, term)
    ensures Spans(rules, lead + term, 0) == [(|lead|, |lead| + |term|)]
  {
    hide MatchAt, Spans, Spoken, Occurs;
    var text := lead + term;
    TermOccurs(rules, lead, term);
    LongestTermMatches(rules, rules.terms, text, |lead|, term);
    hide Sensible;
    OneSpan(rules, text, |lead|);
    SkipTo(rules, text, 0, |lead|);
  }

  lemma FeedOne(s: string)
    requires 0 < ReleasePoint(s) < |s|
    ensures Closed(FeedAll([s])) == [s[..ReleasePoint(s)], s[ReleasePoint(s)..]]
  {
    hide LastCut, ReleasePoint;
    var none: seq<string> := [];
    assert [s][..0] == none && "" + s == s && none + [s[..ReleasePoint(s)]] == [s[..ReleasePoint(s)]];
    assert FeedAll([s]) == Feed(FeedAll(none), s);
  }

  lemma TwoPieces(rules: Rules, a: string, b: string)
    ensures PieceSpans(rules, [a, b]) == Spans(rules, a, 0) + Shifted(Spans(rules, b, 0), |a|)
  {
    var none, one: seq<string> := [], [b];
    assert [a, b][1..] == one && one[1..] == none;
    assert PieceSpans(rules, none) == [];
    assert Shifted([], |b|) == [];
    hide Spans, Shifted;
    assert PieceSpans(rules, one) == Spans(rules, b, 0) + [];
    assert Spans(rules, b, 0) + [] == Spans(rules, b, 0);
  }

  /** A text in one chunk whose one replaced term is cut loses that term. */
  lemma CutTermIsLost(rules: Rules, text: string, span: (nat, nat))
    requires Sensible(rules) && Spans(rules, text, 0) == [span]
    requires 0 < ReleasePoint(text) < |text| && Straddles(span, ReleasePoint(text))
    ensures !Refines(rules, [text])
  {
    var cut := ReleasePoint(text);
    FeedOne(text);
    PiecesEndInSpace(text);
    TwoPieces(rules, text[..cut], text[cut..]);
    CutKeepsTermsExactlyWhen(rules, text, cut);
    ConcatAppend([], text);
    hide Spans, ReleasePoint, FeedAll, Closed, Sensible, PieceSpans;
    assert Straddles(Spans(rules, text, 0)[0], cut);
    assert Concat([text]) == text;
  }

  lemma CutOfTerm(term: string)
    requires Text.Trimmed(term) && HasBoundary(term)
    ensures 0 < ReleasePoint(term) < |term|
  {
    var p: nat :| p < |term| && BoundaryAt(term, p);
    assert p < RunEnd(term, p + 1) <= LastCut(term, |term|);
    PiecesEndInSpace(term);
  }

  /** A term with a boundary inside, such as "Dr. Lee", is lost even when it is the whole text. */
  lemma SplitTermIsLost(rules: Rules, term: string)
    requires Sensible(rules) && term in rules.terms && HasBoundary(term)
    ensures Spans(rules, term, 0) == [(0, |term|)]
    ensures !Refines(rules, [term])
  {
    CutOfTerm(term);
    assert "" + term == term;
    TermIsReplaced(rules, "", term);
    hide Spans, ReleasePoint, Refines;
    CutTermIsLost(rules, term, (0, |term|));
  }

  lemma {:induction false} LastSpaceOfEnd(lead: string, term: string)
    requires ' ' in term
    ensures AfterLastSpace(lead + term) == |lead| + AfterLastSpace(term) && AfterLastSpace(term) > 0
  {
    var s := lead + term;
    if term[|term| - 1] != ' ' {
      assert s[..|s| - 1] == lead + term[..|term| - 1];
      LastSpaceOfEnd(lead, term[..|term| - 1]);
    }
  }

  lemma NoBoundaryNoCut(s: string)
    requires !HasBoundary(s)
    ensures LastCut(s, |s|) == 0
  {
  }

  /** A long text without a boundary is cut inside a term at its end that has a plain space. */
  lemma CutOfLongPhrase(lead: string, term: string)
    requires |lead + term| > MAX_BUFFER_CHARS && !HasBoundary(lead + term) && Text.Trimmed(term) && ' ' in term
    ensures ReleasePoint(lead + term) == |lead| + AfterLastSpace(term) && 0 < AfterLastSpace(term) < |term|
  {
    LastSpaceOfEnd(lead, term);
    NoBoundaryNoCut(lead + term);
    hide LastCut;
  }

  /** A term with a plain space is lost at the end of any long text that has no boundary. */
  lemma LongPhraseLosesTerm(rules: Rules, lead: string, term: string)
    requires Sensible(rules) && term in rules.terms && ' ' in term && LeadsTo(rules, lead, term)
    requires |lead + term| > MAX_BUFFER_CHARS && !HasBoundary(lead + term)
    ensures
      var text, cut := lead + term, AfterLastSpace(term);
      && Spans(rules, text, 0) == [(|lead|, |lead| + |term|)]
      && Closed(FeedAll([text])) == [lead + term[..cut], term[cut..]]
      && !Refines(rules, [text])
  {
    hide Spans, ReleasePoint, Refines, FeedAll, Closed, HasBoundary, LeadsTo, AfterLastSpace;
    var text, cut := lead + term, AfterLastSpace(term);
    CutOfLongPhrase(lead, term);
    TermIsReplaced(rules, lead, term);
    hide Sensible;
    FeedOne(text);
    assert text[..|lead| + cut] == lead + term[..cut] && text[|lead| + cut..] == term[cut..];
    CutTermIsLost(rules, text, (|lead|, |lead| + |term|));
  }

  /** No term begins in white space. */
  lemma BlanksLeadTo(rules: Rules, lead: string, term: string)
    requires Sensible(rules) && forall i :: 0 <= i < |lead| ==> Text.IsSpace(lead[i])
    ensures LeadsTo(rules, lead, term)
  {
    var text := lead + term;
    forall k: nat, m | k < |lead| && 0 <= m < |rules.terms| ensures !Occurs(rules, text, k, rules.terms[m]) {
      assert Text.IsSpace(text[k + 0]) && !Text.IsSpace(rules.terms[m][0]);
      assert rules.fold(text[k + 0]) != rules.fold(rules.terms[m][0]);
    }
  }

  function Tabs(n: nat): (s: string)
    ensures |s| == n && forall i :: 0 <= i < n ==> s[i] == '\t'
  {
    if n == 0 then "" else "\t" + Tabs(n - 1)
  }

  lemma TabsKeepBoundaries(n: nat, term: string)
    requires !HasBoundary(term)
    ensures !HasBoundary(Tabs(n) + term)
  {
    var text := Tabs(n) + term;
    forall p: nat | p < |text| ensures !BoundaryAt(text, p) {
      if p >= n { assert BoundaryAt(text, p) == BoundaryAt(term, p - n); }
    }
  }

  lemma BlankTermCanBeLost(rules: Rules, term: string)
    requires Sensible(rules) && term in rules.terms && ' ' in term && !HasBoundary(term)
    ensures !Refines(rules, [Tabs(MAX_BUFFER_CHARS) + term])
  {
    hide Spans, Refines, FeedAll, Closed, HasBoundary, LeadsTo;
    TabsKeepBoundaries(MAX_BUFFER_CHARS, term);
    BlanksLeadTo(rules, Tabs(MAX_BUFFER_CHARS), term);
    LongPhraseLosesTerm(rules, Tabs(MAX_BUFFER_CHARS), term);
  }

  lemma ShortIsPhrased(rules: Rules, term: string)
    requires Sensible(rules) && term in rules.terms
    ensures Concat([term]) == term && Phrased(Concat([term]))
  {
    ConcatAppend([], term);
  }

  /**
   * Streaming replaces exactly the terms of the whole text, for every text and every chunking,
   * exactly when no term contains a boundary or a plain space; and for every text with a
   * boundary in each 301 characters exactly when no term contains a boundary.
   */
  lemma StreamKeepsTermsExactlyWhen(rules: Rules)
    requires Sensible(rules)
    ensures NoTermHasBoundary(rules) && NoTermHasBlank(rules) <==> forall chunks: seq<string> :: Refines(rules, chunks)
    ensures NoTermHasBoundary(rules) <==>
            forall chunks: seq<string> :: Phrased(Concat(chunks)) ==> Refines(rules, chunks)
  {
    hide Sensible, Refines, Phrased, Concat, HasBoundary;
    if NoTermHasBoundary(rules) {
      forall chunks: seq<string> | NoTermHasBlank(rules) || Phrased(Concat(chunks)) ensures Refines(rules, chunks) {
        StreamRefinesWholeText(rules, chunks);
      }
      if !NoTermHasBlank(rules) {
        var k :| 0 <= k < |rules.terms| && ' ' in rules.terms[k];
        BlankTermCanBeLost(rules, rules.terms[k]);
      }
    } else {
      var k :| 0 <= k < |rules.terms| && HasBoundary(rules.terms[k]);
      SplitTermIsLost(rules, rules.terms[k]);
      ShortIsPhrased(rules, rules.terms[k]);
    }
  }

  lemma NewYorkInside()
    ensures AfterLastSpace("New York") == 4 && !HasBoundary("New York")
  {
    hide AfterLastSpace;
    var term := "New York";
    assert term[0] == 'N' && term[1] == 'e' && term[2] == 'w' && term[3] == ' ';
    assert term[4] == 'Y' && term[5] == 'o' && term[6] == 'r' && term[7] == 'k';
  }

  lemma NoTermInLetters(rules: Rules, lead: string)
    requires rules.terms == ["New York"] && rules.fold == ((c: char) => c) && !rules.isWordChar(' ')
    requires forall i :: 0 <= i < |lead| ==> lead[i] == 'x'
    ensures LeadsTo(rules, lead + " ", "New York")
  {
    var longer, term := lead + " ", "New York";
    var text := longer + term;
    forall k: nat | k < |longer| ensures !Occurs(rules, text, k, term) {
      assert text[k + 0] in {'x', ' '} && term[0] == 'N';
      assert rules.fold(text[k + 0]) != rules.fold(term[0]);
    }
  }

  lemma NoBoundaryInLetters(lead: string)
    requires forall i :: 0 <= i < |lead| ==> lead[i] == 'x'
    ensures !HasBoundary(lead + " " + "New York")
  {
    NewYorkInside();
    var longer, term := lead + " ", "New York";
    var text := longer + term;
    forall p: nat | p < |text| ensures !BoundaryAt(text, p) {
      if p >= |longer| { assert BoundaryAt(text, p) == BoundaryAt(term, p - |longer|); }
    }
  }

  /** "New York" after 300 letters without a space comes out as "... New " and "York". */
  lemma LongPhraseExample(rules: Rules, lead: string)
    requires rules.terms == ["New York"] && rules.fold == ((c: char) => c)
    requires Sensible(rules) && |lead| == MAX_BUFFER_CHARS && forall i :: 0 <= i < |lead| ==> lead[i] == 'x'
    ensures
      var text := lead + " " + "New York";
      && Closed(FeedAll([text])) == [lead + " New ", "York"]
      && Spans(rules, text, 0) == [(301, 309)] && !Refines(rules, [text])
  {
    hide Spans, MatchAt, Refines, FeedAll, Closed, LeadsTo, HasBoundary, AfterLastSpace, LastCut;
    var longer, term := lead + " ", "New York";
    assert rules.terms[0] == term && term[3] == ' ';
    NewYorkInside();
    NoTermInLetters(rules, lead);
    NoBoundaryInLetters(lead);
    hide Sensible;
    LongPhraseLosesTerm(rules, longer, term);
    assert term[..4] == "New " && term[4..] == "York";
    assert longer + term[..4] == lead + " New ";
  }

  // ---- The transform ----

  function Mapped(apply: string -> string, pieces: seq<string>): seq<string> {
    if pieces == [] then [] else Mapped(apply, pieces[..|pieces| - 1]) + [apply(pieces[|pieces| - 1])]
  }

  lemma MappedAppend(apply: string -> string, pieces: seq<string>, piece: string)
    ensures Mapped(apply, pieces + [piece]) == Mapped(apply, pieces) + [apply(piece)]
  {
    assert (pieces + [piece])[..|pieces|] == pieces;
  }

  lemma NothingFed(apply: string -> string)
    ensures FeedAll([]) == Held([], "") && Mapped(apply, []) == []
  {
  }

  /** What one more chunk adds. */
  lemma FedMore(apply: string -> string, chunks: seq<string>, chunk: string)
    ensures
      var h, g := FeedAll(chunks), FeedAll(chunks + [chunk]);
      var text := h.buffer + chunk;
      var cut := ReleasePoint(text);
      && cut <= |text| && g.buffer == (if cut == 0 then text else text[cut..])
      && Mapped(apply, g.pieces) == Mapped(apply, h.pieces) + if cut == 0 then [] else [apply(text[..cut])]
  {
    hide Mapped, LastCut;
    assert (chunks + [chunk])[..|chunks|] == chunks;
    var h := FeedAll(chunks);
    var text := h.buffer + chunk;
    if ReleasePoint(text) > 0 { MappedAppend(apply, h.pieces, text[..ReleasePoint(text)]); }
  }

  /** The function replaces the terms of every text. */
  ghost predicate Speaks(rules: Rules, apply: string -> string) {
    forall s :: apply(s) == Spoken(rules, s, 0)
  }

  /** What the transform puts out is the spoken form of its pieces. */
  lemma {:induction false} MappedIsSpoken(rules: Rules, apply: string -> string, pieces: seq<string>)
    requires Speaks(rules, apply)
    ensures Concat(Mapped(apply, pieces)) == SpokenPieces(rules, pieces)
  {
    hide Spoken;
    if pieces != [] {
      var front, last := pieces[..|pieces| - 1], pieces[|pieces| - 1];
      MappedIsSpoken(rules, apply, front);
      ConcatAppend(Mapped(apply, front), apply(last));
      SpokenAppend(rules, front, last);
      assert pieces == front + [last];
    }
  }

  lemma {:induction false} SpokenAppend(rules: Rules, pieces: seq<string>, last: string)
    ensures SpokenPieces(rules, pieces + [last]) == SpokenPieces(rules, pieces) + Spoken(rules, last, 0)
  {
    hide Spoken;
    var all := pieces + [last];
    if pieces == [] {
      assert all[1..] == [];
    } else {
      assert all[1..] == pieces[1..] + [last];
      SpokenAppend(rules, pieces[1..], last);
    }
  }

  lemma ClosedIsSpoken(rules: Rules, apply: string -> string, chunks: seq<string>)
    requires Speaks(rules, apply)
    ensures Sensible(rules) && TermsStayWhole(rules, Closed(FeedAll(chunks))) ==>
              Concat(Mapped(apply, Closed(FeedAll(chunks)))) == Spoken(rules, Concat(chunks), 0)
  {
    hide Speaks, Spoken, Mapped, SpokenPieces, FeedAll, Closed, Sensible;
    MappedIsSpoken(rules, apply, Closed(FeedAll(chunks)));
    if Sensible(rules) && TermsStayWhole(rules, Closed(FeedAll(chunks))) { StreamRefinesExactlyWhen(rules, chunks); }
  }

  /**
   * One stream through the transform: `apply` replaces the terms of a text by `rules`,
   * `taken` holds the chunks so far.
   */
  class Transform {
    ghost const rules: Rules
    const apply: string -> string
    const verbatim: string -> bool
    var buffer: string
    var first: bool
    var passThrough: bool
    var out: seq<string>
    ghost var taken: seq<string>

    /** Everything put out so far, given what came in; a verbatim start passes everything through. */
    ghost predicate Valid()
      reads this
    {
      && Speaks(rules, apply)
      && first == (taken == [])
      && passThrough == (taken != [] && verbatim(taken[0]))
      && if passThrough then buffer == "" && out == taken
         else buffer == FeedAll(taken).buffer && out == Mapped(apply, FeedAll(taken).pieces)
    }

    constructor (ghost rules: Rules, apply: string -> string, verbatim: string -> bool)
      requires Speaks(rules, apply)
      ensures this.rules == rules && this.apply == apply && this.verbatim == verbatim && taken == [] && Valid()
    {
      this.rules, this.apply, this.verbatim := rules, apply, verbatim;
      buffer, first, passThrough, out, taken := "", true, false, [], [];
    }

    method Put(chunk: string)
      requires Valid()
      modifies this
      ensures Valid() && taken == old(taken) + [chunk]
    {
      hide Speaks, ReleasePoint, FeedAll, Mapped;
      NothingFed(apply);
      FedMore(apply, taken, chunk);
      if first {
        first := false;
        passThrough := verbatim(chunk);
      }
      taken := taken + [chunk];
      if passThrough {
        out := out + [chunk];
        return;
      }
      buffer := buffer + chunk;
      var cut := FindReleasePoint(buffer);
      if cut == 0 { return; }
      out := out + [apply(buffer[..cut])];
      buffer := buffer[cut..];
    }

    /**
     * The stream closes. What was put out is the spoken form of the whole text whenever no
     * replaced term of it crosses the end of a piece.
     */
    method Flush()
      requires Valid()
      modifies `out
      ensures out == if passThrough then taken else Mapped(apply, Closed(FeedAll(taken)))
      ensures !passThrough && Sensible(rules) && TermsStayWhole(rules, Closed(FeedAll(taken))) ==>
                Concat(out) == Spoken(rules, Concat(taken), 0)
    {
      if buffer != "" {
        MappedAppend(apply, FeedAll(taken).pieces, buffer);
        out := out + [apply(buffer)];
      }
      hide Speaks, Mapped, FeedAll, TermsStayWhole, Sensible, Concat;
      if !passThrough { ClosedIsSpoken(rules, apply, taken); }
    }
  }
}
