/**
 * Phone number normal forms and the rule about which numbers may be dialed
 * (apps/voice-agent/src/job-metadata.ts, packages/phone-agent/src/nanp.ts).
 * A missing value is the empty string: the source tests both with `!value`.
 */
module PhoneNumbers {
  import opened Options
  import opened Text

  // ---- Spoken digits ----

  const SPOKEN_DIGITS: map<string, string> := map[
    "zero" := "0", "oh" := "0", "o" := "0", "one" := "1", "two" := "2", "three" := "3", "four" := "4",
    "five" := "5", "six" := "6", "seven" := "7", "eight" := "8", "nine" := "9"]

  /** Length of the run of letters a-z at the front. */
  function LetterRun(s: string): (n: nat)
    ensures n <= |s|
    ensures forall i :: 0 <= i < n ==> IsLower(s[i])
    ensures n < |s| ==> !IsLower(s[n])
  {
    if s != "" && IsLower(s[0]) then 1 + LetterRun(s[1..]) else 0
  }

  function SpokenDigit(word: string): string {
    if word in SPOKEN_DIGITS then SPOKEN_DIGITS[word] else word
  }

  /** Every maximal run of letters replaced by its digit, if it spells one. */
  function Spell(s: string): string {
    if s == "" then ""
    else if IsLower(s[0]) then
      var n := LetterRun(s);
      SpokenDigit(s[..n]) + Spell(s[n..])
    else [s[0]] + Spell(s[1..])
  }

  predicate HasLetter(s: string) {
    exists i :: 0 <= i < |s| && IsLower(s[i])
  }

  // ---- Normal forms ----

  /** Ten digits of a North American line: `[2-9]dd[2-9]dddddd`. */
  predicate IsNanp(d: string) {
    && |d| == 10
    && (forall i :: 0 <= i < |d| ==> IsDigit(d[i]))
    && d[0] >= '2' && d[3] >= '2'
  }

  /** A line a caller can own: N11 area codes are service codes. */
  predicate IsLine(d: string) {
    IsNanp(d) && !(d[1] == '1' && d[2] == '1')
  }

  function WithoutCountryCode(d: string): string {
    if |d| == 11 && d[0] == '1' then d[1..] else d
  }

  function NormalizeUsPhone(value: string): Option<string> {
    var spelled := Spell(Lower(value));
    if HasLetter(spelled) then None else
    var digits := WithoutCountryCode(DigitsOf(spelled));
    if IsLine(digits) then Some("+1" + digits) else None
  }

  predicate IsE164(s: string) {
    && 9 <= |s| <= 16
    && s[0] == '+' && '1' <= s[1] <= '9'
    && forall i :: 1 <= i < |s| ==> IsDigit(s[i])
  }

  function NormalizeE164(value: string): Option<string> {
    var trimmed := Trim(value);
    if IsE164(trimmed) then Some(trimmed) else NormalizeUsPhone(trimmed)
  }

  // ---- Which numbers may be dialed ----

  const NON_US_CA_AREA_CODES: set<string> := {
    "242", "246", "264", "268", "284", "345", "441", "473", "649", "658", "664",
    "721", "758", "767", "784", "809", "829", "849", "868", "869", "876"}

  const BLOCKED_SERVICE_AREA_CODES: set<string> := {"900", "976"}

  predicate IsUsOrCanadaNumber(e164: string) {
    var s := Trim(e164);
    && |s| == 12 && s[..2] == "+1"
    && IsLine(s[2..])
    && s[2..5] !in NON_US_CA_AREA_CODES && s[2..5] !in BLOCKED_SERVICE_AREA_CODES
  }

  predicate IsAgentLine(phone: string, lines: seq<string>) {
    var number := NormalizeE164(phone);
    number.Some? && exists i :: 0 <= i < |lines| && NormalizeE164(lines[i]) == number
  }

  datatype DialRefusal = Invalid | AgentLine | NotUsOrCanada

  function RefuseToDial(phone: string, agentLines: seq<string>): Option<DialRefusal> {
    var number := NormalizeE164(phone);
    if number.None? then Some(Invalid)
    else if IsAgentLine(number.value, agentLines) then Some(AgentLine)
    else if !IsUsOrCanadaNumber(number.value) then Some(NotUsOrCanada)
    else None
  }

  // ---- What these rules come to ----

  predicate Digits(s: string) { forall i :: 0 <= i < |s| ==> s[i] in "0123456789" }

  /** Ten digits whose area code and exchange begin with 2 to 9, and whose area code is no service code. */
  predicate IsOwnLine(d: string) {
    |d| == 10 && Digits(d) && d[0] !in "01" && d[3] !in "01" && d[1..3] != "11"
  }

  /** A plus and eight to fifteen digits, the first of them no 0. */
  predicate IsInternational(s: string) {
    9 <= |s| <= 16 && s[0] == '+' && s[1] != '0' && Digits(s[1..])
  }

  /** A line in the United States or Canada, in its normal form; no Caribbean or premium area code. */
  predicate IsCallable(e164: string) {
    && |e164| == 12 && e164[..2] == "+1" && IsOwnLine(e164[2..])
    && e164[2..5] !in {
         "242", "246", "264", "268", "284", "345", "441", "473", "649", "658", "664", "721", "758", "767",
         "784", "809", "829", "849", "868", "869", "876", "900", "976"}
  }

  /** What every number handed to a dialer must satisfy, stated on normal forms. */
  predicate SafeToDial(phone: string, agentLines: seq<string>) {
    var number := NormalizeE164(phone);
    && number.Some? && IsCallable(number.value)
    && forall i :: 0 <= i < |agentLines| ==> NormalizeE164(agentLines[i]) != number
  }

  lemma OwnLines(d: string)
    ensures IsLine(d) <==> IsOwnLine(d)
  {
    assert forall c: char :: IsDigit(c) <==> c in "0123456789";
    if |d| == 10 { assert d[1..3] == [d[1], d[2]]; }
  }

  lemma Internationals(s: string)
    ensures IsE164(s) <==> IsInternational(s)
  {
    assert forall c: char :: IsDigit(c) <==> c in "0123456789";
    if 9 <= |s| <= 16 {
      assert forall i :: 1 <= i < |s| ==> s[i] == s[1..][i - 1];
      assert forall i :: 0 <= i < |s[1..]| ==> s[1..][i] == s[i + 1];
    }
  }

  lemma Callables(e164: string)
    requires Trimmed(e164)
    ensures IsUsOrCanadaNumber(e164) <==> IsCallable(e164)
  {
    hide IsLine, IsOwnLine, Trimmed;
    if |e164| == 12 { OwnLines(e164[2..]); }
  }

  // ---- Normalization is canonical ----

  /** A character a caller may put between digits: it spells no letter and is no digit. */
  predicate IsSeparator(c: char) {
    !IsDigit(c) && forall i :: 0 <= i < |LowerChar(c)| ==> !IsLower(LowerChar(c)[i])
  }

  predicate OnlyDigitsAndSeparators(v: string) {
    forall i :: 0 <= i < |v| ==> IsDigit(v[i]) || IsSeparator(v[i])
  }

  lemma {:induction false} LettersFreeTextIsKept(v: string)
    requires OnlyDigitsAndSeparators(v)
    ensures Spell(Lower(v)) == v && !HasLetter(v)
  {
    if v != "" {
      LettersFreeTextIsKept(v[1..]);
      assert LowerChar(v[0]) == [v[0]] by {
        if IsSeparator(v[0]) { assert !IsLower(LowerChar(v[0])[0]); }
      }
      assert !IsLower(v[0]) by {
        if IsSeparator(v[0]) { assert !IsLower(LowerChar(v[0])[0]); }
      }
      assert Lower(v) == [v[0]] + Lower(v[1..]);
      assert Lower(v)[1..] == Lower(v[1..]);
      assert v == [v[0]] + v[1..];
      forall i | 0 <= i < |v| ensures !IsLower(v[i]) {
        if i > 0 { assert v[i] == v[1..][i - 1]; }
      }
    }
  }

  /**
   * However the ten digits of a line are separated, and with or without a leading 1,
   * the normal form is the same.
   */
  lemma SeparatorsDoNotMatter(v: string, line: string)
    requires IsLine(line)
    requires OnlyDigitsAndSeparators(v)
    requires DigitsOf(v) == line || DigitsOf(v) == "1" + line
    ensures NormalizeUsPhone(v) == Some("+1" + line)
    ensures !IsE164(Trim(v)) ==> NormalizeE164(v) == Some("+1" + line)
  {
    TrimKeepsDigits(v);
    UsFormOfDigits(v, line);
    UsFormOfDigits(Trim(v), line);
    hide NormalizeUsPhone, Trim;
  }

  lemma UsFormOfDigits(v: string, line: string)
    requires IsLine(line) && OnlyDigitsAndSeparators(v)
    requires DigitsOf(v) == line || DigitsOf(v) == "1" + line
    ensures NormalizeUsPhone(v) == Some("+1" + line)
  {
    LettersFreeTextIsKept(v);
    assert WithoutCountryCode(DigitsOf(v)) == line by {
      assert ("1" + line)[1..] == line;
    }
  }

  /** White space at the ends spells nothing. */
  lemma TrimKeepsDigits(v: string)
    requires OnlyDigitsAndSeparators(v)
    ensures OnlyDigitsAndSeparators(Trim(v)) && DigitsOf(Trim(v)) == DigitsOf(v)
  {
    TrimStartKeepsDigits(v);
    TrimEndKeepsDigits(TrimStart(v));
  }

  lemma {:induction false} TrimStartKeepsDigits(v: string)
    requires OnlyDigitsAndSeparators(v)
    ensures OnlyDigitsAndSeparators(TrimStart(v)) && DigitsOf(TrimStart(v)) == DigitsOf(v)
  {
    if v != "" && IsSpace(v[0]) { TrimStartKeepsDigits(v[1..]); }
  }

  lemma {:induction false} TrimEndKeepsDigits(v: string)
    requires OnlyDigitsAndSeparators(v)
    ensures OnlyDigitsAndSeparators(TrimEnd(v)) && DigitsOf(TrimEnd(v)) == DigitsOf(v)
  {
    if v != "" && IsSpace(v[|v| - 1]) {
      var front, last := v[..|v| - 1], [v[|v| - 1]];
      TrimEndKeepsDigits(front);
      DigitsOfAppend(front, last);
      assert v == front + last && last[1..] == "";
      assert DigitsOf(last[1..]) == "" && DigitsOf(last) == "";
    }
  }

  lemma PlusOneDigits(line: string)
    requires IsLine(line)
    ensures OnlyDigitsAndSeparators("+1" + line) && DigitsOf("+1" + line) == "1" + line
  {
    var v := "+1" + line;
    forall i | 0 <= i < |v| ensures IsDigit(v[i]) || IsSeparator(v[i]) {
      if i == 0 {
        assert v[i] == '+';
        assert LowerChar('+') == ['+'];
      }
    }
    DigitsOfDigits("1" + line);
    assert v[1..] == "1" + line;
  }

  lemma PlusOneForm(line: string)
    requires IsLine(line)
    ensures IsE164("+1" + line) && Trimmed("+1" + line)
    ensures NormalizeUsPhone("+1" + line) == Some("+1" + line)
  {
    PlusOneDigits(line);
    UsFormOfDigits("+1" + line, line);
    hide NormalizeUsPhone;
  }

  /** A number written in digits and separators is a North American line, with or without the leading 1, or none. */
  lemma UsNumbersExactlyWhen(v: string)
    requires OnlyDigitsAndSeparators(v)
    ensures
      var d := if |DigitsOf(v)| == 11 && DigitsOf(v)[0] == '1' then DigitsOf(v)[1..] else DigitsOf(v);
      NormalizeUsPhone(v) == if IsOwnLine(d) then Some("+1" + d) else None
  {
    var d := if |DigitsOf(v)| == 11 && DigitsOf(v)[0] == '1' then DigitsOf(v)[1..] else DigitsOf(v);
    OwnLines(d);
    LettersFreeTextIsKept(v);
    hide IsLine, IsOwnLine, HasLetter, Spell, Lower, DigitsOf;
  }

  /** A number in the international form stays as it is but for white space around it; any other is North American. */
  lemma InternationalIsKept(value: string)
    ensures
      NormalizeE164(value) ==
      if IsInternational(Trim(value)) then Some(Trim(value)) else NormalizeUsPhone(Trim(value))
  {
    Internationals(Trim(value));
    hide IsE164, IsInternational, NormalizeUsPhone;
  }

  /** A normal form is its own normal form, under both normalizations. */
  lemma NormalFormsAreFixed(value: string)
    ensures NormalizeUsPhone(value).Some? ==>
              var r := NormalizeUsPhone(value).value;
              IsE164(r) && NormalizeUsPhone(r) == Some(r) && NormalizeE164(r) == Some(r)
    ensures NormalizeE164(value).Some? ==>
              var r := NormalizeE164(value).value;
              IsE164(r) && Trimmed(r) && NormalizeE164(r) == Some(r)
  {
    UsFormIsPlusOneLine(value);
    UsFormIsPlusOneLine(Trim(value));
  }

  lemma UsFormIsPlusOneLine(value: string)
    ensures NormalizeUsPhone(value).Some? ==>
              var r := NormalizeUsPhone(value).value;
              |r| == 12 && r == "+1" + r[2..] && IsLine(r[2..]) && IsE164(r) && Trimmed(r)
              && NormalizeUsPhone(r) == Some(r) && NormalizeE164(r) == Some(r)
  {
    if NormalizeUsPhone(value).Some? {
      var digits := WithoutCountryCode(DigitsOf(Spell(Lower(value))));
      assert NormalizeUsPhone(value) == Some("+1" + digits) && IsLine(digits);
      assert ("+1" + digits)[2..] == digits;
      PlusOneForm(digits);
    }
  }

  // ---- Digits spelled out as words ----

  /** One digit in lower case: the digit itself or a word for it. */
  predicate IsToken(t: string) {
    (|t| == 1 && IsDigit(t[0])) || IsDigitWord(t)
  }

  /** The digit a word stands for. */
  function WordDigit(t: string): Option<char> {
    if t == "zero" || t == "oh" || t == "o" then Some('0')
    else if t == "one" then Some('1')
    else if t == "two" then Some('2')
    else if t == "three" then Some('3')
    else if t == "four" then Some('4')
    else if t == "five" then Some('5')
    else if t == "six" then Some('6')
    else if t == "seven" then Some('7')
    else if t == "eight" then Some('8')
    else if t == "nine" then Some('9')
    else None
  }

  predicate IsDigitWord(t: string) { WordDigit(t).Some? }

  function TokenDigit(t: string): (d: string)
    requires IsToken(t)
    ensures |d| == 1 && IsDigit(d[0])
  {
    if IsDigitWord(t) then [WordDigit(t).value] else t
  }

  /** The table spells these words and no others. */
  lemma WordsAreSpelled(t: string)
    ensures IsDigitWord(t) ==> IsToken(t) && SpokenDigit(t) == TokenDigit(t)
    ensures IsDigitWord(t) ==> t != "" && forall i :: 0 <= i < |t| ==> IsLower(t[i])
    ensures !IsDigitWord(t) ==> SpokenDigit(t) == t
  {
  }

  predicate OnlySeparators(s: string) {
    forall i :: 0 <= i < |s| ==> IsSeparator(s[i])
  }

  /** A digit as a caller writes it, in figures or in letters of any case, and the gap after it. */
  datatype Spoken = Spoken(digit: string, gap: string) {
    predicate IsWord() { IsDigitWord(Lower(digit)) }

    predicate Valid() { IsToken(Lower(digit)) && OnlySeparators(gap) }
  }

  /** Two words in a row need a gap, or they would be read as one. */
  predicate IsSpelled(parts: seq<Spoken>) {
    && (forall i :: 0 <= i < |parts| ==> parts[i].Valid())
    && (forall i :: 0 < i < |parts| && parts[i - 1].IsWord() && parts[i].IsWord() ==> parts[i - 1].gap != "")
  }

  function Written(parts: seq<Spoken>): string {
    if parts == [] then "" else parts[0].digit + (parts[0].gap + Written(parts[1..]))
  }

  function SpelledDigits(parts: seq<Spoken>): string
    requires forall i :: 0 <= i < |parts| ==> parts[i].Valid()
  {
    if parts == [] then ""
    else
      assert parts[0].Valid();
      TokenDigit(Lower(parts[0].digit)) + SpelledDigits(parts[1..])
  }

  lemma {:induction false} LowerAppend(a: string, b: string)
    ensures Lower(a + b) == Lower(a) + Lower(b)
  {
    hide LowerChar;
    if a == "" {
      assert a + b == b;
    } else {
      LowerAppend(a[1..], b);
      assert (a + b)[1..] == a[1..] + b;
      assert Lower(a + b) == LowerChar(a[0]) + (Lower(a[1..]) + Lower(b));
    }
  }

  lemma {:induction false} LetterRunOfWord(w: string, rest: string)
    requires forall i :: 0 <= i < |w| ==> IsLower(w[i])
    requires rest == "" || !IsLower(rest[0])
    ensures LetterRun(w + rest) == |w|
  {
    if w == "" {
      assert w + rest == rest;
    } else {
      LetterRunOfWord(w[1..], rest);
      assert (w + rest)[1..] == w[1..] + rest;
    }
  }

  /** A token spells exactly its digit, unless a word runs into more letters. */
  lemma SpellToken(t: string, rest: string)
    requires IsToken(t)
    requires IsDigitWord(t) && rest != "" ==> !IsLower(rest[0])
    ensures Spell(t + rest) == TokenDigit(t) + Spell(rest)
  {
    if IsDigitWord(t) {
      WordsAreSpelled(t);
      LetterRunOfWord(t, rest);
      assert (t + rest)[..|t|] == t && (t + rest)[|t|..] == rest;
    } else {
      assert (t + rest)[1..] == rest && t == [t[0]];
    }
  }

  lemma SeparatorIsKept(c: char)
    requires IsSeparator(c)
    ensures LowerChar(c) == [c] && !IsLower(c) && !IsDigit(c)
  {
    assert !IsLower(LowerChar(c)[0]);
  }

  /** What separators leave of a text: themselves in lower case, and neither letters nor digits. */
  lemma {:induction false} GapIsKept(gap: string)
    requires OnlySeparators(gap)
    ensures Lower(gap) == gap && DigitsOf(gap) == "" && !HasLetter(gap)
  {
    if gap != "" {
      SeparatorIsKept(gap[0]);
      GapIsKept(gap[1..]);
      hide IsSeparator, LowerChar;
      assert gap == [gap[0]] + gap[1..];
      forall i | 0 <= i < |gap| ensures !IsLower(gap[i]) {
        if i > 0 { assert gap[i] == gap[1..][i - 1]; }
      }
    }
  }

  lemma SpellSeparator(c: char, rest: string)
    requires IsSeparator(c)
    ensures Spell([c] + rest) == [c] + Spell(rest)
  {
    SeparatorIsKept(c);
    assert ([c] + rest)[1..] == rest;
  }

  lemma {:induction false} SpellGap(gap: string, rest: string)
    requires OnlySeparators(gap)
    ensures Spell(gap + rest) == gap + Spell(rest)
  {
    hide Spell, IsSeparator;
    if gap == "" {
      assert gap + rest == rest;
    } else {
      SpellGap(gap[1..], rest);
      SpellSeparator(gap[0], gap[1..] + rest);
      assert gap + rest == [gap[0]] + (gap[1..] + rest);
      assert gap + Spell(rest) == [gap[0]] + (gap[1..] + Spell(rest));
    }
  }

  lemma LettersAppend(a: string, b: string)
    requires !HasLetter(a) && !HasLetter(b)
    ensures !HasLetter(a + b)
  {
    hide IsLower;
  }

  /** A digit, its gap, and more. */
  lemma SpelledMore(t: string, gap: string, rest: string)
    requires IsToken(t) && OnlySeparators(gap) && !HasLetter(Spell(rest))
    requires IsDigitWord(t) && gap == "" && rest != "" ==> !IsLower(rest[0])
    ensures
      var spelled := Spell(t + (gap + rest));
      !HasLetter(spelled) && DigitsOf(spelled) == TokenDigit(t) + DigitsOf(Spell(rest))
  {
    hide Spell, TokenDigit, IsToken, IsDigitWord, HasLetter, DigitsOf, OnlySeparators, IsLower;
    GapIsNoLetter(gap, rest);
    SpellToken(t, gap + rest);
    SpelledGap(gap, rest);
    var d, spelled := TokenDigit(t), Spell(gap + rest);
    DigitIsNoLetter(d);
    LettersAppend(d, spelled);
    DigitsOfAppend(d, spelled);
  }

  lemma SpelledGap(gap: string, rest: string)
    requires OnlySeparators(gap) && !HasLetter(Spell(rest))
    ensures !HasLetter(Spell(gap + rest)) && DigitsOf(Spell(gap + rest)) == DigitsOf(Spell(rest))
  {
    hide Spell, HasLetter, DigitsOf, OnlySeparators, IsLower;
    SpellGap(gap, rest);
    GapIsKept(gap);
    LettersAppend(gap, Spell(rest));
    DigitsOfAppend(gap, Spell(rest));
    assert "" + DigitsOf(Spell(rest)) == DigitsOf(Spell(rest));
  }

  lemma GapIsNoLetter(gap: string, rest: string)
    requires OnlySeparators(gap)
    ensures gap != "" ==> !IsLower((gap + rest)[0])
    ensures gap == "" ==> gap + rest == rest
  {
    if gap != "" { SeparatorIsKept(gap[0]); }
  }

  lemma DigitIsNoLetter(d: string)
    requires |d| == 1 && IsDigit(d[0])
    ensures !HasLetter(d) && DigitsOf(d) == d
  {
    DigitsOfDigits(d);
  }

  lemma LowerOfPart(p: Spoken, rest: string)
    requires p.Valid()
    ensures Lower(p.digit + (p.gap + rest)) == Lower(p.digit) + (p.gap + Lower(rest))
  {
    GapIsKept(p.gap);
    hide Lower;
    LowerAppend(p.gap, rest);
    LowerAppend(p.digit, p.gap + rest);
  }

  /** Figures begin with no letter. */
  lemma StartOfRest(parts: seq<Spoken>)
    requires forall i :: 0 <= i < |parts| ==> parts[i].Valid()
    ensures parts == [] ==> Lower(Written(parts)) == ""
    ensures parts != [] && !parts[0].IsWord() && Lower(Written(parts)) != "" ==> !IsLower(Lower(Written(parts))[0])
  {
    if parts != [] {
      LowerOfPart(parts[0], Written(parts[1..]));
      hide Lower;
    }
  }

  lemma {:induction false} PartsSpell(parts: seq<Spoken>)
    requires IsSpelled(parts)
    ensures !HasLetter(Spell(Lower(Written(parts))))
    ensures DigitsOf(Spell(Lower(Written(parts)))) == SpelledDigits(parts)
  {
    if parts != [] {
      var p, more := parts[0], parts[1..];
      var rest := Lower(Written(more));
      assert IsSpelled(more) by { forall i | 0 <= i < |more| ensures more[i] == parts[i + 1] {} }
      assert more != [] ==> more[0] == parts[1];
      PartsSpell(more);
      StartOfRest(more);
      LowerOfPart(p, Written(more));
      hide Spell, Lower, HasLetter, DigitsOf, IsToken, IsDigitWord, OnlySeparators, TokenDigit;
      SpelledMore(Lower(p.digit), p.gap, rest);
    }
  }

  /**
   * Digits in figures or spelled out in letters of any case, with any separators around them,
   * give the same normal form.
   */
  lemma SpokenNumbersNormalize(lead: string, parts: seq<Spoken>, line: string)
    requires OnlySeparators(lead) && IsSpelled(parts) && IsLine(line)
    requires SpelledDigits(parts) == line || SpelledDigits(parts) == "1" + line
    ensures NormalizeUsPhone(lead + Written(parts)) == Some("+1" + line)
  {
    var rest := Lower(Written(parts));
    PartsSpell(parts);
    hide Spell, Lower, DigitsOf, HasLetter, NormalizeUsPhone, SpelledDigits, Written, IsSpelled, OnlySeparators, IsLine;
    GapIsKept(lead);
    LowerAppend(lead, Written(parts));
    SpelledGap(lead, rest);
    NormalFormOfDigits(lead + Written(parts), SpelledDigits(parts), line);
  }

  lemma NormalFormOfDigits(value: string, digits: string, line: string)
    requires !HasLetter(Spell(Lower(value))) && DigitsOf(Spell(Lower(value))) == digits
    requires IsLine(line)
    requires digits == line || digits == "1" + line
    ensures NormalizeUsPhone(value) == Some("+1" + line)
  {
    assert ("1" + line)[1..] == line;
  }

  // ---- Words that spell no digit ----

  /** What the front of a text spells, when no letters run on beyond it. */
  lemma FrontSpells(a: string, b: string) returns (n: nat, front: string)
    requires a != "" && (b == "" || !IsLower(b[0]) || !IsLower(a[|a| - 1]))
    ensures 0 < n <= |a| && (n < |a| ==> a[n..][|a[n..]| - 1] == a[|a| - 1])
    ensures Spell(a) == front + Spell(a[n..]) && Spell(a + b) == front + Spell(a[n..] + b)
  {
    hide SpokenDigit;
    n := if IsLower(a[0]) then LetterRun(a) else 1;
    front := if IsLower(a[0]) then SpokenDigit(a[..n]) else [a[0]];
    if b == "" { assert a + b == a; } else { LetterRunApart(a, b); }
    assert (a + b)[..n] == a[..n] && (a + b)[n..] == a[n..] + b;
  }

  /** A text splits where letters end. */
  lemma {:induction false} SpellApart(a: string, b: string)
    requires b == "" || a == "" || !IsLower(b[0]) || !IsLower(a[|a| - 1])
    ensures Spell(a + b) == Spell(a) + Spell(b)
    decreases |a|
  {
    if a == "" {
      assert a + b == b;
    } else {
      hide Spell, IsLower;
      var n, front := FrontSpells(a, b);
      var rest := a[n..];
      SpellApart(rest, b);
      assert front + (Spell(rest) + Spell(b)) == (front + Spell(rest)) + Spell(b);
    }
  }

  lemma {:induction false} LetterRunApart(a: string, b: string)
    requires a != "" && b != "" && (!IsLower(b[0]) || !IsLower(a[|a| - 1]))
    ensures LetterRun(a + b) == LetterRun(a)
  {
    assert (a + b)[1..] == a[1..] + b;
    if IsLower(a[0]) {
      if |a| > 1 {
        assert a[1..][|a| - 2] == a[|a| - 1];
        LetterRunApart(a[1..], b);
      } else {
        assert a[1..] + b == b;
      }
    }
  }

  /** A word of letters that spells no digit, with no letter right before or after it, makes a text no number. */
  lemma OtherWordsAreRefused(before: string, word: string, after: string)
    requires word != "" && (forall i :: 0 <= i < |word| ==> IsLower(word[i])) && !IsDigitWord(word)
    requires before == "" || !IsLower(before[|before| - 1])
    requires after == "" || !IsLower(after[0])
    ensures forall v :: Lower(v) == before + word + after ==> NormalizeUsPhone(v).None?
  {
    hide Lower, DigitsOf;
    var rest := word + after;
    assert before + word + after == before + rest && rest[0] == word[0];
    SpellApart(before, rest);
    SpellApart(word, after);
    LetterRunOfWord(word, "");
    WordsAreSpelled(word);
    assert word + "" == word && word[..|word|] == word && word[|word|..] == "";
    assert Spell(word) == word;
    var spelled := Spell(before) + (word + Spell(after));
    assert spelled[|Spell(before)|] == word[0];
    assert HasLetter(spelled);
  }

  // ---- Refusals depend only on normal forms ----

  /** The numbers that these lines are, however written. */
  ghost function NormalForms(lines: seq<string>): set<string> {
    set i | 0 <= i < |lines| && NormalizeE164(lines[i]).Some? :: NormalizeE164(lines[i]).value
  }

  lemma AgentLineIsNormalForm(phone: string, lines: seq<string>)
    ensures IsAgentLine(phone, lines) <==>
            NormalizeE164(phone).Some? && NormalizeE164(phone).value in NormalForms(lines)
  {
    hide NormalizeE164;
    if IsAgentLine(phone, lines) {
      var i :| 0 <= i < |lines| && NormalizeE164(lines[i]) == NormalizeE164(phone);
    }
  }

  /** Two ways to write one number, and two lists of the same lines, are treated alike. */
  lemma AgentLineByNormalForm(p: string, q: string, lines: seq<string>, lines': seq<string>)
    requires NormalizeE164(p) == NormalizeE164(q) && NormalForms(lines) == NormalForms(lines')
    ensures IsAgentLine(p, lines) == IsAgentLine(q, lines')
    ensures RefuseToDial(p, lines) == RefuseToDial(q, lines')
  {
    hide NormalizeE164, IsAgentLine, NormalForms, IsUsOrCanadaNumber;
    AgentLineIsNormalForm(p, lines);
    AgentLineIsNormalForm(q, lines');
    if NormalizeE164(p).Some? {
      AgentLineIsNormalForm(NormalizeE164(p).value, lines);
      AgentLineIsNormalForm(NormalizeE164(p).value, lines');
    }
  }

  /**
   * Dialing is allowed exactly for US and Canada numbers that are none of the agent's lines. It is
   * refused for having no normal form, else for being such a line, else for where it leads.
   */
  lemma DialedExactlyWhenSafe(phone: string, agentLines: seq<string>)
    ensures RefuseToDial(phone, agentLines).None? <==> SafeToDial(phone, agentLines)
    ensures
      var number, refusal := NormalizeE164(phone), RefuseToDial(phone, agentLines);
      && (refusal == Some(Invalid) <==> number.None?)
      && (refusal == Some(AgentLine) <==>
            number.Some? && exists i :: 0 <= i < |agentLines| && NormalizeE164(agentLines[i]) == number)
  {
    NormalFormsAreFixed(phone);
    if NormalizeE164(phone).Some? {
      Callables(NormalizeE164(phone).value);
      hide IsUsOrCanadaNumber, IsCallable, NormalizeUsPhone, IsE164;
      var n := NormalizeE164(phone);
      if SafeToDial(phone, agentLines) {
        assert !IsAgentLine(n.value, agentLines);
      }
      if !IsAgentLine(n.value, agentLines) {
        forall i | 0 <= i < |agentLines| ensures NormalizeE164(agentLines[i]) != n {
        }
      }
    }
  }
}
