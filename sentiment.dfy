/** `analyze_sentiment` (lines 164-171): the token-count limit applied before classification
    and the parse of the class out of the classifier's top label. The tokenizer and the
    classifier are parameters. */
module Sentiment {
  import opened Wrappers
  import opened PySlice

  // ------------------------------------------------------------------ truncation

  /** Lines 165-168: when there are more than `maxLength - 2` tokens, keep `tokens[:maxLength - 2]`
      (two positions are left for the model's boundary markers). */
  function Truncate(tokens: seq<string>, maxLength: int): (r: seq<string>)
    ensures r <= tokens
    ensures |tokens| <= maxLength - 2 ==> r == tokens
    ensures maxLength >= 2 ==> |r| == Min(|tokens|, maxLength - 2)
  {
    if |tokens| > maxLength - 2 then Head(tokens, maxLength - 2) else tokens
  }

  /** Truncating a second time changes nothing. */
  lemma TruncateIdempotent(tokens: seq<string>, maxLength: int)
    requires maxLength >= 2
    ensures Truncate(Truncate(tokens, maxLength), maxLength) == Truncate(tokens, maxLength)
  {
  }

  /** With `maxLength < 2` the stop of the slice is negative, so Python drops tokens from the
      end of every non-empty list: a second truncation keeps shrinking. */
  lemma TruncateBelowTwo(tokens: seq<string>, maxLength: int)
    requires maxLength < 2 && tokens != []
    ensures |Truncate(tokens, maxLength)| == Max(0, |tokens| + maxLength - 2)
    ensures |Truncate(tokens, maxLength)| < |tokens|
  {
  }

  // ------------------------------------------------------------------ label parse

  /** The characters Python's `str.split()` splits on. */
  predicate IsSpace(c: char) {
    || c == ' ' || ('\t' <= c <= '\r') || ('\U{1C}' <= c <= '\U{1F}')
    || c == '\U{85}' || c == '\U{A0}' || c == '\U{1680}' || ('\U{2000}' <= c <= '\U{200A}')
    || c == '\U{2028}' || c == '\U{2029}' || c == '\U{202F}' || c == '\U{205F}' || c == '\U{3000}'
  }

  /** The label with its leading whitespace removed. */
  function DropSpaces(s: string): (r: string)
    ensures |r| <= |s| && r == s[|s| - |r|..]
    ensures r == [] || !IsSpace(r[0])
    ensures forall i :: 0 <= i < |s| - |r| ==> IsSpace(s[i])
  {
    if s != [] && IsSpace(s[0]) then DropSpaces(s[1..]) else s
  }

  /** The longest prefix without whitespace. */
  function TakeWord(s: string): (r: string)
    ensures r <= s
    ensures forall c :: c in r ==> !IsSpace(c)
    ensures |r| == |s| || IsSpace(s[|r|])
  {
    if s == [] || IsSpace(s[0]) then [] else [s[0]] + TakeWord(s[1..])
  }

  /** `w` starts at position `i` of `s`, only whitespace precedes it, and it is followed by
      whitespace or by the end of `s`. */
  predicate WordAt(s: string, i: int, w: string) {
    && 0 <= i && i + |w| <= |s|
    && (forall j :: 0 <= j < i ==> IsSpace(s[j]))
    && s[i..i + |w|] == w
    && (i + |w| == |s| || IsSpace(s[i + |w|]))
  }

  /** `label.split()[0]`, or None where the split list is empty and indexing it raises. */
  function FirstWord(labelText: string): (r: Option<string>)
    ensures r.None? <==> forall c :: c in labelText ==> IsSpace(c)
    ensures r.Some? ==> r.value != [] && forall c :: c in r.value ==> !IsSpace(c)
    ensures r.Some? ==> exists i :: WordAt(labelText, i, r.value)
  {
    var rest := DropSpaces(labelText);
    if rest == [] then None
    else
      assert rest[0] == labelText[|labelText| - |rest|];
      FirstWordAt(labelText);
      Some(TakeWord(rest))
  }

  lemma FirstWordAt(s: string)
    requires DropSpaces(s) != []
    ensures WordAt(s, |s| - |DropSpaces(s)|, TakeWord(DropSpaces(s)))
  {
    var rest := DropSpaces(s);
    var i, w := |s| - |rest|, TakeWord(rest);
    assert rest == s[i..];
    assert w <= rest;
    assert forall j :: 0 <= j < i ==> IsSpace(s[j]);
    assert s[i..i + |w|] == rest[..|w|] == w;
    assert i + |w| == |s| || s[i + |w|] == rest[|w|];
  }

  /** The first word of whitespace, then a whitespace-free word, then whitespace or nothing,
      is that word. */
  lemma FirstWordOfJoin(spaces: string, w: string, rest: string)
    requires forall c :: c in spaces ==> IsSpace(c)
    requires w != [] && forall c :: c in w ==> !IsSpace(c)
    requires rest == [] || IsSpace(rest[0])
    ensures FirstWord(spaces + w + rest) == Some(w)
  {
    assert spaces + w + rest == spaces + (w + rest);
    assert (w + rest)[0] == w[0] && w[0] in w;
    DropLeading(spaces, w + rest);
    TakeWordOfJoin(w, rest);
  }

  predicate IsDigit(c: char) {
    '0' as int <= c as int <= '9' as int
  }

  /** What `int()` accepts after an optional sign: digits, with single underscores between them. */
  predicate IsNumeral(s: string) {
    && s != [] && IsDigit(s[0]) && IsDigit(s[|s| - 1])
    && (forall i :: 0 <= i < |s| ==> IsDigit(s[i]) || s[i] == '_')
    && (forall i :: 0 <= i < |s| - 1 ==> s[i] == '_' ==> s[i + 1] != '_')
  }

  function RemoveUnderscores(s: string): (r: string)
    ensures forall i :: 0 <= i < |r| ==> r[i] in s && r[i] != '_'
  {
    if s == [] then [] else (if s[0] == '_' then [] else [s[0]]) + RemoveUnderscores(s[1..])
  }

  /** The value of a string of decimal digits, most significant first. */
  function DigitsValue(s: string): nat
    requires forall i :: 0 <= i < |s| ==> IsDigit(s[i])
  {
    if s == [] then 0
    else
      assert IsDigit(s[|s| - 1]);
      DigitsValue(s[..|s| - 1]) * 10 + (s[|s| - 1] as int - '0' as int)
  }

  /** The word without its leading sign, if it has one. */
  function Unsigned(word: string): (r: string)
    ensures r == word || (word != [] && word[0] in "+-" && r == word[1..])
  {
    if word != [] && (word[0] == '+' || word[0] == '-') then word[1..] else word
  }

  /** `int(word)` for a base-10 word; None where `int()` raises ValueError. */
  function ParseInt(word: string): (r: Option<int>)
    ensures r.Some? <==> IsNumeral(Unsigned(word))
    ensures r.Some? ==> word != [] && (if r.value < 0 then -r.value else r.value) == DigitsValue(RemoveUnderscores(Unsigned(word)))
    ensures r.Some? && r.value < 0 ==> word[0] == '-'
    ensures r.Some? && word[0] != '-' ==> r.value >= 0
    ensures r.Some? && word[0] == '-' ==> r.value == -(DigitsValue(RemoveUnderscores(Unsigned(word))) as int)
  {
    var negative := word != [] && word[0] == '-';
    var body := Unsigned(word);
    if IsNumeral(body) then
      var n: int := DigitsValue(RemoveUnderscores(body));
      Some(if negative then -n else n)
    else None
  }

  /** Why `int(label.split()[0])` raises. */
  datatype LabelError = EmptyLabel | NotAnInteger(word: string)

  /** Line 171: the class is the integer written as the first whitespace-separated word of the label. */
  function ParseLabel(labelText: string): (r: Result<int, LabelError>)
    ensures r == Err(EmptyLabel) <==> forall c :: c in labelText ==> IsSpace(c)
    ensures r.Err? && r.error.NotAnInteger? ==>
              FirstWord(labelText) == Some(r.error.word) && ParseInt(r.error.word).None?
    ensures r.Ok? <==> FirstWord(labelText).Some? && ParseInt(FirstWord(labelText).value).Some?
    ensures r.Ok? ==> ParseInt(FirstWord(labelText).value) == Some(r.value)
  {
    match FirstWord(labelText)
    case None => Err(EmptyLabel)
    case Some(word) =>
      match ParseInt(word)
      case None => Err(NotAnInteger(word))
      case Some(k) => Ok(k)
  }

  // ------------------------------------------------------------------ round trip

  function DigitChar(d: nat): (c: char)
    requires d < 10
    ensures IsDigit(c) && c as int - '0' as int == d
  {
    ('0' as int + d) as char
  }

  /** The decimal digits of `n`, most significant first, without leading zeros. */
  function NatToDigits(n: nat): (r: string)
    ensures r != [] && forall i :: 0 <= i < |r| ==> IsDigit(r[i])
  {
    if n < 10 then [DigitChar(n)] else NatToDigits(n / 10) + [DigitChar(n % 10)]
  }

  /** `str(k)` for an integer. */
  function IntToString(k: int): string {
    if k < 0 then "-" + NatToDigits(-k) else NatToDigits(k)
  }

  lemma {:induction false} DigitsRoundTrip(n: nat)
    ensures DigitsValue(NatToDigits(n)) == n
  {
    if n >= 10 {
      var s := NatToDigits(n);
      assert s[..|s| - 1] == NatToDigits(n / 10);
      DigitsRoundTrip(n / 10);
    }
  }

  lemma {:induction false} NoUnderscores(s: string)
    requires forall i :: 0 <= i < |s| ==> IsDigit(s[i])
    ensures RemoveUnderscores(s) == s
  {
    if s != [] {
      assert s == [s[0]] + s[1..];
      NoUnderscores(s[1..]);
    }
  }

  lemma NumeralOfDigits(s: string)
    requires s != [] && forall i :: 0 <= i < |s| ==> IsDigit(s[i])
    ensures IsNumeral(s)
  {
  }

  /** `int(str(n)) == n` for the digits alone. */
  lemma DigitsParse(n: nat)
    ensures ParseInt(NatToDigits(n)) == Some(n)
  {
    var digits := NatToDigits(n);
    assert IsDigit(digits[0]);
    assert digits[0] != '+' && digits[0] != '-';
    NumeralOfDigits(digits);
    NoUnderscores(digits);
    DigitsRoundTrip(n);
  }

  /** `int("-" + str(n)) == -n`. */
  lemma NegativeParse(n: nat)
    ensures ParseInt("-" + NatToDigits(n)) == Some(-(n as int))
  {
    var digits := NatToDigits(n);
    var word := "-" + digits;
    assert word[0] == '-';
    assert word[1..] == digits;
    NumeralOfDigits(digits);
    NoUnderscores(digits);
    DigitsRoundTrip(n);
    assert IsNumeral(word[1..]);
    assert DigitsValue(RemoveUnderscores(word[1..])) == n;
  }

  /** `int(str(k)) == k`. */
  lemma ParseIntRoundTrip(k: int)
    ensures ParseInt(IntToString(k)) == Some(k)
  {
    if k < 0 {
      NegativeParse(-k);
    } else {
      DigitsParse(k);
    }
  }

  lemma {:induction false} TakeWordOfJoin(w: string, rest: string)
    requires forall c :: c in w ==> !IsSpace(c)
    requires rest == [] || IsSpace(rest[0])
    ensures TakeWord(w + rest) == w
  {
    if w != [] {
      assert (w + rest)[0] == w[0];
      assert (w + rest)[1..] == w[1..] + rest;
      TakeWordOfJoin(w[1..], rest);
    }
  }

  /** A label that starts with `str(k)` followed by whitespace (or nothing) parses to `k`. */
  lemma LabelRoundTrip(k: int, rest: string)
    requires rest == [] || IsSpace(rest[0])
    ensures ParseLabel(IntToString(k) + rest) == Ok(k)
  {
    var word := IntToString(k);
    assert forall c :: c in word ==> !IsSpace(c);
    assert (word + rest)[0] == word[0];
    TakeWordOfJoin(word, rest);
    ParseIntRoundTrip(k);
  }

  lemma {:induction false} DropLeading(spaces: string, s: string)
    requires forall c :: c in spaces ==> IsSpace(c)
    ensures DropSpaces(spaces + s) == DropSpaces(s)
  {
    if spaces != [] {
      assert spaces[0] in spaces;
      assert (spaces + s)[1..] == spaces[1..] + s;
      DropLeading(spaces[1..], s);
    } else {
      assert spaces + s == s;
    }
  }

  /** Leading whitespace does not change the parsed class, as `split()` discards it. */
  lemma LeadingSpacesIgnored(spaces: string, labelText: string)
    requires forall c :: c in spaces ==> IsSpace(c)
    ensures ParseLabel(spaces + labelText) == ParseLabel(labelText)
  {
    DropLeading(spaces, labelText);
  }

  /** A label of the form `<n> star(s)`: "1 star", "2 stars", and so on. */
  function StarLabel(stars: int): string {
    IntToString(stars) + (if stars == 1 then " star" else " stars")
  }

  /** The class parsed from each of the model's labels is its number of stars. */
  lemma StarLabelParses(stars: int)
    requires 1 <= stars <= 5
    ensures ParseLabel(StarLabel(stars)) == Ok(stars)
  {
    var rest := if stars == 1 then " star" else " stars";
    assert IsSpace(rest[0]);
    LabelRoundTrip(stars, rest);
  }

  // ------------------------------------------------------------------ the whole function

  /** The loaded pipeline seen from outside: its tokenizer, the tokenizer's mapping back from
      tokens to text, the label the classifier ranks first, and `model_max_length`. */
  datatype Analyzer = Analyzer(
    tokenize: string -> seq<string>,
    tokensToString: seq<string> -> string,
    topLabel: string -> string,
    maxLength: int)

  /** The text actually handed to the classifier. */
  function ClassifierInput(text: string, a: Analyzer): string {
    a.tokensToString(Truncate(a.tokenize(text), a.maxLength))
  }

  /** `analyze_sentiment(text, a)`; an Err is the exception line 171 raises. */
  function AnalyzeSentiment(text: string, a: Analyzer): (r: Result<int, LabelError>)
    ensures |a.tokenize(text)| <= a.maxLength - 2 ==>
              r == ParseLabel(a.topLabel(a.tokensToString(a.tokenize(text))))
    ensures a.maxLength >= 2 && |a.tokenize(text)| > a.maxLength - 2 ==>
              r == ParseLabel(a.topLabel(a.tokensToString(a.tokenize(text)[..a.maxLength - 2])))
  {
    ParseLabel(a.topLabel(ClassifierInput(text, a)))
  }

  /** A text within the limit is classified from all of its tokens. */
  lemma ShortTextUntouched(text: string, a: Analyzer)
    requires |a.tokenize(text)| <= a.maxLength - 2
    ensures ClassifierInput(text, a) == a.tokensToString(a.tokenize(text))
  {
  }

  /** Classifying the already truncated text gives the same class as the full pipeline,
      provided the tokenizer reads back the tokens its own mapping produced. */
  lemma TruncatedTextSameClass(text: string, a: Analyzer)
    requires a.maxLength >= 2
    requires a.tokenize(ClassifierInput(text, a)) == Truncate(a.tokenize(text), a.maxLength)
    ensures ClassifierInput(ClassifierInput(text, a), a) == ClassifierInput(text, a)
    ensures AnalyzeSentiment(ClassifierInput(text, a), a) == AnalyzeSentiment(text, a)
  {
  }
}
