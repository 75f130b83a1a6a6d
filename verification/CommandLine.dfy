/** internal/colony/command.go: splitting a command string into arguments, without a shell. */
module CommandLines {
  import opened Options
  import opened Utf8

  const SINGLE: byte := 0x27
  const DOUBLE: byte := 0x22

  predicate IsQuote(b: byte) { b == SINGLE || b == DOUBLE }

  /** unicode.IsSpace of a single octet read as a code point. */
  predicate IsSpaceByte(b: byte) { 0x09 <= b <= 0x0D || b == 0x20 || b == 0x85 || b == 0xA0 }

  /** strings.Builder.WriteRune of a single octet read as a code point: two octets from 0x80 on. */
  function WriteRune(b: byte): Bytes {
    if b < 0x80 then [b] else [0xC0 + b / 64, 0x80 + b % 64]
  }

  /** The octet is taken for a character, and that is what is written. */
  lemma RunesAreEncoded(b: byte)
    ensures WriteRune(b) == Encode(b as int)
    ensures IsSpaceByte(b) <==> IsSpaceChar(WriteRune(b))
  {
  }

  function Widen(s: Bytes): Bytes {
    if s == [] then [] else Widen(s[..|s| - 1]) + WriteRune(s[|s| - 1])
  }

  /** The variables of the splitting loop. */
  datatype Scan = Scan(args: seq<Bytes>, cur: Bytes, quote: Option<byte>)

  const START := Scan([], [], None)

  function Flush(s: Scan): Scan { if s.cur == [] then s else s.(args := s.args + [s.cur], cur := []) }

  function Step(s: Scan, b: byte): Scan {
    if s.quote.Some? then
      if b == s.quote.value then s.(quote := None) else s.(cur := s.cur + WriteRune(b))
    else if IsQuote(b) then s.(quote := Some(b))
    else if IsSpaceByte(b) then Flush(s)
    else s.(cur := s.cur + WriteRune(b))
  }

  function ScanOf(from: Scan, s: Bytes): Scan {
    if s == [] then from else Step(ScanOf(from, s[..|s| - 1]), s[|s| - 1])
  }

  datatype Result = Args(args: seq<Bytes>) | UnclosedQuote

  function Split(s: Bytes): Result {
    var end := ScanOf(START, TrimSpace(s));
    if end.quote.Some? then UnclosedQuote else Args(Flush(end).args)
  }

  method SplitCommandLine(text: Bytes) returns (r: Result)
    ensures r == Split(text)
  {
    var s := TrimSpace(text);
    if s == [] { return Args([]); }
    var args: seq<Bytes>, cur: Bytes, quote: Option<byte> := [], [], None;
    for i := 0 to |s|
      invariant Scan(args, cur, quote) == ScanOf(START, s[..i])
    {
      var ch := s[i];
      assert s[..i + 1][..i] == s[..i];
      if quote.Some? {
        if ch == quote.value { quote := None; } else { cur := cur + WriteRune(ch); }
      } else if IsQuote(ch) {
        quote := Some(ch);
      } else if IsSpaceByte(ch) {
        if |cur| != 0 { args, cur := args + [cur], []; }
      } else {
        cur := cur + WriteRune(ch);
      }
    }
    assert s[..|s|] == s;
    if quote.Some? { return UnclosedQuote; }
    if |cur| != 0 { args := args + [cur]; }
    r := Args(args);
  }

  /** A stretch of an argument: as it is, or wrapped in a quote character. */
  datatype Segment = Bare(text: Bytes) | Quoted(quote: byte, text: Bytes)

  predicate Plain(b: byte) { !IsSpaceByte(b) && !IsQuote(b) }

  ghost predicate WellQuoted(g: Segment) {
    match g
    case Bare(text) => text != [] && forall b <- text :: Plain(b)
    case Quoted(quote, text) => IsQuote(quote) && quote !in text
  }

  function Quote(g: Segment): Bytes {
    match g
    case Bare(text) => text
    case Quoted(quote, text) => [quote] + text + [quote]
  }

  /* Any input at all. */

  lemma {:induction false} ScanHasNoEmptyArgs(s: Bytes)
    ensures forall a <- ScanOf(START, s).args :: a != []
  {
    if s == [] {
    } else {
      ScanHasNoEmptyArgs(s[..|s| - 1]);
    }
  }

  /** No input has an empty argument in its result. */
  lemma NoEmptyArgs(s: Bytes)
    ensures Split(s).Args? ==> forall a <- Split(s).args :: a != []
  {
    ScanHasNoEmptyArgs(TrimSpace(s));
  }

  /** The first position of a quote character, the length when there is none. */
  function Find(s: Bytes, q: byte): (k: nat)
    ensures k <= |s| && (k < |s| ==> s[k] == q) && q !in s[..k]
  {
    if s == [] || s[0] == q then 0
    else
      var k := Find(s[1..], q);
      assert s[..k + 1] == [s[0]] + s[1..][..k];
      k + 1
  }

  /** Every quote that opens is closed by the next quote of its kind. */
  predicate Balanced(s: Bytes)
    decreases |s|
  {
    s == []
    || (if IsQuote(s[0]) then
          var k := Find(s[1..], s[0]);
          k < |s| - 1 && Balanced(s[k + 2..])
        else Balanced(s[1..]))
  }

  lemma Assoc<T>(a: seq<T>, b: seq<T>, c: seq<T>)
    ensures (a + b) + c == a + (b + c)
  {
  }

  lemma {:induction false} ScanConcat(from: Scan, a: Bytes, b: Bytes)
    ensures ScanOf(from, a + b) == ScanOf(ScanOf(from, a), b)
  {
    if b == [] {
      assert a + b == a;
    } else {
      ScanConcat(from, a, b[..|b| - 1]);
      assert (a + b)[..|a + b| - 1] == a + b[..|b| - 1];
    }
  }

  lemma ScanOne(from: Scan, b: byte)
    ensures ScanOf(from, [b]) == Step(from, b)
  {
    assert [b][..0] == [];
  }

  /** Inside quotes everything but the closing quote is taken as it is. */
  lemma {:induction false} ScanQuoted(from: Scan, s: Bytes)
    requires from.quote.Some? && from.quote.value !in s
    ensures ScanOf(from, s) == from.(cur := from.cur + Widen(s))
  {
    if s == [] {
      assert from.cur + [] == from.cur;
    } else {
      var n := |s| - 1;
      ScanQuoted(from, s[..n]);
      assert (from.cur + Widen(s[..n])) + WriteRune(s[n]) == from.cur + Widen(s);
    }
  }

  lemma {:induction false} ScanBare(from: Scan, s: Bytes)
    requires from.quote.None? && forall b <- s :: Plain(b)
    ensures ScanOf(from, s) == from.(cur := from.cur + Widen(s))
  {
    if s == [] {
      assert from.cur + [] == from.cur;
    } else {
      var n := |s| - 1;
      ScanBare(from, s[..n]);
      assert Plain(s[n]);
      assert (from.cur + Widen(s[..n])) + WriteRune(s[n]) == from.cur + Widen(s);
    }
  }

  lemma ScanSegment(from: Scan, g: Segment)
    requires from.quote.None? && WellQuoted(g)
    ensures ScanOf(from, Quote(g)) == from.(cur := from.cur + Widen(g.text))
  {
    match g
    case Bare(text) => ScanBare(from, text);
    case Quoted(q, text) =>
      ScanConcat(from, [q] + text, [q]);
      ScanConcat(from, [q], text);
      ScanOne(from, q);
      ScanQuoted(from.(quote := Some(q)), text);
      ScanOne(from.(quote := Some(q), cur := from.cur + Widen(text)), q);
  }

  lemma {:induction false} ScanEndsOpen(from: Scan, s: Bytes)
    requires from.quote.None?
    ensures ScanOf(from, s).quote.None? <==> Balanced(s)
    decreases |s|
  {
    if s == [] {
    } else if IsQuote(s[0]) {
      ScanFromQuote(from, s);
      var k := Find(s[1..], s[0]);
      if k < |s| - 1 {
        ScanEndsOpen(from.(cur := from.cur + Widen(s[1..k + 1])), s[k + 2..]);
      }
    } else {
      assert s == [s[0]] + s[1..];
      ScanConcat(from, [s[0]], s[1..]);
      ScanOne(from, s[0]);
      ScanEndsOpen(Step(from, s[0]), s[1..]);
    }
  }

  lemma ScanPastQuote(from: Scan, s: Bytes, q: byte, text: Bytes, rest: Bytes)
    requires from.quote.None? && IsQuote(q) && q !in text && s == Quote(Quoted(q, text)) + rest
    ensures ScanOf(from, s) == ScanOf(from.(cur := from.cur + Widen(text)), rest)
  {
    ScanConcat(from, Quote(Quoted(q, text)), rest);
    ScanSegment(from, Quoted(q, text));
  }

  lemma ScanIntoQuote(from: Scan, s: Bytes, q: byte, text: Bytes)
    requires from.quote.None? && IsQuote(q) && q !in text && s == [q] + text
    ensures ScanOf(from, s).quote == Some(q)
  {
    ScanConcat(from, [q], text);
    ScanOne(from, q);
    ScanQuoted(from.(quote := Some(q)), text);
  }

  lemma CutAtQuote(s: Bytes, q: byte, k: nat)
    requires k + 1 < |s| && s[0] == q && s[k + 1] == q
    ensures s == [q] + s[1..k + 1] + [q] + s[k + 2..]
  {
  }

  lemma ScanFromQuote(from: Scan, s: Bytes)
    requires from.quote.None? && s != [] && IsQuote(s[0])
    ensures var k := Find(s[1..], s[0]);
      if k < |s| - 1 then ScanOf(from, s) == ScanOf(from.(cur := from.cur + Widen(s[1..k + 1])), s[k + 2..])
      else ScanOf(from, s).quote == Some(s[0])
  {
    var q, k := s[0], Find(s[1..], s[0]);
    var text := s[1..k + 1];
    assert text == s[1..][..k];
    if k < |s| - 1 {
      CutAtQuote(s, q, k);
      ScanPastQuote(from, s, q, text, s[k + 2..]);
    } else {
      assert s == [q] + text;
      ScanIntoQuote(from, s, q, text);
    }
  }

  predicate Quoteless(s: Bytes) { SINGLE !in s && DOUBLE !in s }

  /** A space character at either end has no part in the quotes. */
  lemma SpaceHasNoQuote(c: Bytes)
    requires IsSpaceChar(c)
    ensures Quoteless(c)
  {
  }

  lemma {:induction false} BalancedAfter(a: Bytes, b: Bytes)
    requires Quoteless(a)
    ensures Balanced(a + b) <==> Balanced(b)
  {
    if a == [] {
      assert a + b == b;
    } else {
      BalancedAfter(a[1..], b);
      assert (a + b)[1..] == a[1..] + b;
      assert a[0] in a;
    }
  }

  lemma {:induction false} QuietStepsKeepQuote(from: Scan, s: Bytes)
    requires Quoteless(s) && (from.quote.Some? ==> IsQuote(from.quote.value))
    ensures ScanOf(from, s).quote == from.quote
  {
    if s == [] {
    } else {
      QuietStepsKeepQuote(from, s[..|s| - 1]);
      assert s[|s| - 1] in s;
    }
  }

  lemma {:induction false} OpenQuoteIsAQuote(s: Bytes)
    ensures ScanOf(START, s).quote.Some? ==> IsQuote(ScanOf(START, s).quote.value)
  {
    if s == [] {
    } else {
      OpenQuoteIsAQuote(s[..|s| - 1]);
    }
  }

  lemma BalancedBefore(a: Bytes, b: Bytes)
    requires Quoteless(b)
    ensures Balanced(a + b) <==> Balanced(a)
  {
    ScanEndsOpen(START, a + b);
    ScanEndsOpen(START, a);
    ScanConcat(START, a, b);
    OpenQuoteIsAQuote(a);
    QuietStepsKeepQuote(ScanOf(START, a), b);
  }

  lemma {:induction false} TrimLeftKeepsBalance(s: Bytes)
    ensures Balanced(TrimLeft(s)) <==> Balanced(s)
    decreases |s|
  {
    var w := LeadingSpace(s);
    if w == 0 {
    } else {
      TrimLeftKeepsBalance(s[w..]);
      SpaceHasNoQuote(s[..w]);
      BalancedAfter(s[..w], s[w..]);
      assert s == s[..w] + s[w..];
    }
  }

  lemma {:induction false} TrimRightKeepsBalance(s: Bytes)
    ensures Balanced(TrimRight(s)) <==> Balanced(s)
    decreases |s|
  {
    var w := TrailingSpace(s);
    if w == 0 {
    } else {
      var k := |s| - w;
      TrimRightKeepsBalance(s[..k]);
      SpaceHasNoQuote(s[k..]);
      BalancedBefore(s[..k], s[k..]);
      assert s == s[..k] + s[k..];
    }
  }

  /** The split fails exactly when a quote is left open in the string as it was given. */
  lemma FailsIffAQuoteIsOpen(s: Bytes)
    ensures Split(s).UnclosedQuote? <==> !Balanced(s)
  {
    ScanEndsOpen(START, TrimSpace(s));
    TrimLeftKeepsBalance(s);
    TrimRightKeepsBalance(TrimLeft(s));
  }

  /* Quoting and splitting. */

  /** A word is one or more segments run together. */
  function QuoteAll(word: seq<Segment>): Bytes {
    if word == [] then [] else QuoteAll(word[..|word| - 1]) + Quote(word[|word| - 1])
  }

  function TextOf(word: seq<Segment>): Bytes {
    if word == [] then [] else TextOf(word[..|word| - 1]) + word[|word| - 1].text
  }

  ghost predicate Word(word: seq<Segment>) { word != [] && forall g <- word :: WellQuoted(g) }

  predicate Blank(s: Bytes) { forall i :: 0 <= i < |s| ==> IsSpaceByte(s[i]) }

  /** The words with gaps around and between them. */
  function Line(words: seq<seq<Segment>>, gaps: seq<Bytes>): Bytes
    requires |gaps| == |words| + 1
  {
    var n := |words|;
    if n == 0 then gaps[0] else Line(words[..n - 1], gaps[..n]) + QuoteAll(words[n - 1]) + gaps[n]
  }

  ghost predicate Spaced(words: seq<seq<Segment>>, gaps: seq<Bytes>) {
    && |gaps| == |words| + 1
    && (forall w <- words :: Word(w))
    && (forall k :: 0 <= k < |gaps| ==> Blank(gaps[k]) && (0 < k < |words| ==> gaps[k] != []))
  }

  /** What splitting a line of words gives: each text widened, the empty ones dropped. */
  function Texts(words: seq<seq<Segment>>): seq<Bytes> {
    if words == [] then []
    else
      var text := Widen(TextOf(words[|words| - 1]));
      Texts(words[..|words| - 1]) + if text == [] then [] else [text]
  }

  lemma {:induction false} WidenConcat(a: Bytes, b: Bytes)
    ensures Widen(a + b) == Widen(a) + Widen(b)
  {
    if b == [] {
      assert a + b == a;
    } else {
      var init, last := b[..|b| - 1], b[|b| - 1];
      WidenConcat(a, init);
      Assoc(a, init, [last]);
      assert b == init + [last];
      WidenOneMore(a + init, last);
      Assoc(Widen(a), Widen(init), WriteRune(last));
    }
  }

  lemma WidenOneMore(s: Bytes, b: byte)
    ensures Widen(s + [b]) == Widen(s) + WriteRune(b)
  {
    assert (s + [b])[..|s|] == s;
  }

  lemma ScanNextSegment(from: Scan, a: Bytes, text: Bytes, g: Segment)
    requires from.quote.None? && WellQuoted(g)
    requires ScanOf(from, a) == from.(cur := from.cur + Widen(text))
    ensures ScanOf(from, a + Quote(g)) == from.(cur := from.cur + Widen(text + g.text))
  {
    ScanConcat(from, a, Quote(g));
    ScanSegment(from.(cur := from.cur + Widen(text)), g);
    WidenConcat(text, g.text);
    Assoc(from.cur, Widen(text), Widen(g.text));
  }

  lemma {:induction false} ScanWord(from: Scan, word: seq<Segment>)
    requires from.quote.None? && forall g <- word :: WellQuoted(g)
    ensures ScanOf(from, QuoteAll(word)) == from.(cur := from.cur + Widen(TextOf(word)))
  {
    if word == [] {
      assert from.cur + [] == from.cur;
    } else {
      var init, last := word[..|word| - 1], word[|word| - 1];
      ScanWord(from, init);
      assert last in word;
      ScanNextSegment(from, QuoteAll(init), TextOf(init), last);
    }
  }

  lemma {:induction false} ScanGap(from: Scan, gap: Bytes)
    requires from.quote.None? && Blank(gap)
    ensures ScanOf(from, gap) == if gap == [] then from else Flush(from)
  {
    if gap == [] {
    } else {
      ScanGap(from, gap[..|gap| - 1]);
      assert IsSpaceByte(gap[|gap| - 1]);
    }
  }

  /** One more word and the gap behind it, from a scan with nothing pending. */
  lemma ScanOneWord(from: Scan, word: seq<Segment>, gap: Bytes)
    requires from.quote.None? && from.cur == [] && Word(word) && Blank(gap)
    ensures var pending := from.(cur := Widen(TextOf(word)));
      ScanOf(ScanOf(from, QuoteAll(word)), gap) == if gap == [] then pending else Flush(pending)
  {
    ScanWord(from, word);
    assert [] + Widen(TextOf(word)) == Widen(TextOf(word));
    ScanGap(from.(cur := Widen(TextOf(word))), gap);
  }

  lemma ScanAppend(a: Bytes, b: Bytes, c: Bytes)
    ensures ScanOf(START, a + b + c) == ScanOf(ScanOf(ScanOf(START, a), b), c)
  {
    ScanConcat(START, a, b);
    ScanConcat(START, a + b, c);
  }

  /** The scan of a line: the words' texts, the last one still pending if no gap follows it. */
  ghost predicate Scanned(end: Scan, texts: seq<Bytes>, flushed: bool) {
    end.quote.None? && Flush(end) == Scan(texts, [], None) && (flushed ==> end.cur == [])
  }

  lemma WordScanned(from: Scan, texts: seq<Bytes>, word: seq<Segment>, gap: Bytes)
    requires Scanned(from, texts, true) && Word(word) && Blank(gap)
    ensures var text := Widen(TextOf(word));
      Scanned(ScanOf(ScanOf(from, QuoteAll(word)), gap), texts + (if text == [] then [] else [text]), gap != [])
  {
    ScanOneWord(from, word, gap);
    assert texts + [] == texts;
  }

  lemma SpacedInit(words: seq<seq<Segment>>, gaps: seq<Bytes>)
    requires Spaced(words, gaps) && words != []
    ensures var n := |words|;
      && Spaced(words[..n - 1], gaps[..n]) && Word(words[n - 1]) && Blank(gaps[n])
      && (n > 1 ==> gaps[..n][n - 1] != [])
  {
    assert words[|words| - 1] in words;
  }

  /** Scanning a line and flushing what is pending yields the words' texts. */
  lemma {:induction false} ScanLine(words: seq<seq<Segment>>, gaps: seq<Bytes>)
    requires Spaced(words, gaps)
    ensures Scanned(ScanOf(START, Line(words, gaps)), Texts(words), words == [] || gaps[|words|] != [])
  {
    var n := |words|;
    if n == 0 {
      ScanGap(START, gaps[0]);
    } else {
      SpacedInit(words, gaps);
      ScanLine(words[..n - 1], gaps[..n]);
      ScanAppend(Line(words[..n - 1], gaps[..n]), QuoteAll(words[n - 1]), gaps[n]);
      WordScanned(ScanOf(START, Line(words[..n - 1], gaps[..n])), Texts(words[..n - 1]), words[n - 1], gaps[n]);
    }
  }

  /* Trimming. */

  /** Trimming takes nothing but white octets. A character that is white space and longer than one octet is trimmed
      too, although to the splitting loop it is part of a word. */
  ghost predicate TrimsToBlanks(s: Bytes) { exists before, after :: TrimmedBy(s, before, after) }

  ghost predicate TrimmedBy(s: Bytes, before: Bytes, after: Bytes) {
    Blank(before) && Blank(after) && s == before + TrimSpace(s) + after
  }

  /** Blank ends change nothing: scanning what trimming leaves ends the same after the last flush. */
  lemma TrimmedScan(s: Bytes, before: Bytes, after: Bytes)
    requires TrimmedBy(s, before, after) && ScanOf(START, s).quote.None?
    ensures Split(s) == Args(Flush(ScanOf(START, s)).args)
  {
    var core := TrimSpace(s);
    ScanAppend(before, core, after);
    ScanGap(START, before);
    ScanEndsOpen(START, s);
    FailsIffAQuoteIsOpen(s);
    ScanGap(ScanOf(START, core), after);
  }

  function Total(args: seq<Bytes>): nat {
    if args == [] then 0 else Total(args[..|args| - 1]) + |args[|args| - 1]|
  }

  /** How many octets the scan has put into arguments. */
  function Weight(s: Scan): nat { Total(s.args) + |s.cur| }

  lemma StepWeighs(s: Scan, b: byte)
    ensures Weight(Flush(s)) == Weight(s)
    ensures Weight(Step(s, b)) - Weight(s)
         == if s.quote.Some? then (if b == s.quote.value then 0 else |WriteRune(b)|)
            else if Plain(b) then |WriteRune(b)| else 0
  {
    assert (s.args + [s.cur])[..|s.args|] == s.args;
  }

  /** What a stretch adds depends only on whether it begins inside a quote. */
  lemma {:induction false} SameGain(from: Scan, other: Scan, s: Bytes)
    requires from.quote == other.quote
    ensures ScanOf(from, s).quote == ScanOf(other, s).quote
    ensures Weight(ScanOf(from, s)) - Weight(from) == Weight(ScanOf(other, s)) - Weight(other)
  {
    if s == [] {
    } else {
      var (init, last) := (s[..|s| - 1], s[|s| - 1]);
      SameGain(from, other, init);
      StepWeighs(ScanOf(from, init), last);
      StepWeighs(ScanOf(other, init), last);
    }
  }

  /** Octets without a quote among them add nothing exactly when all of them are white. */
  lemma {:induction false} GainIffNotBlank(from: Scan, s: Bytes)
    requires from.quote.None? && Quoteless(s)
    ensures ScanOf(from, s).quote.None? && Weight(ScanOf(from, s)) >= Weight(from)
    ensures Weight(ScanOf(from, s)) == Weight(from) <==> Blank(s)
  {
    if s == [] {
    } else {
      var (init, last) := (s[..|s| - 1], s[|s| - 1]);
      assert last in s;
      GainIffNotBlank(from, init);
      StepWeighs(ScanOf(from, init), last);
      assert Blank(s) <==> Blank(init) && IsSpaceByte(last);
    }
  }

  lemma QuotelessConcat(a: Bytes, b: Bytes)
    ensures Quoteless(a + b) <==> Quoteless(a) && Quoteless(b)
  {
  }

  lemma SplitAt(s: Bytes, w: nat)
    requires w <= |s|
    ensures s == s[..w] + s[w..]
  {
  }

  lemma {:induction false} TrimLeftTakesSpace(s: Bytes) returns (before: Bytes)
    ensures s == before + TrimLeft(s) && Quoteless(before)
    decreases |s|
  {
    TrimLeftOnce(s);
    if LeadingSpace(s) == 0 {
      before := [];
    } else {
      var w := LeadingSpace(s);
      before := TrimLeftTakesSpace(s[w..]);
      SpaceHasNoQuote(s[..w]);
      QuotelessConcat(s[..w], before);
      SplitAt(s, w);
      Assoc(s[..w], before, TrimLeft(s[w..]));
      before := s[..w] + before;
    }
  }

  lemma {:induction false} TrimRightTakesSpace(s: Bytes) returns (after: Bytes)
    ensures s == TrimRight(s) + after && Quoteless(after)
    decreases |s|
  {
    TrimRightOnce(s);
    if TrailingSpace(s) == 0 {
      after := [];
    } else {
      var k := |s| - TrailingSpace(s);
      after := TrimRightTakesSpace(s[..k]);
      SpaceHasNoQuote(s[k..]);
      QuotelessConcat(after, s[k..]);
      SplitAt(s, k);
      Assoc(TrimRight(s[..k]), after, s[k..]);
      after := after + s[k..];
    }
  }

  /** Trimming takes space characters off both ends, and no quote with them. */
  lemma TrimTakesSpace(s: Bytes) returns (before: Bytes, after: Bytes)
    ensures s == before + TrimSpace(s) + after && Quoteless(before) && Quoteless(after)
  {
    before := TrimLeftTakesSpace(s);
    after := TrimRightTakesSpace(TrimLeft(s));
    Assoc(before, TrimSpace(s), after);
  }

  /** Whatever trimming took: the arguments hold as many octets as those of the untrimmed string exactly when it took
      nothing but white octets. */
  lemma TrimmedWeight(s: Bytes, before: Bytes, after: Bytes)
    requires s == before + TrimSpace(s) + after && Quoteless(before) && Quoteless(after)
    requires ScanOf(START, s).quote.None? && ScanOf(START, TrimSpace(s)).quote.None?
    ensures Weight(ScanOf(START, TrimSpace(s))) == Weight(ScanOf(START, s)) ==> Blank(before) && Blank(after)
  {
    var core := TrimSpace(s);
    ScanAppend(before, core, after);
    var first := ScanOf(START, before);
    GainIffNotBlank(START, before);
    SameGain(START, first, core);
    GainIffNotBlank(ScanOf(first, core), after);
  }

  /** Splitting inverts quoting: however each argument was cut into bare and quoted stretches and whatever white space
      stands around them, the arguments come back, with their octets widened and without the empty ones, exactly when
      trimming the line takes nothing but white octets. */
  lemma {:induction false} SplitInvertsQuoting(words: seq<seq<Segment>>, gaps: seq<Bytes>)
    requires Spaced(words, gaps)
    ensures Split(Line(words, gaps)) == Args(Texts(words)) <==> TrimsToBlanks(Line(words, gaps))
  {
    var line := Line(words, gaps);
    ScanLine(words, gaps);
    if before, after :| TrimmedBy(line, before, after) { TrimmedScan(line, before, after); }
    if Split(line) == Args(Texts(words)) {
      var before, after := TrimTakesSpace(line);
      SameWeight(line, Texts(words));
      TrimmedWeight(line, before, after);
      assert TrimmedBy(line, before, after);
    }
  }

  lemma FlushedWeight(e: Scan)
    ensures Weight(e) == Total(Flush(e).args)
  {
    assert (e.args + [e.cur])[..|e.args|] == e.args;
  }

  lemma SameWeight(s: Bytes, texts: seq<Bytes>)
    requires Split(s) == Args(texts) && Flush(ScanOf(START, s)).args == texts
    ensures Weight(ScanOf(START, TrimSpace(s))) == Weight(ScanOf(START, s)) == Total(texts)
  {
    FlushedWeight(ScanOf(START, TrimSpace(s)));
    FlushedWeight(ScanOf(START, s));
  }

  lemma BareLine(words: seq<seq<Segment>>, gaps: seq<Bytes>, s: Bytes)
    requires s != [] && (forall b <- s :: Plain(b)) && words == [[Bare(s)]] && gaps == [[], []]
    ensures Spaced(words, gaps) && Line(words, gaps) == s && Texts(words) != []
  {
    BareWord(words[0], s);
    OneWord(words, gaps);
    assert [] + s + [] == s;
    WidenIsLonger(s);
  }

  lemma OneWord(words: seq<seq<Segment>>, gaps: seq<Bytes>)
    requires |words| == 1 && |gaps| == 2
    ensures Line(words, gaps) == gaps[0] + QuoteAll(words[0]) + gaps[1]
    ensures Texts(words) == [] + if Widen(TextOf(words[0])) == [] then [] else [Widen(TextOf(words[0]))]
  {
    assert words[..0] == [];
    assert Line(words[..0], gaps[..1]) == gaps[..1][0];
  }

  lemma BareWord(word: seq<Segment>, s: Bytes)
    requires word == [Bare(s)]
    ensures QuoteAll(word) == s && TextOf(word) == s
  {
    assert word[..0] == [] && [] + s == s;
  }

  lemma WideSpaceIsTrimmed(s: Bytes)
    requires s == [0xE3, 0x80, 0x80]
    ensures TrimSpace(s) == []
  {
    assert s[..3] == s && s[3..] == [];
    assert LeadingSpace(s) == 3;
    assert TrimLeft(s) == TrimLeft(s[3..]) == [];
  }

  /** An ideographic space outside quotes is part of a word, and at the end of the line it is lost. */
  lemma WideSpaceIsLost(words: seq<seq<Segment>>, gaps: seq<Bytes>, s: Bytes)
    requires s == [0xE3, 0x80, 0x80] && words == [[Bare(s)]] && gaps == [[], []]
    ensures Spaced(words, gaps) && Texts(words) != [] && Split(Line(words, gaps)) == Args([])
  {
    BareLine(words, gaps, s);
    WideSpaceIsTrimmed(s);
  }

  /* Lines whose outer octets are ASCII. */

  /** An octet no trimming goes past. */
  predicate Solid(b: byte) { b < 0x80 && !IsSpaceByte(b) }

  predicate SolidEnds(s: Bytes) { s != [] && Solid(s[0]) && Solid(s[|s| - 1]) }

  lemma {:induction false} WordIsNotEmpty(word: seq<Segment>)
    requires Word(word)
    ensures QuoteAll(word) != []
  {
    assert word[|word| - 1] in word;
  }

  lemma Regroup(a: Bytes, b: Bytes, c: Bytes, d: Bytes)
    ensures a + b + c + d == a + (b + c + d)
  {
  }

  /** Between the outer gaps a line begins as its first word does and ends as its last. */
  lemma {:induction false} LineHasEnds(words: seq<seq<Segment>>, gaps: seq<Bytes>) returns (core: Bytes)
    requires Spaced(words, gaps) && words != []
    ensures core != [] && Line(words, gaps) == gaps[0] + core + gaps[|words|]
    ensures QuoteAll(words[0]) != [] && QuoteAll(words[|words| - 1]) != []
    ensures core[0] == QuoteAll(words[0])[0]
    ensures var last := QuoteAll(words[|words| - 1]); core[|core| - 1] == last[|last| - 1]
  {
    var n := |words|;
    var word := words[n - 1];
    assert word in words && Word(word);
    WordIsNotEmpty(word);
    if n == 1 {
      core := QuoteAll(word);
    } else {
      SpacedInit(words, gaps);
      var init := LineHasEnds(words[..n - 1], gaps[..n]);
      core := init + gaps[n - 1] + QuoteAll(word);
      LineGrows(words, gaps, init);
      SameEndsOf(init, gaps[n - 1], QuoteAll(word));
    }
  }

  lemma LineGrows(words: seq<seq<Segment>>, gaps: seq<Bytes>, init: Bytes)
    requires |words| > 1 && |gaps| == |words| + 1
    requires var n := |words|; Line(words[..n - 1], gaps[..n]) == gaps[0] + init + gaps[n - 1]
    ensures var n := |words|; Line(words, gaps) == gaps[0] + (init + gaps[n - 1] + QuoteAll(words[n - 1])) + gaps[n]
  {
    var n := |words|;
    Regroup(gaps[0], init, gaps[n - 1], QuoteAll(words[n - 1]));
  }

  lemma SameEndsOf(init: Bytes, gap: Bytes, last: Bytes)
    requires init != [] && last != []
    ensures var all := init + gap + last; all[0] == init[0] && all[|all| - 1] == last[|last| - 1]
  {
  }

  lemma SolidHasNoSpace(s: Bytes)
    ensures s != [] && Solid(s[0]) ==> LeadingSpace(s) == 0
    ensures s != [] && Solid(s[|s| - 1]) ==> TrailingSpace(s) == 0
  {
  }

  lemma BlankIsSpace(b: byte, s: Bytes)
    requires IsSpaceByte(b) && b < 0x80
    ensures LeadingSpace([b] + s) == 1 && ([b] + s)[1..] == s
    ensures TrailingSpace(s + [b]) == 1 && (s + [b])[..|s|] == s
  {
    assert ([b] + s)[..1] == [b] && (s + [b])[|s|..] == [b];
  }

  lemma {:induction false} TrimLeftBlank(gap: Bytes, s: Bytes)
    requires Blank(gap) && Ascii(gap) && (s == [] || Solid(s[0]))
    ensures TrimLeft(gap + s) == s
  {
    if gap == [] {
      assert gap + s == s;
      SolidHasNoSpace(s);
    } else {
      TrimLeftBlank(gap[1..], s);
      BlankIsSpace(gap[0], gap[1..] + s);
      assert gap == [gap[0]] + gap[1..];
      Assoc([gap[0]], gap[1..], s);
    }
  }

  lemma TrimRightOne(s: Bytes)
    requires s != [] && IsSpaceByte(s[|s| - 1]) && s[|s| - 1] < 0x80
    ensures TrimRight(s) == TrimRight(s[..|s| - 1])
  {
    var n := |s| - 1;
    BlankIsSpace(s[n], s[..n]);
    assert s == s[..n] + [s[n]];
  }

  lemma TrimRightSolid(s: Bytes)
    requires s == [] || Solid(s[|s| - 1])
    ensures TrimRight(s) == s
  {
    SolidHasNoSpace(s);
  }

  lemma {:induction false} TrimRightBlank(whole: Bytes, s: Bytes, gap: Bytes)
    requires whole == s + gap && Blank(gap) && Ascii(gap) && (s == [] || Solid(s[|s| - 1]))
    ensures TrimRight(whole) == s
  {
    if gap == [] {
      assert whole == s;
      TrimRightSolid(s);
    } else {
      TrimRightOne(whole);
      TrimRightBlank(whole[..|whole| - 1], s, gap[..|gap| - 1]);
    }
  }

  /** Nothing else is trimmed from a line whose outer gaps are ASCII and whose first and last octets between them are:
      a quote, say, or the letters of a command's name. */
  lemma AsciiEndsTrimToBlanks(words: seq<seq<Segment>>, gaps: seq<Bytes>)
    requires Spaced(words, gaps) && Ascii(gaps[0]) && Ascii(gaps[|words|])
    requires words != [] ==>
      var (first, last) := (QuoteAll(words[0]), QuoteAll(words[|words| - 1]));
      first != [] && last != [] && Solid(first[0]) && Solid(last[|last| - 1])
    ensures TrimsToBlanks(Line(words, gaps))
  {
    var line := Line(words, gaps);
    if words == [] {
      assert line == line + [] == line + [] + [];
      TrimLeftBlank(line, []);
      assert TrimmedBy(line, line, []);
    } else {
      var core := LineHasEnds(words, gaps);
      var after := gaps[|words|];
      Assoc(gaps[0], core, after);
      TrimLeftBlank(gaps[0], core + after);
      TrimRightBlank(core + after, core, after);
      assert TrimmedBy(line, gaps[0], after);
    }
  }

  function Originals(words: seq<seq<Segment>>): seq<Bytes> {
    if words == [] then [] else Originals(words[..|words| - 1]) + [TextOf(words[|words| - 1])]
  }

  /** The argument a word spells is ASCII and not empty. */
  predicate Survives(word: seq<Segment>) { TextOf(word) != [] && Ascii(TextOf(word)) }

  predicate Ascii(s: Bytes) { forall i :: 0 <= i < |s| ==> s[i] < 0x80 }

  lemma {:induction false} WidenIsLonger(s: Bytes)
    ensures |Widen(s)| >= |s| && (Widen(s) == s <==> Ascii(s))
    ensures |Widen(s)| == |s| ==> Ascii(s)
  {
    if s == [] {
    } else {
      var init, b := s[..|s| - 1], s[|s| - 1];
      WidenIsLonger(init);
      assert s == init + [b];
      AsciiOneMore(init, b);
      WidenOneMore(init, b);
      assert Ascii(s) ==> Widen(s) == s;
    }
  }

  lemma AsciiOneMore(s: Bytes, b: byte)
    ensures Ascii(s + [b]) <==> Ascii(s) && b < 0x80
  {
    assert Ascii(s + [b]) ==> (s + [b])[|s|] < 0x80 && forall i :: 0 <= i < |s| ==> (s + [b])[i] == s[i];
  }

  lemma OneTextOrOriginal(texts: seq<Bytes>, originals: seq<Bytes>, word: seq<Segment>)
    requires |texts| <= |originals|
    ensures var text := Widen(TextOf(word));
      (texts + (if text == [] then [] else [text]) == originals + [TextOf(word)])
      <==> texts == originals && Survives(word)
  {
    var text := Widen(TextOf(word));
    WidenIsLonger(TextOf(word));
    if text != [] {
      SameEnds(texts, text, originals, TextOf(word));
    }
  }

  lemma {:induction false} TextsOrOriginals(words: seq<seq<Segment>>)
    ensures |Texts(words)| <= |words| == |Originals(words)|
    ensures Texts(words) == Originals(words) <==> forall w <- words :: Survives(w)
  {
    if words == [] {
    } else {
      var init, word := words[..|words| - 1], words[|words| - 1];
      TextsOrOriginals(init);
      assert words == init + [word];
      assert (forall w <- words :: Survives(w)) <==> (forall w <- init :: Survives(w)) && Survives(word);
      OneTextOrOriginal(Texts(init), Originals(init), word);
    }
  }

  lemma SameEnds<T>(a: seq<T>, x: T, b: seq<T>, y: T)
    ensures a + [x] == b + [y] <==> a == b && x == y
  {
    assert (a + [x])[..|a|] == a && (b + [y])[..|b|] == b;
    assert (a + [x])[|a|] == x && (b + [y])[|b|] == y;
    assert a + [x] == b + [y] ==> |a + [x]| == |b + [y]|;
  }

  /** The arguments come back unchanged exactly when every one of them is ASCII and not empty. */
  lemma {:induction false} SplitReturnsTheArguments(words: seq<seq<Segment>>, gaps: seq<Bytes>)
    requires Spaced(words, gaps) && TrimsToBlanks(Line(words, gaps))
    ensures Split(Line(words, gaps)) == Args(Originals(words)) <==> forall w <- words :: Survives(w)
  {
    SplitInvertsQuoting(words, gaps);
    TextsOrOriginals(words);
  }
}
