/** The prompt: it keeps reading lines while a quote is open, as judged by a second scanner
    that knows nothing of the lexer's states, then trims the text and hands it over. */
module Prompt {
  import opened Wrappers
  import opened Lexer
  import opened Text

  // ---------- the quote counter ----------

  predicate IsQuote(c: char) {
    c == '\"' || c == '\''
  }

  /** Whether the quote at byte offset `offset` counts as escaped. The character looked at is
      the one with number `offset - 1`: a byte offset used as a character index. */
  predicate Escaped(text: string, offset: nat) {
    0 < offset <= |text| && text[offset - 1] == '\\'
  }

  /** An opening quote is pushed, its partner pops it, the other kind in between is text. */
  function Toggle(stack: seq<char>, c: char): seq<char> {
    if stack == [] then [c]
    else if stack[|stack| - 1] == c then stack[..|stack| - 1]
    else stack
  }

  function Count(text: string, stack: seq<char>, offset: nat, c: char): seq<char> {
    if !IsQuote(c) || Escaped(text, offset) then stack else Toggle(stack, c)
  }

  /** The stack after the first `n` characters of `text`. */
  function ScanTo(stack: seq<char>, text: string, n: nat): seq<char>
    requires n <= |text|
  {
    if n == 0 then stack else Count(text, ScanTo(stack, text, n - 1), Offset(text, n - 1), text[n - 1])
  }

  /** The quotes of the text, with their byte offsets and, for the proof, where they are. */
  method FindQuotes(text: string) returns (matches: seq<(nat, char)>, ghost at: seq<nat>)
    ensures Found(text, matches, at, |text|)
  {
    var offset, i := 0, 0;
    matches, at := [], [];
    while i < |text|
      invariant i <= |text| && offset == Offset(text, i)
      invariant Found(text, matches, at, i)
    {
      if IsQuote(text[i]) {
        matches, at := matches + [(offset, text[i])], at + [i];
      }
      offset, i := offset + Utf8Len(text[i]), i + 1;
    }
  }

  /** One quote: skipped when escaped, else it pops its partner or opens. */
  method CountOne(text: string, initial: seq<char>, offset: nat, c: char) returns (stack: seq<char>)
    requires IsQuote(c)
    ensures stack == Count(text, initial, offset, c)
  {
    stack := initial;
    if !(offset > 0 && offset - 1 < |text| && text[offset - 1] == '\\') {
      if |stack| > 0 {
        if stack[|stack| - 1] == c {
          stack := stack[..|stack| - 1];
        }
      } else {
        stack := [c];
      }
    }
  }

  /** First all quotes with their byte offsets, then the stack. */
  method CountQuotes(text: string, initial: seq<char>) returns (stack: seq<char>)
    ensures stack == CountLine(initial, text)
  {
    var matches;
    ghost var at;
    matches, at := FindQuotes(text);
    stack := initial;
    var k := 0;
    FirstMatch(text, initial, matches, at);
    while k < |matches|
      invariant k <= |matches|
      invariant stack == ScanTo(initial, text, Position(text, at, k))
    {
      var m := matches[k];
      NextMatch(text, initial, matches, at, k);
      stack := CountOne(text, stack, m.0, m.1);
      k := k + 1;
    }
  }

  /** `matches` are the quotes among the first `n` characters, in order; `at` says where. */
  ghost predicate Found(text: string, matches: seq<(nat, char)>, at: seq<nat>, n: nat)
    requires n <= |text|
  {
    && |at| == |matches|
    && (forall k :: 0 <= k < |at| ==> at[k] < n && matches[k] == (Offset(text, at[k]), text[at[k]]) && IsQuote(text[at[k]]))
    && (forall j, k :: 0 <= j < k < |at| ==> at[j] < at[k])
    && (forall i :: 0 <= i < n && IsQuote(text[i]) ==> i in at)
  }

  ghost function Position(text: string, at: seq<nat>, k: nat): nat {
    if k < |at| then at[k] else |text|
  }

  lemma {:induction false} SameBetween(text: string, stack: seq<char>, from: nat, to: nat)
    requires from <= to <= |text| && forall i :: from <= i < to ==> !IsQuote(text[i])
    ensures ScanTo(stack, text, from) == ScanTo(stack, text, to)
  {
    if from < to {
      SameBetween(text, stack, from, to - 1);
    }
  }

  lemma FirstMatch(text: string, stack: seq<char>, matches: seq<(nat, char)>, at: seq<nat>)
    requires Found(text, matches, at, |text|)
    ensures ScanTo(stack, text, Position(text, at, 0)) == stack
  {
    SameBetween(text, stack, 0, Position(text, at, 0));
  }

  lemma NextMatch(text: string, stack: seq<char>, matches: seq<(nat, char)>, at: seq<nat>, k: nat)
    requires Found(text, matches, at, |text|) && k < |at|
    ensures IsQuote(matches[k].1)
    ensures ScanTo(stack, text, Position(text, at, k + 1)) ==
            Count(text, ScanTo(stack, text, at[k]), matches[k].0, matches[k].1)
  {
    SameBetween(text, stack, at[k] + 1, Position(text, at, k + 1));
  }

  // ---------- exactly when the two scanners agree ----------

  /** The quote that the lexer is inside of: what the counter's stack should hold. */
  function Inside(state: State): (r: seq<char>)
    ensures |r| <= 1
  {
    match state
    case SingleQuoted => ['\'']
    case DoubleQuoted => ['\"']
    case DoubleQuotedBackslash => ['\"']
    case _ => []
  }

  predicate AfterBackslash(state: State) {
    state == Backslash || state == UnquotedBackslash || state == DoubleQuotedBackslash
  }

  /** A character that matters to the counter, and whose escaping it judges otherwise than
      the lexer: a quote that would be pushed or popped, and that only one of them skips. */
  predicate MisjudgedIn(state: State, c: char, escaped: bool) {
    IsQuote(c) && Toggle(Inside(state), c) != Inside(state) && escaped != AfterBackslash(state)
  }

  /** Character `i` of a line that the lexer starts in `f`. */
  predicate Misjudged(f: Config, line: string, i: nat)
    requires i < |line|
  {
    MisjudgedIn(FeedTo(f, line, i).state, line[i], Escaped(line, Offset(line, i)))
  }

  /** The counter's stack after `k` characters is the quote the lexer is inside of. */
  predicate AgreeAt(f: Config, stack: seq<char>, line: string, k: nat)
    requires k <= |line|
  {
    ScanTo(stack, line, k) == Inside(FeedTo(f, line, k).state)
  }

  /** One character keeps an agreement exactly when it is not misjudged. */
  lemma OneCharacter(f: Config, stack: seq<char>, line: string, i: nat)
    requires i < |line| && AgreeAt(f, stack, line, i)
    ensures AgreeAt(f, stack, line, i + 1) <==> !Misjudged(f, line, i)
  {
    JudgeOne(FeedTo(f, line, i), line, Offset(line, i), line[i]);
  }

  lemma JudgeOne(g: Config, line: string, offset: nat, c: char)
    ensures Count(line, Inside(g.state), offset, c) == Inside(Feed(g, c).state)
            <==> !MisjudgedIn(g.state, c, Escaped(line, offset))
  {
  }

  lemma {:induction false} ScanFollowsLexer(f: Config, stack: seq<char>, line: string, n: nat)
    requires n <= |line| && stack == Inside(f.state)
    requires forall i :: 0 <= i < n ==> !Misjudged(f, line, i)
    ensures AgreeAt(f, stack, line, n)
  {
    if n > 0 {
      ScanFollowsLexer(f, stack, line, n - 1);
      OneCharacter(f, stack, line, n - 1);
    }
  }

  /** For every text: the counter holds the quote the lexer is inside of after every
      character if and only if no quote is misjudged. */
  lemma ScannersAgreeExactly(f: Config, stack: seq<char>, line: string)
    requires stack == Inside(f.state)
    ensures (forall k :: 0 <= k <= |line| ==> AgreeAt(f, stack, line, k)) <==>
            (forall i :: 0 <= i < |line| ==> !Misjudged(f, line, i))
  {
    if forall i :: 0 <= i < |line| ==> !Misjudged(f, line, i) {
      forall k | 0 <= k <= |line| ensures AgreeAt(f, stack, line, k) {
        ScanFollowsLexer(f, stack, line, k);
      }
    }
    if forall k :: 0 <= k <= |line| ==> AgreeAt(f, stack, line, k) {
      forall i | 0 <= i < |line| ensures !Misjudged(f, line, i) {
        assert AgreeAt(f, stack, line, i) && AgreeAt(f, stack, line, i + 1);
        OneCharacter(f, stack, line, i);
      }
    }
  }

  // ---------- line by line ----------

  /** What the `i`th read gives: past the end of the input, an empty line. */
  function LineAt(lines: seq<string>, i: nat): string {
    if i < |lines| then lines[i] else ""
  }

  /** The first `n` lines as one text. */
  function Joined(lines: seq<string>, n: nat): string {
    if n == 0 then "" else Joined(lines, n - 1) + LineAt(lines, n - 1)
  }

  function CountLine(stack: seq<char>, line: string): seq<char> {
    ScanTo(stack, line, |line|)
  }

  /** The stack after the counter has seen the first `n` lines, one call for each. */
  function CountLines(lines: seq<string>, n: nat): seq<char> {
    if n == 0 then [] else CountLine(CountLines(lines, n - 1), LineAt(lines, n - 1))
  }

  /** Where the lexer is after the first `n` lines of the whole text. */
  function LexLines(lines: seq<string>, n: nat): Config {
    FeedAll(START, Joined(lines, n))
  }

  /** No quote of line `m` is misjudged. */
  predicate LineJudged(lines: seq<string>, m: nat) {
    forall i :: 0 <= i < |LineAt(lines, m)| ==> !Misjudged(LexLines(lines, m), LineAt(lines, m), i)
  }

  /** Counter and lexer agree after every character of line `m`. */
  predicate LineAgrees(lines: seq<string>, m: nat) {
    forall k :: 0 <= k <= |LineAt(lines, m)| ==> AgreeAt(LexLines(lines, m), CountLines(lines, m), LineAt(lines, m), k)
  }

  predicate Judged(lines: seq<string>, n: nat) {
    n == 0 || (Judged(lines, n - 1) && LineJudged(lines, n - 1))
  }

  predicate Agrees(lines: seq<string>, n: nat) {
    n == 0 || (Agrees(lines, n - 1) && LineAgrees(lines, n - 1))
  }

  lemma AgreementAtLineEnd(lines: seq<string>, m: nat)
    requires LineAgrees(lines, m)
    ensures CountLines(lines, m + 1) == Inside(LexLines(lines, m + 1).state)
  {
    var line := LineAt(lines, m);
    assert AgreeAt(LexLines(lines, m), CountLines(lines, m), line, |line|);
    FeedConcat(START, Joined(lines, m), line);
  }

  /** However a text is cut into lines, counting quotes line by line agrees with lexing the
      whole after every character if and only if no quote of any line is misjudged. */
  lemma {:induction false} LinesAgreeExactly(lines: seq<string>, n: nat)
    ensures Agrees(lines, n) <==> Judged(lines, n)
    ensures Agrees(lines, n) ==> CountLines(lines, n) == Inside(LexLines(lines, n).state)
  {
    if n > 0 {
      LinesAgreeExactly(lines, n - 1);
      if Agrees(lines, n - 1) {
        ScannersAgreeExactly(LexLines(lines, n - 1), CountLines(lines, n - 1), LineAt(lines, n - 1));
        if LineAgrees(lines, n - 1) {
          AgreementAtLineEnd(lines, n - 1);
        }
      }
    }
  }

  /** Where no quote is misjudged, the counter is left with at most one open quote, and with
      none exactly when the lexer accepts the whole text. */
  lemma ScannersAgree(lines: seq<string>, n: nat)
    requires Judged(lines, n)
    ensures |CountLines(lines, n)| <= 1
    ensures CountLines(lines, n) == [] <==> Lex(Joined(lines, n)).Some?
  {
    LinesAgreeExactly(lines, n);
  }

  // ---------- text without backslashes ----------

  predicate NoBackslash(text: string) {
    forall i :: 0 <= i < |text| ==> text[i] != '\\'
  }

  predicate NoBackslashes(lines: seq<string>) {
    forall i :: 0 <= i < |lines| ==> NoBackslash(lines[i])
  }

  lemma {:induction false} NeverAfterBackslash(f: Config, text: string, n: nat)
    requires n <= |text| && NoBackslash(text) && !AfterBackslash(f.state)
    ensures !AfterBackslash(FeedTo(f, text, n).state)
  {
    if n > 0 {
      NeverAfterBackslash(f, text, n - 1);
    }
  }

  lemma {:induction false} JoinedHasNoBackslash(lines: seq<string>, n: nat)
    requires NoBackslashes(lines)
    ensures NoBackslash(Joined(lines, n))
  {
    if n > 0 {
      JoinedHasNoBackslash(lines, n - 1);
    }
  }

  /** Without backslashes no quote is misjudged. */
  lemma {:induction false} NothingMisjudged(lines: seq<string>, n: nat)
    requires NoBackslashes(lines)
    ensures Judged(lines, n)
  {
    if n > 0 {
      NothingMisjudged(lines, n - 1);
      var f, line := LexLines(lines, n - 1), LineAt(lines, n - 1);
      JoinedHasNoBackslash(lines, n - 1);
      NeverAfterBackslash(START, Joined(lines, n - 1), |Joined(lines, n - 1)|);
      forall i | 0 <= i < |line| ensures !Misjudged(f, line, i) {
        NeverAfterBackslash(f, line, i);
      }
    }
  }

  // ---------- misjudged quotes, in both directions ----------

  /** A backslash inside single quotes, an escaped backslash before a quote, and an escaped
      quote after a letter of two bytes. */
  const HIDDEN_CLOSING := "'\\'"
  const HIDDEN_OPENING := "\\\\\""
  const WIDE_LETTER := "\U{E9}\\\""

  /** The backslash inside single quotes hides the closing quote from the counter. */
  lemma CounterMissesClosing()
    ensures Misjudged(START, HIDDEN_CLOSING, 2)
    ensures Lex(HIDDEN_CLOSING) == Some(["\\"]) && CountLines([HIDDEN_CLOSING], 1) == ['\'']
  {
    var text := HIDDEN_CLOSING;
    assert FeedTo(START, text, 0) == START;
    assert FeedTo(START, text, 1) == Config(SingleQuoted, "", []);
    assert FeedTo(START, text, 2) == Config(SingleQuoted, "\\", []);
    assert FeedTo(START, text, 3) == Config(Unquoted, "\\", []);
    assert [] + ["\\"] == ["\\"];
    assert Offset(text, 1) == 1;
    assert Offset(text, 2) == 2;
    assert ScanTo([], text, 1) == ['\''];
    assert ScanTo([], text, 2) == ['\''];
    assert CountLines([text], 0) == [];
  }

  /** The escaped backslash hides an opening quote from the counter. */
  lemma CounterMissesOpening()
    ensures Misjudged(START, HIDDEN_OPENING, 2)
    ensures Lex(HIDDEN_OPENING) == None && CountLines([HIDDEN_OPENING], 1) == []
  {
    var text := HIDDEN_OPENING;
    assert FeedTo(START, text, 0) == START;
    assert FeedTo(START, text, 1) == Config(Backslash, "", []);
    assert FeedTo(START, text, 2) == Config(Unquoted, "\\", []);
    assert Offset(text, 1) == 1;
    assert Offset(text, 2) == 2;
    assert ScanTo([], text, 1) == [];
    assert ScanTo([], text, 2) == [];
    assert CountLines([text], 0) == [];
  }

  /** A byte offset is taken for a character's number, so after a letter of two bytes the
      counter looks at the quote itself and does not see the backslash before it. */
  lemma CounterMissesEscape()
    ensures Misjudged(START, WIDE_LETTER, 2)
    ensures Lex(WIDE_LETTER).Some? && CountLines([WIDE_LETTER], 1) == ['\"']
  {
    var text := WIDE_LETTER;
    assert FeedTo(START, text, 0) == START;
    assert FeedTo(START, text, 1) == Config(Unquoted, [text[0]], []);
    assert FeedTo(START, text, 2) == Config(UnquotedBackslash, [text[0]], []);
    assert FeedTo(START, text, 3).state == Unquoted;
    assert Offset(text, 1) == 2;
    assert Offset(text, 2) == 3;
    assert ScanTo([], text, 1) == [];
    assert ScanTo([], text, 2) == [];
    assert CountLines([text], 0) == [];
  }

  // ---------- trimming ----------

  /** Unicode's White_Space property. */
  predicate IsSpace(c: char) {
    var n := c as int;
    || 0x9 <= n <= 0xD || n == 0x20 || n == 0x85 || n == 0xA0 || n == 0x1680
    || 0x2000 <= n <= 0x200A || n == 0x2028 || n == 0x2029 || n == 0x202F || n == 0x205F || n == 0x3000
  }

  /** Where the trimmed text starts and ends. */
  function TrimStart(text: string, from: nat): (r: nat)
    requires from <= |text|
    ensures from <= r <= |text| && forall i :: from <= i < r ==> IsSpace(text[i])
    ensures r < |text| ==> !IsSpace(text[r])
    decreases |text| - from
  {
    if from < |text| && IsSpace(text[from]) then TrimStart(text, from + 1) else from
  }

  function TrimEnd(text: string, from: nat, to: nat): (r: nat)
    requires from <= to <= |text|
    ensures from <= r <= to && forall i :: r <= i < to ==> IsSpace(text[i])
    ensures from < r ==> !IsSpace(text[r - 1])
  {
    if from < to && IsSpace(text[to - 1]) then TrimEnd(text, from, to - 1) else to
  }

  function Trim(text: string): string {
    var from := TrimStart(text, 0);
    text[from..TrimEnd(text, from, |text|)]
  }

  predicate AllSpace(text: string) {
    forall i :: 0 <= i < |text| ==> IsSpace(text[i])
  }

  /** States that differ only in whether a word has been started. */
  predicate Similar(a: State, b: State) {
    || a == b
    || (a in {Delimiter, Unquoted} && b in {Delimiter, Unquoted})
    || (a in {Backslash, UnquotedBackslash} && b in {Backslash, UnquotedBackslash})
  }

  lemma {:induction false} SimilarRuns(f: Config, g: Config, text: string, n: nat)
    requires n <= |text| && Similar(f.state, g.state)
    ensures Similar(FeedTo(f, text, n).state, FeedTo(g, text, n).state)
  {
    if n > 0 {
      SimilarRuns(f, g, text, n - 1);
    }
  }

  predicate Unclosed(state: State) {
    state in {SingleQuoted, DoubleQuoted, DoubleQuotedBackslash}
  }

  lemma {:induction false} SpaceKeepsQuotes(f: Config, text: string, n: nat)
    requires n <= |text| && AllSpace(text)
    ensures Unclosed(FeedTo(f, text, n).state) <==> Unclosed(f.state)
    ensures f.state == Delimiter ==> Similar(FeedTo(f, text, n).state, Delimiter)
  {
    if n > 0 {
      SpaceKeepsQuotes(f, text, n - 1);
    }
  }

  lemma SpaceAround(before: string, middle: string, after: string)
    requires AllSpace(before) && AllSpace(after)
    ensures Lex(middle).Some? <==> Lex(before + (middle + after)).Some?
  {
    var f := FeedAll(START, before);
    FeedConcat(START, before, middle + after);
    FeedConcat(f, middle, after);
    SpaceKeepsQuotes(START, before, |before|);
    SimilarRuns(f, START, middle, |middle|);
    SpaceKeepsQuotes(FeedAll(f, middle), after, |after|);
  }

  lemma SpaceSlice(text: string, from: nat, to: nat)
    requires from <= to <= |text| && forall i :: from <= i < to ==> IsSpace(text[i])
    ensures AllSpace(text[from..to])
  {
    forall i | 0 <= i < to - from ensures IsSpace(text[from..to][i]) {
      assert text[from..to][i] == text[from + i];
    }
  }

  lemma CutInThree(text: string, from: nat, to: nat)
    requires from <= to <= |text|
    ensures text == text[0..from] + (text[from..to] + text[to..|text|])
  {
  }

  lemma NoSpaceAtEnds(text: string, from: nat, to: nat)
    requires from < to <= |text| && !IsSpace(text[from]) && !IsSpace(text[to - 1])
    ensures !IsSpace(text[from..to][0]) && !IsSpace(text[from..to][to - from - 1])
  {
  }

  /** `middle` is what is left when space is cut off at both ends: what is cut off is space,
      and none is left at either end. */
  ghost predicate IsTrimmed(text: string, before: string, middle: string, after: string) {
    && text == before + (middle + after) && AllSpace(before) && AllSpace(after)
    && (middle != [] ==> !IsSpace(middle[0]) && !IsSpace(middle[|middle| - 1]))
  }

  lemma TrimmedAt(text: string, from: nat, to: nat)
    requires from <= to <= |text|
    requires (forall i :: 0 <= i < from ==> IsSpace(text[i])) && (forall i :: to <= i < |text| ==> IsSpace(text[i]))
    requires from < to ==> !IsSpace(text[from]) && !IsSpace(text[to - 1])
    ensures IsTrimmed(text, text[0..from], text[from..to], text[to..|text|])
  {
    SpaceSlice(text, 0, from);
    SpaceSlice(text, to, |text|);
    CutInThree(text, from, to);
    if from < to {
      NoSpaceAtEnds(text, from, to);
    }
  }

  lemma TrimmedParts(text: string) returns (before: string, after: string)
    ensures IsTrimmed(text, before, Trim(text), after)
  {
    var from := TrimStart(text, 0);
    var to := TrimEnd(text, from, |text|);
    TrimmedAt(text, from, to);
    before, after := text[0..from], text[to..|text|];
  }

  /** Trimming never opens or closes a quote, whatever the text. */
  lemma TrimKeepsBalance(text: string)
    ensures Lex(Trim(text)).Some? <==> Lex(text).Some?
  {
    var before, after := TrimmedParts(text);
    SpaceAround(before, Trim(text), after);
  }

  // ---------- the loop that reads a command ----------

  predicate Open(lines: seq<string>, n: nat) {
    CountLines(lines, n) != []
  }

  lemma {:induction false} NoMoreLines(lines: seq<string>, n: nat)
    requires |lines| <= n
    ensures CountLines(lines, n) == CountLines(lines, |lines|)
  {
    if |lines| < n {
      NoMoreLines(lines, n - 1);
    }
  }

  /** A quote open at the end of the input, and at every line before, is never closed. */
  lemma OpenForever(lines: seq<string>, used: nat)
    requires 0 < used && |lines| <= used && forall k :: 0 < k <= used ==> Open(lines, k)
    ensures forall k :: 0 < k ==> Open(lines, k)
  {
    assert Open(lines, used);
    forall k: nat | used < k ensures Open(lines, k) {
      NoMoreLines(lines, k);
      NoMoreLines(lines, used);
    }
  }

  /** What the loop has when it has read `used` lines. */
  ghost predicate Gathered(lines: seq<string>, used: nat, input: string, stack: seq<char>) {
    && 0 < used && input == Joined(lines, used) && stack == CountLines(lines, used)
    && forall k :: 0 < k < used ==> Open(lines, k)
  }

  lemma GatherFirst(lines: seq<string>)
    ensures Gathered(lines, 1, LineAt(lines, 0), CountLine([], LineAt(lines, 0)))
  {
    assert Joined(lines, 0) == "" && "" + LineAt(lines, 0) == LineAt(lines, 0);
    assert CountLines(lines, 0) == [];
  }

  lemma GatherNext(lines: seq<string>, used: nat, input: string, stack: seq<char>)
    requires Gathered(lines, used, input, stack) && stack != []
    ensures Gathered(lines, used + 1, input + LineAt(lines, used), CountLine(stack, LineAt(lines, used)))
  {
  }

  lemma GatherForever(lines: seq<string>, used: nat, input: string, stack: seq<char>)
    requires Gathered(lines, used, input, stack) && stack != [] && |lines| <= used
    ensures forall k :: 0 < k ==> Open(lines, k)
  {
    assert Open(lines, used);
    OpenForever(lines, used);
  }

  lemma SentTextLexes(lines: seq<string>, used: nat)
    requires !Open(lines, used) && Judged(lines, used)
    ensures Lex(Trim(Joined(lines, used))).Some?
  {
    ScannersAgree(lines, used);
    TrimKeepsBalance(Joined(lines, used));
  }

  /** `Waiting`: the loop never ends, since the input is used up while a quote is open. */
  datatype Prompted = Command(text: string) | Waiting

  /** The first line, then further lines while a quote is open. */
  method ReadCommand(lines: seq<string>) returns (r: Prompted, used: nat)
    ensures r.Waiting? <==> forall k :: 0 < k ==> Open(lines, k)
    ensures r.Command? ==> 0 < used && !Open(lines, used) && forall k :: 0 < k < used ==> Open(lines, k)
    ensures r.Command? ==> r.text == Trim(Joined(lines, used))
    ensures r.Command? && (Judged(lines, used) || NoBackslashes(lines)) ==> Lex(r.text).Some?
  {
    var input := LineAt(lines, 0);
    used := 1;
    var stack := CountQuotes(input, []);
    GatherFirst(lines);
    while |stack| > 0
      invariant Gathered(lines, used, input, stack)
      decreases |lines| - used
    {
      if used >= |lines| {
        GatherForever(lines, used, input, stack);
        return Waiting, used;
      }
      GatherNext(lines, used, input, stack);
      var line := lines[used];
      stack := CountQuotes(line, stack);
      input, used := input + line, used + 1;
    }
    assert !Open(lines, used);
    if NoBackslashes(lines) {
      NothingMisjudged(lines, used);
    }
    if Judged(lines, used) {
      SentTextLexes(lines, used);
    }
    r := Command(Trim(input));
  }
}
