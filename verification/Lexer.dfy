/** The shell's lexer: a seven-state machine that splits a line into words, and the
    quoting conventions it undoes. */
module Lexer {
  import opened Wrappers

  datatype State =
    | Delimiter
    | Backslash
    | Unquoted
    | UnquotedBackslash
    | SingleQuoted
    | DoubleQuoted
    | DoubleQuotedBackslash

  /** The machine's memory: the word being read and the words already complete. */
  datatype Config = Config(state: State, word: string, words: seq<string>)

  const START := Config(Delimiter, "", [])

  predicate IsDelimiter(c: char) {
    c == '\t' || c == ' ' || c == '\n'
  }

  function Push(f: Config, c: char, next: State): Config {
    Config(next, f.word + [c], f.words)
  }

  function Feed(f: Config, c: char): Config {
    match f.state
    case Delimiter =>
      if c == '\'' then f.(state := SingleQuoted)
      else if c == '\"' then f.(state := DoubleQuoted)
      else if c == '\\' then f.(state := Backslash)
      else if IsDelimiter(c) then f
      else Push(f, c, Unquoted)
    case Backslash => if c == '\n' then f.(state := Delimiter) else Push(f, c, Unquoted)
    case Unquoted =>
      if c == '\'' then f.(state := SingleQuoted)
      else if c == '\"' then f.(state := DoubleQuoted)
      else if c == '\\' then f.(state := UnquotedBackslash)
      else if IsDelimiter(c) then Config(Delimiter, "", f.words + [f.word])
      else Push(f, c, Unquoted)
    case UnquotedBackslash => if c == '\n' then f.(state := Unquoted) else Push(f, c, Unquoted)
    case SingleQuoted => if c == '\'' then f.(state := Unquoted) else Push(f, c, SingleQuoted)
    case DoubleQuoted =>
      if c == '\"' then f.(state := Unquoted)
      else if c == '\\' then f.(state := DoubleQuotedBackslash)
      else Push(f, c, DoubleQuoted)
    case DoubleQuotedBackslash =>
      if c == '\n' then f.(state := DoubleQuoted)
      else if c == '$' || c == '`' || c == '\"' || c == '\\' then Push(f, c, DoubleQuoted)
      else Push(Push(f, '\\', DoubleQuoted), c, DoubleQuoted)
  }

  /** The words at the end of the text; `None` when a quote is still open. */
  function Finish(f: Config): Option<seq<string>> {
    match f.state
    case Delimiter => Some(f.words)
    case Backslash => Some(f.words + [f.word + "\\"])
    case Unquoted => Some(f.words + [f.word])
    case UnquotedBackslash => Some(f.words + [f.word + "\\"])
    case _ => None
  }

  /** Where the machine is after the first `n` characters. */
  function FeedTo(f: Config, text: string, n: nat): Config
    requires n <= |text|
  {
    if n == 0 then f else Feed(FeedTo(f, text, n - 1), text[n - 1])
  }

  function FeedAll(f: Config, text: string): Config {
    FeedTo(f, text, |text|)
  }

  function Lex(text: string): Option<seq<string>> {
    Finish(FeedAll(START, text))
  }

  /** The lexer's loop, character by character. */
  method TryIntoArgs(text: string) returns (r: Option<seq<string>>)
    ensures r == Lex(text)
  {
    var words: seq<string>, word: string, state := [], "", Delimiter;
    var i := 0;
    while i < |text|
      invariant i <= |text| && FeedTo(START, text, i) == Config(state, word, words)
    {
      var c := text[i];
      i := i + 1;
      match state {
        case Delimiter =>
          if c == '\'' {
            state := SingleQuoted;
          } else if c == '\"' {
            state := DoubleQuoted;
          } else if c == '\\' {
            state := Backslash;
          } else if c != '\t' && c != ' ' && c != '\n' {
            word, state := word + [c], Unquoted;
          }
        case Backslash =>
          if c == '\n' {
            state := Delimiter;
          } else {
            word, state := word + [c], Unquoted;
          }
        case Unquoted =>
          if c == '\'' {
            state := SingleQuoted;
          } else if c == '\"' {
            state := DoubleQuoted;
          } else if c == '\\' {
            state := UnquotedBackslash;
          } else if c == '\t' || c == ' ' || c == '\n' {
            words, word, state := words + [word], "", Delimiter;
          } else {
            word := word + [c];
          }
        case UnquotedBackslash =>
          if c != '\n' {
            word := word + [c];
          }
          state := Unquoted;
        case SingleQuoted =>
          if c == '\'' {
            state := Unquoted;
          } else {
            word := word + [c];
          }
        case DoubleQuoted =>
          if c == '\"' {
            state := Unquoted;
          } else if c == '\\' {
            state := DoubleQuotedBackslash;
          } else {
            word := word + [c];
          }
        case DoubleQuotedBackslash =>
          if c != '\n' {
            if c != '$' && c != '`' && c != '\"' && c != '\\' {
              word := word + ['\\'];
            }
            word := word + [c];
          }
          state := DoubleQuoted;
      }
    }
    match state {
      case Delimiter => return Some(words);
      case Backslash => return Some(words + [word + "\\"]);
      case Unquoted => return Some(words + [word]);
      case UnquotedBackslash => return Some(words + [word + "\\"]);
      case _ => return None;
    }
  }

  lemma {:induction false} FeedPrefix(f: Config, a: string, b: string, n: nat)
    requires n <= |a|
    ensures FeedTo(f, a + b, n) == FeedTo(f, a, n)
  {
    if n > 0 {
      FeedPrefix(f, a, b, n - 1);
    }
  }

  lemma {:induction false} FeedSuffix(f: Config, a: string, b: string, n: nat)
    requires n <= |b|
    ensures FeedTo(f, a + b, |a| + n) == FeedTo(FeedAll(f, a), b, n)
  {
    if n == 0 {
      FeedPrefix(f, a, b, |a|);
    } else {
      FeedSuffix(f, a, b, n - 1);
    }
  }

  lemma FeedConcat(f: Config, a: string, b: string)
    ensures FeedAll(f, a + b) == FeedAll(FeedAll(f, a), b)
  {
    FeedSuffix(f, a, b, |b|);
  }

  lemma FeedOne(f: Config, c: char)
    ensures FeedAll(f, [c]) == Feed(f, c)
  {
    assert FeedTo(f, [c], 0) == f;
  }

  // ---------- quoting ----------

  /** Ways to write a word: as it is, in single or double quotes, or with a backslash before
      every character. */
  datatype Style = Bare | Single | Double | Slashed

  /** A space, a tab or a newline. */
  predicate IsBlank(c: char) {
    c == ' ' || c == '\t' || c == '\n'
  }

  /** Words that need no quotes at all. */
  predicate IsPlain(w: string) {
    w != [] && forall i :: 0 <= i < |w| ==> w[i] != '\'' && w[i] != '\"' && w[i] != '\\' && !IsBlank(w[i])
  }

  /** Words that can be written with backslashes alone: a newline cannot. */
  predicate IsSlashable(w: string) {
    w != [] && forall i :: 0 <= i < |w| ==> w[i] != '\n'
  }

  /** Inside double quotes these four, and no others, need a backslash. */
  predicate NeedsEscape(c: char) {
    c in {'$', '`', '\"', '\\'}
  }

  /** Inside single quotes a single quote is written by closing, escaping and reopening. */
  function SingleBody(w: string): string {
    if w == [] then "" else SingleBody(w[..|w| - 1]) + if w[|w| - 1] == '\'' then "'\\''" else [w[|w| - 1]]
  }

  function DoubleBody(w: string): string {
    if w == [] then "" else
    DoubleBody(w[..|w| - 1]) + if NeedsEscape(w[|w| - 1]) then ['\\', w[|w| - 1]] else [w[|w| - 1]]
  }

  function SlashedBody(w: string): string {
    if w == [] then "" else SlashedBody(w[..|w| - 1]) + ['\\', w[|w| - 1]]
  }

  function Quote(w: string, style: Style): string {
    match style
    case Bare => w
    case Single => ['\''] + SingleBody(w) + ['\'']
    case Double => ['\"'] + DoubleBody(w) + ['\"']
    case Slashed => SlashedBody(w)
  }

  /** How a word is laid out: the blanks before it and its style. */
  datatype Layout = Layout(gap: string, style: Style)

  predicate CanWrite(w: string, layout: Layout, first: bool) {
    && (layout.style == Bare ==> IsPlain(w)) && (layout.style == Slashed ==> IsSlashable(w))
    && (forall i :: 0 <= i < |layout.gap| ==> IsBlank(layout.gap[i])) && (!first ==> layout.gap != [])
  }

  /** Every style fits its word, and every gap is of blanks; only before the first word it may
      be empty. */
  predicate Writable(words: seq<string>, layouts: seq<Layout>)
    requires |words| == |layouts|
  {
    forall i :: 0 <= i < |words| ==> CanWrite(words[i], layouts[i], i == 0)
  }

  /** The first `n` words as they are laid out. */
  function WriteLine(words: seq<string>, layouts: seq<Layout>, n: nat): string
    requires n <= |words| == |layouts|
  {
    if n == 0 then ""
    else WriteLine(words, layouts, n - 1) + layouts[n - 1].gap + Quote(words[n - 1], layouts[n - 1].style)
  }

  lemma {:induction false} FeedSingleBody(w0: string, words: seq<string>, w: string)
    ensures FeedAll(Config(SingleQuoted, w0, words), SingleBody(w)) == Config(SingleQuoted, w0 + w, words)
  {
    var f := Config(SingleQuoted, w0, words);
    if w == [] {
      assert w0 + w == w0;
    } else {
      var front, c := w[..|w| - 1], w[|w| - 1];
      FeedSingleBody(w0, words, front);
      var g := Config(SingleQuoted, w0 + front, words);
      assert w0 + w == w0 + front + [c];
      if c == '\'' {
        FeedConcat(f, SingleBody(front), "'\\''");
        FeedEscapedQuote(g);
      } else {
        FeedConcat(f, SingleBody(front), [c]);
        FeedOne(g, c);
      }
    }
  }

  lemma FeedEscapedQuote(g: Config)
    requires g.state == SingleQuoted
    ensures FeedAll(g, "'\\''") == Push(g, '\'', SingleQuoted)
  {
    assert "'\\''" == ['\''] + ['\\'] + ['\''] + ['\''];
    FeedConcat(g, ['\''] + ['\\'] + ['\''], ['\'']);
    FeedConcat(g, ['\''] + ['\\'], ['\'']);
    FeedConcat(g, ['\''], ['\\']);
    FeedOne(g, '\'');
    var a := Feed(g, '\'');
    FeedOne(a, '\\');
    var b := Feed(a, '\\');
    FeedOne(b, '\'');
    FeedOne(Feed(b, '\''), '\'');
  }

  lemma {:induction false} FeedDoubleBody(w0: string, words: seq<string>, w: string)
    ensures FeedAll(Config(DoubleQuoted, w0, words), DoubleBody(w)) == Config(DoubleQuoted, w0 + w, words)
  {
    var f := Config(DoubleQuoted, w0, words);
    if w == [] {
      assert w0 + w == w0;
    } else {
      var front, c := w[..|w| - 1], w[|w| - 1];
      FeedDoubleBody(w0, words, front);
      var g := Config(DoubleQuoted, w0 + front, words);
      assert w0 + w == w0 + front + [c];
      if NeedsEscape(c) {
        FeedConcat(f, DoubleBody(front), ['\\', c]);
        assert ['\\', c] == ['\\'] + [c];
        FeedConcat(g, ['\\'], [c]);
        FeedOne(g, '\\');
        FeedOne(Feed(g, '\\'), c);
      } else {
        FeedConcat(f, DoubleBody(front), [c]);
        FeedOne(g, c);
      }
    }
  }

  lemma {:induction false} FeedPlain(words: seq<string>, w: string)
    requires IsPlain(w)
    ensures FeedAll(Config(Delimiter, "", words), w) == Config(Unquoted, w, words)
  {
    var front, c := w[..|w| - 1], w[|w| - 1];
    assert w == front + [c];
    FeedConcat(Config(Delimiter, "", words), front, [c]);
    if front == [] {
      FeedOne(Config(Delimiter, "", words), c);
    } else {
      FeedPlain(words, front);
      FeedOne(Config(Unquoted, front, words), c);
    }
  }

  /** A backslash outside quotes makes any character but a newline part of the word. */
  lemma EscapeOutside(f: Config, c: char)
    requires f.state == Delimiter || f.state == Unquoted
    ensures c != '\n' ==> FeedAll(f, ['\\', c]) == Config(Unquoted, f.word + [c], f.words)
    ensures c == '\n' ==> FeedAll(f, ['\\', c]) == f
  {
    assert ['\\', c] == ['\\'] + [c];
    FeedConcat(f, ['\\'], [c]);
    FeedOne(f, '\\');
    FeedOne(Feed(f, '\\'), c);
  }

  /** Inside double quotes a backslash goes away before four characters, disappears together
      with a newline, and stays before anything else. */
  lemma EscapeInside(f: Config, c: char)
    requires f.state == DoubleQuoted
    ensures FeedAll(f, ['\\', c]) ==
            Config(DoubleQuoted,
                   f.word + (if c in {'$', '`', '\"', '\\'} then [c] else if c == '\n' then [] else ['\\', c]),
                   f.words)
  {
    assert ['\\', c] == ['\\'] + [c];
    FeedConcat(f, ['\\'], [c]);
    FeedOne(f, '\\');
    FeedOne(Feed(f, '\\'), c);
    assert f.word + [] == f.word && f.word + ['\\'] + [c] == f.word + ['\\', c];
  }

  /** Which characters end a word: outside quotes a space, a tab and a newline, and nothing
      else; inside quotes none. */
  lemma Separators(f: Config, c: char)
    ensures |Feed(f, c).words| == |f.words| || Feed(f, c).words == f.words + [f.word]
    ensures |Feed(f, c).words| != |f.words| <==> f.state == Unquoted && c in {' ', '\t', '\n'}
  {
  }

  /** A backslash at the end of the text: kept outside quotes, an open quote inside. */
  lemma TrailingBackslash(text: string)
    ensures var f := FeedAll(START, text);
            match f.state
            case Delimiter => Lex(text + ['\\']) == Some(f.words + [f.word + ['\\']])
            case Unquoted => Lex(text + ['\\']) == Some(f.words + [f.word + ['\\']])
            case Backslash => Lex(text + ['\\']) == Some(f.words + [f.word + ['\\']])
            case UnquotedBackslash => Lex(text + ['\\']) == Some(f.words + [f.word + ['\\']])
            case _ => Lex(text + ['\\']) == None
  {
    FeedConcat(START, text, ['\\']);
    FeedOne(FeedAll(START, text), '\\');
  }

  /** Between words there is no word being read. */
  lemma {:induction false} NoWordBetween(text: string, n: nat)
    requires n <= |text|
    ensures FeedTo(START, text, n).state in {Delimiter, Backslash} ==> FeedTo(START, text, n).word == ""
  {
    if n > 0 {
      NoWordBetween(text, n - 1);
    }
  }

  lemma {:induction false} FeedSlashed(words: seq<string>, w: string)
    requires IsSlashable(w)
    ensures FeedAll(Config(Delimiter, "", words), SlashedBody(w)) == Config(Unquoted, w, words)
  {
    var f := Config(Delimiter, "", words);
    var front, c := w[..|w| - 1], w[|w| - 1];
    FeedConcat(f, SlashedBody(front), ['\\', c]);
    if front == [] {
      assert SlashedBody(front) == "" && FeedAll(f, "") == f && [c] == w && "" + [c] == [c];
      EscapeOutside(f, c);
    } else {
      FeedSlashed(words, front);
      EscapeOutside(Config(Unquoted, front, words), c);
      assert front + [c] == w;
    }
  }

  /** A word in quotes, read between words, becomes the word being read. */
  lemma FeedInQuotes(words: seq<string>, w: string, style: Style)
    requires style == Single || style == Double
    ensures FeedAll(Config(Delimiter, "", words), Quote(w, style)) == Config(Unquoted, w, words)
  {
    var f := Config(Delimiter, "", words);
    var q := if style == Single then '\'' else '\"';
    var body := if style == Single then SingleBody(w) else DoubleBody(w);
    FeedConcat(f, [q] + body, [q]);
    FeedConcat(f, [q], body);
    FeedOne(f, q);
    if style == Single {
      FeedSingleBody("", words, w);
    } else {
      FeedDoubleBody("", words, w);
    }
    assert "" + w == w;
    FeedOne(FeedAll(f, [q] + body), q);
  }

  lemma FeedQuoted(words: seq<string>, w: string, style: Style)
    requires (style == Bare ==> IsPlain(w)) && (style == Slashed ==> IsSlashable(w))
    ensures FeedAll(Config(Delimiter, "", words), Quote(w, style)) == Config(Unquoted, w, words)
  {
    match style {
      case Bare => FeedPlain(words, w);
      case Slashed => FeedSlashed(words, w);
      case _ => FeedInQuotes(words, w, style);
    }
  }

  /** Blanks between words are skipped. */
  lemma {:induction false} FeedBlanks(words: seq<string>, gap: string, n: nat)
    requires n <= |gap| && forall i :: 0 <= i < |gap| ==> IsBlank(gap[i])
    ensures FeedTo(Config(Delimiter, "", words), gap, n) == Config(Delimiter, "", words)
  {
    if n > 0 {
      FeedBlanks(words, gap, n - 1);
    }
  }

  /** Blanks after a word end it. */
  lemma {:induction false} FeedGap(last: string, words: seq<string>, gap: string, n: nat)
    requires 0 < n <= |gap| && forall i :: 0 <= i < |gap| ==> IsBlank(gap[i])
    ensures FeedTo(Config(Unquoted, last, words), gap, n) == Config(Delimiter, "", words + [last])
  {
    if n == 1 {
      assert FeedTo(Config(Unquoted, last, words), gap, 0) == Config(Unquoted, last, words);
    } else {
      FeedGap(last, words, gap, n - 1);
    }
  }

  /** A gap ends the word being read, and the word after it takes its place. */
  lemma FeedNextWord(before: string, text: string, last: string, words: seq<string>, w: string, layout: Layout)
    requires FeedAll(START, before) == Config(Unquoted, last, words)
    requires text == before + layout.gap + Quote(w, layout.style) && CanWrite(w, layout, false)
    ensures FeedAll(START, text) == Config(Unquoted, w, words + [last])
  {
    FeedConcat(START, before + layout.gap, Quote(w, layout.style));
    FeedConcat(START, before, layout.gap);
    FeedGap(last, words, layout.gap, |layout.gap|);
    FeedQuoted(words + [last], w, layout.style);
  }

  lemma FeedFirstWord(text: string, w: string, layout: Layout)
    requires text == layout.gap + Quote(w, layout.style) && CanWrite(w, layout, true)
    ensures FeedAll(START, text) == Config(Unquoted, w, [])
  {
    FeedConcat(START, layout.gap, Quote(w, layout.style));
    FeedBlanks([], layout.gap, |layout.gap|);
    FeedQuoted([], w, layout.style);
  }

  lemma LastOfPrefix(words: seq<string>, n: nat)
    requires 0 < n <= |words|
    ensures words[..n - 1] + [words[n - 1]] == words[..n]
    ensures words[..|words|] == words
  {
  }

  lemma WriteFirst(words: seq<string>, layouts: seq<Layout>)
    requires 0 < |words| == |layouts|
    ensures WriteLine(words, layouts, 1) == layouts[0].gap + Quote(words[0], layouts[0].style)
  {
    assert WriteLine(words, layouts, 0) == "" && "" + layouts[0].gap == layouts[0].gap;
  }

  lemma {:induction false} FeedLine(words: seq<string>, layouts: seq<Layout>, n: nat, text: string)
    requires 0 < n <= |words| == |layouts| && Writable(words, layouts)
    requires text == WriteLine(words, layouts, n)
    ensures FeedAll(START, text) == Config(Unquoted, words[n - 1], words[..n - 1])
  {
    if n == 1 {
      WriteFirst(words, layouts);
      FeedFirstWord(text, words[0], layouts[0]);
      assert words[..0] == [];
    } else {
      var before := WriteLine(words, layouts, n - 1);
      FeedLine(words, layouts, n - 1, before);
      FeedNextWord(before, text, words[n - 2], words[..n - 2], words[n - 1], layouts[n - 1]);
      LastOfPrefix(words, n - 1);
    }
  }

  /** The round trip: any list of words over all characters, each written in single quotes,
      in double quotes or, where possible, with backslashes or as it is, with any spaces, tabs
      and newlines between them, lexes back to exactly that list. */
  lemma RoundTrip(words: seq<string>, layouts: seq<Layout>)
    requires |words| == |layouts| && Writable(words, layouts)
    ensures Lex(WriteLine(words, layouts, |words|)) == Some(words)
  {
    if words != [] {
      FeedLine(words, layouts, |words|, WriteLine(words, layouts, |words|));
      LastOfPrefix(words, |words|);
    }
  }
}
