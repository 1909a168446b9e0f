/** The shell's `parse`: lexer, command lookup and argument parser together. */
module Shells {
  import opened Wrappers
  import opened Lexer
  import opened Flags
  import Prompt

  /** The flags of every command, and which commands are switched on or off. */
  datatype Shell = Shell(commands: map<string, seq<FlagSpec>>, enabled: map<string, bool>)

  function FindCommand(shell: Shell, name: string): Option<seq<FlagSpec>> {
    if name in shell.commands && name in shell.enabled && shell.enabled[name] then Some(shell.commands[name]) else None
  }

  /** A parsed line: the command's name with its flags and operands. */
  datatype Line = Line(name: string, command: Command)

  /** The line that a list of words stands for; no words, no command. */
  function Interpret(shell: Shell, words: seq<string>): Outcome<Option<Line>> {
    if words == [] then Accepted(None)
    else
      match FindCommand(shell, words[0])
      case None =>
        Rejected(if words[0] in shell.commands then CommandNotAvailable(words[0]) else UnknownCommand(words[0]))
      case Some(specs) =>
        match ParseTokens(specs, words[1..])
        case Rejected(error) => Rejected(error)
        case Accepted(command) => Accepted(Some(Line(words[0], command)))
  }

  method Parse(shell: Shell, text: string) returns (r: Outcome<Option<Line>>)
    ensures Lex(text) == None ==> r == Rejected(MissingQuote)
    ensures Lex(text).Some? ==> r == Interpret(shell, Lex(text).value) && r != Rejected(MissingQuote)
  {
    var words := TryIntoArgs(text);
    if words == None {
      return Rejected(MissingQuote);
    }
    NeverMissingQuote(shell, words.value);
    if |words.value| == 0 {
      return Accepted(None);
    }
    var name := words.value[0];
    var specs := FindCommand(shell, name);
    if specs == None {
      if name in shell.commands {
        return Rejected(CommandNotAvailable(name));
      }
      return Rejected(UnknownCommand(name));
    }
    var command := ParseArguments(specs.value, words.value[1..]);
    if command.Rejected? {
      return Rejected(command.error);
    }
    r := Accepted(Some(Line(name, command.value)));
  }

  lemma NeverMissingQuote(shell: Shell, words: seq<string>)
    ensures Interpret(shell, words) != Rejected(MissingQuote)
  {
    if words != [] && FindCommand(shell, words[0]).Some? {
      var specs, tokens := FindCommand(shell, words[0]).value, words[1..];
      if Split(specs, tokens, 0).Rejected? {
        var items, at := RejectionNamesFlag(specs, tokens, 0, Split(specs, tokens, 0).error);
      }
    }
  }

  /** What is typed is what is run: the name of an enabled command and any well-formed flags
      and operands, each word laid out in any of the lexer's ways, parse to exactly them. */
  lemma TypedLineParses(shell: Shell, name: string, items: seq<Item>, layouts: seq<Layout>)
    requires FindCommand(shell, name).Some? && WellFormed(FindCommand(shell, name).value, items)
    requires |layouts| == 1 + |Unparse(items)| && Writable([name] + Unparse(items), layouts)
    ensures var words := [name] + Unparse(items);
            && Lex(WriteLine(words, layouts, |words|)) == Some(words)
            && Interpret(shell, words) == Accepted(Some(Line(name, Build(items, |items|))))
  {
    var words := [name] + Unparse(items);
    RoundTrip(words, layouts);
    assert words[1..] == Unparse(items);
    SplitIsGrammar(FindCommand(shell, name).value, Unparse(items), items);
  }

  /** Which words name a command that can be run: those of the commands that are switched on.
      A known command that is not is reported as not available, any other name as unknown. */
  lemma CommandsByName(shell: Shell, words: seq<string>)
    requires words != []
    ensures var r, name := Interpret(shell, words), words[0];
            var known, on := name in shell.commands, name in shell.enabled && shell.enabled[name] == true;
            && (r == Rejected(UnknownCommand(name)) <==> !known)
            && (r == Rejected(CommandNotAvailable(name)) <==> known && !on)
            && (r.Accepted? ==> known && on && r.value.Some? && r.value.value.name == name)
            && (known && on ==>
                  (r.Accepted? <==> exists items :: WellFormed(shell.commands[name], items) && Unparse(items) == words[1..]))
  {
    if words[0] in shell.commands && FindCommand(shell, words[0]).Some? {
      var specs, tokens := shell.commands[words[0]], words[1..];
      ParseIsGrammar(specs, tokens);
      if Split(specs, tokens, 0).Rejected? {
        var items, at := RejectionNamesFlag(specs, tokens, 0, Split(specs, tokens, 0).error);
      }
    }
  }

  /** A command is accepted only for words that start with an enabled name and continue in
      that command's grammar; the line then holds exactly what the items say. */
  lemma AcceptedLineIsTyped(shell: Shell, words: seq<string>, line: Line) returns (items: seq<Item>)
    requires Interpret(shell, words) == Accepted(Some(line))
    ensures FindCommand(shell, line.name).Some? && WellFormed(FindCommand(shell, line.name).value, items)
    ensures words == [line.name] + Unparse(items) && line.command == Build(items, |items|)
  {
    var specs := FindCommand(shell, words[0]).value;
    items := Split(specs, words[1..], 0).value;
    SplitIsGrammar(specs, words[1..], items);
  }

  /** One round of the shell: input in which no quote is misjudged, and so all input without
      backslashes, once the prompt lets it through, never fails for a missing quote. */
  method Round(shell: Shell, lines: seq<string>) returns (r: Option<Outcome<Option<Line>>>, used: nat)
    ensures r == None <==> forall k :: 0 < k ==> Prompt.Open(lines, k)
    ensures r.Some? && (Prompt.Judged(lines, used) || Prompt.NoBackslashes(lines)) ==> r.value != Rejected(MissingQuote)
    ensures r.Some? ==>
              var text := Prompt.Trim(Prompt.Joined(lines, used));
              r.value == (if Lex(text).Some? then Interpret(shell, Lex(text).value) else Rejected(MissingQuote))
  {
    var input;
    input, used := Prompt.ReadCommand(lines);
    if input.Waiting? {
      return None, used;
    }
    var parsed := Parse(shell, input.text);
    r := Some(parsed);
  }
}
