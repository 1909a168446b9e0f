/** The shell's command parser: tokens become a command's flags and operands. */
module Flags {
  import opened Wrappers
  import opened Text

  datatype ArgSpec = NoArg | OptionalArg | RequiredArg

  datatype FlagSpec = FlagSpec(name: string, short: char, arg: ArgSpec)

  datatype Query = Name(name: string) | Short(short: char)

  /** A flag of a parsed command; `arg` is the argument it was given, if any. */
  datatype Flag = Flag(spec: FlagSpec, arg: Option<string>)

  /** Flags are a set in which two flags are equal when their identifiers are. */
  datatype Command = Command(flags: map<string, Flag>, operands: seq<string>)

  datatype ParseError =
    | MissingQuote
    | UnknownCommand(name: string)
    | CommandNotAvailable(name: string)
    | UnknownFlag(query: Query)
    | FlagMissingArg(query: Query)

  datatype Outcome<T> = Accepted(value: T) | Rejected(error: ParseError)

  const NOTHING := Command(map[], [])

  // ---------- tokens that name flags ----------

  predicate IsLong(text: string) {
    "--" <= text && ByteLen(text) > 3
  }

  predicate IsShort(text: string) {
    "-" <= text && ByteLen(text) > 1
  }

  predicate IsFlag(text: string) {
    IsLong(text) || IsShort(text)
  }

  /** `None` where the code would panic: a short flag without a second character. */
  function Extract(text: string): Option<Query> {
    if IsLong(text) then Some(Name(text[2..]))
    else if IsShort(text) && |text| > 1 then Some(Short(text[1]))
    else None
  }

  lemma {:induction false} BytesAndChars(text: string, n: nat)
    requires n <= |text|
    ensures n <= Offset(text, n)
    ensures n == 1 && text[0] == '-' ==> Offset(text, n) == 1
  {
    if n > 0 {
      BytesAndChars(text, n - 1);
    }
  }

  /** A token is a flag exactly when it has a dash and at least one character more, and then
      `Extract` succeeds: it never panics on a token that `IsFlag` accepts. */
  lemma FlagsExtract(text: string)
    ensures IsFlag(text) <==> |text| >= 2 && text[0] == '-'
    ensures Extract(text).Some? <==> IsFlag(text)
  {
    BytesAndChars(text, |text|);
  }

  predicate Matches(query: Query, spec: FlagSpec) {
    match query
    case Name(name) => name == spec.name
    case Short(short) => short == spec.short
  }

  /** The first match, in whatever order the set of flags is walked. */
  function Find(query: Query, specs: seq<FlagSpec>): (r: Option<FlagSpec>)
    ensures r.Some? ==> r.value in specs && Matches(query, r.value)
    ensures r.None? ==> forall spec <- specs :: !Matches(query, spec)
  {
    if specs == [] then None
    else if Matches(query, specs[0]) then Some(specs[0])
    else Find(query, specs[1..])
  }

  /** The identifier that decides whether two flags are the same. */
  function Id(spec: FlagSpec): string {
    spec.name + ":" + [spec.short]
  }

  lemma IdIsInjective(a: FlagSpec, b: FlagSpec)
    requires Id(a) == Id(b)
    ensures a.name == b.name && a.short == b.short
  {
    var n := |Id(a)|;
    assert Id(a)[n - 1] == a.short && Id(b)[n - 1] == b.short;
    assert Id(a)[..n - 2] == a.name && Id(b)[..n - 2] == b.name;
  }

  // ---------- the grammar ----------

  /** One flag with its argument, or one operand, as it stands in the token list. */
  datatype Item =
    | OperandItem(token: string)
    | FlagItem(token: string, spec: FlagSpec, arg: Option<string>)

  function Tokens(item: Item): seq<string> {
    if item.FlagItem? && item.arg.Some? then [item.token, item.arg.value] else [item.token]
  }

  function Unparse(items: seq<Item>): seq<string> {
    if items == [] then [] else Tokens(items[0]) + Unparse(items[1..])
  }

  /** An item that the specification allows before the items in `rest`. */
  predicate Allowed(specs: seq<FlagSpec>, item: Item, rest: seq<Item>) {
    match item
    case OperandItem(token) => !IsFlag(token)
    case FlagItem(token, spec, arg) =>
      && IsFlag(token) && Extract(token).Some? && Find(Extract(token).value, specs) == Some(spec)
      && match spec.arg
         case NoArg => arg == None
         case RequiredArg => arg.Some? && !IsFlag(arg.value)
         case OptionalArg => if arg.Some? then !IsFlag(arg.value) else rest == [] || rest[0].FlagItem?
  }

  predicate WellFormed(specs: seq<FlagSpec>, items: seq<Item>) {
    items == [] || (Allowed(specs, items[0], items[1..]) && WellFormed(specs, items[1..]))
  }

  /** An optional argument that is not there leaves no trace of its flag. */
  predicate Recorded(item: Item) {
    item.FlagItem? && !(item.spec.arg == OptionalArg && item.arg == None)
  }

  function Absorb(command: Command, item: Item): Command {
    match item
    case OperandItem(token) => command.(operands := command.operands + [token])
    case FlagItem(_, spec, arg) =>
      if Recorded(item) then command.(flags := command.flags[Id(spec) := Flag(spec, arg)]) else command
  }

  /** The command that the first `n` items describe. */
  function Build(items: seq<Item>, n: nat): Command
    requires n <= |items|
  {
    if n == 0 then NOTHING else Absorb(Build(items, n - 1), items[n - 1])
  }

  // ---------- splitting tokens into items ----------

  /** Whether there is a token `i` that can serve as an argument. */
  predicate IsArgument(tokens: seq<string>, i: nat) {
    i < |tokens| && !IsFlag(tokens[i])
  }

  /** The item that starts at token `i`. */
  function ItemAt(specs: seq<FlagSpec>, tokens: seq<string>, i: nat): (r: Outcome<Item>)
    requires i < |tokens|
    ensures r.Accepted? ==> i + |Tokens(r.value)| <= |tokens| && Tokens(r.value) == tokens[i..i + |Tokens(r.value)|]
  {
    FlagsExtract(tokens[i]);
    if !IsFlag(tokens[i]) then Accepted(OperandItem(tokens[i]))
    else
      var query := Extract(tokens[i]).value;
      match Find(query, specs)
      case None => Rejected(UnknownFlag(query))
      case Some(spec) =>
        if spec.arg != NoArg && IsArgument(tokens, i + 1) then
          Accepted(FlagItem(tokens[i], spec, Some(tokens[i + 1])))
        else if spec.arg == RequiredArg then Rejected(FlagMissingArg(query))
        else Accepted(FlagItem(tokens[i], spec, None))
  }

  function Prepend(items: seq<Item>, rest: Outcome<seq<Item>>): Outcome<seq<Item>> {
    if rest.Accepted? then Accepted(items + rest.value) else rest
  }

  /** The tokens from `i` on as items. */
  function Split(specs: seq<FlagSpec>, tokens: seq<string>, i: nat): Outcome<seq<Item>>
    requires i <= |tokens|
    decreases |tokens| - i
  {
    if i == |tokens| then Accepted([])
    else
      match ItemAt(specs, tokens, i)
      case Rejected(error) => Rejected(error)
      case Accepted(item) => Prepend([item], Split(specs, tokens, i + |Tokens(item)|))
  }

  function ParseTokens(specs: seq<FlagSpec>, tokens: seq<string>): Outcome<Command> {
    match Split(specs, tokens, 0)
    case Rejected(error) => Rejected(error)
    case Accepted(items) => Accepted(Build(items, |items|))
  }

  lemma ConsItem(specs: seq<FlagSpec>, item: Item, rest: seq<Item>)
    ensures Unparse([item] + rest) == Tokens(item) + Unparse(rest)
    ensures Allowed(specs, item, rest) && WellFormed(specs, rest) ==> WellFormed(specs, [item] + rest)
  {
    assert ([item] + rest)[1..] == rest;
  }

  lemma FirstToken(items: seq<Item>)
    ensures items == [] <==> Unparse(items) == []
    ensures items != [] ==> Unparse(items)[0] == items[0].token
  {
  }

  /** `rest` spells the tokens after the item, up to the end or up to a flag. */
  lemma ItemIsAllowed(specs: seq<FlagSpec>, tokens: seq<string>, i: nat, rest: seq<Item>, to: nat)
    requires i < |tokens| && ItemAt(specs, tokens, i).Accepted? && WellFormed(specs, rest)
    requires i + |Tokens(ItemAt(specs, tokens, i).value)| <= to <= |tokens|
    requires Unparse(rest) == tokens[i + |Tokens(ItemAt(specs, tokens, i).value)|..to]
    requires !IsArgument(tokens, to)
    ensures Allowed(specs, ItemAt(specs, tokens, i).value, rest)
  {
    FlagsExtract(tokens[i]);
    FirstToken(rest);
  }

  /** The items are well formed and spell exactly the tokens from `i` up to `to`. */
  ghost predicate Spells(specs: seq<FlagSpec>, items: seq<Item>, tokens: seq<string>, i: nat, to: nat) {
    i <= to <= |tokens| && WellFormed(specs, items) && Unparse(items) == tokens[i..to]
  }

  lemma SpellsOneMore(specs: seq<FlagSpec>, tokens: seq<string>, i: nat, item: Item, later: seq<Item>, to: nat)
    requires i < |tokens| && ItemAt(specs, tokens, i) == Accepted(item)
    requires Spells(specs, later, tokens, i + |Tokens(item)|, to) && !IsArgument(tokens, to)
    ensures Spells(specs, [item] + later, tokens, i, to)
  {
    var next := i + |Tokens(item)|;
    assert tokens[i..to] == tokens[i..next] + tokens[next..to];
    ItemIsAllowed(specs, tokens, i, later, to);
    ConsItem(specs, item, later);
  }

  lemma SpellsNothing(specs: seq<FlagSpec>, tokens: seq<string>, i: nat)
    requires i <= |tokens|
    ensures Spells(specs, [], tokens, i, i)
  {
  }

  /** What `Split` returns is well formed and spells exactly the tokens. */
  lemma {:induction false} SplitIsSound(specs: seq<FlagSpec>, tokens: seq<string>, i: nat)
    requires i <= |tokens| && Split(specs, tokens, i).Accepted?
    ensures Spells(specs, Split(specs, tokens, i).value, tokens, i, |tokens|)
    decreases |tokens| - i
  {
    if i == |tokens| {
      SpellsNothing(specs, tokens, i);
    } else {
      var item := ItemAt(specs, tokens, i).value;
      var next := i + |Tokens(item)|;
      SplitIsSound(specs, tokens, next);
      SpellsOneMore(specs, tokens, i, item, Split(specs, tokens, next).value, |tokens|);
    }
  }

  /** The first item of a well-formed list is the one that reading its tokens finds. */
  lemma FirstItem(specs: seq<FlagSpec>, tokens: seq<string>, i: nat, item: Item, rest: seq<Item>)
    requires i <= |tokens| && tokens[i..] == Tokens(item) + Unparse(rest)
    requires Allowed(specs, item, rest) && WellFormed(specs, rest)
    ensures i < |tokens| && ItemAt(specs, tokens, i) == Accepted(item)
  {
    FirstToken(rest);
    FlagsExtract(item.token);
    var text := Tokens(item) + Unparse(rest);
    assert text[0] == item.token && tokens[i] == text[0];
    if item.FlagItem? && item.arg.Some? {
      assert text[1] == item.arg.value && tokens[i + 1] == text[1];
    } else if rest != [] {
      assert text[1] == rest[0].token && tokens[i + 1] == text[1];
    }
  }

  lemma SplitCons(specs: seq<FlagSpec>, tokens: seq<string>, i: nat, item: Item, rest: seq<Item>)
    requires i < |tokens| && ItemAt(specs, tokens, i) == Accepted(item)
    requires Split(specs, tokens, i + |Tokens(item)|) == Accepted(rest)
    ensures Split(specs, tokens, i) == Accepted([item] + rest)
  {
  }

  lemma {:induction false} SplitIsComplete(specs: seq<FlagSpec>, tokens: seq<string>, i: nat, items: seq<Item>)
    requires i <= |tokens| && tokens[i..] == Unparse(items) && WellFormed(specs, items)
    ensures Split(specs, tokens, i) == Accepted(items)
    decreases items
  {
    if items != [] {
      var item, rest := items[0], items[1..];
      assert items == [item] + rest;
      FirstItem(specs, tokens, i, item, rest);
      var next := i + |Tokens(item)|;
      assert tokens[next..] == tokens[i..][|Tokens(item)|..] == Unparse(rest);
      SplitIsComplete(specs, tokens, next, rest);
      SplitCons(specs, tokens, i, item, rest);
    }
  }

  /** The parser accepts exactly the token lists of the grammar, and each in one way: the
      items are the only well-formed list that spells the tokens. */
  lemma SplitIsGrammar(specs: seq<FlagSpec>, tokens: seq<string>, items: seq<Item>)
    ensures Split(specs, tokens, 0) == Accepted(items) <==> WellFormed(specs, items) && Unparse(items) == tokens
  {
    assert tokens[0..] == tokens;
    if Split(specs, tokens, 0).Accepted? {
      SplitIsSound(specs, tokens, 0);
    }
    if WellFormed(specs, items) && Unparse(items) == tokens {
      SplitIsComplete(specs, tokens, 0, items);
    }
  }

  /** The flag at token `i` cannot be read, for the reason that `error` gives. */
  predicate Explains(specs: seq<FlagSpec>, error: ParseError, tokens: seq<string>, i: nat) {
    && i < |tokens| && IsFlag(tokens[i])
    && match error
       case UnknownFlag(query) => Extract(tokens[i]) == Some(query) && Find(query, specs) == None
       case FlagMissingArg(query) =>
         && Extract(tokens[i]) == Some(query) && Find(query, specs).Some?
         && Find(query, specs).value.arg == RequiredArg && !IsArgument(tokens, i + 1)
       case _ => false
  }

  lemma RejectedLater(specs: seq<FlagSpec>, tokens: seq<string>, i: nat, error: ParseError)
    returns (item: Item, next: nat)
    requires i < |tokens| && ItemAt(specs, tokens, i).Accepted? && Split(specs, tokens, i) == Rejected(error)
    ensures ItemAt(specs, tokens, i) == Accepted(item) && i < next == i + |Tokens(item)| <= |tokens|
    ensures Split(specs, tokens, next) == Rejected(error)
  {
    item := ItemAt(specs, tokens, i).value;
    next := i + |Tokens(item)|;
  }

  lemma RejectedHere(specs: seq<FlagSpec>, tokens: seq<string>, i: nat)
    requires i < |tokens| && ItemAt(specs, tokens, i).Rejected?
    ensures Explains(specs, ItemAt(specs, tokens, i).error, tokens, i)
    ensures Spells(specs, [], tokens, i, i)
  {
    FlagsExtract(tokens[i]);
  }

  /** The inductive step: one more item in front of those before the flag. */
  lemma RejectedOneEarlier(specs: seq<FlagSpec>, tokens: seq<string>, i: nat, item: Item, error: ParseError,
                           later: seq<Item>, at: nat)
    requires i < |tokens| && ItemAt(specs, tokens, i) == Accepted(item)
    requires Spells(specs, later, tokens, i + |Tokens(item)|, at) && Explains(specs, error, tokens, at)
    ensures Spells(specs, [item] + later, tokens, i, at)
  {
    assert !IsArgument(tokens, at);
    SpellsOneMore(specs, tokens, i, item, later, at);
  }

  /** A rejection names the first flag that cannot be read: all before it is in the
      grammar. */
  lemma {:induction false} RejectionNamesFlag(specs: seq<FlagSpec>, tokens: seq<string>, i: nat, error: ParseError)
    returns (items: seq<Item>, at: nat)
    requires i <= |tokens| && Split(specs, tokens, i) == Rejected(error)
    ensures Spells(specs, items, tokens, i, at) && Explains(specs, error, tokens, at)
    decreases |tokens| - i
  {
    if ItemAt(specs, tokens, i).Rejected? {
      RejectedHere(specs, tokens, i);
      items, at := [], i;
    } else {
      var item, next := RejectedLater(specs, tokens, i, error);
      var later;
      later, at := RejectionNamesFlag(specs, tokens, next, error);
      RejectedOneEarlier(specs, tokens, i, item, error, later, at);
      items := [item] + later;
    }
  }

  // ---------- what a command holds ----------

  function OperandsOf(items: seq<Item>, n: nat): seq<string>
    requires n <= |items|
  {
    if n == 0 then []
    else OperandsOf(items, n - 1) + if items[n - 1].OperandItem? then [items[n - 1].token] else []
  }

  predicate Sets(item: Item, id: string) {
    Recorded(item) && Id(item.spec) == id
  }

  /** Operands keep their order; a flag is there exactly when some item records it, and it
      holds what the last such item gave it. */
  lemma {:induction false} BuildHoldsLast(items: seq<Item>, n: nat, id: string)
    requires n <= |items|
    ensures Build(items, n).operands == OperandsOf(items, n)
    ensures id in Build(items, n).flags <==> exists i :: 0 <= i < n && Sets(items[i], id)
    ensures forall i :: 0 <= i < n && Sets(items[i], id) && (forall j :: i < j < n ==> !Sets(items[j], id)) ==>
                id in Build(items, n).flags && Build(items, n).flags[id] == Flag(items[i].spec, items[i].arg)
  {
    if n > 0 {
      BuildHoldsLast(items, n - 1, id);
    }
  }

  /** A command holds a flag exactly when some item gives it with the argument it takes, or
      takes none: an optional argument that is missing leaves no trace of its flag. */
  lemma HeldExactly(specs: seq<FlagSpec>, items: seq<Item>, id: string)
    requires WellFormed(specs, items)
    ensures id in Build(items, |items|).flags <==>
            exists i :: && 0 <= i < |items| && items[i].FlagItem? && Id(items[i].spec) == id
                        && (items[i].spec.arg == NoArg || items[i].arg.Some?)
  {
    BuildHoldsLast(items, |items|, id);
    forall i | 0 <= i < |items| && items[i].FlagItem?
      ensures Sets(items[i], id) <==> Id(items[i].spec) == id && (items[i].spec.arg == NoArg || items[i].arg.Some?)
    {
      AllowedAt(specs, items, i);
    }
  }

  predicate UniqueFlags(specs: seq<FlagSpec>) {
    forall a <- specs, b <- specs :: a.name == b.name || a.short == b.short ==> a == b
  }

  /** With unique names and short names the order of the set does not matter, and a flag's
      long and short spellings find the same specification. */
  lemma FindIsUnique(specs: seq<FlagSpec>, spec: FlagSpec)
    requires UniqueFlags(specs) && spec in specs
    ensures Find(Name(spec.name), specs) == Some(spec) && Find(Short(spec.short), specs) == Some(spec)
  {
  }

  /** Exactly when each spelling finds its flag. The short one does, whatever follows it,
      unless two dashes and enough after them make it a long one. The long one does if the
      name has two bytes or more; a shorter one is read as the short flag of a dash. */
  lemma LongAndShort(specs: seq<FlagSpec>, spec: FlagSpec, tail: string)
    requires UniqueFlags(specs) && spec in specs
    ensures var token := "-" + [spec.short] + tail;
            Extract(token) == Some(Short(spec.short)) <==> spec.short != '-' || ByteLen(token) <= 3
    ensures Find(Short(spec.short), specs) == Some(spec)
    ensures var query := Extract("--" + spec.name);
            query.Some? && (Find(query.value, specs) == Some(spec) <==> ByteLen("--" + spec.name) > 3 || spec.short == '-')
  {
    FindIsUnique(specs, spec);
    var token, long := "-" + [spec.short] + tail, "--" + spec.name;
    FlagsExtract(token);
    assert token[0] == '-' && token[1] == spec.short;
    assert IsLong(token) <==> spec.short == '-' && ByteLen(token) > 3;
    FlagsExtract(long);
    assert long[2..] == spec.name && long[0] == long[1] == '-';
  }

  lemma {:induction false} AllowedAt(specs: seq<FlagSpec>, items: seq<Item>, i: nat)
    requires WellFormed(specs, items) && i < |items|
    ensures Allowed(specs, items[i], items[i + 1..])
    ensures items[i].FlagItem? ==> items[i].spec in specs
  {
    if i > 0 {
      AllowedAt(specs, items[1..], i - 1);
      assert items[1..][i..] == items[i + 1..];
    }
  }

  lemma {:induction false} BuildIsKeyed(specs: seq<FlagSpec>, items: seq<Item>, n: nat, id: string)
    requires WellFormed(specs, items) && n <= |items| && id in Build(items, n).flags
    ensures var spec := Build(items, n).flags[id].spec; Id(spec) == id && spec in specs
  {
    AllowedAt(specs, items, n - 1);
    if id in Build(items, n - 1).flags {
      BuildIsKeyed(specs, items, n - 1, id);
    }
  }

  /** Whether looking a flag up in a parsed command may give `flag`. */
  predicate Looked(command: Command, query: Query, flag: Flag) {
    exists id :: id in command.flags && command.flags[id] == flag && Matches(query, flag.spec)
  }

  /** With unique flags, looking a flag up by name or by short name gives the argument of its
      last recorded occurrence, however that was spelled, and nothing else. */
  lemma LookupGivesLast(specs: seq<FlagSpec>, items: seq<Item>, i: nat, query: Query, flag: Flag)
    requires UniqueFlags(specs) && WellFormed(specs, items) && i < |items| && Recorded(items[i])
    requires forall j :: i < j < |items| && Recorded(items[j]) ==> items[j].spec != items[i].spec
    requires Matches(query, items[i].spec)
    ensures Looked(Build(items, |items|), query, flag) <==> flag == Flag(items[i].spec, items[i].arg)
  {
    var spec := items[i].spec;
    var command, id := Build(items, |items|), Id(spec);
    AllowedAt(specs, items, i);
    forall j | i < j < |items| ensures !Sets(items[j], id) {
      if Sets(items[j], id) {
        AllowedAt(specs, items, j);
        IdIsInjective(items[j].spec, spec);
      }
    }
    BuildHoldsLast(items, |items|, id);
    assert Sets(items[i], id);
    forall other | other in command.flags && Matches(query, command.flags[other].spec) ensures other == id {
      BuildIsKeyed(specs, items, |items|, other);
    }
  }

  // ---------- the parser's loop ----------

  lemma {:induction false} BuildPrefix(items: seq<Item>, more: seq<Item>, n: nat)
    requires n <= |items|
    ensures Build(items + more, n) == Build(items, n)
  {
    if n > 0 {
      BuildPrefix(items, more, n - 1);
    }
  }

  /** What the loop has at token `i`: the command that the items so far describe. */
  ghost predicate Reading(specs: seq<FlagSpec>, tokens: seq<string>, i: nat, items: seq<Item>, command: Command) {
    && i <= |tokens| && Split(specs, tokens, 0) == Prepend(items, Split(specs, tokens, i))
    && command == Build(items, |items|)
  }

  lemma StartReading(specs: seq<FlagSpec>, tokens: seq<string>)
    ensures Reading(specs, tokens, 0, [], NOTHING)
  {
    var all := Split(specs, tokens, 0);
    assert all.Accepted? ==> [] + all.value == all.value;
  }

  lemma PrependTwice(items: seq<Item>, item: Item, rest: Outcome<seq<Item>>)
    ensures Prepend(items, Prepend([item], rest)) == Prepend(items + [item], rest)
  {
    assert rest.Accepted? ==> items + ([item] + rest.value) == items + [item] + rest.value;
  }

  lemma KeepReading(specs: seq<FlagSpec>, tokens: seq<string>, i: nat, items: seq<Item>, command: Command, item: Item)
    requires Reading(specs, tokens, i, items, command) && i < |tokens| && ItemAt(specs, tokens, i) == Accepted(item)
    ensures Reading(specs, tokens, i + |Tokens(item)|, items + [item], Absorb(command, item))
  {
    PrependTwice(items, item, Split(specs, tokens, i + |Tokens(item)|));
    BuildPrefix(items, [item], |items|);
  }

  lemma StopReading(specs: seq<FlagSpec>, tokens: seq<string>, i: nat, items: seq<Item>, command: Command)
    requires Reading(specs, tokens, i, items, command)
    requires i < |tokens| ==> ItemAt(specs, tokens, i).Rejected?
    ensures i < |tokens| ==> ParseTokens(specs, tokens) == Rejected(ItemAt(specs, tokens, i).error)
    ensures i == |tokens| ==> ParseTokens(specs, tokens) == Accepted(command)
  {
    assert items + [] == items;
  }

  lemma ParseIsGrammar(specs: seq<FlagSpec>, tokens: seq<string>)
    ensures var r := ParseTokens(specs, tokens);
            && (r.Accepted? ==> exists items ::
                    WellFormed(specs, items) && Unparse(items) == tokens && r.value == Build(items, |items|))
            && (r.Rejected? ==> forall items :: WellFormed(specs, items) ==> Unparse(items) != tokens)
  {
    var split := Split(specs, tokens, 0);
    if split.Accepted? {
      SplitIsGrammar(specs, tokens, split.value);
    }
    forall items | split.Rejected? && WellFormed(specs, items) ensures Unparse(items) != tokens {
      SplitIsGrammar(specs, tokens, items);
    }
  }

  /** One flag: its specification is looked up and, if it wants one, its argument taken. The
      result is the next token's number and the command with the flag in it. */
  method ParseFlag(specs: seq<FlagSpec>, tokens: seq<string>, i: nat, command: Command)
    returns (r: Outcome<(nat, Command)>)
    requires i < |tokens| && IsFlag(tokens[i])
    ensures r == match ItemAt(specs, tokens, i)
                 case Rejected(error) => Rejected(error)
                 case Accepted(item) => Accepted((i + |Tokens(item)|, Absorb(command, item)))
  {
    FlagsExtract(tokens[i]);
    var query := Extract(tokens[i]).value;
    var found := Find(query, specs);
    if found == None {
      return Rejected(UnknownFlag(query));
    }
    var spec, next, arg := found.value, i + 1, None;
    match spec.arg {
      case OptionalArg =>
        if next == |tokens| || IsFlag(tokens[next]) {
          return Accepted((next, command));
        }
        arg, next := Some(tokens[next]), next + 1;
      case RequiredArg =>
        if next == |tokens| || IsFlag(tokens[next]) {
          return Rejected(FlagMissingArg(query));
        }
        arg, next := Some(tokens[next]), next + 1;
      case NoArg =>
    }
    r := Accepted((next, command.(flags := command.flags[Id(spec) := Flag(spec, arg)])));
  }

  /** The loop over the tokens after the command's name. */
  method ParseArguments(specs: seq<FlagSpec>, tokens: seq<string>) returns (r: Outcome<Command>)
    ensures r == ParseTokens(specs, tokens)
  {
    var command, i := NOTHING, 0;
    ghost var items: seq<Item> := [];
    StartReading(specs, tokens);
    while i < |tokens|
      invariant Reading(specs, tokens, i, items, command)
    {
      ghost var item := ItemAt(specs, tokens, i);
      if item.Accepted? {
        KeepReading(specs, tokens, i, items, command, item.value);
        items := items + [item.value];
      } else {
        StopReading(specs, tokens, i, items, command);
      }
      if IsFlag(tokens[i]) {
        var step := ParseFlag(specs, tokens, i, command);
        if step.Rejected? {
          return Rejected(step.error);
        }
        i, command := step.value.0, step.value.1;
      } else {
        command := command.(operands := command.operands + [tokens[i]]);
        i := i + 1;
      }
    }
    StopReading(specs, tokens, i, items, command);
    r := Accepted(command);
  }
}
