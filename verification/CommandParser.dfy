/** Splitting a message into command and arguments. */
module CommandParser {
  import opened Wrappers

  datatype Parsed = Parsed(cmd: string, args: string)

  /** The first position of `c`, or the length of the text. */
  function Find(s: string, c: char): (at: nat)
    ensures at <= |s|
    ensures at < |s| ==> s[at] == c
    ensures forall i | 0 <= i < at :: s[i] != c
  {
    if s == [] || s[0] == c then 0 else 1 + Find(s[1..], c)
  }

  /** The first position of a character other than `c`, or the length of the text. */
  function FindNot(s: string, c: char): (at: nat)
    ensures at <= |s|
    ensures at < |s| ==> s[at] != c
    ensures forall i | 0 <= i < at :: s[i] == c
  {
    if s == [] || s[0] != c then 0 else 1 + FindNot(s[1..], c)
  }

  /** The command is the first word up to an '@'. */
  function CommandOf(word: string): string {
    word[..Find(word, '@')]
  }

  /** The arguments are what follows the separating spaces. */
  function ArgumentsOf(rest: string): string {
    rest[FindNot(rest, ' ')..]
  }

  function Parse(message: string): Parsed {
    if message == "" || message[0] != '/' then Parsed("", "")
    else
      var text := message[1..];
      var space := Find(text, ' ');
      Parsed(CommandOf(text[..space]), if space == |text| then "" else ArgumentsOf(text[space + 1..]))
  }

  function Spaces(n: nat): string {
    seq(n, i => ' ')
  }

  /** A command, perhaps addressed to a bot. */
  function Word(cmd: string, address: Option<string>): string {
    cmd + if address.Some? then "@" + address.value else ""
  }

  /** How a user may write a command, with any separation. */
  function Print(cmd: string, address: Option<string>, spaces: nat, args: string): string {
    "/" + (Word(cmd, address) + Spaces(spaces) + args)
  }

  ghost predicate Free(s: string, c: char) {
    forall i | 0 <= i < |s| :: s[i] != c
  }

  ghost predicate Printable(cmd: string, address: Option<string>, spaces: nat, args: string) {
    && Free(cmd, ' ') && Free(cmd, '@')
    && (address.Some? ==> Free(address.value, ' '))
    && (args != "" ==> spaces > 0 && args[0] != ' ')
  }

  lemma {:induction false} FindIs(s: string, c: char, at: nat)
    requires at <= |s| && Free(s[..at], c) && (at < |s| ==> s[at] == c)
    ensures Find(s, c) == at
  {
    if at > 0 {
      assert s[..at][0] == s[0];
      assert s[1..][..at - 1] == s[..at][1..];
      FindIs(s[1..], c, at - 1);
    }
  }

  lemma WordParses(cmd: string, address: Option<string>)
    requires Free(cmd, ' ') && Free(cmd, '@') && (address.Some? ==> Free(address.value, ' '))
    ensures Free(Word(cmd, address), ' ')
    ensures Find(Word(cmd, address), '@') == |cmd| && Word(cmd, address)[..|cmd|] == cmd
  {
    var word := Word(cmd, address);
    assert word[..|cmd|] == cmd;
    FindIs(word, '@', |cmd|);
  }

  lemma ArgumentsParse(spaces: nat, args: string)
    requires args != "" ==> args[0] != ' '
    ensures ArgumentsOf(Spaces(spaces) + args) == args
  {
    var rest := Spaces(spaces) + args;
    assert forall i | 0 <= i < spaces :: rest[i] == ' ';
    assert spaces < |rest| ==> rest[spaces] == args[0];
    assert FindNot(rest, ' ') == spaces;
    assert rest[spaces..] == args;
  }

  lemma TextParses(word: string, spaces: nat, args: string)
    requires Free(word, ' ') && (args != "" ==> spaces > 0 && args[0] != ' ')
    ensures Parse("/" + (word + Spaces(spaces) + args)) == Parsed(CommandOf(word), args)
  {
    hide CommandOf, ArgumentsOf;
    var message := "/" + (word + Spaces(spaces) + args);
    var text := word + (Spaces(spaces) + args);
    assert message[1..] == text && message[0] == '/';
    assert text[..|word|] == word;
    if spaces > 0 {
      assert Spaces(spaces)[0] == ' ' == text[|word|];
      assert text[|word| + 1..] == Spaces(spaces - 1) + args;
      ArgumentsParse(spaces - 1, args);
    } else {
      assert text == word;
    }
    FindIs(text, ' ', |word|);
  }

  /** Parsing what was printed gives back the command and the arguments. */
  lemma ParseInvertsPrint(cmd: string, address: Option<string>, spaces: nat, args: string)
    requires Printable(cmd, address, spaces, args)
    ensures Parse(Print(cmd, address, spaces, args)) == Parsed(cmd, args)
  {
    WordParses(cmd, address);
    hide Parse, Find, Free;
    TextParses(Word(cmd, address), spaces, args);
  }

  lemma WordPrints(word: string) returns (address: Option<string>)
    requires Free(word, ' ')
    ensures word == Word(CommandOf(word), address)
    ensures Free(CommandOf(word), ' ') && Free(CommandOf(word), '@')
    ensures address.Some? ==> Free(address.value, ' ')
  {
    var at := Find(word, '@');
    address := if at == |word| then None else Some(word[at + 1..]);
  }

  lemma ArgumentsPrint(rest: string) returns (spaces: nat)
    ensures rest == Spaces(spaces) + ArgumentsOf(rest)
    ensures ArgumentsOf(rest) != "" ==> ArgumentsOf(rest)[0] != ' '
  {
    spaces := FindNot(rest, ' ');
    assert rest[..spaces] == Spaces(spaces);
  }

  lemma SplitAtSpace(text: string) returns (word: string, rest: Option<string>)
    ensures Free(word, ' ')
    ensures match rest
            case None => text == word && Parse("/" + text) == Parsed(CommandOf(word), "")
            case Some(r) => text == word + ([' '] + r) && Parse("/" + text) == Parsed(CommandOf(word), ArgumentsOf(r))
  {
    hide CommandOf, ArgumentsOf, Find;
    var space := Find(text, ' ');
    word := text[..space];
    rest := if space == |text| then None else Some(text[space + 1..]);
    assert ("/" + text)[1..] == text;
  }

  /** A message has a command exactly if a slash is followed by a character that ends no word; otherwise nothing is parsed. */
  lemma CommandIff(message: string)
    ensures Parse(message).cmd != "" <==> |message| > 1 && message[0] == '/' && message[1] != ' ' && message[1] != '@'
    ensures message == "" || message[0] != '/' ==> Parse(message) == Parsed("", "")
  {
  }

  lemma NoSpaces(word: string)
    ensures word == word + Spaces(0) + ""
  {
  }

  lemma SpacesCons(word: string, n: nat, args: string)
    ensures word + ([' '] + (Spaces(n) + args)) == word + Spaces(n + 1) + args
  {
    assert Spaces(n + 1) == [' '] + Spaces(n);
  }

  /** And every message that starts with a slash is such a print of what the parser makes of it. */
  lemma PrintInvertsParse(message: string) returns (address: Option<string>, spaces: nat)
    requires message != "" && message[0] == '/'
    ensures var p := Parse(message);
            Printable(p.cmd, address, spaces, p.args) && message == Print(p.cmd, address, spaces, p.args)
  {
    hide Parse, CommandOf, ArgumentsOf, Free, Spaces, Word;
    var text := message[1..];
    assert message == "/" + text;
    var word, rest := SplitAtSpace(text);
    address := WordPrints(word);
    NoSpaces(word);
    spaces := 0;
    if rest.Some? {
      var more := ArgumentsPrint(rest.value);
      SpacesCons(word, more, ArgumentsOf(rest.value));
      spaces := more + 1;
    }
  }
}
