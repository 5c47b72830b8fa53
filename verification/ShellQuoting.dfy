/** The printed cleanup commands, read back by the quoting rules of section 2.2 of POSIX.1-2017
    XCU chapter 2. */
module ShellQuoting {
  import opened Basics

  // ---------- the printer ----------

  predicate IsPlain(c: char) {
    || 'A' <= c <= 'Z' || 'a' <= c <= 'z' || '0' <= c <= '9'
    || c == '_' || c == '.' || c == '/' || c == ':' || c == '=' || c == '+' || c == '-'
  }

  predicate AllPlain(value: string) {
    forall i :: 0 <= i < |value| ==> IsPlain(value[i])
  }

  /** The value with every single quote replaced by `'"'"'`. */
  function Escape(value: string): string {
    if value == "" then ""
    else (if value[0] == '\'' then "'\"'\"'" else [value[0]]) + Escape(value[1..])
  }

  function ShellQuote(value: string): string {
    if value != "" && AllPlain(value) then value else "'" + Escape(value) + "'"
  }

  /** The quoted words with one space between them. */
  function Join(words: seq<string>): string {
    if words == [] then ""
    else if |words| == 1 then ShellQuote(words[0])
    else ShellQuote(words[0]) + " " + Join(words[1..])
  }

  function ForwardedArgs(args: seq<string>): string {
    if args == [] then "" else " -- " + Join(args)
  }

  /** `tool`, `mode` and `action` as they are, then the quoted name. */
  function Target(tool: string, mode: string, action: string, name: string): string {
    tool + " " + mode + " " + action + " " + ShellQuote(name)
  }

  function CleanupCommand(name: string, args: seq<string>): string {
    Target("pnpm", "verify", "destroy", name) + ForwardedArgs(args)
  }

  /** A variable assignment in front of a command. */
  function Assigned(variable: string, value: Option<string>, command: string): string {
    if value.Some? then variable + ShellQuote(value.value) + " " + command else command
  }

  function BenchmarkCleanupCommand(suffix: Option<string>, name: string, options: seq<string>, args: seq<string>): string {
    Assigned("SHIN_BENCH_STACK_SUFFIX=", suffix,
             Target("pnpm", "benchmark", "destroy", name) + " " + Join(options) + ForwardedArgs(args))
  }

  // ---------- the reader ----------

  datatype Mode = Unquoted | Single | Double

  /** Characters that mean something to the shell outside quotes; words with them are not read. */
  predicate IsSpecial(c: char) {
    c in "|&;<>()$`\\\n*?[#~"
  }

  function Extend(word: Option<string>, c: char): Option<string> {
    Some((if word.Some? then word.value else "") + [c])
  }

  function Begun(word: Option<string>): Option<string> {
    if word.Some? then word else Some("")
  }

  /** The words of `s`, of which the first has already been read up to `word`; `None` when a quote
      is not closed or a character has a meaning beyond quoting. */
  function Split(s: string, mode: Mode, word: Option<string>): Option<seq<string>> {
    if s == "" then
      if mode != Unquoted then None else Some(if word.Some? then [word.value] else [])
    else
      var c, rest := s[0], s[1..];
      match mode
      case Single => if c == '\'' then Split(rest, Unquoted, word) else Split(rest, Single, Extend(word, c))
      case Double =>
        if c == '"' then Split(rest, Unquoted, word)
        else if c in "$`\\" then None
        else Split(rest, Double, Extend(word, c))
      case Unquoted =>
        if c == ' ' || c == '\t' then
          match Split(rest, Unquoted, None)
          case None => None
          case Some(words) => Some((if word.Some? then [word.value] else []) + words)
        else if c == '\'' then Split(rest, Single, Begun(word))
        else if c == '"' then Split(rest, Double, Begun(word))
        else if IsSpecial(c) then None
        else Split(rest, Unquoted, Extend(word, c))
  }

  // ---------- reading undoes printing ----------

  function Appended(word: Option<string>, value: string): Option<string> {
    Some((if word.Some? then word.value else "") + value)
  }

  lemma FirstAndRest(c: char, tail: string, rest: string)
    ensures ([c] + tail + rest)[0] == c && ([c] + tail + rest)[1..] == tail + rest
  {
  }

  lemma AppendedFirst(word: Option<string>, c: char, value: string)
    ensures Appended(Extend(word, c), value) == Appended(word, [c] + value)
  {
    var w := if word.Some? then word.value else "";
    assert w + [c] + value == w + ([c] + value);
  }

  lemma {:induction false} SplitPlain(value: string, rest: string, word: Option<string>)
    requires AllPlain(value) && (value != "" || word.Some?)
    ensures Split(value + rest, Unquoted, word) == Split(rest, Unquoted, Appended(word, value))
  {
    if value == "" {
      assert value + rest == rest;
      assert word.value + "" == word.value;
    } else {
      var c, tail := value[0], value[1..];
      assert value == [c] + tail;
      FirstAndRest(c, tail, rest);
      PlainIsNotSpecial(c);
      SplitPlain(tail, rest, Extend(word, c));
      AppendedFirst(word, c, tail);
    }
  }

  lemma PlainIsNotSpecial(c: char)
    requires IsPlain(c)
    ensures !IsSpecial(c) && c != ' ' && c != '\t' && c != '\'' && c != '"'
  {
  }

  lemma {:induction false} SplitEscaped(value: string, rest: string, word: Option<string>)
    requires word.Some?
    ensures Split(Escape(value) + "'" + rest, Single, word) == Split(rest, Unquoted, Appended(word, value))
  {
    if value == "" {
      var s := Escape(value) + "'" + rest;
      assert s[0] == '\'' && s[1..] == rest;
      assert word.value + "" == word.value;
    } else {
      var c, tail := value[0], value[1..];
      var behind := Escape(tail) + "'" + rest;
      SplitEscaped(tail, rest, Extend(word, c));
      AppendedFirst(word, c, tail);
      assert value == [c] + tail;
      if c == '\'' {
        assert Escape(value) + "'" + rest == "'\"'\"'" + behind;
        SplitEscapedQuote(behind, word);
      } else {
        assert Escape(value) + "'" + rest == [c] + behind;
        assert ([c] + behind)[1..] == behind;
      }
    }
  }

  /** Leaving the quotes, a double-quoted single quote, and entering them again. */
  lemma SplitEscapedQuote(behind: string, word: Option<string>)
    requires word.Some?
    ensures Split("'\"'\"'" + behind, Single, word) == Split(behind, Single, Extend(word, '\''))
  {
    var s := "'\"'\"'" + behind;
    var s1, s2, s3, s4 := "\"'\"'" + behind, "'\"'" + behind, "\"'" + behind, "'" + behind;
    assert s[0] == '\'' && s[1..] == s1;
    assert s1[0] == '"' && s1[1..] == s2;
    assert s2[0] == '\'' && s2[1..] == s3;
    assert s3[0] == '"' && s3[1..] == s4;
    assert s4[0] == '\'' && s4[1..] == behind;
    assert Split(s, Single, word) == Split(s1, Unquoted, word);
    assert Split(s1, Unquoted, word) == Split(s2, Double, word);
    assert Split(s2, Double, word) == Split(s3, Double, Extend(word, '\''));
    assert Split(s3, Double, Extend(word, '\'')) == Split(s4, Unquoted, Extend(word, '\''));
  }

  /** A quoted value is read as the value, whatever follows it. */
  lemma SplitQuoted(value: string, rest: string, word: Option<string>)
    ensures Split(ShellQuote(value) + rest, Unquoted, word) == Split(rest, Unquoted, Appended(word, value))
  {
    if value != "" && AllPlain(value) {
      SplitPlain(value, rest, word);
    } else {
      var s := ShellQuote(value) + rest;
      assert s[0] == '\'' && s[1..] == Escape(value) + "'" + rest;
      SplitEscaped(value, rest, Begun(word));
    }
  }

  /** Splitting undoes joining, for every list of arguments. */
  lemma {:induction false} SplitUndoesJoin(words: seq<string>)
    ensures Split(Join(words), Unquoted, None) == Some(words)
  {
    if words != [] {
      SplitJoinedBehind(words, "", []);
      assert Join(words) + "" == Join(words);
      assert words + [] == words;
    }
  }

  /** Joined words are read back whatever follows them, if it starts a new word or nothing. */
  lemma {:induction false} SplitJoinedBehind(words: seq<string>, rest: string, more: seq<string>)
    requires words != [] && Follows(rest, more)
    ensures Split(Join(words) + rest, Unquoted, None) == Some(words + more)
    decreases |words|
  {
    var first, later := words[0], words[1..];
    if |words| == 1 {
      SplitWord(first, rest, more);
      assert words == [first];
    } else {
      SplitJoinedBehind(later, rest, more);
      SpaceFollows(Join(later) + rest, later + more);
      SplitWord(first, " " + (Join(later) + rest), later + more);
      Associates(ShellQuote(first), " ", Join(later), rest);
      assert [first] + (later + more) == words + more;
    }
  }

  lemma Associates(a: string, b: string, c: string, d: string)
    ensures a + b + c + d == a + (b + (c + d))
  {
  }

  /** `rest` is empty, or a space and then exactly the words `more`. */
  predicate Follows(rest: string, more: seq<string>) {
    if rest == "" then more == [] else rest[0] == ' ' && Split(rest[1..], Unquoted, None) == Some(more)
  }

  lemma SpaceFollows(tail: string, more: seq<string>)
    requires Split(tail, Unquoted, None) == Some(more)
    ensures Follows(" " + tail, more)
  {
    assert (" " + tail)[1..] == tail;
  }

  lemma SplitFollowing(rest: string, more: seq<string>, word: string)
    requires Follows(rest, more)
    ensures Split(rest, Unquoted, Some(word)) == Some([word] + more)
  {
    assert [word] + [] == [word];
  }

  lemma SplitWord(value: string, rest: string, more: seq<string>)
    requires Follows(rest, more)
    ensures Split(ShellQuote(value) + rest, Unquoted, None) == Some([value] + more)
  {
    SplitQuoted(value, rest, None);
    assert "" + value == value;
    SplitFollowing(rest, more, value);
  }

  // ---------- the commands ----------

  function Forwarded(args: seq<string>): seq<string> {
    if args == [] then [] else ["--"] + args
  }

  lemma ForwardedFollow(args: seq<string>)
    ensures Follows(ForwardedArgs(args), Forwarded(args))
  {
    if args != [] {
      var s := ForwardedArgs(args);
      SplitUndoesJoin(["--"] + args);
      assert (["--"] + args)[1..] == args;
      assert AllPlain("--");
      assert s[1..] == Join(["--"] + args);
    }
  }

  lemma TargetIsJoined(tool: string, mode: string, action: string, name: string)
    requires AllPlain(tool) && AllPlain(mode) && AllPlain(action) && tool != "" && mode != "" && action != ""
    ensures Join([tool, mode, action, name]) == Target(tool, mode, action, name)
  {
    assert [tool, mode, action, name][1..] == [mode, action, name];
    assert [mode, action, name][1..] == [action, name] && [action, name][1..] == [name];
    var q := ShellQuote(name);
    assert Join([action, name]) == action + " " + q;
    assert Join([mode, action, name]) == mode + " " + (action + " " + q);
    assert tool + " " + (mode + " " + (action + " " + q)) == tool + " " + mode + " " + action + " " + q;
  }

  lemma CommandIsReadBack(words: seq<string>, args: seq<string>)
    requires words != []
    ensures Split(Join(words) + ForwardedArgs(args), Unquoted, None) == Some(words + Forwarded(args))
  {
    ForwardedFollow(args);
    SplitJoinedBehind(words, ForwardedArgs(args), Forwarded(args));
  }

  /** The cleanup command runs with exactly the scenario's name and the forwarded arguments. */
  lemma CleanupCommandIsReadBack(name: string, args: seq<string>)
    ensures Split(CleanupCommand(name, args), Unquoted, None)
         == Some(["pnpm", "verify", "destroy", name] + (if args == [] then [] else ["--"] + args))
  {
    TargetIsJoined("pnpm", "verify", "destroy", name);
    CommandIsReadBack(["pnpm", "verify", "destroy", name], args);
  }

  lemma {:induction false} JoinConcat(a: seq<string>, b: seq<string>)
    requires a != [] && b != []
    ensures Join(a + b) == Join(a) + " " + Join(b)
  {
    assert (a + b)[0] == a[0] && (a + b)[1..] == a[1..] + b;
    if |a| == 1 {
      assert a[1..] + b == b;
    } else {
      JoinConcat(a[1..], b);
    }
  }

  /** A variable assignment in front of a command is one more word. */
  lemma AssignmentIsReadBack(variable: string, value: Option<string>, command: string, words: seq<string>)
    requires variable != "" && AllPlain(variable) && Split(command, Unquoted, None) == Some(words)
    ensures Split(Assigned(variable, value, command), Unquoted, None)
         == Some((if value.Some? then [variable + value.value] else []) + words)
  {
    match value
    case None => assert [] + words == words;
    case Some(v) =>
      var behind := " " + command;
      Associates(variable, ShellQuote(v), " ", command);
      SplitPlain(variable, ShellQuote(v) + behind, None);
      assert "" + variable == variable;
      SplitQuoted(v, behind, Some(variable));
      SpaceFollows(command, words);
      SplitFollowing(behind, words, variable + v);
  }

  lemma AssignedTargetIsReadBack(variable: string, value: Option<string>, tool: string, mode: string, action: string,
                                 name: string, options: seq<string>, args: seq<string>)
    requires options != [] && variable != "" && AllPlain(variable)
    requires AllPlain(tool) && AllPlain(mode) && AllPlain(action) && tool != "" && mode != "" && action != ""
    ensures var command := Target(tool, mode, action, name) + " " + Join(options) + ForwardedArgs(args);
      Split(Assigned(variable, value, command), Unquoted, None)
      == Some((if value.Some? then [variable + value.value] else [])
              + ([tool, mode, action, name] + options + Forwarded(args)))
  {
    var target := [tool, mode, action, name];
    TargetIsJoined(tool, mode, action, name);
    JoinConcat(target, options);
    CommandIsReadBack(target + options, args);
    AssignmentIsReadBack(variable, value, Join(target + options) + ForwardedArgs(args), target + options + Forwarded(args));
  }

  /** The benchmark command sets the stack suffix, if any, and then runs with exactly its options. */
  lemma BenchmarkCleanupCommandIsReadBack(suffix: Option<string>, name: string, options: seq<string>, args: seq<string>)
    requires options != []
    ensures Split(BenchmarkCleanupCommand(suffix, name, options, args), Unquoted, None)
         == Some((if suffix.Some? then ["SHIN_BENCH_STACK_SUFFIX=" + suffix.value] else [])
                 + (["pnpm", "benchmark", "destroy", name] + options + (if args == [] then [] else ["--"] + args)))
  {
    AssignedTargetIsReadBack("SHIN_BENCH_STACK_SUFFIX=", suffix, "pnpm", "benchmark", "destroy", name, options, args);
  }
}
