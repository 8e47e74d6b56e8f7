/**
 * Classification of a typed line: the command name is the first space-separated token of
 * the trimmed line, lower-cased, and it selects one of twelve handlers, the no-op for a
 * blank line, or the "Command not found" reply.
 */
module Commands {
  import opened Text

  datatype Command =
    | Help | Login | Whoami | Task | Hint | Submit | Progress | Leaderboard
    | Banner | Clear | Exit | About
    | Blank
    | Unknown(token: string)  // the first token as typed, before lower-casing

  /** The name a command is dispatched on. */
  function NameOf(c: Command): string
    requires !c.Unknown?
  {
    match c
    case Help => "help"
    case Login => "login"
    case Whoami => "whoami"
    case Task => "task"
    case Hint => "hint"
    case Submit => "submit"
    case Progress => "progress"
    case Leaderboard => "leaderboard"
    case Banner => "banner"
    case Clear => "clear"
    case Exit => "exit"
    case About => "about"
    case Blank => ""
  }

  /** Every name the dispatch `switch` has a case for, the blank one included. */
  predicate IsDispatched(name: string) {
    name == "help" || name == "login" || name == "whoami" || name == "task" || name == "hint"
    || name == "submit" || name == "progress" || name == "leaderboard" || name == "banner"
    || name == "clear" || name == "exit" || name == "about" || name == ""
  }

  /**
   * `cmd.trim().split(" ")[0].toLowerCase()`: empty exactly when the line is blank (nothing
   * but white space), and never holding a space or a capital ASCII letter.
   */
  function CommandName(line: string): (name: string)
    ensures name == [] <==> Trim(line) == []
    ensures ' ' !in name
    ensures forall i :: 0 <= i < |name| ==> !('A' <= name[i] <= 'Z')
  {
    var t := Trim(line);
    assert t != [] ==> t[0] != ' ';
    var first := FirstToken(t);
    var name := ToLower(first);
    assert forall i :: 0 <= i < |name| ==> name[i] != ' ' by {
      forall i | 0 <= i < |name| ensures name[i] != ' ' {
        assert first[i] in first;
      }
    }
    name
  }

  /**
   * The `switch` of `handleCommand`: a line is Blank exactly when it trims to nothing; it
   * names a handler exactly when its command name is one of the dispatched names; otherwise
   * it is Unknown and carries its first token as typed.
   */
  function Classify(line: string): (c: Command)
    ensures c == Blank <==> Trim(line) == []
    ensures c.Unknown? <==> !IsDispatched(CommandName(line))
    ensures !c.Unknown? ==> NameOf(c) == CommandName(line)
    ensures c.Unknown? ==> c.token == FirstToken(Trim(line)) && c.token != []
  {
    var name := CommandName(line);
    if name == "help" then Help
    else if name == "login" then Login
    else if name == "task" then Task
    else if name == "hint" then Hint
    else if name == "submit" then Submit
    else if name == "leaderboard" then Leaderboard
    else if name == "whoami" then Whoami
    else if name == "progress" then Progress
    else if name == "clear" then Clear
    else if name == "banner" then Banner
    else if name == "exit" then Exit
    else if name == "" then Blank
    else if name == "about" then About
    else Unknown(FirstToken(Trim(line)))
  }

  /** The `commands` table that `help` prints: name and description, in order. */
  const HelpTable: seq<(string, string)> := [
    ("help", "Show available commands and their descriptions"),
    ("login", "Login with your Coding Club account"),
    ("whoami", "Display current user information"),
    ("task", "Get the current question (requires login)"),
    ("hint", "Get a hint for the current task (There is a 10m penalty!)"),
    ("submit", "Submit a flag (requires login)"),
    ("progress", "Your current progress"),
    ("leaderboard", "Display the CTF leaderboard"),
    ("banner", "Display the CTF banner"),
    ("clear", "Clear the terminal screen"),
    ("exit", "Logout from the current session")
  ]

  /**
   * The help table lists exactly the dispatched names other than the blank one and
   * "about": "about" works but is not advertised.
   */
  lemma HelpTableNames()
    ensures forall i :: 0 <= i < |HelpTable| ==> IsDispatched(HelpTable[i].0)
    ensures forall i :: 0 <= i < |HelpTable| ==> HelpTable[i].0 != "about" && HelpTable[i].0 != ""
    ensures forall n :: IsDispatched(n) && n != "about" && n != "" ==>
      exists i :: 0 <= i < |HelpTable| && HelpTable[i].0 == n
  {
    forall n | IsDispatched(n) && n != "about" && n != ""
      ensures exists i :: 0 <= i < |HelpTable| && HelpTable[i].0 == n
    {
      if n == "help" { assert HelpTable[0].0 == n; }
      else if n == "login" { assert HelpTable[1].0 == n; }
      else if n == "whoami" { assert HelpTable[2].0 == n; }
      else if n == "task" { assert HelpTable[3].0 == n; }
      else if n == "hint" { assert HelpTable[4].0 == n; }
      else if n == "submit" { assert HelpTable[5].0 == n; }
      else if n == "progress" { assert HelpTable[6].0 == n; }
      else if n == "leaderboard" { assert HelpTable[7].0 == n; }
      else if n == "banner" { assert HelpTable[8].0 == n; }
      else if n == "clear" { assert HelpTable[9].0 == n; }
      else { assert HelpTable[10].0 == n; }
    }
  }

  /** Case does not matter, and neither do surrounding white space and trailing arguments. */
  lemma ClassifyIgnoresArguments(name: string, rest: string)
    requires name != [] && ' ' !in name && !IsSpace(name[0]) && !IsSpace(name[|name| - 1])
    ensures CommandName(name + " " + rest) == ToLower(name)
  {
    var line := name + " " + rest;
    assert line[0] == name[0] && line[|name| - 1] == name[|name| - 1] && line[|name|] == ' ';
    assert LeadingSpaces(line) == 0;
    var t := Trim(line);
    assert t[..|name|] == name;
    var f := FirstToken(t);
    assert f == name;
  }
}
