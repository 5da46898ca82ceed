/** The logic of the browser-side terminal: splitting a command line into a command
    and its arguments, dispatching the command, and the input field's command
    history. The page is modelled by the input field's text, the lines of the output
    area, and the log of requests sent to the server. */
module Terminal {

  // ---------------------------------------------------------------------------
  // Parsing a command line

  /** The characters `String.prototype.trim` removes: ECMAScript's WhiteSpace
      (tab, vertical tab, form feed, space, no-break space, byte order mark and every
      other space separator) and LineTerminator (line feed, carriage return, line and
      paragraph separators). */
  const JsWhitespace: set<char> :=
    {'\t', '\n', '\U{000B}', '\U{000C}', '\r', ' ', '\U{00A0}', '\U{1680}',
     '\U{2000}', '\U{2001}', '\U{2002}', '\U{2003}', '\U{2004}', '\U{2005}',
     '\U{2006}', '\U{2007}', '\U{2008}', '\U{2009}', '\U{200A}',
     '\U{2028}', '\U{2029}', '\U{202F}', '\U{205F}', '\U{3000}', '\U{FEFF}'}

  /** How many characters of `ws` the string starts with. */
  function LeadingCount(s: string, ws: set<char>): (n: nat)
    ensures n <= |s|
    ensures forall i :: 0 <= i < n ==> s[i] in ws
    ensures n < |s| ==> s[n] !in ws
  {
    if |s| == 0 || s[0] !in ws then 0 else 1 + LeadingCount(s[1..], ws)
  }

  /** How many characters of `ws` the string ends with. */
  function TrailingCount(s: string, ws: set<char>): (n: nat)
    ensures n <= |s|
    ensures forall i :: |s| - n <= i < |s| ==> s[i] in ws
    ensures n < |s| ==> s[|s| - 1 - n] !in ws
  {
    if |s| == 0 || s[|s| - 1] !in ws then 0 else 1 + TrailingCount(s[..|s| - 1], ws)
  }

  /** `s` with the characters of `ws` stripped from both ends: a slice of `s` with
      only such characters outside it, and none at either of its own ends. */
  function Strip(s: string, ws: set<char>): (t: string)
    ensures exists i, j :: 0 <= i <= j <= |s| && t == s[i..j] &&
              (forall k :: 0 <= k < i ==> s[k] in ws) &&
              (forall k :: j <= k < |s| ==> s[k] in ws)
    ensures t != "" ==> t[0] !in ws && t[|t| - 1] !in ws
    ensures t == "" <==> forall k :: 0 <= k < |s| ==> s[k] in ws
  {
    var i := LeadingCount(s, ws);
    var rest := s[i..];
    var n := TrailingCount(rest, ws);
    StrippedSlice(s, ws, i, rest, n);
    rest[..|rest| - n]
  }

  lemma StrippedSlice(s: string, ws: set<char>, i: nat, rest: string, n: nat)
    requires i == LeadingCount(s, ws) && rest == s[i..] && n == TrailingCount(rest, ws)
    ensures var t := rest[..|rest| - n];
            && t == s[i..i + |rest| - n]
            && (forall k :: i + |rest| - n <= k < |s| ==> s[k] in ws)
            && (t != "" ==> t[0] !in ws && t[|t| - 1] !in ws)
            && (t == "" <==> forall k :: 0 <= k < |s| ==> s[k] in ws)
  {
    var j := i + |rest| - n;
    var t := rest[..|rest| - n];
    assert t == s[i..j];
    forall k | j <= k < |s| ensures s[k] in ws {
      assert s[k] == rest[k - i];
    }
    if t == "" {
      assert i == |s|;
    } else {
      assert t[0] == s[i] && s[i] !in ws;
      assert t[|t| - 1] == rest[|rest| - 1 - n];
      assert !(forall k :: 0 <= k < |s| ==> s[k] in ws) by {
        assert s[i] !in ws;
      }
    }
  }

  /** `s.trim()`. */
  function Trim(s: string): string
  {
    Strip(s, JsWhitespace)
  }

  /** The position of the first space in `s`. */
  function IndexOfSpace(s: string): (i: nat)
    requires ' ' in s
    ensures i < |s| && s[i] == ' ' && ' ' !in s[..i]
  {
    if s[0] == ' ' then 0
    else
      assert ' ' in s[1..] by {
        var k :| 0 <= k < |s| && s[k] == ' ';
        assert s[1..][k - 1] == ' ';
      }
      var i := IndexOfSpace(s[1..]);
      assert s[..i + 1] == [s[0]] + s[1..][..i];
      i + 1
  }

  /** `s.split(' ')`: the pieces between single spaces; never empty. */
  function Split(s: string): (parts: seq<string>)
    ensures |parts| >= 1
    ensures forall k :: 0 <= k < |parts| ==> ' ' !in parts[k]
    decreases |s|
  {
    if ' ' !in s then [s]
    else
      var i := IndexOfSpace(s);
      [s[..i]] + Split(s[i + 1..])
  }

  /** `parts.join(' ')`: the empty list joins to the empty string. */
  function Join(parts: seq<string>): string
  {
    if |parts| == 0 then ""
    else if |parts| == 1 then parts[0]
    else parts[0] + " " + Join(parts[1..])
  }

  /** Splitting at spaces and joining with spaces gives the string back. */
  lemma {:induction false} JoinSplit(s: string)
    ensures Join(Split(s)) == s
    decreases |s|
  {
    if ' ' in s {
      var i := IndexOfSpace(s);
      var rest := Split(s[i + 1..]);
      JoinSplit(s[i + 1..]);
      assert Split(s) == [s[..i]] + rest;
      assert Split(s)[1..] == rest;
      assert s == s[..i] + " " + s[i + 1..];
    }
  }

  /** A command line split into the command name and its argument string. */
  datatype ParsedCommand = ParsedCommand(cmd: string, args: string)

  /** The trimmed line split at single spaces: the first piece is the command, and the
      remaining pieces, rejoined with spaces, are the arguments. */
  function ParseCommand(command: string): (p: ParsedCommand)
    ensures ' ' !in p.cmd
  {
    var parts := Split(Trim(command));
    ParsedCommand(parts[0], Join(parts[1..]))
  }

  /** The command is the trimmed line up to its first space and the arguments are
      everything after that space, so the two joined by a space give the trimmed line
      back; a line without a space is all command and no arguments. */
  lemma ParseCommandShape(command: string)
    ensures var t := Trim(command);
            var p := ParseCommand(command);
            && ' ' !in p.cmd
            && if ' ' in t then
                 && p.cmd == t[..IndexOfSpace(t)]
                 && p.args == t[IndexOfSpace(t) + 1..]
                 && p.cmd + " " + p.args == t
               else
                 p.cmd == t && p.args == ""
  {
    var t := Trim(command);
    if ' ' in t {
      var i := IndexOfSpace(t);
      JoinSplit(t[i + 1..]);
      assert Split(t)[1..] == Split(t[i + 1..]);
      assert t == t[..i] + " " + t[i + 1..];
    }
  }

  // ---------------------------------------------------------------------------
  // Dispatching a command

  /** What `processCommand` does with a command after echoing it. */
  datatype Action = ClearOutput | ShowHelp | SendRequest(endpoint: string) | UnknownCommand

  /** The commands the server handles, and their endpoints. */
  const Endpoints: map<string, string> :=
    map["list" := "/terminal/list",
        "view" := "/terminal/view",
        "add" := "/terminal/add",
        "edit" := "/terminal/edit",
        "delete" := "/terminal/delete"]

  /** The action for a command, looking only at the endpoint table's own entries:
      `clear` and `help` are handled locally, the five server commands go to
      `/terminal/<cmd>`, and anything else is unknown. */
  function Dispatch(cmd: string): (a: Action)
    ensures a.ClearOutput? <==> cmd == "clear"
    ensures a.ShowHelp? <==> cmd == "help"
    ensures a.SendRequest? <==> cmd in {"list", "view", "add", "edit", "delete"}
    ensures a.SendRequest? ==> a.endpoint == "/terminal/" + cmd
  {
    if cmd == "clear" then ClearOutput
    else if cmd == "help" then ShowHelp
    else if cmd in Endpoints then SendRequest(Endpoints[cmd])
    else UnknownCommand
  }

  /** What `endpoints[cmd]` yields on an object literal: one of its own strings, a
      member inherited from `Object.prototype`, or `undefined`. */
  datatype JsProperty = OwnString(s: string) | InheritedMember(name: string) | Undefined

  /** The properties every object literal inherits from `Object.prototype`. */
  const ObjectPrototypeMembers: set<string> :=
    {"constructor", "hasOwnProperty", "isPrototypeOf", "propertyIsEnumerable",
     "toLocaleString", "toString", "valueOf", "__proto__",
     "__defineGetter__", "__defineSetter__", "__lookupGetter__", "__lookupSetter__"}

  function LookupEndpoint(cmd: string): JsProperty
  {
    if cmd in Endpoints then OwnString(Endpoints[cmd])
    else if cmd in ObjectPrototypeMembers then InheritedMember(cmd)
    else Undefined
  }

  /** JavaScript truthiness of the looked-up property: every inherited member is a
      function or an object, hence truthy. */
  predicate JsTruthy(p: JsProperty)
  {
    match p
    case OwnString(s) => s != ""
    case InheritedMember(_) => true
    case Undefined => false
  }

  /** `String(p)`, which is how `fetch` turns its first argument into a URL (the browser
      then resolves it against the page's address). A native function is rendered as
      V8 renders it; other engines lay out the `[native code]` part differently. */
  function JsToString(p: JsProperty): string
  {
    match p
    case OwnString(s) => s
    case InheritedMember(name) =>
      if name == "__proto__" then "[object Object]"
      else if name == "constructor" then "function Object() { [native code] }"
      else "function " + name + "() { [native code] }"
    case Undefined => "undefined"
  }

  /** Dispatch as the code is written: `if (endpoints[cmd])` also accepts the names of
      inherited members, and the request then goes to that member's string form. */
  function DispatchAsWritten(cmd: string): (a: Action)
    ensures a.ClearOutput? <==> cmd == "clear"
    ensures a.ShowHelp? <==> cmd == "help"
    ensures a.SendRequest? <==> cmd in {"list", "view", "add", "edit", "delete"} || cmd in ObjectPrototypeMembers
    ensures cmd in Endpoints ==> a == SendRequest("/terminal/" + cmd)
  {
    if cmd == "clear" then ClearOutput
    else if cmd == "help" then ShowHelp
    else
      var p := LookupEndpoint(cmd);
      if JsTruthy(p) then SendRequest(JsToString(p)) else UnknownCommand
  }

  /** The command `toString` is sent to the server as written, to a URL made from a
      function's source text, where the unknown-command line was meant. */
  lemma InheritedMemberIsDispatched()
    ensures DispatchAsWritten("toString") == SendRequest("function toString() { [native code] }")
    ensures Dispatch("toString") == UnknownCommand
  {
    assert "toString" !in Endpoints;
    assert LookupEndpoint("toString") == InheritedMember("toString");
  }

  /** Dispatch as written and the corrected dispatch differ only on the names of
      inherited members. */
  lemma DispatchAsWrittenAgreesElsewhere(cmd: string)
    ensures cmd !in ObjectPrototypeMembers ==> DispatchAsWritten(cmd) == Dispatch(cmd)
    ensures cmd in ObjectPrototypeMembers ==> Dispatch(cmd) == UnknownCommand && DispatchAsWritten(cmd).SendRequest?
  {
    if cmd in ObjectPrototypeMembers {
      assert cmd !in Endpoints;
    }
  }

  // ---------------------------------------------------------------------------
  // The page's state

  /** A line of the output area: the echo of an entered command, or a response line
      with its CSS class. */
  datatype Line = CommandLine(command: string) | ResponseLine(text: string, className: string)

  /** A request sent to the server: the endpoint and the argument string. */
  datatype Request = Request(endpoint: string, args: string)

  /** The keys the keydown handler tells apart. */
  datatype Key = Enter | ArrowUp | ArrowDown | OtherKey

  const ClearedLine := ResponseLine("Terminal cleared.", "info")

  /** The lines the help command shows, in order. */
  const HelpLines: seq<Line> := [
    ResponseLine("<strong>Available commands:</strong>", "info"),
    ResponseLine("<span class=\"help-command\">help</span>: Show this help message", "info"),
    ResponseLine("<span class=\"help-command\">list</span>: List all tasks", "info"),
    ResponseLine("<span class=\"help-command\">view &lt;id&gt;</span>: View a task by ID", "info"),
    ResponseLine("<span class=\"help-command\">add &lt;title&gt; &lt;content&gt;</span>: Add a new task", "info"),
    ResponseLine("<span class=\"help-command\">edit &lt;id&gt; title=&lt;new_title&gt; content=&lt;new_content&gt;</span>: Edit a note", "info"),
    ResponseLine("<span class=\"help-command\">delete &lt;id&gt;</span>: Delete a task by ID", "info"),
    ResponseLine("<span class=\"help-command\">clear</span>: Clear the terminal", "info"),
    ResponseLine("<span class=\"help-command\">", "")
  ]

  function UnknownCommandLine(cmd: string): Line
  {
    ResponseLine("Unknown command: '" + cmd + "'. Type 'help' for available commands.", "error")
  }

  /** The output area after `processCommand(command)`. `clear` leaves exactly the one
      "Terminal cleared." line, the echo included; every other command keeps the old
      output, echoes the command, then adds the help lines, one error line, or nothing. */
  function ProcessedOutput(output: seq<Line>, command: string): (r: seq<Line>)
    ensures Dispatch(ParseCommand(command).cmd).ClearOutput? ==> r == [ClearedLine]
    ensures !Dispatch(ParseCommand(command).cmd).ClearOutput? ==>
              |r| > |output| && r[..|output|] == output && r[|output|] == CommandLine(command)
    ensures Dispatch(ParseCommand(command).cmd).ShowHelp? ==> r[|output| + 1..] == HelpLines
    ensures Dispatch(ParseCommand(command).cmd).SendRequest? ==> |r| == |output| + 1
    ensures Dispatch(ParseCommand(command).cmd).UnknownCommand? ==>
              |r| == |output| + 2 && r[|output| + 1] == UnknownCommandLine(ParseCommand(command).cmd)
  {
    var p := ParseCommand(command);
    var echoed := output + [CommandLine(command)];
    match Dispatch(p.cmd)
    case ClearOutput => [ClearedLine]
    case ShowHelp => echoed + HelpLines
    case SendRequest(_) => echoed
    case UnknownCommand => echoed + [UnknownCommandLine(p.cmd)]
  }

  /** The request log after `processCommand(command)`: one request more exactly when
      the command is one of the server's, carrying the argument string. */
  function ProcessedRequests(sent: seq<Request>, command: string): (r: seq<Request>)
    ensures !Dispatch(ParseCommand(command).cmd).SendRequest? ==> r == sent
    ensures Dispatch(ParseCommand(command).cmd).SendRequest? ==>
              r == sent + [Request("/terminal/" + ParseCommand(command).cmd, ParseCommand(command).args)]
  {
    var p := ParseCommand(command);
    match Dispatch(p.cmd)
    case SendRequest(endpoint) => sent + [Request(endpoint, p.args)]
    case _ => sent
  }

  /** The terminal page: the command history (newest first), the position in it
      (-1 when not browsing), the input field's text, the output area and the requests
      sent so far. */
  class TerminalPage {
    var commandHistory: seq<string>
    var historyIndex: int
    var inputValue: string
    var output: seq<Line>
    var sent: seq<Request>

    /** The history position is -1 or the index of an entry. */
    ghost predicate Valid()
      reads this
    {
      -1 <= historyIndex < |commandHistory|
    }

    constructor ()
      ensures Valid()
      ensures commandHistory == [] && historyIndex == -1 && inputValue == "" && output == [] && sent == []
    {
      commandHistory := [];
      historyIndex := -1;
      inputValue := "";
      output := [];
      sent := [];
    }

    /** `addLine(text, className)`. */
    method AddLine(text: string, className: string)
      modifies this`output
      ensures output == old(output) + [ResponseLine(text, className)]
    {
      output := output + [ResponseLine(text, className)];
    }

    /** `displayHelp()`: appends the help lines and nothing else. */
    method DisplayHelp()
      modifies this`output
      ensures output == old(output) + HelpLines
    {
      AddLine("<strong>Available commands:</strong>", "info");
      AddLine("<span class=\"help-command\">help</span>: Show this help message", "info");
      AddLine("<span class=\"help-command\">list</span>: List all tasks", "info");
      AddLine("<span class=\"help-command\">view &lt;id&gt;</span>: View a task by ID", "info");
      AddLine("<span class=\"help-command\">add &lt;title&gt; &lt;content&gt;</span>: Add a new task", "info");
      AddLine("<span class=\"help-command\">edit &lt;id&gt; title=&lt;new_title&gt; content=&lt;new_content&gt;</span>: Edit a note", "info");
      AddLine("<span class=\"help-command\">delete &lt;id&gt;</span>: Delete a task by ID", "info");
      AddLine("<span class=\"help-command\">clear</span>: Clear the terminal", "info");
      AddLine("<span class=\"help-command\">", "");
    }

    /** `send_terminal_cmd(endpoint, args)`, as far as the page goes: the request is
        sent; the line its response adds later is not modelled. */
    method SendTerminalCmd(endpoint: string, args: string)
      modifies this`sent
      ensures sent == old(sent) + [Request(endpoint, args)]
    {
      sent := sent + [Request(endpoint, args)];
    }

    /** `processCommand(command)`. */
    method ProcessCommand(command: string)
      modifies this`output, this`sent
      ensures output == ProcessedOutput(old(output), command)
      ensures sent == ProcessedRequests(old(sent), command)
    {
      output := output + [CommandLine(command)];
      var parsed := ParseCommand(command);
      var cmd, args := parsed.cmd, parsed.args;
      if cmd == "clear" {
        output := [];
        AddLine("Terminal cleared.", "info");
        return;
      }
      if cmd == "help" {
        DisplayHelp();
        return;
      }
      if cmd in Endpoints {
        SendTerminalCmd(Endpoints[cmd], args);
      } else if cmd != "help" && cmd != "clear" {
        AddLine("Unknown command: '" + cmd + "'. Type 'help' for available commands.", "error");
      }
    }

    /** The user edits the input field (the browser's own handling of ordinary keys). */
    method EditInput(value: string)
      modifies this`inputValue
      ensures inputValue == value
    {
      inputValue := value;
    }

    /** The keydown handler of the input field. Enter on a line that is not blank
        records the raw line as the newest history entry, stops browsing, processes the
        line and empties the input; on a blank line it does nothing. ArrowUp moves to
        the next older entry, if there is one, and shows it. ArrowDown moves to the next
        newer entry and shows it, or from the newest entry stops browsing and empties
        the input; when not browsing it does nothing. */
    method KeyDown(key: Key)
      requires Valid()
      modifies this
      ensures Valid()
      ensures key.Enter? && Trim(old(inputValue)) != "" ==>
                && commandHistory == [old(inputValue)] + old(commandHistory)
                && historyIndex == -1 && inputValue == ""
                && output == ProcessedOutput(old(output), old(inputValue))
                && sent == ProcessedRequests(old(sent), old(inputValue))
      ensures key.Enter? && Trim(old(inputValue)) == "" ==> unchanged(this)
      ensures key.ArrowUp? ==>
                && commandHistory == old(commandHistory) && output == old(output) && sent == old(sent)
                && if old(historyIndex) < |old(commandHistory)| - 1 then
                     historyIndex == old(historyIndex) + 1 && inputValue == commandHistory[historyIndex]
                   else
                     historyIndex == old(historyIndex) && inputValue == old(inputValue)
      ensures key.ArrowDown? ==>
                && commandHistory == old(commandHistory) && output == old(output) && sent == old(sent)
                && if old(historyIndex) > 0 then
                     historyIndex == old(historyIndex) - 1 && inputValue == commandHistory[historyIndex]
                   else if old(historyIndex) == 0 then
                     historyIndex == -1 && inputValue == ""
                   else
                     historyIndex == old(historyIndex) && inputValue == old(inputValue)
      ensures key.OtherKey? ==> unchanged(this)
    {
      match key
      case Enter =>
        var command := inputValue;
        if Trim(command) != "" {
          commandHistory := [command] + commandHistory;
          historyIndex := -1;
          ProcessCommand(command);
          inputValue := "";
        }
      case ArrowUp =>
        if historyIndex < |commandHistory| - 1 {
          historyIndex := historyIndex + 1;
          inputValue := commandHistory[historyIndex];
        }
      case ArrowDown =>
        if historyIndex > 0 {
          historyIndex := historyIndex - 1;
          inputValue := commandHistory[historyIndex];
        } else if historyIndex == 0 {
          historyIndex := -1;
          inputValue := "";
        }
      case OtherKey =>
    }
  }

  /** A session at the terminal: two command lines entered, then the history browsed. */
  method HistoryClient(first: string, second: string)
    requires |first| > 0 && first[0] !in JsWhitespace
    requires |second| > 0 && second[0] !in JsWhitespace
  {
    var page := new TerminalPage();
    page.EditInput(first);
    page.KeyDown(Enter);
    assert page.commandHistory == [first] && page.inputValue == "";
    page.EditInput(second);
    page.KeyDown(Enter);
    assert page.commandHistory == [second, first];
    BrowseHistory(page, second, first);
  }

  /** Browsing a two-entry history: up twice reaches the oldest entry and stops there;
      down from the newest entry empties the input, and further down does nothing. */
  method BrowseHistory(page: TerminalPage, newer: string, older: string)
    requires page.commandHistory == [newer, older] && page.historyIndex == -1
    modifies page
  {
    page.KeyDown(ArrowUp);
    assert page.historyIndex == 0 && page.inputValue == newer;
    page.KeyDown(ArrowUp);
    assert page.historyIndex == 1 && page.inputValue == older;
    page.KeyDown(ArrowUp);
    assert page.historyIndex == 1 && page.inputValue == older;
    page.KeyDown(ArrowDown);
    page.KeyDown(ArrowDown);
    assert page.historyIndex == -1 && page.inputValue == "";
    page.KeyDown(ArrowDown);
    assert page.historyIndex == -1 && page.inputValue == "";
    page.EditInput("   ");
    assert forall k :: 0 <= k < |"   "| ==> "   "[k] == ' ';
    page.KeyDown(Enter);
    assert page.commandHistory == [newer, older];
  }
}
