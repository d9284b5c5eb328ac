/** The conversation shell `shell_mode` (chatgpt.c:337-517): its state, what one input line
    does to it, and a class that runs the loop over that state in place. */
module Session {
  import opened Wrappers
  import opened Text
  import opened Escaping
  import opened Commands
  import opened Json
  import opened Extraction
  import opened Conversation

  const DefaultModel: string := "gpt-3.5-turbo"
  const DefaultEndpoint: string := "https://api.openai.com/v1/chat/completions"

  /** The variables of `shell_mode` and the global `tokens` counter. `promptSystem` and
      `conversation` hold already rendered (escaped) fragments. */
  datatype State = State(
    model: string,
    apikey: Option<string>,
    origApikey: Option<string>,
    endpoint: string,
    promptSystem: string,
    conversation: string,
    showUsage: bool,
    tokens: uint32)

  /** What is handed to the transport: the body, the key for the `Authorization` header,
      and the URL. */
  datatype Request = Request(body: string, apikey: string, endpoint: string)

  /** What an exchange yields: the reply and its usage, or the reason it failed. */
  type Answer = Result<Reply, ExtractError>

  /** The answers a sequence of transfers yields, one per transfer. */
  function Answers(nets: seq<Transport>): (r: seq<Answer>)
    ensures |r| == |nets| && forall i :: 0 <= i < |nets| ==> r[i] == Exchange(nets[i])
  {
    seq(|nets|, i requires 0 <= i < |nets| => Exchange(nets[i]))
  }

  /** The effect of one line: the new state, whether the shell exits, and the request it
      sent, if any. */
  datatype Outcome = Outcome(state: State, exit: bool, request: Option<Request>)

  /** The state when `shell_mode` starts (chatgpt.c:339-352) with the key `main` read. */
  function Initial(apikey: Option<string>, tokens: uint32): State
  {
    State(DefaultModel, apikey, apikey, DefaultEndpoint, "", "", true, tokens)
  }

  /** chatgpt.c:366-368: drop one trailing line feed. */
  function Chomp(line: string): string
  {
    if |line| > 0 && line[|line| - 1] == '\n' then line[..|line| - 1] else line
  }

  /** `/showusage <value>` (chatgpt.c:440-451): only `false`/`0` and `true`/`1` are accepted;
      any other value leaves the flag as it was. */
  function ParseShowUsage(value: string, current: bool): bool
  {
    if value == "false" || value == "0" then false
    else if value == "true" || value == "1" then true
    else current
  }

  /** The command branches of `shell_mode` (chatgpt.c:373-469). */
  function ApplyCommand(s: State, command: Command, arg: Option<string>): State
  {
    match command
    case Help => s
    case SetSystem =>
      s.(promptSystem := if arg.None? then "" else SystemOpen + Escape(arg.value) + SystemClose)
    case SetModel => s.(model := if arg.None? then DefaultModel else arg.value)
    case SetApiKey => s.(apikey := if arg.None? then s.origApikey else arg)
    case SetEndpoint => s.(endpoint := if arg.None? then DefaultEndpoint else arg.value)
    case SetShowUsage => s.(showUsage := if arg.None? then true else ParseShowUsage(arg.value, s.showUsage))
    case Reset => s.(conversation := "", promptSystem := "")
    case Version => s
    case Exit => s
    case Unknown => s
  }

  /** Sending plain text (chatgpt.c:471-503): append the user object, build the body, and
      on a reply append the assistant object and add the usage; on failure the state is
      left as it was. */
  function Send(s: State, text: string, answer: Answer): Outcome
    requires s.apikey.Some?
  {
    var conversation := WithUser(s.conversation, text);
    var request := Request(RequestBody(s.model, s.promptSystem, conversation), s.apikey.value, s.endpoint);
    match answer
    case Err(_) => Outcome(s, false, Some(request))
    case Ok(reply) =>
      Outcome(s.(conversation := WithAssistant(conversation, reply.text),
                 tokens := AddTokens(s.tokens, reply.totalTokens)),
              false, Some(request))
  }

  /** A line that `shell_mode` treats as a command. */
  predicate IsCommandLine(line: string)
  {
    |line| > 0 && line[0] == '/'
  }

  /** A command line: dispatch it and apply the command; nothing is sent. */
  function RunCommand(s: State, line: string): Outcome
  {
    var dispatched := Dispatch(line);
    Outcome(ApplyCommand(s, dispatched.0, dispatched.1), dispatched.0 == Exit, None)
  }

  /** One line read by `shell_mode`. `answer` is what the exchange yields if the line is
      sent; it is ignored otherwise. Without a key, or for an empty line, only a message
      is printed. */
  function Step(s: State, rawLine: string, answer: Answer): Outcome
  {
    var line := Chomp(rawLine);
    if IsCommandLine(line) then RunCommand(s, line)
    else if line != "" && s.apikey.Some? then Send(s, line, answer)
    else Outcome(s, false, None)
  }

  /** A line that is sent to the model: non-empty and not a command. */
  predicate IsPlainText(line: string)
  {
    line != "" && line[0] != '/'
  }

  /** A request goes out exactly for plain text while a key is set. */
  lemma StepSendsOnlyPlainText(s: State, line: string, answer: Answer)
    ensures Step(s, line, answer).request.Some? <==> IsPlainText(Chomp(line)) && s.apikey.Some?
    ensures Step(s, line, answer).request.Some? ==> !Step(s, line, answer).exit
  {
  }

  /** The request carries the current key and endpoint and the body
      `{"model": "<model>", "messages": [<system fragment><conversation with the new user object>]}`. */
  lemma StepRequest(s: State, line: string, answer: Answer)
    requires Step(s, line, answer).request.Some?
    ensures Step(s, line, answer).request.value ==
      Request(Prompt1 + s.model + Prompt2 + s.promptSystem + WithUser(s.conversation, Chomp(line)) + Prompt3,
              s.apikey.value, s.endpoint)
  {
    if s.promptSystem == "" {
      assert Prompt1 + s.model + Prompt2 + s.promptSystem == Prompt1 + s.model + Prompt2;
    }
  }

  /** A failed request restores the state exactly: conversation, settings and token total. */
  lemma StepRollback(s: State, line: string, answer: Answer)
    requires Step(s, line, answer).request.Some? && answer.Err?
    ensures Step(s, line, answer).state == s
  {
  }

  /** A reply extends the conversation by the user object and the assistant object and adds
      the usage to the total; nothing else changes. */
  lemma StepReply(s: State, line: string, answer: Answer)
    requires Step(s, line, answer).request.Some? && answer.Ok?
    ensures Step(s, line, answer).state ==
      s.(conversation := WithAssistant(WithUser(s.conversation, Chomp(line)), answer.value.text),
         tokens := AddTokens(s.tokens, answer.value.totalTokens))
  {
  }

  /** Only a successful reply changes the token total. */
  lemma StepTokens(s: State, line: string, answer: Answer)
    ensures Step(s, line, answer).state.tokens ==
      if Step(s, line, answer).request.Some? && answer.Ok?
      then AddTokens(s.tokens, answer.value.totalTokens) else s.tokens
  {
    var text := Chomp(line);
    if IsCommandLine(text) {
      assert Step(s, line, answer) == RunCommand(s, text);
    } else if text != "" && s.apikey.Some? {
      assert Step(s, line, answer) == Send(s, text, answer);
    }
  }

  /** The text a user types for a command: its name alone, or its name, a space and an
      argument. */
  function CommandLine(name: string, arg: Option<string>): string
  {
    match arg
    case None => name
    case Some(a) => name + " " + a
  }

  /** An argument that does not end in a line feed (which would be dropped first). */
  predicate NoTrailingNewline(arg: Option<string>)
  {
    arg.Some? ==> |arg.value| == 0 || arg.value[|arg.value| - 1] != '\n'
  }

  /** A command line typed without a trailing line feed survives the strip and starts with `/`. */
  lemma ChompCommandLine(name: string, arg: Option<string>)
    requires CommandShaped(name) && NoTrailingNewline(arg)
    ensures Chomp(CommandLine(name, arg)) == CommandLine(name, arg)
    ensures IsCommandLine(CommandLine(name, arg))
  {
    var line := CommandLine(name, arg);
    match arg
    case None =>
      assert line[|line| - 1] == name[|name| - 1];
    case Some(a) =>
      assert line[0] == name[0];
      assert line[|line| - 1] == (if a == [] then ' ' else a[|a| - 1]);
  }

  /** Typing entry `k` of the table makes a command line that dispatches to that command
      with exactly the typed argument. */
  lemma CommandLineSelects(k: nat, arg: Option<string>)
    requires k < |DispatchTable| && NoTrailingNewline(arg)
    ensures Chomp(CommandLine(DispatchTable[k].0, arg)) == CommandLine(DispatchTable[k].0, arg)
    ensures IsCommandLine(CommandLine(DispatchTable[k].0, arg))
    ensures Dispatch(CommandLine(DispatchTable[k].0, arg)) == (DispatchTable[k].1, arg)
  {
    TableShaped();
    ChompCommandLine(DispatchTable[k].0, arg);
    match arg
    case None =>
      DispatchBare(k);
    case Some(a) =>
      DispatchWithArgument(k, a);
  }

  /** Typing entry `k` of the table, the name `name` of command `command`, applies that
      command with exactly the typed argument. */
  lemma CommandStep(s: State, k: nat, name: string, command: Command, arg: Option<string>, answer: Answer)
    requires k < |DispatchTable| && DispatchTable[k] == (name, command) && NoTrailingNewline(arg)
    ensures Step(s, CommandLine(name, arg), answer) ==
      Outcome(ApplyCommand(s, command, arg), command == Exit, None)
  {
    CommandLineSelects(k, arg);
  }

  /** `CommandStep` with the command's effect given as the state `s'` it produces. */
  lemma CommandStepTo(s: State, k: nat, name: string, command: Command, arg: Option<string>, answer: Answer, s': State)
    requires k < |DispatchTable| && DispatchTable[k] == (name, command) && NoTrailingNewline(arg)
    requires ApplyCommand(s, command, arg) == s'
    ensures Step(s, CommandLine(name, arg), answer) == Outcome(s', command == Exit, None)
  {
    CommandStep(s, k, name, command, arg, answer);
  }

  /** `/system` clears the system prompt; `/system <prompt>` stores it escaped, as a system
      object followed by a comma. Nothing else changes. */
  lemma SystemCommand(s: State, arg: Option<string>, answer: Answer)
    requires NoTrailingNewline(arg)
    ensures Step(s, CommandLine("/system", arg), answer) ==
      Outcome(s.(promptSystem := SystemPrompt(arg)), false, None)
  {
    CommandStepTo(s, 1, "/system", SetSystem, arg, answer, s.(promptSystem := SystemPrompt(arg)));
  }

  /** `/model` restores `gpt-3.5-turbo`; `/model <name>` sets the name. Nothing else changes. */
  lemma ModelCommand(s: State, arg: Option<string>, answer: Answer)
    requires NoTrailingNewline(arg)
    ensures Step(s, CommandLine("/model", arg), answer) ==
      Outcome(s.(model := match arg case None => DefaultModel case Some(m) => m), false, None)
  {
    CommandStepTo(s, 2, "/model", SetModel, arg, answer, s.(model := match arg case None => DefaultModel case Some(m) => m));
  }

  /** `/apikey` restores the key the shell started with (possibly none); `/apikey <key>` sets
      it. Nothing else changes. */
  lemma ApiKeyCommand(s: State, arg: Option<string>, answer: Answer)
    requires NoTrailingNewline(arg)
    ensures Step(s, CommandLine("/apikey", arg), answer) ==
      Outcome(s.(apikey := match arg case None => s.origApikey case Some(key) => Some(key)), false, None)
  {
    CommandStepTo(s, 3, "/apikey", SetApiKey, arg, answer, s.(apikey := match arg case None => s.origApikey case Some(key) => Some(key)));
  }

  /** `/endpoint` restores the default URL; `/endpoint <url>` sets it. Nothing else changes. */
  lemma EndpointCommand(s: State, arg: Option<string>, answer: Answer)
    requires NoTrailingNewline(arg)
    ensures Step(s, CommandLine("/endpoint", arg), answer) ==
      Outcome(s.(endpoint := match arg case None => DefaultEndpoint case Some(url) => url), false, None)
  {
    CommandStepTo(s, 4, "/endpoint", SetEndpoint, arg, answer, s.(endpoint := match arg case None => DefaultEndpoint case Some(url) => url));
  }

  /** `/showusage` sets the flag to true; `/showusage <v>` accepts `false`, `0`, `true`, `1`
      and leaves the flag unchanged for anything else. Nothing else changes. */
  lemma ShowUsageCommand(s: State, arg: Option<string>, answer: Answer)
    requires NoTrailingNewline(arg)
    ensures var flag := match arg
      case None => true
      case Some(v) => if v == "false" || v == "0" then false else if v == "true" || v == "1" then true else s.showUsage;
      Step(s, CommandLine("/showusage", arg), answer) == Outcome(s.(showUsage := flag), false, None)
  {
    var flag := match arg
      case None => true
      case Some(v) => if v == "false" || v == "0" then false else if v == "true" || v == "1" then true else s.showUsage;
    CommandStepTo(s, 5, "/showusage", SetShowUsage, arg, answer, s.(showUsage := flag));
  }

  /** `/reset`, with or without an argument, clears the conversation and the system prompt
      and nothing else. */
  lemma ResetCommand(s: State, arg: Option<string>, answer: Answer)
    requires NoTrailingNewline(arg)
    ensures Step(s, CommandLine("/reset", arg), answer) ==
      Outcome(s.(conversation := "", promptSystem := ""), false, None)
  {
    CommandStepTo(s, 6, "/reset", Reset, arg, answer, s.(conversation := "", promptSystem := ""));
  }

  /** `/help`, with or without an argument, changes nothing. */
  lemma HelpCommand(s: State, arg: Option<string>, answer: Answer)
    requires NoTrailingNewline(arg)
    ensures Step(s, CommandLine("/help", arg), answer) == Outcome(s, false, None)
  {
    CommandStepTo(s, 0, "/help", Help, arg, answer, s);
  }

  /** `/version`, with or without an argument, changes nothing. */
  lemma VersionCommand(s: State, arg: Option<string>, answer: Answer)
    requires NoTrailingNewline(arg)
    ensures Step(s, CommandLine("/version", arg), answer) == Outcome(s, false, None)
  {
    CommandStepTo(s, 7, "/version", Version, arg, answer, s);
  }

  /** `/exit`, with or without an argument, ends the shell and changes nothing. */
  lemma ExitCommand(s: State, arg: Option<string>, answer: Answer)
    requires NoTrailingNewline(arg)
    ensures Step(s, CommandLine("/exit", arg), answer) == Outcome(s, true, None)
  {
    CommandStepTo(s, 8, "/exit", Exit, arg, answer, s);
  }

  /** A `/` line that names no command changes nothing and is never sent. */
  lemma UnknownCommand(s: State, line: string, answer: Answer)
    requires |Chomp(line)| > 0 && Chomp(line)[0] == '/'
    requires forall j :: 0 <= j < |DispatchTable| ==> !Names(Chomp(line), DispatchTable[j].0)
    ensures Step(s, line, answer) == Outcome(s, false, None)
  {
    DispatchSelects(Chomp(line));
  }

  /** `promptSystem` holds the system prompt `system` and `conversation` renders `turns`. */
  predicate Renders(s: State, system: Option<string>, turns: seq<Turn>)
  {
    s.promptSystem == SystemPrompt(system) && s.conversation == Render(turns)
  }

  /** A command keeps the transcript, or clears it together with the system prompt. */
  lemma CommandPreservesRendering(s: State, system: Option<string>, turns: seq<Turn>, line: string)
    returns (system': Option<string>, turns': seq<Turn>)
    requires Renders(s, system, turns)
    ensures Renders(RunCommand(s, line).state, system', turns')
    ensures turns' == turns || turns' == []
  {
    system', turns' := system, turns;
    var (command, arg) := Dispatch(line);
    if command == SetSystem {
      system' := arg;
    } else if command == Reset {
      system', turns' := None, [];
    }
  }

  /** Sending `text` renders the system turn, the transcript and the new user turn into the
      body, and a reply extends the transcript by the user and the assistant turn. */
  lemma SendPreservesRendering(s: State, system: Option<string>, turns: seq<Turn>, text: string, answer: Answer)
    returns (turns': seq<Turn>)
    requires s.apikey.Some? && Renders(s, system, turns)
    ensures Renders(Send(s, text, answer).state, system, turns')
    ensures answer.Err? ==> turns' == turns
    ensures answer.Ok? ==>
      turns' == turns + [Turn(UserRole, text), Turn(AssistantRole, answer.value.text)]
    ensures Send(s, text, answer).request.Some?
    ensures Send(s, text, answer).request.value.body ==
      Prompt1 + s.model + Prompt2 + Render(SystemTurns(system) + turns + [Turn(UserRole, text)]) + Prompt3
  {
    var user := Turn(UserRole, text);
    WithUserRenders(turns, text);
    RequestBodyMessages(s.model, system, turns + [user]);
    assert SystemTurns(system) + turns + [user] == SystemTurns(system) + (turns + [user]);
    turns' := turns;
    if answer.Ok? {
      var reply := answer.value.text;
      WithAssistantRenders(turns + [user], reply);
      turns' := turns + [user, Turn(AssistantRole, reply)];
      assert turns + [user] + [Turn(AssistantRole, reply)] == turns';
    }
  }

  /** Every line keeps the state a rendering of a transcript: the transcript is kept,
      cleared, or grows by one user and one assistant turn, and a request's messages are the
      system turn (if any), the transcript and the new user turn, in that order. */
  lemma StepPreservesRendering(s: State, system: Option<string>, turns: seq<Turn>, line: string, answer: Answer)
    returns (system': Option<string>, turns': seq<Turn>)
    requires Renders(s, system, turns)
    ensures Renders(Step(s, line, answer).state, system', turns')
    ensures turns' == turns || turns' == [] ||
      (answer.Ok? &&
       turns' == turns + [Turn(UserRole, Chomp(line)), Turn(AssistantRole, answer.value.text)])
    ensures Step(s, line, answer).request.Some? ==>
      (Step(s, line, answer).request.value.body ==
       Prompt1 + s.model + Prompt2 + Render(SystemTurns(system) + turns + [Turn(UserRole, Chomp(line))]) + Prompt3)
  {
    var text := Chomp(line);
    if IsCommandLine(text) {
      system', turns' := CommandPreservesRendering(s, system, turns, text);
    } else if text != "" && s.apikey.Some? {
      system' := system;
      turns' := SendPreservesRendering(s, system, turns, text, answer);
    } else {
      system', turns' := system, turns;
    }
  }

  /** Where the read loop stands: the state, whether `/exit` was read, and the requests
      sent so far, oldest first. */
  datatype Progress = Progress(state: State, exited: bool, requests: seq<Request>)

  /** One more line read by the loop; after `/exit` nothing more is read. */
  function Feed(p: Progress, line: string, answer: Answer): Progress
  {
    if p.exited then p
    else
      var o := Step(p.state, line, answer);
      Progress(o.state, o.exit, p.requests + (if o.request.Some? then [o.request.value] else []))
  }

  /** The loop over a finite input, each line paired with the transport's answer for it. */
  function RunLines(p: Progress, lines: seq<string>, answers: seq<Answer>): Progress
    requires |answers| == |lines|
    decreases |lines|
  {
    if lines == [] then p
    else Feed(RunLines(p, lines[..|lines| - 1], answers[..|answers| - 1]), lines[|lines| - 1], answers[|answers| - 1])
  }

  /** The loop reads one line more: the run over `i + 1` lines feeds line `i` to the run
      over the first `i`. */
  lemma RunLinesNext(p: Progress, lines: seq<string>, answers: seq<Answer>, i: nat)
    requires |answers| == |lines| && i < |lines|
    ensures RunLines(p, lines[..i + 1], answers[..i + 1]) ==
      Feed(RunLines(p, lines[..i], answers[..i]), lines[i], answers[i])
  {
    assert lines[..i + 1][..i] == lines[..i] && answers[..i + 1][..i] == answers[..i];
  }

  /** Once `/exit` has been read, the rest of the input changes nothing. */
  lemma {:induction false} ExitIsFinal(p: Progress, lines: seq<string>, answers: seq<Answer>, i: nat)
    requires |answers| == |lines| && i <= |lines|
    requires RunLines(p, lines[..i], answers[..i]).exited
    ensures RunLines(p, lines, answers) == RunLines(p, lines[..i], answers[..i])
    decreases |lines|
  {
    if i < |lines| {
      var n := |lines| - 1;
      assert lines[..n][..i] == lines[..i] && answers[..n][..i] == answers[..i];
      ExitIsFinal(p, lines[..n], answers[..n], i);
    } else {
      assert lines[..i] == lines && answers[..i] == answers;
    }
  }

  /** Requests are only ever added, in the order the lines were read. */
  lemma {:induction false} RequestsAccumulate(p: Progress, lines: seq<string>, answers: seq<Answer>)
    requires |answers| == |lines|
    ensures p.requests <= RunLines(p, lines, answers).requests
    ensures |RunLines(p, lines, answers).requests| <= |p.requests| + |lines|
    ensures p.exited ==> RunLines(p, lines, answers) == p
    decreases |lines|
  {
    if lines != [] {
      RequestsAccumulate(p, lines[..|lines| - 1], answers[..|answers| - 1]);
    }
  }

  /** Over a whole session the conversation stays the rendering of a transcript. */
  lemma {:induction false} RunPreservesRendering(p: Progress, system: Option<string>, turns: seq<Turn>,
                                                 lines: seq<string>, answers: seq<Answer>)
    returns (system': Option<string>, turns': seq<Turn>)
    requires |answers| == |lines| && Renders(p.state, system, turns)
    ensures Renders(RunLines(p, lines, answers).state, system', turns')
    decreases |lines|
  {
    if lines == [] {
      system', turns' := system, turns;
    } else {
      var n := |lines| - 1;
      var before := RunLines(p, lines[..n], answers[..n]);
      var system0, turns0 := RunPreservesRendering(p, system, turns, lines[..n], answers[..n]);
      if before.exited {
        system', turns' := system0, turns0;
      } else {
        system', turns' := StepPreservesRendering(before.state, system0, turns0, lines[n], answers[n]);
      }
    }
  }

  /** The shell, with the variables of `shell_mode` as fields it updates line by line. */
  class Shell {
    var model: string
    var apikey: Option<string>
    var origApikey: Option<string>
    var endpoint: string
    var promptSystem: string
    var conversation: string
    var showUsage: bool
    var tokens: uint32

    ghost function Snapshot(): State
      reads this
    {
      State(model, apikey, origApikey, endpoint, promptSystem, conversation, showUsage, tokens)
    }

    /** Entering `shell_mode(apikey)` with the token counter at `tokens`. */
    constructor (key: Option<string>, total: uint32)
      ensures Snapshot() == Initial(key, total)
    {
      model := DefaultModel;
      apikey := key;
      origApikey := key;
      endpoint := DefaultEndpoint;
      promptSystem := "";
      conversation := "";
      showUsage := true;
      tokens := total;
    }

    /** Models `chatgpt_curl_perform` after the transport: extract the reply and, on success
        only, add `total_tokens` to the counter. */
    method Perform(net: Transport) returns (result: Option<string>)
      modifies this`tokens
      ensures result == match Exchange(net) case Ok(reply) => Some(reply.text) case Err(_) => None
      ensures tokens == match Exchange(net)
        case Ok(reply) => AddTokens(old(tokens), reply.totalTokens)
        case Err(_) => old(tokens)
    {
      if net.TransportFailed? || net.parsed.None? {
        return None;
      }
      var root := net.parsed.value;
      var content := ExtractContent(root);
      if content.Err? {
        return None;
      }
      var reply, _ := StripLeadingNewlines(content.value);
      var total := ExtractTotalTokens(root);
      if total.Err? {
        return None;
      }
      tokens := AddTokens(tokens, total.value);
      result := Some(reply);
    }

    /** The body of the read loop of `shell_mode` for one line. */
    method HandleLine(rawLine: string, net: Transport) returns (exit: bool, request: Option<Request>)
      modifies this
      ensures Outcome(Snapshot(), exit, request) == Step(old(Snapshot()), rawLine, Exchange(net))
    {
      exit, request := false, None;
      var line := rawLine;
      if |line| > 0 && line[|line| - 1] == '\n' {
        line := line[..|line| - 1];
      }
      if |line| > 0 && line[0] == '/' {
        exit := HandleCommand(line);
      } else if line != "" && apikey.Some? {
        var sent := SendText(line, net);
        request := Some(sent);
      }
      // otherwise only "No API key provided" or "No message or command provided" is printed
    }

    /** The command branches of the read loop (chatgpt.c:370-469). */
    method HandleCommand(line: string) returns (exit: bool)
      requires IsCommandLine(line)
      modifies this
      ensures Outcome(Snapshot(), exit, None) == RunCommand(old(Snapshot()), line)
    {
      var (command, remainingData) := Dispatch(line);
      ApplyCommandInPlace(command, remainingData);
      exit := command == Exit;
    }

    /** What each command does to the shell's variables. */
    method ApplyCommandInPlace(command: Command, remainingData: Option<string>)
      modifies this
      ensures Snapshot() == ApplyCommand(old(Snapshot()), command, remainingData)
    {
      match command {
        case Help =>
        case SetSystem =>
          SetSystemPrompt(remainingData);
        case SetModel =>
          model := if remainingData.None? then DefaultModel else remainingData.value;
        case SetApiKey =>
          apikey := if remainingData.None? then origApikey else remainingData;
        case SetEndpoint =>
          endpoint := if remainingData.None? then DefaultEndpoint else remainingData.value;
        case SetShowUsage =>
          if remainingData.None? {
            showUsage := true;
          } else if remainingData.value == "false" || remainingData.value == "0" {
            showUsage := false;
          } else if remainingData.value == "true" || remainingData.value == "1" {
            showUsage := true;
          }
        case Reset =>
          conversation := "";
          promptSystem := "";
        case Version =>
        case Exit =>
        case Unknown =>
      }
    }

    /** `/system` (chatgpt.c:387-398): the prompt is escaped once, when it is set. */
    method SetSystemPrompt(arg: Option<string>)
      modifies this`promptSystem
      ensures promptSystem == SystemPrompt(arg)
    {
      if arg.None? {
        promptSystem := "";
      } else {
        var escaped := EscapeString(arg.value);
        promptSystem := Concat(SystemOpen, escaped);
        promptSystem := Concat(promptSystem, SystemClose);
      }
    }

    /** Sending plain text (chatgpt.c:471-503): extend the conversation, build and send the
        body, then append the reply or roll the conversation back. */
    method SendText(line: string, net: Transport) returns (request: Request)
      requires apikey.Some?
      modifies this
      ensures Outcome(Snapshot(), false, Some(request)) == Send(old(Snapshot()), line, Exchange(net))
    {
      var prevConversation := Concat("", conversation);
      AppendUser(line);
      var data := RenderRequest();
      request := Request(data, apikey.value, endpoint);
      var result := Perform(net);
      if result.None? {
        conversation := prevConversation;
      } else {
        AppendAssistant(result.value);
      }
    }

    /** chatgpt.c:475-479: a comma unless the conversation is empty, then the escaped user
        object. */
    method AppendUser(line: string)
      modifies this`conversation
      ensures conversation == WithUser(old(conversation), line)
    {
      if conversation != "" {
        conversation := Concat(conversation, ",");
      }
      conversation := Concat(conversation, UserOpen);
      var escapedLine := EscapeString(line);
      conversation := Concat(conversation, escapedLine);
      conversation := Concat(conversation, ObjectClose);
    }

    /** chatgpt.c:481-488: the request body from the model, the system prompt and the
        conversation. */
    method RenderRequest() returns (data: string)
      ensures data == RequestBody(model, promptSystem, conversation)
    {
      data := Prompt1;
      data := Concat(data, model);
      data := Concat(data, Prompt2);
      if promptSystem != "" {
        data := Concat(data, promptSystem);
      }
      data := Concat(data, conversation);
      data := Concat(data, Prompt3);
    }

    /** chatgpt.c:499-501: the escaped assistant object after a comma. */
    method AppendAssistant(reply: string)
      modifies this`conversation
      ensures conversation == WithAssistant(old(conversation), reply)
    {
      conversation := Concat(conversation, AssistantOpen);
      var escapedReply := EscapeString(reply);
      conversation := Concat(conversation, escapedReply);
      conversation := Concat(conversation, ObjectClose);
    }

    /** The read loop of `shell_mode` over the given lines, until `/exit` or the end of input. */
    method Run(lines: seq<string>, nets: seq<Transport>) returns (exited: bool, requests: seq<Request>)
      requires |nets| == |lines|
      modifies this
      ensures Progress(Snapshot(), exited, requests) == RunLines(Progress(old(Snapshot()), false, []), lines, Answers(nets))
    {
      ghost var start := Progress(Snapshot(), false, []);
      ghost var answers := Answers(nets);
      exited, requests := false, [];
      var i := 0;
      while i < |lines| && !exited
        invariant 0 <= i <= |lines|
        invariant Progress(Snapshot(), exited, requests) == RunLines(start, lines[..i], answers[..i])
      {
        RunLinesNext(start, lines, answers, i);
        ghost var before := Progress(Snapshot(), exited, requests);
        var exit, request := HandleLine(lines[i], nets[i]);
        ghost var o := Step(before.state, lines[i], answers[i]);
        assert Snapshot() == o.state && exit == o.exit && request == o.request;
        if request.Some? {
          requests := requests + [request.value];
        }
        exited := exit;
        assert Progress(Snapshot(), exited, requests) == Feed(before, lines[i], answers[i]);
        i := i + 1;
      }
      if exited {
        ExitIsFinal(start, lines, answers, i);
      } else {
        assert lines[..i] == lines && answers[..i] == answers;
      }
    }
  }

  /** `Chomp` removes exactly one final line feed when there is one, and otherwise keeps the
      line. */
  lemma ChompDropsLineFeed(line: string)
    ensures |line| > 0 && line[|line| - 1] == '\n' ==> line == Chomp(line) + "\n"
    ensures !(|line| > 0 && line[|line| - 1] == '\n') ==> Chomp(line) == line
  {
  }

  /** The shell starts with no system prompt and an empty transcript. */
  lemma InitialRenders(apikey: Option<string>, tokens: uint32)
    ensures Renders(Initial(apikey, tokens), None, [])
  {
  }

  /** A space-less `/` line names `/system` wherever the name occurs in it, so a line such as
      `/systemx` or `/x/system` clears the system prompt just as `/system` does, unless it
      also contains `/help`, which is tried first. */
  lemma SystemNamedWithoutSpace(s: State, line: string, answer: Answer)
    requires IsCommandLine(line) && ' ' !in line && '\n' !in line
    requires exists i :: OccursAt(line, "/system", i)
    requires forall i :: !OccursAt(line, "/help", i)
    ensures Step(s, line, answer) == Outcome(s.(promptSystem := ""), false, None)
  {
    assert line[|line| - 1] in line;
    assert Chomp(line) == line;
    ContainsStrBeforeSpaceMeaning(line, "/help", None);
    ContainsStrBeforeSpaceMeaning(line, "/system", None);
    assert Dispatch(line) == (SetSystem, None);
  }

  /** `/systemx` is such a line. */
  lemma SystemxClearsPrompt(s: State, answer: Answer)
    ensures Step(s, "/systemx", answer) == Outcome(s.(promptSystem := ""), false, None)
  {
    var line := "/systemx";
    assert OccursAt(line, "/system", 0) by { assert line[0..7] == "/system"; }
    forall i ensures !OccursAt(line, "/help", i) {
      if 0 <= i <= 3 {
        assert line[i..i + 5][1] == line[i + 1];
      }
    }
    SystemNamedWithoutSpace(s, line, answer);
  }
}
