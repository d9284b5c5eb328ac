/** What `main` does before it hands over (chatgpt.c:519-608): choosing the mode, reading
    the key's first line, and building the one-shot request from the command line. */
module Cli {
  import opened Wrappers
  import opened Text
  import opened Escaping
  import opened Conversation
  import Session

  /** chatgpt.c:574 puts the terminator at the first carriage return or line feed of the
      line, so the key ends just before it. */
  function TrimAtLineBreak(line: string): (key: string)
    ensures key <= line
    ensures forall i :: 0 <= i < |key| ==> key[i] != '\r' && key[i] != '\n'
    ensures |key| < |line| ==> line[|key|] == '\r' || line[|key|] == '\n'
  {
    if line == [] || line[0] == '\r' || line[0] == '\n' then []
    else [line[0]] + TrimAtLineBreak(line[1..])
  }

  /** A key written on the first line of the file is read back exactly. */
  lemma {:induction false} TrimKeyLine(key: string, ending: string)
    requires forall i :: 0 <= i < |key| ==> key[i] != '\r' && key[i] != '\n'
    requires ending == [] || ending[0] == '\r' || ending[0] == '\n'
    ensures TrimAtLineBreak(key + ending) == key
  {
    if key != [] {
      assert (key + ending)[1..] == key[1..] + ending;
      TrimKeyLine(key[1..], ending);
    } else {
      assert key + ending == ending;
    }
  }

  /** Trimming twice is trimming once. */
  lemma TrimIdempotent(line: string)
    ensures TrimAtLineBreak(TrimAtLineBreak(line)) == TrimAtLineBreak(line)
  {
    TrimKeyLine(TrimAtLineBreak(line), []);
    assert TrimAtLineBreak(line) + [] == TrimAtLineBreak(line);
  }

  /** The words separated by single spaces. */
  function Joined(words: seq<string>): string
    decreases |words|
  {
    if words == [] then ""
    else if |words| == 1 then words[0]
    else Joined(words[..|words| - 1]) + " " + words[|words| - 1]
  }

  /** chatgpt.c:583-589: every argument from index 0 on, separated by single spaces. */
  method JoinArgs(argv: seq<string>) returns (prompt: string)
    ensures prompt == Joined(argv)
  {
    prompt := "";
    var i := 0;
    while i < |argv|
      invariant 0 <= i <= |argv|
      invariant prompt == Joined(argv[..i]) + (if 0 < i < |argv| then " " else "")
    {
      assert argv[..i + 1][..i] == argv[..i];
      prompt := Concat(prompt, argv[i]);
      if |argv| > i + 1 {
        prompt := Concat(prompt, " ");
      }
      i := i + 1;
    }
    assert argv[..i] == argv;
  }

  /** The joined text starts with the first word and has one space between neighbours. */
  lemma {:induction false} JoinedLength(words: seq<string>)
    requires words != []
    ensures words[0] <= Joined(words)
    ensures |Joined(words)| == SumLengths(words) + |words| - 1
    decreases |words|
  {
    if |words| > 1 {
      var init := words[..|words| - 1];
      JoinedLength(init);
      SumLengthsAppend(init, words[|words| - 1]);
      assert words == init + [words[|words| - 1]];
      assert init[0] == words[0];
    }
  }

  function SumLengths(words: seq<string>): nat
  {
    if words == [] then 0 else |words[0]| + SumLengths(words[1..])
  }

  lemma {:induction false} SumLengthsAppend(words: seq<string>, w: string)
    ensures SumLengths(words + [w]) == SumLengths(words) + |w|
  {
    if words == [] {
      assert words + [w] == [w];
    } else {
      assert (words + [w])[1..] == words[1..] + [w];
      SumLengthsAppend(words[1..], w);
    }
  }

  /** The fixed parts of the one-shot body (chatgpt.c:591-594). */
  const OneShotOpen: string := Prompt1 + Session.DefaultModel + Prompt2 + UserOpen
  const OneShotClose: string := ObjectClose + Prompt3

  /** The one-shot body as chatgpt.c:583-594 builds it: all of `argv`, program name
      included, pasted into the content without escaping. */
  function OneShotBodyAsWritten(argv: seq<string>): string
  {
    OneShotOpen + Joined(argv) + OneShotClose
  }

  /** The content of the as-written body starts with the program name. */
  lemma AsWrittenSendsProgramName(argv: seq<string>)
    requires |argv| >= 2
    ensures OneShotBodyAsWritten(argv) == OneShotOpen + argv[0] + " " + Joined(argv[1..]) + OneShotClose
  {
    JoinedDropFirst(argv);
  }

  /** `chatgpt '"'` (the program name and one argument, a double quote) puts `chatgpt "` into
      the content, and that is not a well-formed JSON string body: the quote is not escaped, so
      it does not unescape and no text escapes to it. */
  lemma AsWrittenCounterexample()
    ensures var argv := ["chatgpt", "\""];
      OneShotBodyAsWritten(argv) == OneShotOpen + "chatgpt \"" + OneShotClose &&
      Unescape("chatgpt \"") == None &&
      forall s :: Escape(s) != "chatgpt \""
  {
    var argv := ["chatgpt", "\""];
    assert argv[..1] == ["chatgpt"];
    assert Joined(argv) == "chatgpt" + " " + "\"";
    var content := "chatgpt \"";
    assert Unescape(content) == None;
    forall s ensures Escape(s) != content {
      UnescapeEscape(s);
    }
  }

  /** Joining drops the first word and the space after it in one piece. */
  lemma {:induction false} JoinedDropFirst(words: seq<string>)
    requires |words| >= 2
    ensures Joined(words) == words[0] + " " + Joined(words[1..])
    decreases |words|
  {
    var n := |words|;
    if n == 2 {
      assert words[..1] == [words[0]];
      assert words[1..] == [words[1]];
    } else {
      var init := words[..n - 1];
      JoinedDropFirst(init);
      assert init[1..] == words[1..][..n - 2];
      assert init[0] == words[0];
      assert words[1..][n - 2] == words[n - 1];
    }
  }

  /** The prompt the one-shot request is evidently meant to send: the arguments after the
      program name. */
  function OneShotPrompt(argv: seq<string>): string
  {
    if |argv| < 2 then "" else Joined(argv[1..])
  }

  /** The corrected one-shot body: the prompt without the program name, escaped. */
  function OneShotBody(argv: seq<string>): string
  {
    OneShotOpen + Escape(OneShotPrompt(argv)) + OneShotClose
  }

  /** The corrected body is the shell's first request for the same prompt with the default
      model and no system prompt, and its content unescapes to exactly the prompt. */
  lemma OneShotBodyIsShellRequest(argv: seq<string>)
    ensures OneShotBody(argv) == RequestBody(Session.DefaultModel, "", WithUser("", OneShotPrompt(argv)))
    ensures OneShotBody(argv) ==
      Prompt1 + Session.DefaultModel + Prompt2 + Render([Turn(UserRole, OneShotPrompt(argv))]) + Prompt3
    ensures Unescape(Escape(OneShotPrompt(argv))) == Some(OneShotPrompt(argv))
  {
    var p := OneShotPrompt(argv);
    var head, e := Prompt1 + Session.DefaultModel + Prompt2, Escape(p);
    var user := WithUser("", p);
    assert user == UserOpen + e + ObjectClose by {
      assert "" + UserOpen == UserOpen;
    }
    assert RequestBody(Session.DefaultModel, "", user) == head + user + Prompt3 by {
      assert head + "" == head;
    }
    ConcatAssoc(head, UserOpen + e, ObjectClose);
    ConcatAssoc(head, UserOpen, e);
    ConcatAssoc(head + UserOpen + e, ObjectClose, Prompt3);
    WithUserRenders([], p);
    RequestBodyMessages(Session.DefaultModel, None, [Turn(UserRole, p)]);
    UnescapeEscape(p);
  }

  /** What `getline` found in `~/.openaikey`. */
  datatype KeyFile = Missing | NoLine | FirstLine(line: string)

  /** What `main` goes on to do. */
  datatype Mode =
    | ShowHelp
    | StartShell(apikey: Option<string>)
    | OneShot(request: Session.Request)
    | NoKeyError

  /** chatgpt.c:521-596: `--help` first; without a key file the shell starts keyless or a
      prompt is refused; with one, its trimmed first line is the key. */
  function Launch(argv: seq<string>, keyFile: KeyFile): Mode
  {
    if |argv| > 1 && argv[1] == "--help" then ShowHelp
    else match keyFile
      case Missing => if |argv| < 2 then StartShell(None) else NoKeyError
      case NoLine => NoKeyError
      case FirstLine(line) =>
        var key := TrimAtLineBreak(line);
        if |argv| < 2 then StartShell(Some(key))
        else OneShot(Session.Request(OneShotBodyAsWritten(argv), key, Session.DefaultEndpoint))
  }

  /** The shell starts exactly when there are no arguments and the key file is missing or
      has a line; a prompt is sent exactly when there are arguments (other than `--help`)
      and a key line; the key is always the trimmed line. The one-shot body is the one the
      code builds: its content is the program name, a space, and the arguments joined by
      spaces, none of them escaped. */
  lemma LaunchModes(argv: seq<string>, keyFile: KeyFile)
    ensures Launch(argv, keyFile).ShowHelp? <==> |argv| > 1 && argv[1] == "--help"
    ensures Launch(argv, keyFile).StartShell? <==> |argv| < 2 && !keyFile.NoLine?
    ensures Launch(argv, keyFile).StartShell? ==>
      Launch(argv, keyFile).apikey == if keyFile.Missing? then None else Some(TrimAtLineBreak(keyFile.line))
    ensures Launch(argv, keyFile).OneShot? <==>
      |argv| >= 2 && argv[1] != "--help" && keyFile.FirstLine?
    ensures Launch(argv, keyFile).OneShot? ==>
      (Launch(argv, keyFile).request ==
       Session.Request(OneShotOpen + argv[0] + " " + Joined(argv[1..]) + OneShotClose,
                       TrimAtLineBreak(keyFile.line), Session.DefaultEndpoint))
  {
    if Launch(argv, keyFile).OneShot? {
      AsWrittenSendsProgramName(argv);
    }
  }
}
