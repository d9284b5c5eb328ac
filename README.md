# chatgpt.c 0.3.0 in Dafny

A model of the core of `chatgpt.c`, a small command-line client for the OpenAI chat
completions API, with proofs about it. The model covers:

- The JSON string escaper `escape_string`. It is a function `Escape` with a proved round trip
  through a strict unescaper. It is also an imperative two-pass method over an `array<char>`,
  proved equal to that function.
- The command matcher `contains_str_before_space`, the `strstr`/`strchr` searches it relies
  on, and the `if … else if` chain that dispatches shell commands in table order.
- The prefix-count rule of the readline completion hook `autocomplete`.
- The response extractor in `chatgpt_curl_perform`. It follows the path
  `choices[0].message.content` and then `usage.total_tokens`, and fails at the first shape
  check that fails. It also covers the removal of at most two leading line feeds, and adding
  `total_tokens` to the global `unsigned int tokens` with its 32-bit wrap-around.
- The growable response buffer (`struct string`, `init_string`, the write callback
  `writefunc`). It is a class over an `array<char>` with its NUL terminator.
- The conversation shell `shell_mode`:
  - A pure `Step` function gives what one input line does to the shell's variables.
  - A `Shell` class updates those variables in place in the order the C code does. Its
    methods are proved equal to `Step`.
  - A transcript view (`Render` of a list of turns) shows that the conversation string is
    always a comma-separated list of escaped message objects. The system object, if any,
    comes first in every request.
- From `main`:
  - The mode selection.
  - The trimming of the key at the first CR or LF.
  - The joining of `argv` into the one-shot prompt.

The network, readline and the JSON parser are not modelled. A reply is a parameter of type
`Transport`: either the transfer failed, or it delivered a body that cJSON did or did not
parse into a `Json` tree. The input lines are parameters too.

Three facts about the shell that the model keeps:

- `/system <prompt>` escapes its argument when it is set (chatgpt.c:395), so `promptSystem`
  holds an already rendered system object.
- `/system` with no space after it clears the prompt. So does any space-less `/` line that
  contains `/system` and names no earlier command, such as `/systemx` or `/x/system`, because
  a line without a space names a command wherever its name occurs (chatgpt.c:93-105). `/reset`
  clears the prompt too. `/system ` followed by nothing sets an empty system object.
- Besides the system prompt, the settings the shell offers are the model, the key, the
  endpoint and the usage display. There is no other setting and no way to save or load a
  conversation.

## Model

| member | source | states |
|---|---|---|
| Text.Concat | chatgpt.c:58-71 | the result is the first string followed by the second, and its length is the sum of theirs |
| Text.FindFrom | chatgpt.c:91-92 | the result is the first occurrence of the needle at or after `from`, or none, with no occurrence before it |
| Text.Find | chatgpt.c:91-92 | `strstr`/`strchr`: there is a result exactly when the needle occurs; it is an occurrence; no earlier index is one |
| Commands.Argument | chatgpt.c:99-105 | no argument exactly when the line has no space; otherwise the text after the first space |
| Commands.ContainsStrBeforeSpaceMeaning | chatgpt.c:89-109 | no occurrence means no match. Without a space: match iff the name occurs anywhere. With a first space at `p`: match iff the first occurrence ends exactly at `p`. A match yields the text after the space; no match leaves the argument as it was |
| Commands.ContainsStrBeforeSpace | chatgpt.c:89-109 | the matcher itself, with the `strstr`/`strchr` results and the three return paths of the code; what a match means is stated by `ContainsStrBeforeSpaceMeaning`, `NamesBare` and `NamesWithArgument` |
| Commands.DispatchFromSelects | chatgpt.c:370-469 | from table entry `k` on: unknown exactly when no later entry is named; otherwise the first named entry's command with the line's argument |
| Commands.DispatchSelects | chatgpt.c:370-469 | unknown exactly when no command is named, with no argument then. Otherwise the first named entry in table order, with the text after the first space |
| Commands.Dispatch | chatgpt.c:370-469 | the `else if` chain over the nine commands in source order with `remaining_data` starting as NULL; its meaning is stated by `DispatchSelects`, `DispatchBare` and `DispatchWithArgument` |
| Commands.NamesBare | chatgpt.c:89-109 | a command name alone names itself and no other command of the table's shape that differs in its second or third character |
| Commands.NamesWithArgument | chatgpt.c:89-109 | a command name, a space and any text names that command and no other such command, whatever the text contains |
| Commands.TableDistinct | chatgpt.c:373-461 | any two command names differ in their second or third character |
| Commands.DispatchOnly | chatgpt.c:370-469 | a `/` line that names exactly entry `k` dispatches to entry `k` with its argument |
| Commands.DispatchBare | chatgpt.c:370-469 | typing a command name alone selects that command with no argument |
| Commands.DispatchWithArgument | chatgpt.c:370-469 | typing a command name, a space and any text selects that command with exactly that text |
| Commands.Candidates | chatgpt.c:292-296 | the candidates are exactly the table entries that the typed text is a prefix of |
| Commands.CountCandidates | chatgpt.c:288-296 | the counting loop returns the number of candidates |
| Commands.ListCandidates | chatgpt.c:313-315 | the listing loop returns the candidates in table order |
| Commands.Complete | chatgpt.c:283-321 | empty text gives nothing. Otherwise: no candidate rings the bell, one candidate is inserted, several are listed |
| Commands.Autocomplete | chatgpt.c:280-322 | the same rule over the nine alphabetically ordered commands |
| Commands.InsertIsUnique | chatgpt.c:299-308 | when one command is inserted, it is the only command the text is a prefix of |
| Escaping.EscapeChar | chatgpt.c:248-273 | the five special characters become two characters starting with a backslash; every other character is kept alone |
| Escaping.Escape | chatgpt.c:237-278 | the text `escape_string` returns, character by character; its meaning is stated by `EscapeLength`, `EscapeConcat`, `EscapeNoRawControl` and by the round trips `UnescapeEscape` and `EscapeUnescape` against the independent `Unescape` |
| Escaping.EscapeConcat | chatgpt.c:246-274 | escaping works character by character: the escape of a concatenation is the concatenation of the escapes |
| Escaping.EscapeLength | chatgpt.c:239-244 | the escaped length is the input length plus one per special character, the size the first pass allocates |
| Escaping.EscapeIdentity | chatgpt.c:270-272 | text without special characters is copied unchanged |
| Escaping.EscapeNoRawControl | chatgpt.c:258-269 | no raw line feed, carriage return or tab remains |
| Escaping.UnescapeEscape | chatgpt.c:237-278 | unescaping the escape gives back the original text |
| Escaping.EscapeUnescape | chatgpt.c:237-278 | every well-formed escaped text is the escape of what it unescapes to |
| Escaping.EscapeInjective | chatgpt.c:237-278 | different texts never escape to the same string |
| Escaping.PutEscaped | chatgpt.c:248-273 | one `switch` arm writes the character's escape at `j` and advances `j` by its length |
| Escaping.EscapeString | chatgpt.c:237-278 | the sizing pass and the fill pass produce exactly `Escape(str)`, of the length the sizing pass computed |
| Json.FirstMember | chatgpt.c:168 | an object lookup returns the value of the first member with the key, or nothing when no member has it |
| Extraction.Stripped | chatgpt.c:193-205 | the reply is a suffix of the content with at most two characters removed, all of them line feeds. If fewer than two were removed, the reply does not start with a line feed |
| Extraction.StripLeadingNewlines | chatgpt.c:193-205 | the advance-and-copy loop returns `Stripped(content)`, and the rewind loop brings the cursor back to 0 |
| Extraction.Extract | chatgpt.c:162-226 | unparsable input is a parse error. Success iff all six shape checks pass. A failure reports the first failing check's error. Success returns the stripped content and `total_tokens` |
| Extraction.ExtractContent | chatgpt.c:168-191 | the content cascade `choices` → `[0]` → `message` → `content`; its meaning is stated by `ContentWalk` and `ContentFailure` |
| Extraction.ExtractTotalTokens | chatgpt.c:207-219 | the usage cascade `usage` → `total_tokens`; its meaning is stated by `TokensWalk` and `TokensFailure` |
| Extraction.ChecksInOrder | chatgpt.c:162-219 | the content and token cascades succeed and fail exactly as the ordered check table says |
| Extraction.ContentWalk | chatgpt.c:168-191 | content extraction succeeds iff the first four checks pass, and then it is the string at `choices[0].message.content` |
| Extraction.ContentFailure | chatgpt.c:168-191 | a content failure carries the error of the first of the four checks that fails |
| Extraction.TokensWalk | chatgpt.c:207-219 | token extraction succeeds iff `usage` is an object and `usage.total_tokens` is a number, and yields that number |
| Extraction.TokensFailure | chatgpt.c:207-219 | with the content found, a token failure carries the error of the first failing usage check |
| Extraction.AddTokens | chatgpt.c:221-224 | the counter becomes `tokens + valueint` modulo 2^32, which is plain addition when it does not overflow |
| Extraction.Exchange | chatgpt.c:118-226 | a failed transfer is a transport error and a received body goes through `Extract`; `Shell.Perform` and `Session.Answers` state how its result reaches the shell |
| Buffers.GrowableString.constructor | chatgpt.c:46-56 | a fresh buffer of one NUL character with no contents |
| Buffers.GrowableString.Write | chatgpt.c:73-87 | the contents become the old contents followed by the first `size * nmemb` bytes, the buffer is NUL-terminated at the new length, and the byte count is returned |
| Buffers.FlattenPrefix | chatgpt.c:82 | each chunk lands after the chunks before it, and what was collected so far stays a prefix of the whole |
| Buffers.Collect | chatgpt.c:134-162 | a buffer fed one `writefunc` call per chunk holds exactly the chunks in order |
| Conversation.Message | chatgpt.c:477-479 | a message object is never empty |
| Conversation.SystemFragment | chatgpt.c:395-396 | the system object with the escaped prompt and its comma; `RenderPrepend` and `RequestBodyMessages` state that it puts the system turn first |
| Conversation.WithUser | chatgpt.c:475-479 | a comma unless the conversation is empty, then the escaped user object; its meaning is stated by `WithUserRenders` and `StepRequest` |
| Conversation.WithAssistant | chatgpt.c:499-501 | the escaped assistant object appended after the user object; its meaning is stated by `WithAssistantRenders` and `StepReply` |
| Conversation.RequestBody | chatgpt.c:481-488 | the body around the model, the system prompt when set, and the conversation; its meaning is stated by `RequestBodyMessages` and `StepRequest` |
| Conversation.Render | chatgpt.c:473-501 | a transcript renders to the empty string exactly when it has no turns |
| Conversation.RenderAppend | chatgpt.c:475-479 | appending a turn appends a comma and its object, or only its object to an empty list |
| Conversation.WithUserRenders | chatgpt.c:475-479 | adding the user object to a rendered transcript renders the transcript with a user turn appended |
| Conversation.WithAssistantRenders | chatgpt.c:499-501 | adding the assistant object renders the transcript with an assistant turn appended |
| Conversation.RenderPrepend | chatgpt.c:395-396 | a system object followed by its comma, then a rendered transcript, renders the transcript with the system turn in front |
| Conversation.RequestBodyMessages | chatgpt.c:481-488 | the body is `{"model": "<model>", "messages": [` + the rendered system turn (if any) and transcript + `]}` |
| Session.StepSendsOnlyPlainText | chatgpt.c:370-511 | a request is sent exactly for a non-empty line that does not start with `/` while a key is set, and sending never exits |
| Session.Initial | chatgpt.c:339-352 | the variables when `shell_mode` starts; `Shell.constructor` establishes them and `InitialRenders` states that they render no system turn and an empty transcript |
| Session.InitialRenders | chatgpt.c:339-352 | the shell starts with no system prompt and an empty transcript, so `RunPreservesRendering` applies from the first line |
| Session.Chomp | chatgpt.c:366-368 | the removal of one trailing line feed; its meaning is stated by `ChompDropsLineFeed` and `CommandLineSelects` |
| Session.ChompDropsLineFeed | chatgpt.c:366-368 | a line ending in a line feed loses exactly that one character; any other line is kept |
| Session.ParseShowUsage | chatgpt.c:440-451 | the value test of `/showusage <value>`; its meaning is stated by `ShowUsageCommand` |
| Session.ApplyCommand | chatgpt.c:373-469 | the field updates of each command branch; their meaning is stated by the per-command lemmas, `CommandPreservesRendering` and `Shell.ApplyCommandInPlace` |
| Session.RunCommand | chatgpt.c:370-469 | a `/` line dispatched and applied, sending nothing; its meaning is stated by `CommandStep`, `UnknownCommand` and `Shell.HandleCommand` |
| Session.Step | chatgpt.c:361-512 | one input line: the LF strip, then a command, a sent message, or nothing; its meaning is stated by `StepSendsOnlyPlainText`, `StepRequest`, `StepRollback`, `StepReply`, `StepTokens`, the per-command lemmas and `StepPreservesRendering` |
| Session.StepRequest | chatgpt.c:481-489 | the request carries the current key and endpoint, and the body built from the model, the system prompt and the conversation with the new user object |
| Session.StepRollback | chatgpt.c:473-495 | after a failed exchange the whole state is as before the line, including the conversation |
| Session.StepReply | chatgpt.c:496-501 | after a reply the conversation gains the user and the assistant object, the counter gains `total_tokens`, and nothing else changes |
| Session.StepTokens | chatgpt.c:221-224 | the token counter changes only on a successful exchange |
| Session.Send | chatgpt.c:471-503 | the user append, the request, and then the assistant append plus tokens or the rollback; its meaning is stated by `StepRequest`, `StepRollback`, `StepReply` and `SendPreservesRendering` |
| Session.CommandLineSelects | chatgpt.c:366-370 | a typed command line keeps its text after the line-feed strip, counts as a command, and dispatches to its entry with the typed argument |
| Session.CommandStep | chatgpt.c:370-469 | typing entry `k` applies that command with the typed argument, sends nothing, and exits only for `/exit` |
| Session.SystemCommand | chatgpt.c:387-398 | `/system` clears the system prompt; `/system <p>` stores the escaped system object with its comma; nothing else changes |
| Session.ModelCommand | chatgpt.c:399-409 | `/model` restores `gpt-3.5-turbo`; `/model <m>` sets `m`; nothing else changes |
| Session.ApiKeyCommand | chatgpt.c:410-420 | `/apikey` restores the starting key (possibly none); `/apikey <k>` sets `k`; nothing else changes |
| Session.EndpointCommand | chatgpt.c:421-431 | `/endpoint` restores the default URL; `/endpoint <u>` sets `u`; nothing else changes |
| Session.ShowUsageCommand | chatgpt.c:432-452 | `/showusage` sets true. `false`/`0` set false, `true`/`1` set true, and any other value leaves the flag unchanged |
| Session.ResetCommand | chatgpt.c:453-458 | `/reset`, with or without an argument, clears the conversation and the system prompt only |
| Session.HelpCommand | chatgpt.c:373-386 | `/help`, with or without an argument, changes no state, sends nothing and does not end the shell |
| Session.VersionCommand | chatgpt.c:459-460 | `/version` changes no state, sends nothing and does not end the shell |
| Session.ExitCommand | chatgpt.c:461-465 | `/exit` changes no state, sends nothing and ends the shell |
| Session.UnknownCommand | chatgpt.c:466-469 | a `/` line naming no command changes nothing and sends nothing |
| Session.SystemNamedWithoutSpace | chatgpt.c:370-393 | a space-less `/` line that contains `/system` and not `/help` clears the system prompt, changes nothing else and sends nothing |
| Session.SystemxClearsPrompt | chatgpt.c:370-393 | `/systemx` clears the system prompt as `/system` does |
| Session.CommandPreservesRendering | chatgpt.c:387-458 | a command keeps the transcript or clears it, and the system prompt stays the rendering of some system text |
| Session.SendPreservesRendering | chatgpt.c:471-503 | a request's messages are the system turn, the transcript and the new user turn. A reply extends the transcript by those two turns; a failure keeps it |
| Session.StepPreservesRendering | chatgpt.c:361-512 | every line keeps the conversation a rendered transcript (kept, cleared, or grown by a user and an assistant turn), with the system object first in every request |
| Session.ExitIsFinal | chatgpt.c:461-465 | after `/exit` the rest of the input changes nothing |
| Session.RequestsAccumulate | chatgpt.c:354-515 | requests are only appended, at most one per line, and nothing happens after the shell has exited |
| Session.Feed | chatgpt.c:354-515 | one more line read by the loop, nothing after `/exit`; its meaning is stated by `ExitIsFinal`, `RequestsAccumulate` and `Shell.Run` |
| Session.RunLines | chatgpt.c:354-515 | the loop over a finite input; its meaning is stated by `ExitIsFinal`, `RequestsAccumulate`, `RunPreservesRendering` and `Shell.Run` |
| Session.RunPreservesRendering | chatgpt.c:354-515 | over a whole session the conversation stays a rendered transcript |
| Session.Shell.constructor | chatgpt.c:337-352 | the shell starts with the default model and endpoint, the given key as current and original key, empty prompt and conversation, and usage shown |
| Session.Shell.Perform | chatgpt.c:162-226 | the reply is the extracted, stripped content, or none on any failure; the counter grows only on success |
| Session.Shell.HandleLine | chatgpt.c:363-511 | in-place handling of one line yields exactly the state, exit flag and request of `Step` |
| Session.Shell.HandleCommand | chatgpt.c:370-470 | the command branches yield `RunCommand` |
| Session.Shell.ApplyCommandInPlace | chatgpt.c:373-469 | each command's field updates yield `ApplyCommand` |
| Session.Shell.SetSystemPrompt | chatgpt.c:387-398 | the system prompt becomes empty or the escaped system object with its comma |
| Session.Shell.SendText | chatgpt.c:471-503 | sending in place yields exactly `Send`: request built, then appended reply or rollback |
| Session.Shell.AppendUser | chatgpt.c:475-479 | the conversation gains a comma (unless empty) and the escaped user object |
| Session.Shell.RenderRequest | chatgpt.c:481-488 | the body is built from the model, the system prompt if set, and the conversation |
| Session.Shell.AppendAssistant | chatgpt.c:499-501 | the conversation gains a comma and the escaped assistant object |
| Session.Shell.Run | chatgpt.c:354-515 | the read loop over the input yields exactly `RunLines`: final state, exit flag and requests in order |
| Cli.TrimAtLineBreak | chatgpt.c:574 | the key is a prefix of the line with no CR or LF, cut exactly at the first CR or LF |
| Cli.TrimKeyLine | chatgpt.c:564-574 | a key without line breaks, followed by a line ending or nothing, is read back exactly |
| Cli.TrimIdempotent | chatgpt.c:574 | trimming twice is trimming once |
| Cli.JoinArgs | chatgpt.c:583-589 | the loop joins every argument from index 0 on with single spaces |
| Cli.Joined | chatgpt.c:583-589 | the arguments joined with single spaces; its meaning is stated by `JoinedLength`, `JoinedDropFirst` and `JoinArgs` |
| Cli.JoinedLength | chatgpt.c:583-589 | the joined text starts with the first word, and its length is the words' lengths plus one space between neighbours |
| Cli.JoinedDropFirst | chatgpt.c:583-589 | the joined text is the first word, a space, and the join of the rest |
| Cli.AsWrittenSendsProgramName | chatgpt.c:583-594 | as written, the one-shot content starts with the program name |
| Cli.AsWrittenCounterexample | chatgpt.c:591-594 | as written, `chatgpt '"'` puts `chatgpt "` into the content, which no text escapes to |
| Cli.OneShotBodyAsWritten | chatgpt.c:583-594 | the body `main` sends for a one-shot prompt; `AsWrittenSendsProgramName` and `AsWrittenCounterexample` state what it contains |
| Cli.OneShotPrompt | chatgpt.c:525-531 | the prompt the help text promises: the words after the program name; `OneShotBodyIsShellRequest` states what the corrected body does with it |
| Cli.OneShotBody | chatgpt.c:591-594 | the corrected one-shot body, the prompt escaped; its meaning is stated by `OneShotBodyIsShellRequest` |
| Cli.OneShotBodyIsShellRequest | chatgpt.c:591-594 | the corrected one-shot body is the shell's request for the same prompt with the default model, and its content unescapes to the prompt |
| Cli.LaunchModes | chatgpt.c:521-596 | `--help` comes first. The shell starts without arguments unless the key file has no line. A prompt is sent with arguments and a key line. The key is the trimmed first line. The one-shot body is the code's: its content is the program name, a space and the joined arguments, unescaped |
| Cli.Launch | chatgpt.c:521-596 | the mode `main` chooses and the one-shot request it sends; its meaning is stated by `LaunchModes` |

## Left out

- The libcurl transfer (headers, timeout, error strings) is not modelled. Its outcome is the `Transport` parameter. `Buffers.Collect` shows how the body would accumulate.
- cJSON parsing is not modelled. A parsed reply is an abstract `Json` tree, and a parse failure is `Received(None)`. `number`'s `valueint` is used as an `int32`; the floating-point `valuedouble` is not modelled.
- readline, history, the prompt string `model> ` and the key bindings are not modelled. `autocomplete` returns what it would print or insert as a `Completion` value.
- Reading the key file (`getenv`, `getpwuid`, `fopen`, `getline`) is replaced by a `KeyFile` parameter. The `strcat` onto the `HOME` string is not modelled.
- All `printf` output is left out. This includes the help and version texts and the usage line after a reply.
- malloc/realloc failure and memory ownership are not modelled. `concat` returning `""` when `malloc` fails is not modelled either.
- `size_t` overflow in `writefunc` and `escape_string` is not modelled (lengths are unbounded naturals).
- At end of input, `shell_mode` leaves the inner loop and the outer `while (true)` calls readline again without end. `Session.Shell.Run` stops at the end of the given lines instead.
- Strings are modelled as sequences of characters that contain no NUL. C ends a string at its first NUL byte (`strlen` at chatgpt.c:239-240 and 246, `strcspn` at 574, `strlen` and `strcpy` at 201-202), so for a line or a reply with an embedded NUL the code stops earlier than the model. Bytes versus Unicode characters are not distinguished either.
- Characters other than the five special ones pass through the escaper raw, as in the code. The model does not claim the output is valid JSON for other control characters.
- Session.Shell.Run: one `Transport` is supplied for every line, and it is used only when that line is sent.

## Findings

| source | as written | input that shows it | evidently intended | confidence | as-written member | corrected member |
|---|---|---|---|---|---|---|
| chatgpt.c:583-589 | the join loop starts at index 0, so the program name becomes the first word of the prompt | `chatgpt Hi` sends the content `chatgpt Hi` | only the arguments after the program name form the prompt | not executed | Cli.AsWrittenSendsProgramName | Cli.OneShotBodyIsShellRequest |
| chatgpt.c:591-594 | the prompt is pasted into the JSON string without `escape_string` | `chatgpt '"'` puts `chatgpt "` into the content, which no text escapes to, so the body is not valid JSON | the prompt escaped as the shell escapes every message | not executed | Cli.AsWrittenCounterexample | Cli.OneShotBodyIsShellRequest |
