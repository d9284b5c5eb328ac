/** Recognising shell commands: `contains_str_before_space` (chatgpt.c:89-109), the order in which
    `shell_mode` tries the commands (chatgpt.c:373-469), and the prefix rule of `autocomplete`
    (chatgpt.c:280-322). */
module Commands {
  import opened Wrappers
  import opened Text

  /** The first space of `s` is at index `p`. */
  predicate FirstSpaceAt(s: string, p: int)
  {
    0 <= p < |s| && s[p] == ' ' && ' ' !in s[..p]
  }

  /** The first occurrence of `c` in `s` ends exactly at index `p`. */
  predicate FirstOccurrenceEndsAt(s: string, c: string, p: int)
  {
    |c| <= p && OccursAt(s, c, p - |c|) && forall i :: 0 <= i < p - |c| ==> !OccursAt(s, c, i)
  }

  /** `strchr(s, ' ')` finds the first space. */
  lemma FindSpace(s: string)
    ensures Find(s, " ").None? <==> ' ' !in s
    ensures Find(s, " ").Some? ==> FirstSpaceAt(s, Find(s, " ").value)
  {
    forall i ensures OccursAt(s, " ", i) <==> 0 <= i < |s| && s[i] == ' ' {
      OccursChar(s, ' ', i);
    }
    if Find(s, " ").Some? {
      var p := Find(s, " ").value;
      forall k | 0 <= k < p ensures s[..p][k] != ' ' {
        assert !OccursAt(s, " ", k);
      }
    }
  }

  /** There is only one first space. */
  lemma FirstSpaceUnique(s: string, p: int, q: int)
    requires FirstSpaceAt(s, p) && FirstSpaceAt(s, q)
    ensures p == q
  {
  }

  /** The argument of a command line: the suffix after the first space, which may be empty,
      or `None` when the line has no space. */
  function Argument(line: string): (r: Option<string>)
    ensures r.None? <==> ' ' !in line
    ensures forall p :: FirstSpaceAt(line, p) ==> r == Some(line[p + 1..])
  {
    FindSpace(line);
    match Find(line, " ")
    case None => None
    case Some(p) =>
      assert forall q :: FirstSpaceAt(line, q) ==> q == p by {
        forall q | FirstSpaceAt(line, q) ensures q == p { FirstSpaceUnique(line, p, q); }
      }
      Some(line[p + 1..])
  }

  /** Models `contains_str_before_space`: whether the line names `coincidence`, and the new
      value of `*remaining_data` (`remaining` is its value before the call). */
  function ContainsStrBeforeSpace(fullStr: string, coincidence: string, remaining: Option<string>): (bool, Option<string>)
  {
    var space := Find(fullStr, " ");
    var found := Find(fullStr, coincidence);
    if found.None? || (space.Some? && found.value + |coincidence| != space.value) then
      (false, remaining)
    else if space.None? || found.value < space.value then
      (true, if space.Some? then Some(fullStr[space.value + 1..]) else None)
    else
      (false, remaining)
  }

  /** A line without a space names `coincidence` when it occurs anywhere; a line with a space
      names it when its first occurrence ends exactly at the first space (so the empty string
      is never named there). A match sets `*remaining_data` to the argument, a miss leaves it. */
  lemma ContainsStrBeforeSpaceMeaning(fullStr: string, coincidence: string, remaining: Option<string>)
    ensures var r := ContainsStrBeforeSpace(fullStr, coincidence, remaining);
      ((forall i :: !OccursAt(fullStr, coincidence, i)) ==> !r.0) &&
      (' ' !in fullStr ==> (r.0 <==> exists i :: OccursAt(fullStr, coincidence, i))) &&
      (forall p :: FirstSpaceAt(fullStr, p) ==>
        (r.0 <==> coincidence != [] && FirstOccurrenceEndsAt(fullStr, coincidence, p))) &&
      (r.0 ==> r.1 == Argument(fullStr)) &&
      (!r.0 ==> r.1 == remaining)
  {
    FindSpace(fullStr);
    var space := Find(fullStr, " ");
    assert forall p :: FirstSpaceAt(fullStr, p) ==> space == Some(p) by {
      forall p | FirstSpaceAt(fullStr, p) ensures space == Some(p) { FirstSpaceUnique(fullStr, space.value, p); }
    }
  }

  /** A match sets `*remaining_data` to the text after the first space and a miss leaves it;
      whether it matches does not depend on `*remaining_data`. */
  lemma ContainsStrBeforeSpaceArgument(fullStr: string, coincidence: string, remaining: Option<string>)
    ensures var r := ContainsStrBeforeSpace(fullStr, coincidence, remaining);
      r.0 == Names(fullStr, coincidence) &&
      (r.0 ==> r.1 == Argument(fullStr)) &&
      (!r.0 ==> r.1 == remaining)
  {
    FindSpace(fullStr);
  }

  /** Whether a line names `command` (the returned flag does not depend on `remaining`). */
  predicate Names(line: string, command: string)
  {
    ContainsStrBeforeSpace(line, command, None).0
  }

  /** The commands `shell_mode` recognises. */
  datatype Command = Help | SetSystem | SetModel | SetApiKey | SetEndpoint | SetShowUsage | Reset | Version | Exit | Unknown

  /** The order in which `shell_mode` tries the commands. */
  const DispatchTable: seq<(string, Command)> := [
    ("/help", Help), ("/system", SetSystem), ("/model", SetModel), ("/apikey", SetApiKey),
    ("/endpoint", SetEndpoint), ("/showusage", SetShowUsage), ("/reset", Reset),
    ("/version", Version), ("/exit", Exit)]

  /** Entry `j` of `table` is the first entry from `k` on that the line names. */
  predicate FirstNamedFrom(table: seq<(string, Command)>, line: string, k: nat, j: nat)
    requires j < |table|
  {
    Names(line, table[j].0) && forall i :: k <= i < j ==> !Names(line, table[i].0)
  }

  /** The `else if` chain of `shell_mode` over the entries of `table` from `k` on, with
      `remaining_data` threaded through the calls. */
  function DispatchFrom(table: seq<(string, Command)>, line: string, k: nat, remaining: Option<string>): (Command, Option<string>)
    requires k <= |table|
    decreases |table| - k
  {
    if k == |table| then (Unknown, remaining)
    else
      var (matched, rest) := ContainsStrBeforeSpace(line, table[k].0, remaining);
      if matched then (table[k].1, rest) else DispatchFrom(table, line, k + 1, rest)
  }

  /** The chain from entry `k` on selects the first entry it reaches that the line names, with
      the suffix after the first space; when it names none, `remaining_data` is left as it was. */
  lemma {:induction false} DispatchFromSelects(table: seq<(string, Command)>, line: string, k: nat, remaining: Option<string>)
    requires k <= |table|
    requires forall j :: 0 <= j < |table| ==> table[j].1 != Unknown
    ensures var r := DispatchFrom(table, line, k, remaining);
      (r.0 == Unknown ==> r.1 == remaining) &&
      (r.0 == Unknown <==> forall j :: k <= j < |table| ==> !Names(line, table[j].0)) &&
      (r.0 != Unknown ==> r.1 == Argument(line)) &&
      (r.0 != Unknown ==> exists j :: k <= j < |table| && table[j].1 == r.0 && FirstNamedFrom(table, line, k, j))
    decreases |table| - k
  {
    if k < |table| {
      var (matched, rest) := ContainsStrBeforeSpace(line, table[k].0, remaining);
      ContainsStrBeforeSpaceArgument(line, table[k].0, remaining);
      if matched {
        assert FirstNamedFrom(table, line, k, k);
      } else {
        DispatchFromSelects(table, line, k + 1, rest);
        var r := DispatchFrom(table, line, k + 1, rest);
        if r.0 != Unknown {
          var j :| k + 1 <= j < |table| && table[j].1 == r.0 && FirstNamedFrom(table, line, k + 1, j);
          assert FirstNamedFrom(table, line, k, j);
        }
      }
    }
  }

  /** Every entry of the table is a command the shell knows. */
  lemma TableKnown()
    ensures forall j :: 0 <= j < |DispatchTable| ==> DispatchTable[j].1 != Unknown
  {
    forall j | 0 <= j < |DispatchTable| ensures DispatchTable[j].1 != Unknown {
      assert j in {0, 1, 2, 3, 4, 5, 6, 7, 8};
    }
  }

  /** The command a `/` line selects and its argument: the first table entry the line names,
      with the suffix after the first space, or `Unknown`. */
  function Dispatch(line: string): (Command, Option<string>)
  {
    DispatchFrom(DispatchTable, line, 0, None)
  }

  /** `Dispatch` selects the first entry the line names, with the suffix after the first
      space as its argument; a line that names no entry is `Unknown` with no argument. */
  lemma DispatchSelects(line: string)
    ensures var r := Dispatch(line);
      (r.0 == Unknown <==> forall j :: 0 <= j < |DispatchTable| ==> !Names(line, DispatchTable[j].0)) &&
      (r.0 == Unknown ==> r.1 == None) &&
      (r.0 != Unknown ==> r.1 == Argument(line)) &&
      (r.0 != Unknown ==> exists j :: 0 <= j < |DispatchTable| && DispatchTable[j].1 == r.0 && FirstNamedFrom(DispatchTable, line, 0, j))
  {
    TableKnown();
    DispatchFromSelects(DispatchTable, line, 0, None);
  }

  /** A command name: `/` followed by at least two lower-case letters. */
  predicate CommandShaped(name: string)
  {
    |name| >= 3 && name[0] == '/' && forall i :: 1 <= i < |name| ==> 'a' <= name[i] <= 'z'
  }

  lemma TableShaped()
    ensures forall j :: 0 <= j < |DispatchTable| ==> CommandShaped(DispatchTable[j].0)
  {
  }

  /** No two names agree on their second and third characters, so none is a prefix of another. */
  lemma TableDistinct()
    ensures forall j, k :: 0 <= j < |DispatchTable| && 0 <= k < |DispatchTable| && j != k ==>
      DispatchTable[j].0[1] != DispatchTable[k].0[1] || DispatchTable[j].0[2] != DispatchTable[k].0[2]
  {
    forall j, k | 0 <= j < |DispatchTable| && 0 <= k < |DispatchTable| && j != k
      ensures DispatchTable[j].0[1] != DispatchTable[k].0[1] || DispatchTable[j].0[2] != DispatchTable[k].0[2]
    {
      assert j in {0, 1, 2, 3, 4, 5, 6, 7, 8} && k in {0, 1, 2, 3, 4, 5, 6, 7, 8};
    }
  }

  /** In `name + rest`, a command name can only occur at index 0 or within `rest`. */
  lemma OccursOnlyAtStart(name: string, rest: string, other: string, i: int)
    requires CommandShaped(name) && CommandShaped(other)
    requires OccursAt(name + rest, other, i) && i < |name|
    ensures i == 0
  {
    assert (name + rest)[i..i + |other|][0] == other[0];
  }

  /** The line `name` or `name + " " + arg` names entry `k` and no other entry. */
  lemma NamesOnlyOwn(k: nat, j: nat, line: string, arg: Option<string>)
    requires k < |DispatchTable| && j < |DispatchTable|
    requires line == match arg case None => DispatchTable[k].0 case Some(a) => DispatchTable[k].0 + " " + a
    ensures Names(line, DispatchTable[j].0) <==> j == k
  {
    TableShaped();
    TableDistinct();
    NamesOnlyItself(DispatchTable[k].0, DispatchTable[j].0, line, arg);
  }

  /** A line made of a command name (and perhaps a space and an argument) names that command
      and no other command that differs from it in its second or third character. */
  lemma NamesOnlyItself(name: string, other: string, line: string, arg: Option<string>)
    requires CommandShaped(name) && CommandShaped(other)
    requires name == other || name[1] != other[1] || name[2] != other[2]
    requires line == match arg case None => name case Some(a) => name + " " + a
    ensures Names(line, other) <==> name == other
  {
    match arg
    case None => NamesBare(name, other);
    case Some(a) => NamesWithArgument(name, other, a);
  }

  /** A command name alone names itself, and no other command unless it starts with it. */
  lemma NamesBare(name: string, other: string)
    requires CommandShaped(name) && CommandShaped(other)
    requires name == other || name[1] != other[1] || name[2] != other[2]
    ensures Names(name, other) <==> name == other
  {
    ContainsStrBeforeSpaceMeaning(name, other, None);
    assert ' ' !in name by {
      assert forall i :: 0 <= i < |name| ==> name[i] != ' ';
    }
    assert name + [] == name;
    if name == other {
      assert OccursAt(name, other, 0) by { assert name[..|name|] == name; }
    } else if Names(name, other) {
      var i :| OccursAt(name, other, i);
      OccursOnlyAtStart(name, [], other, i);
      assert false;
    }
  }

  /** A command name followed by a space and an argument names that command and no other
      whose first occurrence could end at that space. */
  lemma NamesWithArgument(name: string, other: string, a: string)
    requires CommandShaped(name) && CommandShaped(other)
    requires name == other || name[1] != other[1] || name[2] != other[2]
    ensures Names(name + " " + a, other) <==> name == other
  {
    var line := name + " " + a;
    var p := |name|;
    ContainsStrBeforeSpaceMeaning(line, other, None);
    assert line[..p] == name;
    assert FirstSpaceAt(line, p) by {
      assert forall i :: 0 <= i < p ==> name[i] != ' ';
    }
    if name == other {
      assert OccursAt(line, other, 0);
      assert FirstOccurrenceEndsAt(line, other, p);
    } else if Names(line, other) {
      assert false;
    }
  }

  /** A line that names entry `k` and no other selects entry `k`, with its argument. */
  lemma DispatchOnly(line: string, k: nat)
    requires k < |DispatchTable|
    requires forall j :: 0 <= j < |DispatchTable| ==> (Names(line, DispatchTable[j].0) <==> j == k)
    ensures Dispatch(line) == (DispatchTable[k].1, Argument(line))
  {
    DispatchSelects(line);
    var r := Dispatch(line);
    assert Names(line, DispatchTable[k].0);
    assert r.0 != Unknown;
    var j :| 0 <= j < |DispatchTable| && DispatchTable[j].1 == r.0 && FirstNamedFrom(DispatchTable, line, 0, j);
    assert j == k;
  }

  /** Typing a command's name alone selects that command with no argument. */
  lemma DispatchBare(k: nat)
    requires k < |DispatchTable|
    ensures Dispatch(DispatchTable[k].0) == (DispatchTable[k].1, None)
  {
    var name := DispatchTable[k].0;
    forall j | 0 <= j < |DispatchTable| ensures Names(name, DispatchTable[j].0) <==> j == k {
      NamesOnlyOwn(k, j, name, None);
    }
    DispatchOnly(name, k);
    TableShaped();
    NoArgumentAfterName(name);
  }

  /** A command name alone has no argument. */
  lemma NoArgumentAfterName(name: string)
    requires CommandShaped(name)
    ensures Argument(name) == None
  {
    assert forall i :: 0 <= i < |name| ==> name[i] != ' ';
  }

  /** Typing a command's name, a space and `arg` selects that command with the argument
      `arg`, which may be empty. */
  lemma DispatchWithArgument(k: nat, arg: string)
    requires k < |DispatchTable|
    ensures Dispatch(DispatchTable[k].0 + " " + arg) == (DispatchTable[k].1, Some(arg))
  {
    var name := DispatchTable[k].0;
    var line := name + " " + arg;
    forall j | 0 <= j < |DispatchTable| ensures Names(line, DispatchTable[j].0) <==> j == k {
      NamesOnlyOwn(k, j, line, Some(arg));
    }
    DispatchOnly(line, k);
    TableShaped();
    ArgumentAfterName(name, arg);
  }

  /** After a command name and a space, the argument is everything that follows. */
  lemma ArgumentAfterName(name: string, arg: string)
    requires CommandShaped(name)
    ensures Argument(name + " " + arg) == Some(arg)
  {
    var line := name + " " + arg;
    assert forall i :: 0 <= i < |name| ==> name[i] != ' ';
    assert line[..|name|] == name;
    assert FirstSpaceAt(line, |name|);
    assert line[|name| + 1..] == arg;
  }

  /** The commands `autocomplete` offers, in its own (alphabetical) order. */
  const CompletionTable: seq<string> := [
    "/apikey", "/endpoint", "/exit", "/help", "/model", "/reset", "/showusage", "/system", "/version"]

  /** What `autocomplete` does to the line being edited: nothing for an empty word, ring the
      bell when no command fits, insert the one command that fits, or list all that fit. */
  datatype Completion = NoCompletion | Bell | Insert(command: string) | ListAll(commands: seq<string>)

  /** The commands of `commands` that start with `text`, in order. */
  function Candidates(text: string, commands: seq<string>): (r: seq<string>)
    ensures |r| <= |commands|
    ensures forall c :: c in r <==> c in commands && IsPrefix(text, c)
  {
    if commands == [] then []
    else
      var last := commands[|commands| - 1];
      Candidates(text, commands[..|commands| - 1]) + (if IsPrefix(text, last) then [last] else [])
  }

  /** The candidates among the first `n` commands are a prefix of all the candidates. */
  lemma {:induction false} CandidatesPrefix(text: string, commands: seq<string>, n: nat)
    requires n <= |commands|
    ensures Candidates(text, commands[..n]) <= Candidates(text, commands)
    decreases |commands| - n
  {
    if n < |commands| {
      CandidatesPrefix(text, commands, n + 1);
      assert commands[..n + 1][..n] == commands[..n];
    } else {
      assert commands[..n] == commands;
    }
  }

  /** The counting loop of `autocomplete` (chatgpt.c:291-296). */
  method CountCandidates(text: string, commands: seq<string>) returns (total: nat)
    ensures total == |Candidates(text, commands)|
  {
    total := 0;
    var i := 0;
    while i < |commands|
      invariant 0 <= i <= |commands|
      invariant total == |Candidates(text, commands[..i])|
    {
      assert commands[..i + 1][..i] == commands[..i];
      if IsPrefix(text, commands[i]) {
        total := total + 1;
      }
      i := i + 1;
    }
    assert commands[..i] == commands;
  }

  /** The listing loop of `autocomplete` (chatgpt.c:313-315). */
  method ListCandidates(text: string, commands: seq<string>) returns (listed: seq<string>)
    ensures listed == Candidates(text, commands)
  {
    listed := [];
    var i := 0;
    while i < |commands|
      invariant 0 <= i <= |commands|
      invariant listed == Candidates(text, commands[..i])
    {
      assert commands[..i + 1][..i] == commands[..i];
      if IsPrefix(text, commands[i]) {
        listed := listed + [commands[i]];
      }
      i := i + 1;
    }
    assert commands[..i] == commands;
  }

  /** The prefix-count rule of `autocomplete` over a command table: count the commands
      `text` is a prefix of (`strncmp` over `text`'s length), then act on the count. */
  method Complete(text: string, commands: seq<string>) returns (c: Completion)
    ensures |text| == 0 ==> c == NoCompletion
    ensures |text| > 0 && Candidates(text, commands) == [] ==> c == Bell
    ensures |text| > 0 && |Candidates(text, commands)| == 1 ==> c == Insert(Candidates(text, commands)[0])
    ensures |text| > 0 && |Candidates(text, commands)| > 1 ==> c == ListAll(Candidates(text, commands))
  {
    if |text| < 1 {
      return NoCompletion;
    }
    var total := CountCandidates(text, commands);
    var i;
    if total == 0 {
      c := Bell;
    } else if total == 1 {
      c := Bell;
      i := 0;
      assert commands[..|commands|] == commands;
      while i < |commands|
        invariant 0 <= i <= |commands|
        invariant Candidates(text, commands[..i]) == []
        invariant c == Bell
      {
        assert commands[..i + 1][..i] == commands[..i];
        if IsPrefix(text, commands[i]) {
          CandidatesPrefix(text, commands, i + 1);
          assert Candidates(text, commands[..i + 1]) == [commands[i]];
          assert Candidates(text, commands)[0] == commands[i];
          c := Insert(commands[i]);
          break;
        }
        i := i + 1;
      }
    } else {
      var listed := ListCandidates(text, commands);
      c := ListAll(listed);
    }
  }

  /** Models `autocomplete` on its nine-entry table. */
  method Autocomplete(text: string) returns (c: Completion)
    ensures |text| == 0 ==> c == NoCompletion
    ensures |text| > 0 && Candidates(text, CompletionTable) == [] ==> c == Bell
    ensures |text| > 0 && |Candidates(text, CompletionTable)| == 1 ==> c == Insert(Candidates(text, CompletionTable)[0])
    ensures |text| > 0 && |Candidates(text, CompletionTable)| > 1 ==> c == ListAll(Candidates(text, CompletionTable))
  {
    c := Complete(text, CompletionTable);
  }

  /** When `autocomplete` inserts a command, it is the one command the word is a prefix of. */
  lemma InsertIsUnique(text: string, command: string)
    requires |Candidates(text, CompletionTable)| == 1 && Candidates(text, CompletionTable)[0] == command
    ensures forall x :: x in CompletionTable && IsPrefix(text, x) <==> x == command
  {
    assert command in Candidates(text, CompletionTable);
  }
}
