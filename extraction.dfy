/** The response half of `chatgpt_curl_perform` (chatgpt.c:162-226): walk the decoded reply to
    `choices[0].message.content` and `usage.total_tokens`, strip leading newlines, and add the
    usage to the running token total. */
module Extraction {
  import opened Wrappers
  import opened Json

  /** A C `unsigned int`, the type of the global `tokens` counter. */
  type uint32 = x: int | 0 <= x < 0x1_0000_0000

  /** Why no reply was returned: each way `chatgpt_curl_perform` returns NULL. */
  datatype ExtractError =
    | TransportError        // curl_easy_init or curl_easy_perform failed
    | ParseError            // cJSON_Parse returned NULL
    | ChoicesNotArray
    | ChoiceNotObject
    | MessageNotObject
    | ContentNotString
    | UsageNotObject
    | TotalTokensNotNumber

  /** What the transport delivered: a failure, or a body that cJSON decoded (`None` when the
      body did not parse). */
  datatype Transport = TransportFailed | Received(parsed: Option<Json>)

  /** A successful reply: the text shown to the user and the reported usage. */
  datatype Reply = Reply(text: string, totalTokens: int32)

  /** The reply text: `content` with at most two leading line feeds removed. */
  function Stripped(content: string): (reply: string)
    ensures |content| - 2 <= |reply| <= |content|
    ensures reply == content[|content| - |reply|..]
    ensures forall i :: 0 <= i < |content| - |reply| ==> content[i] == '\n'
    ensures |content| - |reply| < 2 ==> reply == [] || reply[0] != '\n'
  {
    if |content| > 0 && content[0] == '\n' then
      if |content| > 1 && content[1] == '\n' then content[2..] else content[1..]
    else content
  }

  /** Models chatgpt.c:193-205: advance `content->valuestring` past at most two line feeds,
      copy the rest out, then move the cursor back as many steps as it advanced. Returns
      the copy and the cursor's final offset into `content`. */
  method StripLeadingNewlines(content: string) returns (reply: string, cursor: nat)
    ensures reply == Stripped(content)
    ensures cursor == 0
  {
    var p := 0;
    var i := 0;
    while i < 2
      invariant 0 <= i <= 2 && p == i && p <= |content|
      invariant forall k :: 0 <= k < p ==> content[k] == '\n'
    {
      if p < |content| && content[p] == '\n' {
        p := p + 1;
      } else {
        break;
      }
      i := i + 1;
    }
    reply := content[p..];
    while i > 0
      invariant 0 <= i <= p
      invariant p == i
    {
      p := p - 1;
      i := i - 1;
    }
    cursor := p;
  }

  /** Steps chatgpt.c:168-191: `choices` is an array, its item 0 an object with an object
      `message` holding a string `content`. */
  function ExtractContent(root: Json): Result<string, ExtractError>
  {
    var choices := GetObjectItem(Some(root), "choices");
    if !IsArray(choices) then Err(ChoicesNotArray)
    else
      var choice := GetArrayItem(choices, 0);
      if !IsObject(choice) then Err(ChoiceNotObject)
      else
        var message := GetObjectItem(choice, "message");
        if !IsObject(message) then Err(MessageNotObject)
        else
          var content := GetObjectItem(message, "content");
          if !IsString(content) then Err(ContentNotString)
          else Ok(content.value.valuestring)
  }

  /** Steps chatgpt.c:207-219: the root has an object `usage` with a number `total_tokens`. */
  function ExtractTotalTokens(root: Json): Result<int32, ExtractError>
  {
    var usage := GetObjectItem(Some(root), "usage");
    if !IsObject(usage) then Err(UsageNotObject)
    else
      var total := GetObjectItem(usage, "total_tokens");
      if !IsNumber(total) then Err(TotalTokensNotNumber)
      else Ok(total.value.valueint)
  }

  /** One step into a JSON value: a member by key or an array item by position. */
  datatype Selector = Key(key: string) | Index(index: nat)

  /** One step from a value that exists. */
  function Select(v: Json, step: Selector): Option<Json>
  {
    match step
    case Key(k) => GetObjectItem(Some(v), k)
    case Index(n) => GetArrayItem(Some(v), n)
  }

  /** One step from a value that may be missing; a missing value stays missing. */
  function Then(j: Option<Json>, step: Selector): Option<Json>
  {
    match j
    case None => None
    case Some(v) => Select(v, step)
  }

  /** The value reached from `j` by following `path`, if every step exists. */
  function Follow(j: Json, path: seq<Selector>): Option<Json>
    decreases |path|
  {
    if path == [] then Some(j)
    else
      match Select(j, path[0])
      case None => None
      case Some(child) => Follow(child, path[1..])
  }

  datatype Kind = ArrayKind | ObjectKind | StringKind | NumberKind

  predicate HasKind(j: Option<Json>, kind: Kind)
  {
    match kind
    case ArrayKind => IsArray(j)
    case ObjectKind => IsObject(j)
    case StringKind => IsString(j)
    case NumberKind => IsNumber(j)
  }

  /** A shape requirement on the response and the error reported when it is the first to fail. */
  datatype Check = Check(path: seq<Selector>, kind: Kind, error: ExtractError)

  const ContentPath: seq<Selector> := [Key("choices"), Index(0), Key("message"), Key("content")]
  const TokensPath: seq<Selector> := [Key("usage"), Key("total_tokens")]

  /** The requirements in the order the extractor tests them. */
  const Checks: seq<Check> := [
    Check(ContentPath[..1], ArrayKind, ChoicesNotArray),
    Check(ContentPath[..2], ObjectKind, ChoiceNotObject),
    Check(ContentPath[..3], ObjectKind, MessageNotObject),
    Check(ContentPath, StringKind, ContentNotString),
    Check(TokensPath[..1], ObjectKind, UsageNotObject),
    Check(TokensPath, NumberKind, TotalTokensNotNumber)]

  predicate Passes(root: Json, c: Check)
  {
    HasKind(Follow(root, c.path), c.kind)
  }

  /** Models the extraction in `chatgpt_curl_perform`: a reply exactly when every shape
      requirement holds, the error of the first one that fails otherwise. */
  function Extract(parsed: Option<Json>): (r: Result<Reply, ExtractError>)
    ensures parsed.None? ==> r == Err(ParseError)
    ensures parsed.Some? ==> (r.Ok? <==> forall i :: 0 <= i < |Checks| ==> Passes(parsed.value, Checks[i]))
    ensures parsed.Some? && r.Err? ==> exists i :: 0 <= i < |Checks| && FirstFailing(parsed.value, i) && r.error == Checks[i].error
    ensures r.Ok? ==> IsString(Follow(parsed.value, ContentPath)) && IsNumber(Follow(parsed.value, TokensPath))
    ensures r.Ok? ==> r.value == Reply(Stripped(Follow(parsed.value, ContentPath).value.valuestring),
                                       Follow(parsed.value, TokensPath).value.valueint)
  {
    match parsed
    case None => Err(ParseError)
    case Some(root) =>
      ChecksInOrder(root);
      match ExtractContent(root)
      case Err(e) => Err(e)
      case Ok(content) =>
        var reply := Stripped(content);
        match ExtractTotalTokens(root)
        case Err(e) => Err(e)
        case Ok(total) => Ok(Reply(reply, total))
  }

  /** Requirement `i` is the first to fail. */
  predicate FirstFailing(root: Json, i: nat)
    requires i < |Checks|
  {
    !Passes(root, Checks[i]) && forall k :: 0 <= k < i ==> Passes(root, Checks[k])
  }

  /** The result of the two walks, stated over the table of requirements. */
  lemma ChecksInOrder(root: Json)
    ensures var content, total := ExtractContent(root), ExtractTotalTokens(root);
      ((content.Ok? && total.Ok?) <==> forall i :: 0 <= i < |Checks| ==> Passes(root, Checks[i])) &&
      (content.Err? ==> exists i :: 0 <= i < 4 && FirstFailing(root, i) && content.error == Checks[i].error) &&
      (content.Ok? && total.Err? ==> exists i :: 4 <= i < 6 && FirstFailing(root, i) && total.error == Checks[i].error) &&
      (content.Ok? ==> Follow(root, ContentPath) == Some(JString(content.value))) &&
      (total.Ok? ==> Follow(root, TokensPath) == Some(JNumber(total.value)))
  {
    ContentWalk(root);
    ContentFailure(root);
    TokensWalk(root);
    TokensFailure(root);
    AllPass(root);
  }

  lemma ContentWalk(root: Json)
    ensures ExtractContent(root).Ok? <==>
      Passes(root, Checks[0]) && Passes(root, Checks[1]) && Passes(root, Checks[2]) && Passes(root, Checks[3])
    ensures ExtractContent(root).Ok? ==> Follow(root, ContentPath) == Some(JString(ExtractContent(root).value))
  {
    ContentUnfold(root);
  }

  lemma ContentFailure(root: Json)
    ensures ExtractContent(root).Err? ==>
      exists i :: 0 <= i < 4 && FirstFailing(root, i) && ExtractContent(root).error == Checks[i].error
  {
    ContentUnfold(root);
    var e := ExtractContent(root);
    var i: nat := if !Passes(root, Checks[0]) then 0
      else if !Passes(root, Checks[1]) then 1
      else if !Passes(root, Checks[2]) then 2
      else 3;
    if e.Err? {
      assert e.error == Checks[i].error;
      assert FirstFailing(root, i);
    }
  }

  lemma TokensWalk(root: Json)
    ensures ExtractTotalTokens(root).Ok? <==> Passes(root, Checks[4]) && Passes(root, Checks[5])
    ensures ExtractTotalTokens(root).Ok? ==> Follow(root, TokensPath) == Some(JNumber(ExtractTotalTokens(root).value))
  {
    TokensUnfold(root);
  }

  lemma TokensFailure(root: Json)
    ensures ExtractContent(root).Ok? && ExtractTotalTokens(root).Err? ==>
      exists i :: 4 <= i < 6 && FirstFailing(root, i) && ExtractTotalTokens(root).error == Checks[i].error
  {
    if ExtractContent(root).Ok? && ExtractTotalTokens(root).Err? {
      FirstFourPass(root);
      TokensUnfold(root);
      var i: nat := if !Passes(root, Checks[4]) then 4 else 5;
      assert ExtractTotalTokens(root).error == Checks[i].error;
      assert FirstFailing(root, i);
    }
  }

  /** Found content means the first four requirements hold. */
  lemma FirstFourPass(root: Json)
    requires ExtractContent(root).Ok?
    ensures forall k :: 0 <= k < 4 ==> Passes(root, Checks[k])
  {
    ContentWalk(root);
    forall k | 0 <= k < 4 ensures Passes(root, Checks[k]) {
      assert k in {0, 1, 2, 3};
    }
  }

  /** All six requirements, written out. */
  lemma AllPass(root: Json)
    ensures (forall i :: 0 <= i < |Checks| ==> Passes(root, Checks[i])) <==>
      Passes(root, Checks[0]) && Passes(root, Checks[1]) && Passes(root, Checks[2]) &&
      Passes(root, Checks[3]) && Passes(root, Checks[4]) && Passes(root, Checks[5])
  {
    if Passes(root, Checks[0]) && Passes(root, Checks[1]) && Passes(root, Checks[2]) &&
       Passes(root, Checks[3]) && Passes(root, Checks[4]) && Passes(root, Checks[5])
    {
      forall i | 0 <= i < |Checks| ensures Passes(root, Checks[i]) {
        assert i in {0, 1, 2, 3, 4, 5};
      }
    }
  }

  /** The four content requirements in terms of the cJSON accessors the extractor calls. */
  lemma ContentUnfold(root: Json)
    ensures Passes(root, Checks[0]) == IsArray(GetObjectItem(Some(root), "choices"))
    ensures Passes(root, Checks[1]) == IsObject(GetArrayItem(GetObjectItem(Some(root), "choices"), 0))
    ensures Passes(root, Checks[2]) == IsObject(GetObjectItem(GetArrayItem(GetObjectItem(Some(root), "choices"), 0), "message"))
    ensures Passes(root, Checks[3]) ==
      IsString(GetObjectItem(GetObjectItem(GetArrayItem(GetObjectItem(Some(root), "choices"), 0), "message"), "content"))
    ensures Follow(root, ContentPath) ==
      GetObjectItem(GetObjectItem(GetArrayItem(GetObjectItem(Some(root), "choices"), 0), "message"), "content")
  {
    assert Checks[0] == Check(ContentPath[..1], ArrayKind, ChoicesNotArray);
    assert Checks[1] == Check(ContentPath[..2], ObjectKind, ChoiceNotObject);
    assert Checks[2] == Check(ContentPath[..3], ObjectKind, MessageNotObject);
    assert Checks[3] == Check(ContentPath, StringKind, ContentNotString);
    FollowContent(root);
  }

  /** The two usage requirements in terms of the cJSON accessors the extractor calls. */
  lemma TokensUnfold(root: Json)
    ensures Passes(root, Checks[4]) == IsObject(GetObjectItem(Some(root), "usage"))
    ensures Passes(root, Checks[5]) == IsNumber(GetObjectItem(GetObjectItem(Some(root), "usage"), "total_tokens"))
    ensures Follow(root, TokensPath) == GetObjectItem(GetObjectItem(Some(root), "usage"), "total_tokens")
  {
    assert Checks[4] == Check(TokensPath[..1], ObjectKind, UsageNotObject);
    assert Checks[5] == Check(TokensPath, NumberKind, TotalTokensNotNumber);
    FollowTokens(root);
  }

  lemma FollowContent(root: Json)
    ensures Follow(root, ContentPath[..1]) == GetObjectItem(Some(root), "choices")
    ensures Follow(root, ContentPath[..2]) == GetArrayItem(GetObjectItem(Some(root), "choices"), 0)
    ensures Follow(root, ContentPath[..3]) == GetObjectItem(GetArrayItem(GetObjectItem(Some(root), "choices"), 0), "message")
    ensures Follow(root, ContentPath) ==
      GetObjectItem(GetObjectItem(GetArrayItem(GetObjectItem(Some(root), "choices"), 0), "message"), "content")
  {
    var p := ContentPath;
    assert p[0] == Key("choices") && p[1] == Index(0) && p[2] == Key("message") && p[3] == Key("content");
    assert p[..4] == p;
    FollowPrefix(root, p, 1, Key("choices"));
    FollowPrefix(root, p, 2, Index(0));
    FollowPrefix(root, p, 3, Key("message"));
    FollowPrefix(root, p, 4, Key("content"));
  }

  /** `FollowStep` with the step written as the cJSON accessor it stands for. */
  lemma FollowPrefix(j: Json, path: seq<Selector>, n: nat, step: Selector)
    requires 0 < n <= |path| && path[n - 1] == step
    ensures Follow(j, path[..n]) == match step
      case Key(k) => GetObjectItem(Follow(j, path[..n - 1]), k)
      case Index(m) => GetArrayItem(Follow(j, path[..n - 1]), m)
  {
    FollowStep(j, path, n);
  }

  lemma FollowTokens(root: Json)
    ensures Follow(root, TokensPath[..1]) == GetObjectItem(Some(root), "usage")
    ensures Follow(root, TokensPath) == GetObjectItem(GetObjectItem(Some(root), "usage"), "total_tokens")
  {
    var p := TokensPath;
    assert p[0] == Key("usage") && p[1] == Key("total_tokens");
    assert p[..2] == p;
    FollowPrefix(root, p, 1, Key("usage"));
    FollowPrefix(root, p, 2, Key("total_tokens"));
  }

  /** Following one more step of a path is following the shorter path and then that step. */
  lemma {:induction false} FollowStep(j: Json, path: seq<Selector>, n: nat)
    requires 0 < n <= |path|
    ensures Follow(j, path[..n]) == Then(Follow(j, path[..n - 1]), path[n - 1])
    decreases n
  {
    assert path[..n][0] == path[0];
    assert path[..n][1..] == path[1..][..n - 1];
    if n > 1 {
      assert path[..n - 1][0] == path[0];
      assert path[..n - 1][1..] == path[1..][..n - 2];
      var next := Select(j, path[0]);
      if next.Some? {
        FollowStep(next.value, path[1..], n - 1);
      }
    }
  }

  /** The shell's answer to a request: the reply text, or the reason it failed. */
  function Exchange(net: Transport): Result<Reply, ExtractError>
  {
    match net
    case TransportFailed => Err(TransportError)
    case Received(parsed) => Extract(parsed)
  }

  /** chatgpt.c:223 adds the `total_tokens` number to the global `unsigned int` counter, so
      the sum wraps modulo 2^32. */
  function AddTokens(tokens: uint32, total: int32): (r: uint32)
    ensures 0 <= total && tokens + total < 0x1_0000_0000 ==> r == tokens + total
    ensures r == (tokens + total) % 0x1_0000_0000
  {
    (tokens + total) % 0x1_0000_0000
  }
}
