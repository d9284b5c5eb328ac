/** The JSON string escaper `escape_string` (chatgpt.c:237-278). */
module Escaping {
  import opened Wrappers

  /** The five characters `escape_string` rewrites into a backslash pair. */
  predicate IsSpecial(c: char)
  {
    c == '"' || c == '\\' || c == '\n' || c == '\r' || c == '\t'
  }

  /** What one input character becomes (the `switch` at chatgpt.c:248-273). */
  function EscapeChar(c: char): (r: string)
    ensures |r| == if IsSpecial(c) then 2 else 1
    ensures IsSpecial(c) <==> r[0] == '\\'
    ensures !IsSpecial(c) ==> r == [c]
    ensures IsSpecial(c) ==> UnescapePair(r[1]) == Some(c)
  {
    match c
    case '"' => "\\\""
    case '\\' => "\\\\"
    case '\n' => "\\n"
    case '\r' => "\\r"
    case '\t' => "\\t"
    case _ => [c]
  }

  /** The escaped form of `s`: every character rewritten by `EscapeChar`, in order. */
  function Escape(s: string): string
  {
    if s == [] then [] else EscapeChar(s[0]) + Escape(s[1..])
  }

  /** How many characters of `s` are special. */
  function CountSpecial(s: string): nat
  {
    if s == [] then 0 else (if IsSpecial(s[0]) then 1 else 0) + CountSpecial(s[1..])
  }

  /** The character a backslash pair stands for, for the five pairs `Escape` produces. */
  function UnescapePair(c: char): Option<char>
  {
    match c
    case '"' => Some('"')
    case '\\' => Some('\\')
    case 'n' => Some('\n')
    case 'r' => Some('\r')
    case 't' => Some('\t')
    case _ => None
  }

  /** Reverses exactly the five two-character sequences; a lone backslash, any other pair,
      or a raw special character make the text ill-formed. */
  function Unescape(t: string): Option<string>
    decreases |t|
  {
    if t == [] then Some([])
    else if t[0] == '\\' then
      if |t| < 2 then None
      else
        match UnescapePair(t[1])
        case None => None
        case Some(c) =>
          match Unescape(t[2..])
          case None => None
          case Some(rest) => Some([c] + rest)
    else if IsSpecial(t[0]) then None
    else
      match Unescape(t[1..])
      case None => None
      case Some(rest) => Some([t[0]] + rest)
  }

  /** Escaping distributes over concatenation, so it works character by character in order. */
  lemma {:induction false} EscapeConcat(a: string, b: string)
    ensures Escape(a + b) == Escape(a) + Escape(b)
  {
    if a == [] {
      assert a + b == b;
    } else {
      assert (a + b)[0] == a[0];
      assert (a + b)[1..] == a[1..] + b;
      EscapeConcat(a[1..], b);
    }
  }

  lemma {:induction false} CountSpecialConcat(a: string, b: string)
    ensures CountSpecial(a + b) == CountSpecial(a) + CountSpecial(b)
  {
    if a == [] {
      assert a + b == b;
    } else {
      assert (a + b)[0] == a[0];
      assert (a + b)[1..] == a[1..] + b;
      CountSpecialConcat(a[1..], b);
    }
  }

  /** The output is the input's length plus one for every special character. */
  lemma {:induction false} EscapeLength(s: string)
    ensures |Escape(s)| == |s| + CountSpecial(s)
  {
    if s != [] {
      EscapeLength(s[1..]);
    }
  }

  /** A string without special characters is copied unchanged. */
  lemma {:induction false} EscapeIdentity(s: string)
    requires forall i :: 0 <= i < |s| ==> !IsSpecial(s[i])
    ensures Escape(s) == s
  {
    if s != [] {
      assert !IsSpecial(s[0]);
      EscapeIdentity(s[1..]);
      assert s == [s[0]] + s[1..];
    }
  }

  /** No raw line feed, carriage return or tab survives escaping. */
  lemma {:induction false} EscapeNoRawControl(s: string)
    ensures forall i :: 0 <= i < |Escape(s)| ==> Escape(s)[i] != '\n' && Escape(s)[i] != '\r' && Escape(s)[i] != '\t'
  {
    if s != [] {
      EscapeNoRawControl(s[1..]);
      var head, tail := EscapeChar(s[0]), Escape(s[1..]);
      forall i | 0 <= i < |head + tail|
        ensures (head + tail)[i] != '\n' && (head + tail)[i] != '\r' && (head + tail)[i] != '\t'
      {
        if i >= |head| {
          assert (head + tail)[i] == tail[i - |head|];
        }
      }
    }
  }

  /** Round trip: unescaping the escaped text gives back the original. */
  lemma {:induction false} UnescapeEscape(s: string)
    ensures Unescape(Escape(s)) == Some(s)
  {
    if s != [] {
      var head, tail := EscapeChar(s[0]), Escape(s[1..]);
      UnescapeEscape(s[1..]);
      var t := head + tail;
      if IsSpecial(s[0]) {
        assert t[0] == '\\' && t[1] == head[1];
        assert t[2..] == tail;
      } else {
        assert t[0] == s[0];
        assert t[1..] == tail;
      }
      assert s == [s[0]] + s[1..];
    }
  }

  /** Every well-formed escaped text is the escape of what it unescapes to. */
  lemma {:induction false} EscapeUnescape(t: string, s: string)
    requires Unescape(t) == Some(s)
    ensures Escape(s) == t
    decreases |t|
  {
    if t != [] {
      if t[0] == '\\' {
        var rest := Unescape(t[2..]).value;
        EscapeUnescape(t[2..], rest);
        assert s == [s[0]] + rest;
        assert s[1..] == rest;
        assert t == t[..2] + t[2..];
        assert EscapeChar(s[0]) == t[..2];
      } else {
        var rest := Unescape(t[1..]).value;
        EscapeUnescape(t[1..], rest);
        assert s[1..] == rest;
        assert t == [t[0]] + t[1..];
      }
    }
  }

  /** Escaping is injective: different texts never produce the same escaped form. */
  lemma EscapeInjective(a: string, b: string)
    requires Escape(a) == Escape(b)
    ensures a == b
  {
    UnescapeEscape(a);
    UnescapeEscape(b);
  }

  /** One arm of the `switch` in `escape_string` (chatgpt.c:248-273): writes the escaped form
      of `c` at index `j` and returns the advanced index. */
  method PutEscaped(buffer: array<char>, j: nat, c: char) returns (next: nat)
    requires j + |EscapeChar(c)| <= buffer.Length
    modifies buffer
    ensures next == j + |EscapeChar(c)|
    ensures buffer[..next] == old(buffer[..j]) + EscapeChar(c)
    ensures buffer[next..] == old(buffer[next..])
  {
    next := j;
    match c {
      case '"' =>
        buffer[next] := '\\'; next := next + 1;
        buffer[next] := '"'; next := next + 1;
      case '\\' =>
        buffer[next] := '\\'; next := next + 1;
        buffer[next] := '\\'; next := next + 1;
      case '\n' =>
        buffer[next] := '\\'; next := next + 1;
        buffer[next] := 'n'; next := next + 1;
      case '\r' =>
        buffer[next] := '\\'; next := next + 1;
        buffer[next] := 'r'; next := next + 1;
      case '\t' =>
        buffer[next] := '\\'; next := next + 1;
        buffer[next] := 't'; next := next + 1;
      case _ =>
        buffer[next] := c; next := next + 1;
    }
  }

  /** Models `escape_string`: a first loop sizes the buffer, a second fills it with a running
      index `j`; the result is the NUL-terminated buffer's contents. */
  method EscapeString(str: string) returns (escaped: string)
    ensures escaped == Escape(str)
    ensures |escaped| == |str| + CountSpecial(str)
  {
    var newLen := |str|;
    var i := 0;
    while i < |str|
      invariant 0 <= i <= |str|
      invariant newLen == |str| + CountSpecial(str[..i])
    {
      CountSpecialConcat(str[..i], [str[i]]);
      assert str[..i + 1] == str[..i] + [str[i]];
      if IsSpecial(str[i]) {
        newLen := newLen + 1;
      }
      i := i + 1;
    }
    assert str[..|str|] == str;
    EscapeLength(str);

    var buffer := new char[newLen + 1];
    var j := 0;
    i := 0;
    while i < |str|
      invariant 0 <= i <= |str|
      invariant j == |Escape(str[..i])|
      invariant j + |Escape(str[i..])| == newLen
      invariant buffer[..j] == Escape(str[..i])
    {
      EscapeConcat(str[..i], [str[i]]);
      assert str[..i + 1] == str[..i] + [str[i]];
      EscapeConcat([str[i]], str[i + 1..]);
      assert str[i..] == [str[i]] + str[i + 1..];
      assert Escape([str[i]]) == EscapeChar(str[i]);
      j := PutEscaped(buffer, j, str[i]);
      i := i + 1;
    }
    assert str[..|str|] == str;
    buffer[j] := '\0';
    escaped := buffer[..j];
  }
}
