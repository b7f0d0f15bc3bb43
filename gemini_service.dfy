/** The Gemini chat service: the conversation context sent to the model,
    the JSON request body written by hand, the server-sent-events reading
    loops and the extraction of the reply text from the response tree.
    HTTP, the emitter and the executor are replaced by parameters. */
module GeminiService {
  import opened Wrappers
  import opened JavaText
  import opened Store

  // ---------------------------------------------------------------------
  // Conversation context

  /** One entry of the context list: the map with "role" and "content". */
  datatype Turn = Turn(role: string, content: string)

  /** The system turns: one per prompt whose content is non-null and not
      empty once trimmed, in prompt order. */
  function SystemTurns(ps: seq<PromptText>): (r: seq<Turn>)
    ensures |r| <= |ps|
    ensures forall k :: 0 <= k < |r| ==> r[k].role == "system" && !TrimEmpty(r[k].content)
  {
    if ps == [] then []
    else
      var p := ps[|ps| - 1];
      SystemTurns(ps[..|ps| - 1])
      + (if p.content.Some? && !TrimEmpty(p.content.value) then [Turn("system", p.content.value)] else [])
  }

  /** A prompt is sent iff its content is non-null and not blank. */
  predicate Sent(p: PromptText) { p.content.Some? && !TrimEmpty(p.content.value) }

  /** Exactly the sayable prompts become system turns. */
  lemma {:induction false} SystemTurnsExact(ps: seq<PromptText>, c: string)
    ensures Turn("system", c) in SystemTurns(ps) <==> exists p :: p in ps && Sent(p) && p.content.value == c
  {
    if ps != [] {
      var n := |ps| - 1;
      SystemTurnsExact(ps[..n], c);
      assert ps == ps[..n] + [ps[n]];
      if exists p :: p in ps && Sent(p) && p.content.value == c {
        var p :| p in ps && Sent(p) && p.content.value == c;
        if p != ps[n] {
          assert p in ps[..n];
        }
      }
    }
  }

  /** The history turns: one per stored message whose text is not empty
      once trimmed, keeping the message's own role, in history order. */
  function HistoryTurns(ms: seq<BotMessage>): (r: seq<Turn>)
    ensures |r| <= |ms|
    ensures forall k :: 0 <= k < |r| ==> !TrimEmpty(r[k].content)
  {
    if ms == [] then []
    else
      var m := ms[|ms| - 1];
      HistoryTurns(ms[..|ms| - 1])
      + (if !TrimEmpty(m.message) then [Turn(m.role, m.message)] else [])
  }

  /** Exactly the non-blank messages become history turns, each with its
      own role. */
  lemma {:induction false} HistoryTurnsExact(ms: seq<BotMessage>, t: Turn)
    ensures t in HistoryTurns(ms) <==> exists m :: m in ms && !TrimEmpty(m.message) && t == Turn(m.role, m.message)
  {
    if ms != [] {
      var n := |ms| - 1;
      HistoryTurnsExact(ms[..n], t);
      assert ms == ms[..n] + [ms[n]];
      if exists m :: m in ms && !TrimEmpty(m.message) && t == Turn(m.role, m.message) {
        var m :| m in ms && !TrimEmpty(m.message) && t == Turn(m.role, m.message);
        if m != ms[n] {
          assert m in ms[..n];
        }
      }
    }
  }

  /** The current user turn, present iff the content is non-null and not
      empty once trimmed. */
  function UserTurns(content: Option<string>): (r: seq<Turn>)
    ensures |r| <= 1
    ensures r != [] <==> content.Some? && !TrimEmpty(content.value)
    ensures r != [] ==> r[0] == Turn("user", content.value)
  {
    if content.Some? && !TrimEmpty(content.value) then [Turn("user", content.value)] else []
  }

  /** buildConversationContext: system prompts first, then the history,
      then the current content; a null list counts as empty. */
  function ConversationContext(messages: Option<seq<BotMessage>>, prompts: Option<seq<PromptText>>,
                               content: Option<string>): (r: seq<Turn>)
    ensures |r| <= |prompts.GetOr([])| + |messages.GetOr([])| + 1
    ensures forall k :: 0 <= k < |r| ==> !TrimEmpty(r[k].content)
  {
    SystemTurns(prompts.GetOr([])) + HistoryTurns(messages.GetOr([])) + UserTurns(content)
  }

  /** The three groups appear in order and nothing else: the first turns
      are the system prompts, the last one is the user's when it is
      sayable, and the history sits in between. */
  lemma ContextLayout(messages: Option<seq<BotMessage>>, prompts: Option<seq<PromptText>>, content: Option<string>)
    ensures var r := ConversationContext(messages, prompts, content);
      var s := |SystemTurns(prompts.GetOr([]))|;
      && s <= |r|
      && (forall k :: 0 <= k < s ==> r[k].role == "system")
      && (content.Some? && !TrimEmpty(content.value) ==> r[|r| - 1] == Turn("user", content.value))
      && (content.None? || TrimEmpty(content.value) ==> r[s..] == HistoryTurns(messages.GetOr([])))
  {
    var r := ConversationContext(messages, prompts, content);
    var st := SystemTurns(prompts.GetOr([]));
    var ht := HistoryTurns(messages.GetOr([]));
    assert r[..|st|] == st;
    if content.None? || TrimEmpty(content.value) {
      assert r == st + ht;
    }
  }

  /** The loop of lines 97-127 over the two lists. */
  method BuildConversationContext(messages: Option<seq<BotMessage>>, prompts: Option<seq<PromptText>>,
                                  content: Option<string>)
    returns (context: seq<Turn>)
    ensures context == ConversationContext(messages, prompts, content)
  {
    context := [];
    if prompts.Some? {
      context := AddSystemTurns(prompts.value);
    }
    if messages.Some? {
      context := AddHistoryTurns(context, messages.value);
    }
    if content.Some? && !TrimEmpty(content.value) {
      context := context + [Turn("user", content.value)];
    }
  }

  /** The loop over the system prompts. */
  method AddSystemTurns(ps: seq<PromptText>) returns (context: seq<Turn>)
    ensures context == SystemTurns(ps)
  {
    context := [];
    for i := 0 to |ps|
      invariant context == SystemTurns(ps[..i])
    {
      assert ps[..i + 1][..i] == ps[..i];
      if ps[i].content.Some? && !TrimEmpty(ps[i].content.value) {
        context := context + [Turn("system", ps[i].content.value)];
      }
    }
    assert ps[..|ps|] == ps;
  }

  /** The loop over the history, appending to what is already there. */
  method AddHistoryTurns(history: seq<Turn>, ms: seq<BotMessage>) returns (context: seq<Turn>)
    ensures context == history + HistoryTurns(ms)
  {
    context := history;
    for i := 0 to |ms|
      invariant context == history + HistoryTurns(ms[..i])
    {
      assert ms[..i + 1][..i] == ms[..i];
      if !TrimEmpty(ms[i].message) {
        context := context + [Turn(ms[i].role, ms[i].message)];
      }
    }
    assert ms[..|ms|] == ms;
  }

  /** Gemini knows only "user" and "model": every other role, system and
      assistant included, is sent as "model". */
  function GeminiRole(role: string): (r: string)
    ensures r == "user" <==> role == "user"
    ensures role != "user" ==> r == "model"
  {
    if role == "user" then "user" else "model"
  }

  // ---------------------------------------------------------------------
  // JSON string escaping

  /** The escaping the source writes: only the double quote (to \") and
      the newline (to \n) are replaced; a backslash and every other
      control character pass through as they are. */
  function Escape(s: string): (r: string)
    ensures '"' !in s && '\n' !in s ==> r == s
  {
    ReplaceChar(ReplaceChar(s, '"', "\\\""), '\n', "\\n")
  }

  function HexDigit(n: int): (r: char)
    requires 0 <= n < 16
    ensures IsHex(r) && HexValue(r) == n
  {
    if n < 10 then ('0' as int + n) as char else ('a' as int + n - 10) as char
  }

  predicate IsHex(c: char) { IsDigit(c) || 'a' <= c <= 'f' || 'A' <= c <= 'F' }

  function HexValue(c: char): (r: nat)
    requires IsHex(c)
    ensures r < 16
  {
    if IsDigit(c) then c as int - '0' as int
    else if 'a' <= c <= 'f' then c as int - 'a' as int + 10
    else c as int - 'A' as int + 10
  }

  /** A JSON escape of one character: the quote, the backslash and the
      newline by their short escapes, other control characters as \u00XX,
      everything else as itself. */
  function EscapeChar(c: char): (r: string)
    ensures |r| >= 1 && r[0] != '"'
    ensures c != '"' && c != '\\' && c >= ' ' ==> r == [c]
  {
    if c == '"' then ['\\', '"']
    else if c == '\\' then ['\\', '\\']
    else if c == '\n' then ['\\', 'n']
    else if c < ' ' then ['\\', 'u', '0', '0', HexDigit(c as int / 16), HexDigit(c as int % 16)]
    else [c]
  }

  /** The escaping a JSON string literal needs. */
  function JsonEscape(s: string): (r: string)
    ensures |r| >= |s|
  {
    if s == [] then [] else EscapeChar(s[0]) + JsonEscape(s[1..])
  }

  /** What a JSON reader makes of the escape sequence \e (RFC 8259,
      section 7), \u excepted. */
  function ShortEscape(e: char): (r: Option<char>)
    ensures e == '"' || e == '\\' || e == 'n' ==> r.Some?
  {
    if e == '"' || e == '\\' || e == '/' then Some(e)
    else if e == 'b' then Some('\U{8}')
    else if e == 'f' then Some('\U{C}')
    else if e == 'n' then Some('\n')
    else if e == 'r' then Some('\r')
    else if e == 't' then Some('\t')
    else None
  }

  /** Reads one character of a JSON string body (not its closing quote):
      the character and how many input characters it took. An unescaped
      control character, a bad escape and a lone surrogate are errors. */
  function ReadChar(s: string): (r: Option<(char, nat)>)
    requires s != [] && s[0] != '"'
    ensures r.Some? ==> 1 <= r.value.1 <= |s|
  {
    if s[0] == '\\' then
      if |s| < 2 then None
      else if s[1] == 'u' then
        if |s| >= 6 && IsHex(s[2]) && IsHex(s[3]) && IsHex(s[4]) && IsHex(s[5]) then
          var v := 4096 * HexValue(s[2]) + 256 * HexValue(s[3]) + 16 * HexValue(s[4]) + HexValue(s[5]);
          if 0xD800 <= v < 0xE000 then None else Some((v as char, 6))
        else None
      else
        match ShortEscape(s[1])
        case Some(c) => Some((c, 2))
        case None => None
    else if s[0] < ' ' then None
    else Some((s[0], 1))
  }

  /** Reads a JSON string body up to and including its closing quote:
      the decoded text and what follows the quote. */
  function ReadString(s: string): (r: Option<(string, string)>)
    ensures r.Some? ==> |r.value.1| < |s|
    decreases |s|
  {
    if s == [] then None
    else if s[0] == '"' then Some(([], s[1..]))
    else
      match ReadChar(s)
      case None => None
      case Some((c, n)) =>
        match ReadString(s[n..])
        case None => None
        case Some((t, rest)) => Some(([c] + t, rest))
  }

  lemma ReadEscapedChar(c: char, rest: string)
    ensures ReadChar(EscapeChar(c) + rest) == Some((c, |EscapeChar(c)|))
  {
    var s := EscapeChar(c) + rest;
    if c != '"' && c != '\\' && c != '\n' && c < ' ' {
      var h, l := c as int / 16, c as int % 16;
      assert s[..6] == ['\\', 'u', '0', '0', HexDigit(h), HexDigit(l)];
      assert 4096 * HexValue(s[2]) + 256 * HexValue(s[3]) + 16 * HexValue(s[4]) + HexValue(s[5]) == c as int;
    }
  }

  /** One escaped character read, then the rest of the body. */
  lemma ReadEscapedStep(e: string, tail: string, c: char, t: string, rest: string)
    requires e != [] && e[0] != '"' && ReadChar(e + tail) == Some((c, |e|))
    requires ReadString(tail) == Some((t, rest))
    ensures ReadString(e + tail) == Some(([c] + t, rest))
  {
    assert (e + tail)[|e|..] == tail;
  }

  /** An escaped character before a readable body reads back first. */
  lemma ReadEscapedCharThen(c: char, tail: string, t: string, rest: string)
    requires ReadString(tail) == Some((t, rest))
    ensures ReadString(EscapeChar(c) + tail) == Some(([c] + t, rest))
  {
    ReadEscapedChar(c, tail);
    ReadEscapedStep(EscapeChar(c), tail, c, t, rest);
  }

  /** The escape of a non-empty text starts with its first character's. */
  lemma JsonEscapeCons(x: string)
    requires x != []
    ensures JsonEscape(x) == EscapeChar(x[0]) + JsonEscape(x[1..])
  {
  }

  /** Regrouping the escape of one more leading character. */
  lemma ConsRegroup(e: string, j: string, rest: string)
    ensures (e + j) + ['"'] + rest == e + (j + ['"'] + rest)
  {
  }

  /** The escape of one more leading character reads back as that
      character before the rest. */
  lemma ReadEscapedCons(x: string, rest: string)
    requires x != [] && ReadString(JsonEscape(x[1..]) + ['"'] + rest) == Some((x[1..], rest))
    ensures ReadString(JsonEscape(x) + ['"'] + rest) == Some((x, rest))
  {
    var e, j := EscapeChar(x[0]), JsonEscape(x[1..]);
    var tail := j + ['"'] + rest;
    assert JsonEscape(x) + ['"'] + rest == e + tail by {
      JsonEscapeCons(x);
      ConsRegroup(e, j, rest);
    }
    assert ReadString(e + tail) == Some(([x[0]] + x[1..], rest)) by {
      ReadEscapedCharThen(x[0], tail, x[1..], rest);
    }
    assert [x[0]] + x[1..] == x;
  }

  /** Reading back an escaped text and its closing quote yields the text
      and leaves the rest untouched. */
  lemma {:induction false} ReadEscaped(x: string, rest: string)
    ensures ReadString(JsonEscape(x) + ['"'] + rest) == Some((x, rest))
    decreases |x|
  {
    if x == [] {
      assert JsonEscape(x) + ['"'] + rest == ['"'] + rest;
      assert (['"'] + rest)[1..] == rest;
    } else {
      ReadEscaped(x[1..], rest);
      ReadEscapedCons(x, rest);
    }
  }

  /** The corrected escaping loses nothing: distinct texts stay distinct. */
  lemma JsonEscapeInjective(x: string, y: string)
    requires JsonEscape(x) == JsonEscape(y)
    ensures x == y
  {
    ReadEscaped(x, []);
    ReadEscaped(y, []);
  }

  /** A text without quote, backslash or control character is its own
      escape. */
  lemma {:induction false} PlainEscape(s: string)
    requires forall k :: 0 <= k < |s| ==> s[k] != '"' && s[k] != '\\' && s[k] >= ' '
    ensures JsonEscape(s) == s
  {
    if s != [] {
      PlainEscape(s[1..]);
      assert [s[0]] + s[1..] == s;
    }
  }

  /** The source's escaping of the two-character text backslash, n gives
      the same characters as its escaping of a newline, so the model reads
      a newline where the user wrote a backslash followed by n. */
  lemma EscapeMisreadsBackslash()
    ensures Escape(['\\', 'n']) == Escape(['\n'])
    ensures ReadString(Escape(['\\', 'n']) + ['"']) == Some((['\n'], []))
  {
    assert ReplaceChar(['\\', 'n'], '"', "\\\"") == ['\\', 'n'];
    assert ReplaceChar(['\n'], '"', "\\\"") == ['\n'];
    assert ReplaceChar(['\\', 'n'], '\n', "\\n") == ['\\', 'n'];
    assert ReplaceChar(['\n'], '\n', "\\n") == ['\\', 'n'];
    var s := ['\\', 'n', '"'];
    assert Escape(['\\', 'n']) + ['"'] == s;
    assert ReadChar(s) == Some(('\n', 2));
    assert s[2..] == ['"'];
  }

  /** The source's escaping, one character at a time. */
  lemma EscapeCons(c: char, rest: string)
    ensures Escape([c] + rest)
            == (if c == '"' then ['\\', '"'] else if c == '\n' then ['\\', 'n'] else [c]) + Escape(rest)
  {
    var q := ReplaceChar([c], '"', "\\\"");
    assert ReplaceChar([c] + rest, '"', "\\\"") == q + ReplaceChar(rest, '"', "\\\"") by {
      ReplaceCharAppend([c], rest, '"', "\\\"");
    }
    ReplaceCharAppend(q, ReplaceChar(rest, '"', "\\\""), '\n', "\\n");
    assert q == (if c == '"' then ['\\', '"'] else [c]);
  }

  /** A text with no backslash and no control character but the newline. */
  predicate Plain(s: string) {
    forall k :: 0 <= k < |s| ==> s[k] != '\\' && (s[k] >= ' ' || s[k] == '\n')
  }

  /** On such a text the source's escaping is the JSON escaping. */
  lemma {:induction false} PlainEscapesAgree(s: string)
    requires Plain(s)
    ensures Escape(s) == JsonEscape(s)
  {
    if s != [] {
      assert s == [s[0]] + s[1..];
      EscapeCons(s[0], s[1..]);
      assert Plain(s[1..]) by {
        forall k | 0 <= k < |s[1..]| ensures s[1..][k] != '\\' && (s[1..][k] >= ' ' || s[1..][k] == '\n') {
          assert s[1..][k] == s[k + 1];
        }
      }
      PlainEscapesAgree(s[1..]);
    }
  }

  // ---------------------------------------------------------------------
  // Request body

  const RoleOpen: string := "{\"role\": \""
  const PartsOpen: string := ",\"parts\": [{\"text\": \""
  const PartsClose: string := "}]}"
  const ContentsOpen: string := "\"contents\": ["
  const GenerationConfig: string := ",\"generationConfig\": {\"temperature\": 0.7}"

  /** One message object of the "contents" array, its text escaped by
      `esc`. */
  function MessageObject(t: Turn, esc: string -> string): string {
    RoleOpen + GeminiRole(t.role) + ['"'] + PartsOpen + esc(t.content) + ['"'] + PartsClose
  }

  /** Texts joined by single commas, none trailing. */
  function Separated(ps: seq<string>): string
  {
    if ps == [] then []
    else if |ps| == 1 then ps[0]
    else Separated(ps[..|ps| - 1]) + [','] + ps[|ps| - 1]
  }

  /** The message object of every turn, in order. */
  function Rendered(ts: seq<Turn>, esc: string -> string): (r: seq<string>)
    ensures |r| == |ts|
  {
    seq(|ts|, k requires 0 <= k < |ts| => MessageObject(ts[k], esc))
  }

  /** The contents array, and the generation settings only for a
      streaming call, each text escaped by `esc`. */
  function Body(ts: seq<Turn>, streaming: bool, esc: string -> string): string {
    var head := ['{'] + (ContentsOpen + Separated(Rendered(ts, esc)) + [']']);
    if streaming then head + GenerationConfig + ['}'] else head + ['}']
  }

  /** buildRequestBody, as written: the texts go through the source's
      two replacements. */
  function RequestBody(ts: seq<Turn>, streaming: bool): string {
    Body(ts, streaming, Escape)
  }

  /** The body buildRequestBody evidently means to send: the same layout
      with the texts escaped as a JSON string literal needs. */
  function IntendedRequestBody(ts: seq<Turn>, streaming: bool): string {
    Body(ts, streaming, JsonEscape)
  }

  /** The StringBuilder loop of buildRequestBody in
      SAPGeminiAIServiceImpl.java (the same loop is written out again in
      callGeminiAPIWithContext for the non-streaming call). */
  method BuildRequestBody(ts: seq<Turn>, streaming: bool) returns (body: string)
    ensures body == RequestBody(ts, streaming)
  {
    var contents := ContentsOpen;
    ghost var objs := Rendered(ts, Escape);
    ghost var items: string := [];
    for i := 0 to |ts|
      invariant contents == ContentsOpen + items
      invariant items == Separated(objs[..i]) + (if 0 < i < |ts| then [','] else [])
    {
      var obj := MessageObject(ts[i], Escape);
      assert items + obj == Separated(objs[..i + 1]) by {
        assert obj == objs[i];
        SeparatedSnoc(objs, i);
      }
      Regroup(ContentsOpen, items, obj);
      contents, items := contents + obj, items + obj;
      if i < |ts| - 1 {
        Regroup(ContentsOpen, items, [',']);
        contents, items := contents + [','], items + [','];
      }
    }
    assert items == Separated(Rendered(ts, Escape)) by {
      assert objs[..|ts|] == objs;
    }
    contents := contents + [']'];
    body := ['{'] + contents;
    if streaming {
      body := body + GenerationConfig;
    }
    body := body + ['}'];
  }

  lemma SeparatedSnoc(ps: seq<string>, i: nat)
    requires i < |ps|
    ensures i == 0 ==> Separated(ps[..i + 1]) == ps[0]
    ensures i > 0 ==> Separated(ps[..i + 1]) == Separated(ps[..i]) + [','] + ps[i]
  {
    assert ps[..i + 1][..i] == ps[..i];
  }

  /** The wire form of the context: each turn's Gemini role and its text. */
  function Wire(ts: seq<Turn>): (r: seq<(string, string)>)
    ensures |r| == |ts|
    ensures forall k :: 0 <= k < |ts| ==> r[k] == (GeminiRole(ts[k].role), ts[k].content)
  {
    seq(|ts|, k requires 0 <= k < |ts| => (GeminiRole(ts[k].role), ts[k].content))
  }

  /** Removes a fixed prefix. */
  function StripPrefix(s: string, p: string): (r: Option<string>)
    ensures r.Some? <==> StartsWith(s, p)
    ensures r.Some? ==> s == p + r.value
  {
    if StartsWith(s, p) then Some(s[|p|..]) else None
  }

  lemma StripPrefixAppend(p: string, t: string)
    ensures StripPrefix(p + t, p) == Some(t)
  {
    assert (p + t)[..|p|] == p;
    assert (p + t)[|p|..] == t;
  }

  /** A reader for one message object: the role, the text, and what
      follows the object. */
  function ParseObject(s: string): (r: Option<((string, string), string)>)
    ensures r.Some? ==> |r.value.1| < |s|
  {
    match StripPrefix(s, RoleOpen)
    case None => None
    case Some(s1) =>
      match ReadString(s1)
      case None => None
      case Some((role, s2)) =>
        match StripPrefix(s2, PartsOpen)
        case None => None
        case Some(s3) =>
          match ReadString(s3)
          case None => None
          case Some((text, s4)) =>
            match StripPrefix(s4, PartsClose)
            case None => None
            case Some(s5) => Some(((role, text), s5))
  }

  /** A reader for a non-empty comma-separated list of items and its
      closing bracket, given a reader for one item; an item reader that
      consumes nothing ends the list with an error. */
  function ParseItems(s: string, item: string -> Option<((string, string), string)>)
    : (r: Option<(seq<(string, string)>, string)>)
    ensures r.Some? ==> |r.value.1| < |s|
    decreases |s|
  {
    match item(s)
    case None => None
    case Some((x, rest)) =>
      if |rest| < |s| && rest != [] && rest[0] == ',' then
        match ParseItems(rest[1..], item)
        case None => None
        case Some((xs, tail)) => Some(([x] + xs, tail))
      else if |rest| < |s| && rest != [] && rest[0] == ']' then Some(([x], rest[1..]))
      else None
  }

  /** A reader for the contents array after its opening bracket. */
  function ParseList(s: string): (r: Option<(seq<(string, string)>, string)>)
  {
    if s != [] && s[0] == ']' then Some(([], s[1..])) else ParseItems(s, ParseObject)
  }

  /** A reader for a whole request body: the turns on the wire and
      whether the generation settings were present. */
  function ParseBody(s: string): (r: Option<(seq<(string, string)>, bool)>)
  {
    match StripPrefix(s, ['{'] + ContentsOpen)
    case None => None
    case Some(s1) =>
      match ParseList(s1)
      case None => None
      case Some((items, rest)) =>
        if rest == ['}'] then Some((items, false))
        else if rest == GenerationConfig + ['}'] then Some((items, true))
        else None
  }

  lemma RoleIsPlain(role: string)
    ensures JsonEscape(GeminiRole(role)) == GeminiRole(role)
  {
    PlainEscape(GeminiRole(role));
  }

  lemma ObjectShape(a: string, w: string, b: string, e: string, c: string, rest: string)
    ensures a + w + ['"'] + b + e + ['"'] + c + rest == a + (w + ['"'] + (b + (e + ['"'] + (c + rest))))
  {
  }

  /** Every text of the turns is escaped by `esc` as JSON needs. */
  predicate EscapesAsJson(ts: seq<Turn>, esc: string -> string) {
    forall k :: 0 <= k < |ts| ==> esc(ts[k].content) == JsonEscape(ts[k].content)
  }

  lemma ParseMessageObject(t: Turn, rest: string, esc: string -> string)
    requires esc(t.content) == JsonEscape(t.content)
    ensures ParseObject(MessageObject(t, esc) + rest) == Some(((GeminiRole(t.role), t.content), rest))
  {
    var w := GeminiRole(t.role);
    var e := esc(t.content);
    var s4 := PartsClose + rest;
    var s3 := e + ['"'] + s4;
    var s2 := PartsOpen + s3;
    var s1 := w + ['"'] + s2;
    ObjectShape(RoleOpen, w, PartsOpen, e, PartsClose, rest);
    StripPrefixAppend(RoleOpen, s1);
    RoleIsPlain(t.role);
    ReadEscaped(w, s2);
    StripPrefixAppend(PartsOpen, s3);
    ReadEscaped(t.content, s4);
    StripPrefixAppend(PartsClose, rest);
  }

  lemma Regroup(a: string, b: string, c: string)
    ensures a + b + c == a + (b + c)
  {
  }

  lemma Shape(a: string, c: string, m: string, t: string)
    ensures a + (c + m + [']']) + t == (a + c) + (m + [']'] + t)
  {
  }

  lemma {:induction false} SeparatedCons(p: string, ps: seq<string>)
    ensures ps == [] ==> Separated([p] + ps) == p
    ensures ps != [] ==> Separated([p] + ps) == p + [','] + Separated(ps)
    decreases |ps|
  {
    var u := [p] + ps;
    if ps == [] {
      assert u == [p];
    } else if |ps| == 1 {
      assert u[..1] == [p];
      assert u[1] == ps[0];
    } else {
      var n := |ps| - 1;
      assert u[..|u| - 1] == [p] + ps[..n];
      assert u[|u| - 1] == ps[n];
      SeparatedCons(p, ps[..n]);
      Regroup(p + [','], Separated(ps[..n]) + [','], ps[n]);
    }
  }

  /** Reading a comma-separated list back, when each part on its own is
      read back as its item. */
  lemma {:induction false} ParseSeparated(ps: seq<string>, items: seq<(string, string)>, tail: string,
                                          item: string -> Option<((string, string), string)>)
    requires |ps| == |items| > 0
    requires forall k :: 0 <= k < |ps| ==> ps[k] != []
    requires forall k, rest :: 0 <= k < |ps| ==> item(ps[k] + rest) == Some((items[k], rest))
    ensures ParseItems(Separated(ps) + [']'] + tail, item) == Some((items, tail))
    decreases |ps|
  {
    var p, more := ps[0], ps[1..];
    assert ps == [p] + more;
    SeparatedCons(p, more);
    if more == [] {
      var rest := [']'] + tail;
      assert Separated(ps) + [']'] + tail == p + rest;
      assert item(p + rest) == Some((items[0], rest));
      assert rest[1..] == tail;
      assert items == [items[0]];
    } else {
      var rest := [','] + (Separated(more) + [']'] + tail);
      assert Separated(ps) + [']'] + tail == p + rest;
      assert item(p + rest) == Some((items[0], rest));
      assert rest[1..] == Separated(more) + [']'] + tail;
      forall k, r | 0 <= k < |more|
        ensures item(more[k] + r) == Some((items[1..][k], r))
      {
        assert more[k] == ps[k + 1];
      }
      ParseSeparated(more, items[1..], tail, item);
      assert items == [items[0]] + items[1..];
    }
  }

  lemma ObjectOpens(t: Turn, esc: string -> string)
    ensures MessageObject(t, esc) != [] && MessageObject(t, esc)[0] == '{'
  {
  }

  lemma ParseRendered(ts: seq<Turn>, tail: string, esc: string -> string)
    requires EscapesAsJson(ts, esc)
    ensures ParseList(Separated(Rendered(ts, esc)) + [']'] + tail) == Some((Wire(ts), tail))
  {
    var ps := Rendered(ts, esc);
    var s1 := Separated(ps) + [']'] + tail;
    if ts == [] {
      assert s1 == [']'] + tail;
      assert s1[1..] == tail;
    } else {
      forall k | 0 <= k < |ps|
        ensures ps[k] != [] && (forall rest :: ParseObject(ps[k] + rest) == Some((Wire(ts)[k], rest)))
      {
        ObjectOpens(ts[k], esc);
        forall rest
          ensures ParseObject(ps[k] + rest) == Some((Wire(ts)[k], rest))
        {
          ParseMessageObject(ts[k], rest, esc);
        }
      }
      ParseSeparated(ps, Wire(ts), tail, ParseObject);
      SeparatedCons(ps[0], ps[1..]);
      assert ps == [ps[0]] + ps[1..];
      ObjectOpens(ts[0], esc);
      assert s1[0] == ps[0][0];
    }
  }

  /** A body whose texts are escaped as JSON needs is read back as exactly
      the context's turns (roles mapped for Gemini) and the streaming
      flag. */
  lemma BodyRoundTrip(ts: seq<Turn>, streaming: bool, esc: string -> string)
    requires EscapesAsJson(ts, esc)
    ensures ParseBody(Body(ts, streaming, esc)) == Some((Wire(ts), streaming))
  {
    var tail := (if streaming then GenerationConfig + ['}'] else ['}']);
    var m := Separated(Rendered(ts, esc));
    var s1 := m + [']'] + tail;
    var head := ['{'] + (ContentsOpen + m + [']']);
    if streaming {
      Regroup(head, GenerationConfig, ['}']);
    }
    Shape(['{'], ContentsOpen, m, tail);
    StripPrefixAppend(['{'] + ContentsOpen, s1);
    ParseRendered(ts, tail, esc);
    assert GenerationConfig + ['}'] != ['}'];
  }

  /** The body the source builds is read back as the context's turns and
      the streaming flag as long as no text holds a backslash or a control
      character other than the newline. */
  lemma RequestBodyRoundTrip(ts: seq<Turn>, streaming: bool)
    requires forall k :: 0 <= k < |ts| ==> Plain(ts[k].content)
    ensures ParseBody(RequestBody(ts, streaming)) == Some((Wire(ts), streaming))
  {
    forall k | 0 <= k < |ts| ensures Escape(ts[k].content) == JsonEscape(ts[k].content) {
      PlainEscapesAgree(ts[k].content);
    }
    BodyRoundTrip(ts, streaming, Escape);
  }

  /** The intended body is read back as the context's turns and the
      streaming flag, whatever the texts hold. */
  lemma IntendedRequestBodyRoundTrip(ts: seq<Turn>, streaming: bool)
    ensures ParseBody(IntendedRequestBody(ts, streaming)) == Some((Wire(ts), streaming))
  {
    BodyRoundTrip(ts, streaming, JsonEscape);
  }

  /** The body the source builds for a text holding backslash, n is the
      body it builds for a newline, so the two requests cannot be told
      apart. */
  lemma RequestBodyConflates(role: string, streaming: bool)
    ensures RequestBody([Turn(role, ['\\', 'n'])], streaming) == RequestBody([Turn(role, ['\n'])], streaming)
    ensures ParseBody(RequestBody([Turn(role, ['\\', 'n'])], streaming)) == Some(([(GeminiRole(role), ['\n'])], streaming))
  {
    EscapeMisreadsBackslash();
    assert Rendered([Turn(role, ['\\', 'n'])], Escape) == Rendered([Turn(role, ['\n'])], Escape);
    assert Plain(['\n']);
    RequestBodyRoundTrip([Turn(role, ['\n'])], streaming);
    assert Wire([Turn(role, ['\n'])]) == [(GeminiRole(role), ['\n'])];
  }

  // ---------------------------------------------------------------------
  // Response trees

  /** The JsonNode tree Jackson reads (numbers restricted to integers). */
  datatype Json =
    | JNull
    | JBool(b: bool)
    | JNum(n: int)
    | JStr(text: string)
    | JArr(elems: seq<Json>)
    | JObj(fields: map<string, Json>)

  /** JsonNode.get(name): the field of an object, Java null otherwise. */
  function Field(j: Json, name: string): (r: Option<Json>)
    ensures r.Some? <==> j.JObj? && name in j.fields
  {
    if j.JObj? && name in j.fields then Some(j.fields[name]) else None
  }

  /** JsonNode.size(): elements of an array, fields of an object, else 0. */
  function Size(j: Json): nat {
    match j
    case JArr(es) => |es|
    case JObj(fs) => |fs|
    case _ => 0
  }

  /** JsonNode.get(index): an array element, Java null otherwise (an
      object node answers null too). */
  function Element(j: Json, i: nat): (r: Option<Json>)
    ensures r.Some? <==> j.JArr? && i < |j.elems|
  {
    if j.JArr? && i < |j.elems| then Some(j.elems[i]) else None
  }

  /** JsonNode.asText(). */
  function AsText(j: Json): string {
    match j
    case JNull => "null"
    case JBool(b) => if b then "true" else "false"
    case JNum(n) => IntToString(n)
    case JStr(t) => t
    case _ => []
  }

  /** The walk candidates[0].content.parts[0].text shared by both
      parsers: the text when every step is present, nothing when a step
      is missing or empty, and the NullPointerException of indexing an
      object node that is not empty. */
  function FirstText(j: Json): (r: Result<Option<string>>)
    ensures r.Err? ==> r.error == Runtime("NullPointerException")
  {
    match Field(j, "candidates")
    case None => Ok(None)
    case Some(cands) =>
      if Size(cands) == 0 then Ok(None)
      else
        match Element(cands, 0)
        case None => Err(Runtime("NullPointerException"))
        case Some(first) =>
          match Field(first, "content")
          case None => Ok(None)
          case Some(content) =>
            match Field(content, "parts")
            case None => Ok(None)
            case Some(parts) =>
              if Size(parts) == 0 then Ok(None)
              else
                match Element(parts, 0)
                case None => Err(Runtime("NullPointerException"))
                case Some(part) =>
                  match Field(part, "text")
                  case None => Ok(None)
                  case Some(text) => Ok(Some(AsText(text)))
  }

  /** parseGeminiResponse: the first text, "No response from AI" when there
      is none; the exception propagates. */
  function ParseGeminiResponse(j: Json): (r: Result<string>)
    ensures r.Ok? <==> FirstText(j).Ok?
    ensures FirstText(j) == Ok(None) ==> r == Ok("No response from AI")
    ensures FirstText(j).Ok? && FirstText(j).value.Some? ==> r == Ok(FirstText(j).value.value)
  {
    match FirstText(j)
    case Err(e) => Err(e)
    case Ok(None) => Ok("No response from AI")
    case Ok(Some(t)) => Ok(t)
  }

  /** parseStreamingChunk: the first text, "" when there is none or the
      walk fails (the exception is caught). */
  function ParseStreamingChunk(j: Json): (r: string)
    ensures r != [] ==> FirstText(j) == Ok(Some(r))
  {
    match FirstText(j)
    case Ok(Some(t)) => t
    case _ => []
  }

  /** The response Gemini sends for one text reply. */
  function ReplyWith(t: string): Json {
    JObj(map["candidates" := JArr([JObj(map["content" := JObj(map["parts" := JArr([JObj(map["text" := JStr(t)])])])])])])
  }

  /** Both parsers read the reply text back out of a reply. */
  lemma ReplyTextRoundTrip(t: string)
    ensures ParseGeminiResponse(ReplyWith(t)) == Ok(t)
    ensures ParseStreamingChunk(ReplyWith(t)) == t
  {
    var part := JObj(map["text" := JStr(t)]);
    var content := JObj(map["parts" := JArr([part])]);
    var first := JObj(map["content" := content]);
    assert Field(ReplyWith(t), "candidates") == Some(JArr([first]));
    assert Field(first, "content") == Some(content);
    assert Field(content, "parts") == Some(JArr([part]));
    assert Field(part, "text") == Some(JStr(t));
    assert FirstText(ReplyWith(t)) == Ok(Some(t));
  }

  /** The two parsers agree wherever the streaming one finds text, and
      differ only in their fallbacks. */
  lemma ParsersAgree(j: Json)
    ensures ParseStreamingChunk(j) != [] ==> ParseGeminiResponse(j) == Ok(ParseStreamingChunk(j))
    ensures ParseGeminiResponse(j).Err? ==> ParseStreamingChunk(j) == []
    ensures ParseGeminiResponse(j) == Ok("No response from AI") ==>
      ParseStreamingChunk(j) == [] || ParseStreamingChunk(j) == "No response from AI"
  {
  }

  /** chatWithAI after the HTTP exchange: a status other than 200, a body
      Jackson cannot read, or a failing walk all become the wrapping
      RuntimeException. */
  function ChatReply(status: int, tree: Option<Json>): (r: Result<string>)
    ensures r.Err? ==> r.error == Runtime("Failed to call Gemini API")
    ensures r.Ok? <==> status == 200 && tree.Some? && FirstText(tree.value).Ok?
    ensures r.Ok? ==> r == ParseGeminiResponse(tree.value)
  {
    if status != 200 || tree.None? then Err(Runtime("Failed to call Gemini API"))
    else
      match ParseGeminiResponse(tree.value)
      case Err(_) => Err(Runtime("Failed to call Gemini API"))
      case Ok(t) => Ok(t)
  }

  /** chatWithAI: the context, the non-streaming body, one exchange. The
      exchange (`send`, status and body text) and Jackson's reader
      (`readTree`, None when it throws) are parameters. */
  method ChatWithAI(messages: Option<seq<BotMessage>>, prompts: Option<seq<PromptText>>, content: Option<string>,
                    send: string -> (int, string), readTree: string -> Option<Json>)
    returns (r: Result<string>)
    ensures var reply := send(RequestBody(ConversationContext(messages, prompts, content), false));
      r == ChatReply(reply.0, readTree(reply.1))
  {
    var context := BuildConversationContext(messages, prompts, content);
    var body := BuildRequestBody(context, false);
    var reply := send(body);
    r := ChatReply(reply.0, readTree(reply.1));
  }

  // ---------------------------------------------------------------------
  // Server-sent events

  const DataPrefix: string := "data: "
  const Done: string := "[DONE]"

  /** The trimmed payload of a `data: ` line. */
  function Payload(line: string): string
    requires StartsWith(line, DataPrefix)
  {
    Trim(line[|DataPrefix|..])
  }

  /** A line that ends the loop: "[DONE]", or (in the streaming call only)
      an empty payload. */
  predicate Stops(line: string, stopOnEmpty: bool)
    requires StartsWith(line, DataPrefix)
  {
    Payload(line) == Done || (stopOnEmpty && Payload(line) == [])
  }

  /** The chunk text of one payload: what parseStreamingChunk finds in
      Jackson's tree, "" when the payload cannot be read (the exception is
      caught and the line skipped). */
  function ChunkOf(tree: Option<Json>): string {
    match tree
    case None => []
    case Some(j) => ParseStreamingChunk(j)
  }

  /** The chunk reader the loops apply to each payload. */
  function ChunkReader(readTree: string -> Option<Json>): string -> string {
    d => ChunkOf(readTree(d))
  }

  /** The non-empty chunks, in order, of the `data: ` lines before the
      first stopping line; other lines are ignored. */
  function Chunks(lines: seq<string>, chunk: string -> string, stopOnEmpty: bool): (r: seq<string>)
    ensures forall k :: 0 <= k < |r| ==> r[k] != []
    decreases |lines|
  {
    if lines == [] then []
    else if !StartsWith(lines[0], DataPrefix) then Chunks(lines[1..], chunk, stopOnEmpty)
    else if Stops(lines[0], stopOnEmpty) then []
    else
      var c := chunk(Payload(lines[0]));
      var rest := Chunks(lines[1..], chunk, stopOnEmpty);
      if c == [] then rest else [c] + rest
  }

  function Concat(cs: seq<string>): string {
    if cs == [] then [] else cs[0] + Concat(cs[1..])
  }

  lemma {:induction false} ConcatSnoc(cs: seq<string>, c: string)
    ensures Concat(cs + [c]) == Concat(cs) + c
  {
    if cs == [] {
      assert cs + [c] == [c];
    } else {
      assert (cs + [c])[1..] == cs[1..] + [c];
      ConcatSnoc(cs[1..], c);
    }
  }

  /** One step of the reading loops at line i, stated on the chunks
      already sent. */
  lemma ChunksAt(lines: seq<string>, i: nat, chunk: string -> string, stopOnEmpty: bool, sent: seq<string>)
    requires i < |lines|
    ensures !StartsWith(lines[i], DataPrefix) ==>
      sent + Chunks(lines[i..], chunk, stopOnEmpty) == sent + Chunks(lines[i + 1..], chunk, stopOnEmpty)
    ensures StartsWith(lines[i], DataPrefix) && Stops(lines[i], stopOnEmpty) ==>
      sent + Chunks(lines[i..], chunk, stopOnEmpty) == sent
    ensures StartsWith(lines[i], DataPrefix) && !Stops(lines[i], stopOnEmpty) && chunk(Payload(lines[i])) == [] ==>
      sent + Chunks(lines[i..], chunk, stopOnEmpty) == sent + Chunks(lines[i + 1..], chunk, stopOnEmpty)
    ensures StartsWith(lines[i], DataPrefix) && !Stops(lines[i], stopOnEmpty) && chunk(Payload(lines[i])) != [] ==>
      sent + Chunks(lines[i..], chunk, stopOnEmpty)
      == (sent + [chunk(Payload(lines[i]))]) + Chunks(lines[i + 1..], chunk, stopOnEmpty)
  {
    assert lines[i..][0] == lines[i];
    assert lines[i..][1..] == lines[i + 1..];
  }

  /** The reading loop of lines 240-261: the complete response and the
      chunks sent to the emitter. `chunk` reads one payload (ChunkReader
      of Jackson's reader in the service). */
  method ReadStream(lines: seq<string>, chunk: string -> string)
    returns (complete: string, sent: seq<string>)
    ensures sent == Chunks(lines, chunk, true)
    ensures complete == Concat(sent)
  {
    complete, sent := [], [];
    var i := 0;
    while i < |lines|
      invariant 0 <= i <= |lines|
      invariant Chunks(lines, chunk, true) == sent + Chunks(lines[i..], chunk, true)
      invariant complete == Concat(sent)
    {
      var line := lines[i];
      ChunksAt(lines, i, chunk, true, sent);
      if StartsWith(line, DataPrefix) {
        var data := Payload(line);
        if data == Done || data == [] {
          assert Stops(line, true);
          assert sent == Chunks(lines, chunk, true);
          break;
        }
        var c := chunk(data);
        if c != [] {
          ConcatSnoc(sent, c);
          complete, sent := complete + c, sent + [c];
        }
      }
      i := i + 1;
    }
    if i == |lines| {
      assert lines[|lines|..] == [];
    }
  }

  /** processStreamingResponse (lines 318-346): the same loop over a
      response already in memory, stopping only at "[DONE]" and appending
      to the caller's builder. */
  method ProcessStreamingResponse(lines: seq<string>, chunk: string -> string, builder: string)
    returns (complete: string, sent: seq<string>)
    ensures sent == Chunks(lines, chunk, false)
    ensures complete == builder + Concat(sent)
  {
    complete, sent := builder, [];
    var i := 0;
    while i < |lines|
      invariant 0 <= i <= |lines|
      invariant Chunks(lines, chunk, false) == sent + Chunks(lines[i..], chunk, false)
      invariant complete == builder + Concat(sent)
    {
      var line := lines[i];
      ChunksAt(lines, i, chunk, false, sent);
      if StartsWith(line, DataPrefix) {
        var data := Payload(line);
        if data == Done {
          assert Stops(line, false);
          assert sent == Chunks(lines, chunk, false);
          break;
        }
        var c := chunk(data);
        if c != [] {
          ConcatSnoc(sent, c);
          Regroup(builder, Concat(sent), c);
          complete, sent := complete + c, sent + [c];
        }
      }
      i := i + 1;
    }
    if i == |lines| {
      assert lines[|lines|..] == [];
    }
  }

  /** callGeminiStreamingAPI: the streaming body, one exchange (`send`
      gives the status and the response lines), then the reading loop; the
      completion processor receives the whole response, and is not called
      when the status is not 200. */
  method StreamGemini(context: seq<Turn>, send: string -> (int, seq<string>), readTree: string -> Option<Json>)
    returns (processed: Option<string>, sent: seq<string>)
    ensures var reply := send(RequestBody(context, true));
      && (processed.Some? <==> reply.0 == 200)
      && (processed.Some? ==> sent == Chunks(reply.1, ChunkReader(readTree), true) && processed.value == Concat(sent))
      && (processed.None? ==> sent == [])
  {
    var body := BuildRequestBody(context, true);
    var reply := send(body);
    if reply.0 != 200 {
      processed, sent := None, [];
    } else {
      var complete;
      complete, sent := ReadStream(reply.1, ChunkReader(readTree));
      processed := Some(complete);
    }
  }

  /** Nothing after a stopping line counts. */
  lemma {:induction false} ChunksCutAtStop(a: seq<string>, line: string, b: seq<string>,
                                           chunk: string -> string, stopOnEmpty: bool)
    requires StartsWith(line, DataPrefix) && Stops(line, stopOnEmpty)
    ensures Chunks(a + [line] + b, chunk, stopOnEmpty) == Chunks(a, chunk, stopOnEmpty)
    decreases |a|
  {
    var s := a + [line] + b;
    if a == [] {
      assert s[0] == line;
    } else {
      assert s[0] == a[0];
      assert s[1..] == a[1..] + [line] + b;
      ChunksCutAtStop(a[1..], line, b, chunk, stopOnEmpty);
    }
  }

  /** Without empty payloads the two loops read the same chunks. */
  lemma {:induction false} LoopsAgree(lines: seq<string>, chunk: string -> string)
    requires forall k :: 0 <= k < |lines| && StartsWith(lines[k], DataPrefix) ==> Payload(lines[k]) != []
    ensures Chunks(lines, chunk, true) == Chunks(lines, chunk, false)
    decreases |lines|
  {
    if lines != [] {
      assert forall k :: 1 <= k < |lines| ==> lines[1..][k - 1] == lines[k];
      LoopsAgree(lines[1..], chunk);
    }
  }

  /** An empty payload ends the streaming loop but not the in-memory one. */
  lemma EmptyPayloadDiffers(e: string, b: seq<string>, chunk: string -> string)
    requires StartsWith(e, DataPrefix) && Payload(e) == []
    ensures Chunks([e] + b, chunk, true) == []
    ensures var c := chunk([]);
      Chunks([e] + b, chunk, false) == (if c == [] then [] else [c]) + Chunks(b, chunk, false)
  {
    assert ([e] + b)[0] == e;
    assert ([e] + b)[1..] == b;
    assert Payload(e) != Done;
  }
}
