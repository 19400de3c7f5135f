/**
 * The chat page's helpers for the backend (`WorkflowChat.jsx`): joining the configured base
 * URL with an API path, and reading the blueprint chat's server-sent event (SSE) stream, one
 * decoded chunk at a time, into the assistant message it updates. The JSON parser and
 * JavaScript's `String()` of a non-string value are parameters.
 */
module WorkflowChat {
  import opened Wrappers
  import opened Json
  import opened Text
  import opened LlmReply

  // API URLs: `getApiUrl`.

  /**
   * `getApiUrl(path)` with the configured `VITE_API_BASE_URL` (`None` when unset): an unset,
   * empty or blank base leaves the path relative; otherwise every trailing `/` of the base
   * is dropped and the path appended.
   */
  function ApiUrl(base: Option<string>, path: string): (r: string)
    ensures base.None? || JsTrim(base.value) == [] ==> r == path
    ensures base.Some? && JsTrim(base.value) != [] ==>
              |path| <= |r| && r[|r| - |path|..] == path &&
              var c := r[..|r| - |path|];
              |c| <= |base.value| && c == base.value[..|c|] && (c == [] || c[|c| - 1] != '/') &&
              forall j :: |c| <= j < |base.value| ==> base.value[j] == '/'
  {
    if base.None? || base.value == "" || JsTrim(base.value) == "" then path
    else
      var c := RStrip(base.value, {'/'});
      assert (c + path)[..|c|] == c;
      c + path
  }

  /** One more trailing `/` on a configured base gives the same URL. */
  lemma ApiUrlTrailingSlash(base: string, path: string)
    requires JsTrim(base) != []
    ensures ApiUrl(Some(base + "/"), path) == ApiUrl(Some(base), path)
  {
    SlashNotBlank(base);
    SlashStripped(base);
    SameCleanBase(base, path);
  }

  /** A base ending in `/` is never blank. */
  lemma SlashNotBlank(base: string)
    ensures JsTrim(base + "/") != []
  {
    NotBlank(base + "/", |base|);
  }

  /** The `/` removal treats one more trailing `/` as it treats the others. */
  lemma SlashStripped(base: string)
    ensures RStrip(base + "/", {'/'}) == RStrip(base, {'/'})
  {
    var b := base + "/";
    assert b[|b| - 1] == '/' && b[..|b| - 1] == base;
  }

  /** Two non-blank bases that lose their slashes to the same text give the same URL. */
  lemma SameCleanBase(base: string, path: string)
    requires JsTrim(base) != [] && JsTrim(base + "/") != []
    requires RStrip(base + "/", {'/'}) == RStrip(base, {'/'})
    ensures ApiUrl(Some(base + "/"), path) == ApiUrl(Some(base), path)
  {
  }

  /** A base made only of slashes (and not blank) puts the path at the server root. */
  lemma ApiUrlSlashesOnly(base: string, path: string)
    requires base != [] && forall j :: 0 <= j < |base| ==> base[j] == '/'
    ensures ApiUrl(Some(base), path) == path
  {
    NotBlank(base, 0);
  }

  // The SSE stream: the pattern `data:\s*\{[^}]*\}` and the payload it yields.

  const DataPrefix: string := "data:"

  /** The first index at or after `j` that holds no white space. */
  function SkipSpace(s: string, j: nat): (k: nat)
    requires j <= |s|
    ensures j <= k <= |s|
    ensures forall i :: j <= i < k ==> s[i] in JsSpace
    ensures k < |s| ==> s[k] !in JsSpace
    decreases |s| - j
  {
    if j < |s| && s[j] in JsSpace then SkipSpace(s, j + 1) else j
  }

  /** The first index at or after `j` that holds `}`, or `|s|`. */
  function FindClose(s: string, j: nat): (k: nat)
    requires j <= |s|
    ensures j <= k <= |s|
    ensures forall i :: j <= i < k ==> s[i] != '}'
    ensures k < |s| ==> s[k] == '}'
    decreases |s| - j
  {
    if j < |s| && s[j] != '}' then FindClose(s, j + 1) else j
  }

  /** `SkipSpace` is the only index with its two properties. */
  lemma SkipSpaceAt(s: string, j: nat, k: nat)
    requires j <= k < |s| && s[k] !in JsSpace
    requires forall i :: j <= i < k ==> s[i] in JsSpace
    ensures SkipSpace(s, j) == k
  {
  }

  /**
   * What the pattern matches: `data:`, white space, `{`, a run without `}`, and the first
   * `}`. Since `\s*` stops at the first non-space and `[^}]*` at the first `}`, no other
   * match is possible.
   */
  predicate IsDataEvent(m: string)
  {
    |m| >= 7 && m[..5] == DataPrefix &&
    var j := SkipSpace(m, 5);
    j < |m| - 1 && m[j] == '{' && m[|m| - 1] == '}' &&
    forall k :: j < k < |m| - 1 ==> m[k] != '}'
  }

  /** Where the pattern, tried at index `i`, ends its match. */
  function MatchAt(s: string, i: nat): (e: Option<nat>)
    requires i <= |s|
    ensures e.Some? ==> i < e.value <= |s| && IsDataEvent(s[i..e.value])
  {
    if i + 5 <= |s| && s[i..i + 5] == DataPrefix then
      var j := SkipSpace(s, i + 5);
      if j < |s| && s[j] == '{' then
        var c := FindClose(s, j + 1);
        if c < |s| then
          var m := s[i..c + 1];
          assert m[..5] == DataPrefix;
          SkipSpaceAt(m, 5, j - i);
          Some(c + 1)
        else None
      else None
    else None
  }

  /**
   * `chunk.match(pattern)` with the global flag, from index `i`: a failed attempt moves on
   * by one character, a match resumes the search right after its end.
   */
  function DataMatches(s: string, i: nat): (r: seq<string>)
    requires i <= |s|
    ensures forall k :: 0 <= k < |r| ==> IsDataEvent(r[k])
    decreases |s| - i
  {
    if i == |s| then []
    else
      match MatchAt(s, i)
      case Some(e) => [s[i..e]] + DataMatches(s, e)
      case None => DataMatches(s, i + 1)
  }

  /** A chunk that is one well-formed event is matched whole. */
  lemma SingleEventMatched(s: string)
    requires IsDataEvent(s)
    ensures DataMatches(s, 0) == [s]
  {
    EventMatchesWhole(s);
    assert s[0..|s|] == s;
    assert DataMatches(s, |s|) == [];
    assert DataMatches(s, 0) == [s[0..|s|]] + DataMatches(s, |s|);
  }

  /** The pattern, tried at the start of a well-formed event, matches all of it. */
  lemma EventMatchesWhole(s: string)
    requires IsDataEvent(s)
    ensures MatchAt(s, 0) == Some(|s|)
  {
    var j := SkipSpace(s, 5);
    assert s[0..5] == DataPrefix;
    var c := FindClose(s, j + 1);
    assert c == |s| - 1;
  }

  /**
   * The first `}` ends a payload: an event whose JSON holds a `}` before its last one
   * (a nested object, or a `}` inside a string) is matched only up to that first `}`.
   */
  lemma MatchStopsAtFirstClose(head: string, rest: string)
    requires IsDataEvent(head)
    ensures MatchAt(head + rest, 0) == Some(|head|)
  {
    var s := head + rest;
    assert s[..|head|] == head;
    assert s[0..5] == head[..5];
    var j := SkipSpace(head, 5);
    SkipSpaceAt(s, 5, j);
    var c := FindClose(s, j + 1);
    assert s[|head| - 1] == '}';
    assert c == |head| - 1;
  }

  /** The match without its leading `data:` and white space, then trimmed: the text handed to `JSON.parse`. */
  function JsonPart(m: string): string
  {
    if |m| >= 5 && m[..5] == DataPrefix then JsTrim(m[SkipSpace(m, 5)..]) else JsTrim(m)
  }

  /** A matched event's JSON text runs from its `{` to its only `}` and is no end marker. */
  lemma JsonPartOfEvent(m: string)
    requires IsDataEvent(m)
    ensures var t := JsonPart(m);
      t == m[SkipSpace(m, 5)..] && |t| >= 2 && t[0] == '{' && t[|t| - 1] == '}' &&
      (forall k :: 0 <= k < |t| - 1 ==> t[k] != '}') && t != "[DONE]"
  {
    var t := m[SkipSpace(m, 5)..];
    assert '{' !in JsSpace && '}' !in JsSpace;
    StripFixedPoint(t, JsSpace);
    assert t[0] != "[DONE]"[0];
  }

  // Picking the content of a parsed payload.

  /** `value[0]` in JavaScript; `None` is `undefined`. */
  function Index0(j: Json): (r: Option<Json>)
    ensures j.JArr? ==> (r.Some? <==> j.items != [])
    ensures j.JStr? && j.s != [] ==> r == Some(JStr([j.s[0]]))
  {
    match j
    case JArr(items) => if items != [] then Some(items[0]) else None
    case JObj(fields) => if "0" in fields then Some(fields["0"]) else None
    case JStr(s) => if s != [] then Some(JStr([s[0]])) else None
    case _ => None
  }

  /** JavaScript truthiness; unlike Python's, an empty array or object is truthy. */
  predicate JsTruthy(v: Option<Json>)
  {
    match v
    case None => false
    case Some(j) =>
      match j
      case JNull => false
      case JBool(b) => b
      case JInt(i) => i != 0
      case JReal(x) => x != 0.0
      case JStr(s) => s != []
      case JArr(_) => true
      case JObj(_) => true
  }

  /** `value.key` on a defined value; `undefined` on anything but an object with that key. */
  function Member(v: Option<Json>, key: string): (r: Option<Json>)
    ensures r.Some? <==> v.Some? && v.value.JObj? && key in v.value.fields
  {
    if v.Some? then Get(v.value, key) else None
  }

  /**
   * The OpenAI-style content `parsed.choices[0].delta.content`, when every step of the
   * `&&` chain is truthy.
   */
  function DeltaContent(parsed: Json): (r: Option<Json>)
    ensures r.Some? ==> JsTruthy(r)
  {
    var choices := Get(parsed, "choices");
    if !JsTruthy(choices) then None
    else
      var first := Index0(choices.value);
      if !JsTruthy(first) then None
      else
        var delta := Member(first, "delta");
        if !JsTruthy(delta) then None
        else
          var content := Member(delta, "content");
          if JsTruthy(content) then content else None
  }

  /**
   * `contentToAdd` for a parsed payload: its `chunk` when defined, else the OpenAI-style
   * content, else its `content` when defined, else `""`. `None` is the `TypeError` of
   * reading a member of `null`.
   */
  function ContentToAdd(parsed: Json): (r: Option<Json>)
    ensures r.None? <==> parsed == JNull
    ensures parsed != JNull && Get(parsed, "chunk").Some? ==> r == Get(parsed, "chunk")
    ensures parsed != JNull && Get(parsed, "chunk").None? && DeltaContent(parsed).Some? ==> r == DeltaContent(parsed)
    ensures parsed != JNull && Get(parsed, "chunk").None? && DeltaContent(parsed).None? ==>
              r == Some(Get(parsed, "content").GetOr(JStr("")))
  {
    if parsed == JNull then None
    else if "chunk" in Keys(parsed) then Get(parsed, "chunk")
    else
      var delta := DeltaContent(parsed);
      if delta.Some? then delta
      else if "content" in Keys(parsed) then Get(parsed, "content")
      else Some(JStr(""))
  }

  /** The member names of a value; only objects have any. */
  function Keys(j: Json): (r: set<string>)
    ensures forall k :: k in r <==> Get(j, k).Some?
  {
    if j.JObj? then j.fields.Keys else {}
  }

  /** `(msg.content || '') + contentToAdd`: a string as it is, anything else as `show` writes it. */
  function ToText(v: Json, show: Json -> string): string
  {
    if v.JStr? then v.s else show(v)
  }

  /**
   * What an event adds to the message: nothing when its text does not parse, when reading
   * it throws, or when the picked content is falsy.
   */
  function Contribution(m: string, parse: Parser): (r: Option<Json>)
    ensures r.Some? ==> JsTruthy(r) && parse(JsonPart(m)).Some? && r == ContentToAdd(parse(JsonPart(m)).value)
  {
    var parsed := parse(JsonPart(m));
    if parsed.None? then None
    else
      var add := ContentToAdd(parsed.value);
      if JsTruthy(add) then add else None
  }

  /** A `chunk` key that is `null` hides a `content` the same payload carries. */
  lemma NullChunkShadowsContent(m: string, parse: Parser, fields: map<string, Json>)
    requires parse(JsonPart(m)) == Some(JObj(fields))
    requires "chunk" in fields && fields["chunk"] == JNull
    ensures Contribution(m, parse).None?
  {
  }

  /** A payload without `chunk` whose `choices[0].delta.content` is text contributes that text. */
  lemma OpenAiDeltaContributes(m: string, parse: Parser, fields: map<string, Json>, choices: seq<Json>,
                                first: map<string, Json>, delta: map<string, Json>, text: string)
    requires parse(JsonPart(m)) == Some(JObj(fields)) && "chunk" !in fields
    requires "choices" in fields && fields["choices"] == JArr(choices) && choices != [] && choices[0] == JObj(first)
    requires "delta" in first && first["delta"] == JObj(delta)
    requires "content" in delta && delta["content"] == JStr(text) && text != []
    ensures Contribution(m, parse) == Some(JStr(text))
  {
    assert DeltaContent(JObj(fields)) == Some(JStr(text));
  }

  /** An empty `chunk` string contributes nothing, whatever else the payload holds. */
  lemma EmptyChunkContributesNothing(m: string, parse: Parser, fields: map<string, Json>)
    requires parse(JsonPart(m)) == Some(JObj(fields))
    requires "chunk" in fields && fields["chunk"] == JStr("")
    ensures Contribution(m, parse).None?
  {
  }

  // Updating the streamed message.

  datatype Message = Message(id: string, content: string, status: string)

  /** The `setMessages` update of one contribution: the message with that id grows and becomes incomplete. */
  function AppendTo(msgs: seq<Message>, id: string, t: string): (r: seq<Message>)
    ensures |r| == |msgs|
    ensures forall i :: 0 <= i < |msgs| ==> r[i] == (if msgs[i].id == id then Message(id, msgs[i].content + t, "incomplete") else msgs[i])
  {
    seq(|msgs|, i requires 0 <= i < |msgs| =>
      if msgs[i].id == id then msgs[i].(content := msgs[i].content + t, status := "incomplete") else msgs[i])
  }

  /** The `setMessages` update of the end marker: the message with that id is complete. */
  function MarkComplete(msgs: seq<Message>, id: string): (r: seq<Message>)
    ensures |r| == |msgs|
    ensures forall i :: 0 <= i < |msgs| ==> r[i] == (if msgs[i].id == id then msgs[i].(status := "complete") else msgs[i])
  {
    seq(|msgs|, i requires 0 <= i < |msgs| => if msgs[i].id == id then msgs[i].(status := "complete") else msgs[i])
  }

  /** The messages after some events, and whether the end marker stopped the stream. */
  datatype Progress = Progress(messages: seq<Message>, done: bool)

  /** One event: the end marker completes the message and stops; otherwise its contribution is appended. */
  function Absorb(msgs: seq<Message>, id: string, m: string, parse: Parser, show: Json -> string): Progress
  {
    if JsonPart(m) == "[DONE]" then Progress(MarkComplete(msgs, id), true)
    else
      match Contribution(m, parse)
      case None => Progress(msgs, false)
      case Some(v) => Progress(AppendTo(msgs, id, ToText(v, show)), false)
  }

  /** The events in order, up to and including an end marker. */
  function Feed(msgs: seq<Message>, id: string, events: seq<string>, parse: Parser, show: Json -> string): Progress
    decreases |events|
  {
    if events == [] then Progress(msgs, false)
    else
      var p := Feed(msgs, id, events[..|events| - 1], parse, show);
      if p.done then p else Absorb(p.messages, id, events[|events| - 1], parse, show)
  }

  /** The text the events add, in order. */
  function Streamed(events: seq<string>, parse: Parser, show: Json -> string): string
    decreases |events|
  {
    if events == [] then ""
    else
      Streamed(events[..|events| - 1], parse, show) +
      match Contribution(events[|events| - 1], parse)
      case None => ""
      case Some(v) => ToText(v, show)
  }

  /** Whether some event contributes. */
  predicate Touched(events: seq<string>, parse: Parser)
    decreases |events|
  {
    events != [] && (Touched(events[..|events| - 1], parse) || Contribution(events[|events| - 1], parse).Some?)
  }

  /**
   * The messages after the stream passed `text`: the one with the id holds it at the end of
   * its content and is incomplete when something was added; the others are as they were.
   */
  predicate Received(start: seq<Message>, id: string, r: seq<Message>, text: string, touched: bool)
  {
    |r| == |start| &&
    forall i :: 0 <= i < |start| ==>
      r[i] == (if start[i].id == id
               then Message(id, start[i].content + text, if touched then "incomplete" else start[i].status)
               else start[i])
  }

  /**
   * Matched events never stop the stream: the message with the id receives exactly the
   * streamed text.
   */
  lemma {:induction false} FeedEvents(msgs: seq<Message>, id: string, events: seq<string>, parse: Parser, show: Json -> string)
    requires forall k :: 0 <= k < |events| ==> IsDataEvent(events[k])
    ensures !Feed(msgs, id, events, parse, show).done
    ensures Received(msgs, id, Feed(msgs, id, events, parse, show).messages, Streamed(events, parse, show), Touched(events, parse))
    decreases |events|
  {
    if events != [] {
      var init := events[..|events| - 1];
      FeedEvents(msgs, id, init, parse, show);
      var p := Feed(msgs, id, init, parse, show);
      AbsorbEvent(msgs, id, p.messages, Streamed(init, parse, show), Touched(init, parse), events[|events| - 1], parse, show);
    }
  }

  /** One matched event extends what the message has received by its contribution. */
  lemma AbsorbEvent(msgs: seq<Message>, id: string, r: seq<Message>, text: string, touched: bool,
                    m: string, parse: Parser, show: Json -> string)
    requires IsDataEvent(m) && Received(msgs, id, r, text, touched)
    ensures var a := Absorb(r, id, m, parse, show);
      var c := Contribution(m, parse);
      !a.done && Received(msgs, id, a.messages, text + (if c.Some? then ToText(c.value, show) else ""), touched || c.Some?)
  {
    JsonPartOfEvent(m);
    assert JsonPart(m) != "[DONE]";
    match Contribution(m, parse)
    case None =>
      assert text + "" == text;
    case Some(v) =>
      AppendReceived(msgs, id, r, text, touched, ToText(v, show));
  }

  /** Appending a text to the message with the id extends what it has received by that text. */
  lemma AppendReceived(msgs: seq<Message>, id: string, r: seq<Message>, text: string, touched: bool, t: string)
    requires Received(msgs, id, r, text, touched)
    ensures Received(msgs, id, AppendTo(r, id, t), text + t, true)
  {
    var q := AppendTo(r, id, t);
    forall i | 0 <= i < |msgs| && msgs[i].id == id
      ensures q[i].content == msgs[i].content + (text + t)
    {
      assert q[i].content == r[i].content + t;
    }
  }

  /**
   * The loop over one chunk's matches: each match's text is checked for the end marker,
   * parsed, and its contribution appended to the message with `messageId`.
   */
  method ProcessMatches(messages: seq<Message>, messageId: string, matches: seq<string>, parse: Parser, show: Json -> string)
    returns (ms: seq<Message>, done: bool)
    ensures Progress(ms, done) == Feed(messages, messageId, matches, parse, show)
  {
    ms := messages;
    for k := 0 to |matches|
      invariant Feed(messages, messageId, matches[..k], parse, show) == Progress(ms, false)
    {
      FeedOneMore(messages, messageId, matches, k, parse, show);
      var jsonStr := JsonPart(matches[k]);
      if jsonStr == "[DONE]" {
        ms := MarkComplete(ms, messageId);
        done := true;
        FeedStops(messages, messageId, matches, k + 1, parse, show);
        return;
      }
      var parsed := parse(jsonStr);
      if parsed.Some? {
        var add := ContentToAdd(parsed.value);
        if JsTruthy(add) {
          ms := AppendTo(ms, messageId, ToText(add.value, show));
        }
      }
    }
    assert matches[..|matches|] == matches;
    done := false;
  }

  /** A stream not yet stopped absorbs the next event. */
  lemma FeedOneMore(msgs: seq<Message>, id: string, events: seq<string>, k: nat, parse: Parser, show: Json -> string)
    requires k < |events| && !Feed(msgs, id, events[..k], parse, show).done
    ensures Feed(msgs, id, events[..k + 1], parse, show) ==
            Absorb(Feed(msgs, id, events[..k], parse, show).messages, id, events[k], parse, show)
  {
    assert events[..k + 1][..k] == events[..k];
  }

  /** Once the end marker has stopped the stream, later events change nothing. */
  lemma {:induction false} FeedStops(msgs: seq<Message>, id: string, events: seq<string>, n: nat, parse: Parser, show: Json -> string)
    requires n <= |events| && Feed(msgs, id, events[..n], parse, show).done
    ensures Feed(msgs, id, events, parse, show) == Feed(msgs, id, events[..n], parse, show)
    decreases |events| - n
  {
    if n < |events| {
      var next := events[..n + 1];
      assert next[..|next| - 1] == events[..n];
      FeedDoneStep(msgs, id, next, parse, show);
      FeedStops(msgs, id, events, n + 1, parse, show);
    } else {
      assert events[..n] == events;
    }
  }

  /** A stopped stream stays stopped over one more event. */
  lemma FeedDoneStep(msgs: seq<Message>, id: string, events: seq<string>, parse: Parser, show: Json -> string)
    requires events != [] && Feed(msgs, id, events[..|events| - 1], parse, show).done
    ensures Feed(msgs, id, events, parse, show) == Feed(msgs, id, events[..|events| - 1], parse, show)
  {
  }

  /** One decoded chunk of the stream: its events are found and processed in order. */
  method ProcessChunk(messages: seq<Message>, messageId: string, chunk: string, parse: Parser, show: Json -> string)
    returns (ms: seq<Message>, done: bool)
    ensures !done
    ensures Received(messages, messageId, ms, Streamed(DataMatches(chunk, 0), parse, show), Touched(DataMatches(chunk, 0), parse))
  {
    var matches := DataMatches(chunk, 0);
    ms, done := ProcessMatches(messages, messageId, matches, parse, show);
    FeedEvents(messages, messageId, matches, parse, show);
  }
}
