/** The AI event generator (src/services/aiService.ts).  The HTTP call and
    JSON.parse are not modelled: the reply of the chat endpoint arrives as a
    `Result`, and the parser is a parameter that yields an abstract record
    with optional fields, or `None` where JSON.parse (or the mapping over a
    malformed value) throws. */
module AiService {
  import opened Types
  import opened AiModels
  import opened AiConfig
  import EventUtils

  // ------------------------------------------------------------ trimming

  /** The characters String.prototype.trim removes: ECMAScript WhiteSpace
      and LineTerminator. */
  predicate IsJsSpace(c: char) {
    var n := c as int;
    || (0x09 <= n <= 0x0D) || n == 0x20 || n == 0xA0 || n == 0x1680
    || (0x2000 <= n <= 0x200A) || n == 0x2028 || n == 0x2029 || n == 0x202F
    || n == 0x205F || n == 0x3000 || n == 0xFEFF
  }

  /** String.prototype.trimStart: the longest suffix after a run of
      whitespace. */
  function TrimStart(s: string): (r: string)
    ensures |r| <= |s| && r == s[|s| - |r|..]
    ensures forall i :: 0 <= i < |s| - |r| ==> IsJsSpace(s[i])
    ensures r == [] || !IsJsSpace(r[0])
    ensures s == [] || !IsJsSpace(s[0]) ==> r == s
  {
    if s != [] && IsJsSpace(s[0]) then
      var r := TrimStart(s[1..]);
      assert forall i :: 1 <= i < |s| - |r| ==> s[i] == s[1..][i - 1];
      r
    else s
  }

  /** String.prototype.trimEnd: the longest prefix before a run of
      whitespace. */
  function TrimEnd(s: string): (r: string)
    ensures |r| <= |s| && r == s[..|r|]
    ensures forall i :: |r| <= i < |s| ==> IsJsSpace(s[i])
    ensures r == [] || !IsJsSpace(r[|r| - 1])
    ensures s == [] || !IsJsSpace(s[|s| - 1]) ==> r == s
  {
    if s != [] && IsJsSpace(s[|s| - 1]) then
      var r := TrimEnd(s[..|s| - 1]);
      assert forall i :: |r| <= i < |s| - 1 ==> s[i] == s[..|s| - 1][i];
      r
    else s
  }

  /** String.prototype.trim: the middle of `s` once the whitespace on both
      sides is removed. */
  function Trim(s: string): (r: string)
    ensures |r| <= |s|
    ensures TrimmedAt(s, r, |s| - |TrimStart(s)|)
    ensures r == [] || (!IsJsSpace(r[0]) && !IsJsSpace(r[|r| - 1]))
  {
    var t := TrimStart(s);
    var r := TrimEnd(t);
    TrimmedSlice(s, t, r);
    TrimmedEnds(t, r);
    r
  }

  /** A prefix of text that does not start with whitespace does not either. */
  lemma {:induction false} TrimmedEnds(t: string, r: string)
    requires |r| <= |t| && r == t[..|r|]
    requires t == [] || !IsJsSpace(t[0])
    requires r == [] || !IsJsSpace(r[|r| - 1])
    ensures r == [] || (!IsJsSpace(r[0]) && !IsJsSpace(r[|r| - 1]))
  {
    if r != [] {
      assert r[0] == t[0];
    }
  }

  /** Cutting whitespace off the front and then the back leaves a slice of
      `s` with nothing but whitespace around it. */
  lemma {:induction false} TrimmedSlice(s: string, t: string, r: string)
    requires |t| <= |s| && t == s[|s| - |t|..]
    requires forall i :: 0 <= i < |s| - |t| ==> IsJsSpace(s[i])
    requires |r| <= |t| && r == t[..|r|]
    requires forall i :: |r| <= i < |t| ==> IsJsSpace(t[i])
    ensures TrimmedAt(s, r, |s| - |t|)
  {
    PrefixOfSuffix(s, t, r, |s| - |t|);
    SpaceTailShifts(s, t, |r|, |s| - |t|);
  }

  /** A prefix of the suffix `s[k..]` is a slice of `s`. */
  lemma {:induction false} PrefixOfSuffix(s: string, t: string, r: string, k: int)
    requires 0 <= k <= |s| && t == s[k..] && |r| <= |t| && r == t[..|r|]
    ensures r == s[k..k + |r|]
  {
  }

  /** Whitespace at the end of a suffix of `s` is whitespace at the end of `s`. */
  lemma {:induction false} SpaceTailShifts(s: string, t: string, m: int, k: int)
    requires 0 <= k <= |s| && t == s[k..] && 0 <= m <= |t|
    requires forall i :: m <= i < |t| ==> IsJsSpace(t[i])
    ensures forall i :: k + m <= i < |s| ==> IsJsSpace(s[i])
  {
    forall i | k + m <= i < |s|
      ensures IsJsSpace(s[i])
    {
      assert s[i] == t[i - k];
    }
  }

  /** `r` is `s[k..k + |r|]` and every character outside it is whitespace. */
  predicate TrimmedAt(s: string, r: string, k: int) {
    && 0 <= k && k + |r| <= |s| && r == s[k..k + |r|]
    && (forall i :: 0 <= i < k ==> IsJsSpace(s[i]))
    && (forall i :: k + |r| <= i < |s| ==> IsJsSpace(s[i]))
  }

  /** Trimming twice is trimming once. */
  lemma {:induction false} TrimIdempotent(s: string)
    ensures Trim(Trim(s)) == Trim(s)
  {
    var r := Trim(s);
    assert TrimStart(r) == r;
  }

  // ------------------------------------------------------ fence stripping

  predicate StartsWith(s: string, prefix: string) {
    |prefix| <= |s| && s[..|prefix|] == prefix
  }

  const Fence := "```"

  /** `s.replace(/<lit>\n?/g, '')`: scanning left to right, every occurrence
      of `lit`, together with one newline right after it, is deleted; the
      scan resumes after the deleted text. */
  function StripAll(s: string, lit: string): (r: string)
    requires lit != []
    ensures |r| <= |s|
    decreases |s|
  {
    if StartsWith(s, lit) then
      var rest := s[|lit|..];
      if rest != [] && rest[0] == '\n' then StripAll(rest[1..], lit) else StripAll(rest, lit)
    else if s == [] then []
    else [s[0]] + StripAll(s[1..], lit)
  }

  /** Three backticks start at position i. */
  predicate FenceAt(s: string, i: int) {
    0 <= i && i + 3 <= |s| && s[i] == '`' && s[i + 1] == '`' && s[i + 2] == '`'
  }

  /** No three consecutive backticks anywhere. */
  predicate FenceFree(s: string) {
    forall i :: 0 <= i < |s| ==> !FenceAt(s, i)
  }

  predicate DoubleBacktickHead(s: string) {
    |s| >= 2 && s[0] == '`' && s[1] == '`'
  }

  lemma {:induction false} StripKeepsNonBacktickHead(s: string)
    requires s != [] && s[0] != '`'
    ensures StripAll(s, Fence) != [] && StripAll(s, Fence)[0] == s[0]
  {
    assert !StartsWith(s, Fence);
  }

  /** Removing fences never creates a leading double backtick. */
  lemma {:induction false} StripNoDoubleHead(s: string)
    requires !DoubleBacktickHead(s)
    ensures !DoubleBacktickHead(StripAll(s, Fence))
  {
    if s != [] {
      assert !StartsWith(s, Fence);
      if s[0] == '`' && |s| > 1 {
        StripKeepsNonBacktickHead(s[1..]);
      }
    }
  }

  /** After removing every ``` run nothing fence-like is left. */
  lemma {:induction false} StripAllFenceFree(s: string)
    ensures FenceFree(StripAll(s, Fence))
    decreases |s|
  {
    if StartsWith(s, Fence) {
      var rest := s[3..];
      if rest != [] && rest[0] == '\n' { StripAllFenceFree(rest[1..]); } else { StripAllFenceFree(rest); }
    } else if s != [] {
      var tail := StripAll(s[1..], Fence);
      StripAllFenceFree(s[1..]);
      var r := [s[0]] + tail;
      assert r == StripAll(s, Fence);
      if s[0] == '`' {
        assert !DoubleBacktickHead(s[1..]);
        StripNoDoubleHead(s[1..]);
      }
      forall i | 0 <= i < |r| ensures !FenceAt(r, i) {
        if i > 0 {
          assert FenceAt(r, i) ==> FenceAt(tail, i - 1);
        }
      }
    }
  }

  /** The text handed to JSON.parse: the trimmed reply, with fences removed
      when it starts with one. */
  function JsonText(response: string): string {
    var trimmed := Trim(response);
    if StartsWith(trimmed, "```json") then StripAll(StripAll(trimmed, "```json"), Fence)
    else if StartsWith(trimmed, Fence) then StripAll(trimmed, Fence)
    else trimmed
  }

  /** A reply that opens with a fence reaches the parser with no fence left;
      any other reply is only trimmed. */
  lemma {:induction false} JsonTextFenceFree(response: string)
    ensures StartsWith(Trim(response), Fence) ==> FenceFree(JsonText(response))
    ensures !StartsWith(Trim(response), Fence) ==> JsonText(response) == Trim(response)
  {
    var trimmed := Trim(response);
    if StartsWith(trimmed, "```json") {
      assert trimmed[..3] == trimmed[..7][..3];
      StripAllFenceFree(StripAll(trimmed, "```json"));
    } else if StartsWith(trimmed, Fence) {
      StripAllFenceFree(trimmed);
    }
  }

  predicate BacktickFree(s: string) {
    forall i :: 0 <= i < |s| ==> s[i] != '`'
  }

  /** Text without backticks passes through the fence removal untouched. */
  lemma {:induction false} StripSkipsBacktickFree(s: string, t: string, lit: string)
    requires lit != [] && lit[0] == '`' && BacktickFree(s)
    ensures StripAll(s + t, lit) == s + StripAll(t, lit)
    decreases |s|
  {
    var u := s + t;
    if s == [] {
      assert u == t;
    } else {
      assert u[0] == s[0];
      assert !StartsWith(u, lit) by {
        if |lit| <= |u| {
          assert u[..|lit|][0] == u[0];
        }
      }
      assert StripAll(u, lit) == [u[0]] + StripAll(u[1..], lit);
      assert u[1..] == s[1..] + t;
      StripSkipsBacktickFree(s[1..], t, lit);
      assert s == [s[0]] + s[1..];
    }
  }

  /** A reply body without backticks is left as it is. */
  lemma {:induction false} StripKeepsBacktickFree(s: string, lit: string)
    requires lit != [] && lit[0] == '`' && BacktickFree(s)
    ensures StripAll(s, lit) == s
  {
    StripSkipsBacktickFree(s, [], lit);
    assert s + [] == s;
  }

  /** Text that begins and ends with a backtick is not changed by trim. */
  lemma {:induction false} TrimKeepsBacktickEnds(x: string)
    requires x != [] && x[0] == '`' && x[|x| - 1] == '`'
    ensures Trim(x) == x
  {
    assert TrimStart(x) == x;
    assert TrimEnd(x) == x;
  }

  /** What the two global replacements leave of the closing fence. */
  lemma StripClosingFence()
    ensures StripAll("\n```", "```json") == "\n```"
    ensures StripAll("```", Fence) == []
  {
    assert !StartsWith("```", "```json");
    assert StripAll("```", "```json") == "```";
    assert !StartsWith("\n```", "```json");
    assert StartsWith("```", Fence);
  }

  /** The opening ```json line is removed together with its newline. */
  lemma {:induction false} StripOpeningFence(x: string)
    ensures StartsWith("```json\n" + x, "```json")
    ensures StripAll("```json\n" + x, "```json") == StripAll(x, "```json")
  {
    var u := "```json\n" + x;
    assert u[..7] == "```json";
    assert u[7..] == "\n" + x;
    assert u[7..][1..] == x;
  }

  /** For already trimmed text opening with ```json, both replacements run. */
  lemma {:induction false} JsonTextOfJsonFence(response: string)
    requires Trim(response) == response && StartsWith(response, "```json")
    ensures JsonText(response) == StripAll(StripAll(response, "```json"), Fence)
  {
  }

  /** The first replacement removes the opening line of a ```json block. */
  lemma {:induction false} FencedStripFirst(body: string)
    requires BacktickFree(body)
    ensures StripAll("```json\n" + (body + "\n```"), "```json") == body + "\n```"
  {
    StripOpeningFence(body + "\n```");
    StripSkipsBacktickFree(body, "\n```", "```json");
    StripClosingFence();
  }

  /** The second replacement removes the closing fence. */
  lemma {:induction false} FencedStripSecond(body: string)
    requires BacktickFree(body)
    ensures StripAll(body + "\n```", Fence) == body + "\n"
  {
    assert body + "\n```" == (body + "\n") + "```";
    assert BacktickFree(body + "\n");
    StripSkipsBacktickFree(body + "\n", "```", Fence);
    StripClosingFence();
  }

  /** The usual fenced reply: a ```json block around a body without
      backticks reaches the parser as the body and its closing newline. */
  lemma {:induction false} FencedJsonReply(body: string)
    requires BacktickFree(body)
    ensures JsonText("```json\n" + body + "\n```") == body + "\n"
  {
    var response := "```json\n" + (body + "\n```");
    assert "```json\n" + body + "\n```" == response;
    assert response[0] == '`' && response[|response| - 1] == '`';
    TrimKeepsBacktickEnds(response);
    StripOpeningFence(body + "\n```");
    JsonTextOfJsonFence(response);
    FencedStripFirst(body);
    FencedStripSecond(body);
  }

  /** The step-by-step extraction of parseAIResponse. */
  method ExtractJson(response: string) returns (jsonStr: string)
    ensures jsonStr == JsonText(response)
    ensures StartsWith(Trim(response), Fence) ==> FenceFree(jsonStr)
    ensures !StartsWith(Trim(response), Fence) ==> jsonStr == Trim(response)
  {
    jsonStr := Trim(response);
    if StartsWith(jsonStr, "```json") {
      jsonStr := StripAll(jsonStr, "```json");
      jsonStr := StripAll(jsonStr, Fence);
    } else if StartsWith(jsonStr, Fence) {
      jsonStr := StripAll(jsonStr, Fence);
    }
    JsonTextFenceFree(response);
  }

  // ------------------------------------------------------ event mapping

  /** One choice as parsed: `effects` are the entries of the effects object in
      key order; a value is `None` when Number(value) is NaN. */
  datatype RawChoice = RawChoice(text: Option<string>, effects: Option<seq<(string, Option<real>)>>)

  datatype RawEvent = RawEvent(kind: Option<string>, title: Option<string>,
                               description: Option<string>, choices: Option<seq<RawChoice>>)

  /** The enum value a type tag denotes once cast to EventType. */
  function TagToType(tag: string): (t: EventType)
    ensures t.Unlisted? <==> tag !in {"opportunity", "challenge", "daily", "special", "stage"}
  {
    if tag == "opportunity" then Opportunity
    else if tag == "challenge" then Challenge
    else if tag == "daily" then Daily
    else if tag == "special" then Special
    else if tag == "stage" then Stage
    else Unlisted(tag)
  }

  /** The attribute an effect key names; other keys name none. */
  function AttrKeyOf(key: string): (k: Option<AttrKey>)
    ensures k.None? <==> key !in {"health", "intelligence", "charm", "wealth", "happiness", "stress"}
  {
    if key == "health" then Some(Health)
    else if key == "intelligence" then Some(Intelligence)
    else if key == "charm" then Some(Charm)
    else if key == "wealth" then Some(Wealth)
    else if key == "happiness" then Some(Happiness)
    else if key == "stress" then Some(Stress)
    else None
  }

  function MapEffects(entries: seq<(string, Option<real>)>): (r: seq<Effect>)
    ensures |r| == |entries|
    ensures forall i :: 0 <= i < |r| ==>
              r[i] == Effect(AttributeEffect, AttrKeyOf(entries[i].0), entries[i].1.GetOr(0.0))
  {
    if entries == [] then []
    else [Effect(AttributeEffect, AttrKeyOf(entries[0].0), entries[0].1.GetOr(0.0))]
         + MapEffects(entries[1..])
  }

  function MapChoice(raw: RawChoice, index: nat): Choice {
    Choice("choice-" + NatToString(index),
           OrElse(raw.text, "选择 " + NatToString(index + 1)),
           MapEffects(raw.effects.GetOr([])), None)
  }

  function MapChoices(raws: seq<RawChoice>, from: nat): (r: seq<Choice>)
    ensures |r| == |raws|
    ensures forall i :: 0 <= i < |raws| ==> r[i] == MapChoice(raws[i], from + i)
    decreases |raws|
  {
    if raws == [] then [] else [MapChoice(raws[0], from)] + MapChoices(raws[1..], from + 1)
  }

  /** The Event built from a parsed reply; `now` and `suffix` stand for
      Date.now() and the random id part. */
  function MapParsedEvent(raw: RawEvent, eventType: Option<EventType>, now: nat, suffix: string): (e: Event)
    ensures e.id == "event-" + NatToString(now) + "-" + suffix
    ensures eventType.Some? ==> e.kind == eventType.value
    ensures eventType.None? && raw.kind.Some? && raw.kind.value != "" ==> e.kind == TagToType(raw.kind.value)
    ensures eventType.None? && (raw.kind.None? || raw.kind.value == "") ==> e.kind == Daily
    ensures raw.title.Some? && raw.title.value != "" ==> e.title == raw.title.value
    ensures raw.title.None? || raw.title.value == "" ==> e.title == "未知事件"
    ensures raw.description.Some? && raw.description.value != "" ==> e.description == raw.description.value
    ensures raw.description.None? || raw.description.value == "" ==> e.description == ""
    ensures |e.choices| == |raw.choices.GetOr([])|
    ensures e.aiGenerated && e.conditions.None?
  {
    var kind := if eventType.Some? then eventType.value
                else if raw.kind.Some? && raw.kind.value != "" then TagToType(raw.kind.value)
                else Daily;
    Event("event-" + NatToString(now) + "-" + suffix, kind, OrElse(raw.title, "未知事件"),
          OrElse(raw.description, ""), MapChoices(raw.choices.GetOr([]), 0), None, true)
  }

  /** Parsed choice i gets id `choice-i`, the parsed text or `选择 i+1`, one
      effect per entry and no requirements. */
  lemma {:induction false} ParsedChoicesExactly(raw: RawEvent, eventType: Option<EventType>, now: nat,
                                               suffix: string, i: nat)
    requires i < |raw.choices.GetOr([])|
    ensures var c := MapParsedEvent(raw, eventType, now, suffix).choices[i];
            var parsed := raw.choices.value[i];
            && c.id == "choice-" + NatToString(i)
            && (parsed.text.Some? && parsed.text.value != "" ==> c.text == parsed.text.value)
            && (parsed.text.None? || parsed.text.value == "" ==> c.text == "选择 " + NatToString(i + 1))
            && |c.effects| == |parsed.effects.GetOr([])|
            && c.requirements.None?
  {
    var e := MapParsedEvent(raw, eventType, now, suffix);
    assert e.choices[i] == MapChoice(raw.choices.value[i], i);
  }

  /** Every parsed effect is an attribute effect carrying its number, or 0 for
      a non-numeric value. */
  lemma {:induction false} ParsedEffectsExactly(raw: RawEvent, eventType: Option<EventType>, now: nat,
                                               suffix: string, i: nat, j: nat)
    requires raw.choices.Some? && i < |raw.choices.value|
    requires raw.choices.value[i].effects.Some? && j < |raw.choices.value[i].effects.value|
    ensures var effect := MapParsedEvent(raw, eventType, now, suffix).choices[i].effects[j];
            var entry := raw.choices.value[i].effects.value[j];
            && effect.kind == AttributeEffect
            && effect.attribute == AttrKeyOf(entry.0)
            && (entry.1.Some? ==> effect.value == entry.1.value)
            && (entry.1.None? ==> effect.value == 0.0)
  {
    var e := MapParsedEvent(raw, eventType, now, suffix);
    assert e.choices[i] == MapChoice(raw.choices.value[i], i);
  }

  /** getFallbackEvent: its table has only the opportunity key, so every
      request falls back to the opportunity event. */
  function AiFallbackEvent(eventType: Option<EventType>, now: nat): (e: Event)
    ensures e.kind == Opportunity && !e.aiGenerated
    ensures e.id == "event-fallback-" + NatToString(now)
    ensures |e.choices| == 2
  {
    Event("event-fallback-" + NatToString(now), Opportunity, "意外的机会",
          "你遇到了一个不错的机会，虽然不确定结果如何，但值得尝试。",
          [Choice("choice-1", "抓住这个机会",
                  [Effect(AttributeEffect, Some(Happiness), 5.0),
                   Effect(AttributeEffect, Some(Stress), 3.0)], None),
           Choice("choice-2", "谨慎考虑", [Effect(AttributeEffect, Some(Stress), -2.0)], None)],
          None, false)
  }

  /** The fallback ignores the requested type and is a well-formed event. */
  lemma AiFallbackIgnoresType(a: Option<EventType>, b: Option<EventType>, now: nat)
    ensures AiFallbackEvent(a, now) == AiFallbackEvent(b, now)
    ensures EventUtils.ValidateEvent(AiFallbackEvent(a, now))
  {
  }

  /** parseAIResponse: the mapped event, or the fallback when parsing throws. */
  function ParseAIResponse(response: string, parse: string -> Option<RawEvent>,
                           eventType: Option<EventType>, now: nat, suffix: string): (e: Event)
    ensures parse(JsonText(response)).Some? ==>
              e == MapParsedEvent(parse(JsonText(response)).value, eventType, now, suffix) && e.aiGenerated
    ensures parse(JsonText(response)).None? ==> e == AiFallbackEvent(eventType, now) && e.kind == Opportunity
  {
    match parse(JsonText(response))
    case Some(raw) => MapParsedEvent(raw, eventType, now, suffix)
    case None => AiFallbackEvent(eventType, now)
  }

  /** What one AI request sees: the environment and loader, the endpoint's
      reply (`Err` when fetch fails or the status is not ok), the parser, and
      the clock and random id part. */
  datatype AiCall = AiCall(env: Env, loader: Loader, reply: Result<string, string>,
                           parse: string -> Option<RawEvent>, now: nat, suffix: string)

  const InvalidConfigMessage := "AI 配置无效，请检查环境变量"

  /** AIService.generateEvent: fails before any request when the
      configuration is invalid, passes the request's failure on, and parses
      a reply otherwise. */
  function GenerateEvent(call: AiCall, player: Player, eventType: Option<EventType>): (r: Result<Event, string>)
    ensures !ValidateAIConfig(call.env, call.loader) ==> r == Err(InvalidConfigMessage)
    ensures ValidateAIConfig(call.env, call.loader) && call.reply.Err? ==> r == Err(call.reply.error)
    ensures ValidateAIConfig(call.env, call.loader) && call.reply.Ok? ==>
              r == Ok(ParseAIResponse(call.reply.value, call.parse, eventType, call.now, call.suffix))
  {
    if !ValidateAIConfig(call.env, call.loader) then Err(InvalidConfigMessage)
    else match call.reply
      case Err(message) => Err(message)
      case Ok(response) => Ok(ParseAIResponse(response, call.parse, eventType, call.now, call.suffix))
  }

  /** With an invalid configuration the outcome does not depend on the reply,
      the parser or the clock: no request is made. */
  lemma InvalidConfigMakesNoRequest(call: AiCall, other: AiCall, player: Player, eventType: Option<EventType>)
    requires other.env == call.env && other.loader == call.loader
    requires !ValidateAIConfig(call.env, call.loader)
    ensures GenerateEvent(call, player, eventType) == GenerateEvent(other, player, eventType)
    ensures GenerateEvent(call, player, eventType).Err?
  {
  }

  /** A successful request always yields an event, AI-generated or the
      opportunity fallback. */
  lemma {:induction false} SuccessfulRequestYieldsEvent(call: AiCall, player: Player, eventType: Option<EventType>)
    requires ValidateAIConfig(call.env, call.loader) && call.reply.Ok?
    ensures var r := GenerateEvent(call, player, eventType);
            r.Ok? && (r.value.aiGenerated || r.value == AiFallbackEvent(eventType, call.now))
  {
  }
}
