/** Whole outbound messages: what is scrubbed in them, and what is passed on as it came. */
module Messages {
  import opened Chunks
  import opened Replace
  import opened Sentinels
  import opened Scrub

  /** A decoded JSON value; an atom is a number, a boolean or null. */
  datatype Json = Atom(repr: string) | Str(text: string) | List(items: seq<Json>) | Obj(fields: map<string, Json>)

  datatype ToolCall = ToolCall(index: Option<int>, id: string, kind: string, name: string, arguments: string)

  /** Absent, malformed and null content are alike: there is none. */
  datatype Message = Message(role: string, content: Option<Json>, name: string, toolCalls: seq<ToolCall>,
                             toolCallId: string, extra: map<string, Json>)

  type Fields = map<string, Json>

  /** Some string of the value, or some key, holds the identity line. */
  ghost predicate Holds(v: Json)
    decreases v, 1
  {
    match v
    case Atom(_) => false
    case Str(text) => Contains(text, IDENTITY)
    case List(items) => exists i :: 0 <= i < |items| && Holds(items[i])
    case Obj(fields) => exists k :: k in fields && HoldsAt(v, k)
  }

  ghost predicate HoldsAt(v: Json, k: string)
    requires v.Obj? && k in v.fields
    decreases v, 0
  {
    Contains(k, IDENTITY) || Holds(v.fields[k])
  }

  // ---- what the message is before any scrubbing ----

  function SentRole(role: string): string {
    if role == "developer" then "system" else role
  }

  function Plus(fields: Fields, present: bool, key: string, value: Json): Fields {
    if present then fields[key := value] else fields
  }

  function CallJson(call: ToolCall): Json {
    var payload := Obj(map["name" := Str(call.name), "arguments" := Str(call.arguments)]);
    var fields := Plus(map["function" := payload], call.index.Some?, "index", Atom("0"));
    Obj(Plus(Plus(fields, call.id != "", "id", Str(call.id)), call.kind != "", "type", Str(call.kind)))
  }

  function CallsJson(calls: seq<ToolCall>): Json {
    List(seq(|calls|, i requires 0 <= i < |calls| => CallJson(calls[i])))
  }

  /** The client's own further fields, and over them the known ones. */
  function Assembled(m: Message): Fields {
    var spoken := Plus(m.extra["role" := Str(SentRole(m.role))], m.content.Some?, "content",
                       if m.content.Some? then m.content.value else Atom("null"));
    var named := Plus(spoken, m.name != "", "name", Str(m.name));
    Plus(Plus(named, m.toolCalls != [], "tool_calls", CallsJson(m.toolCalls)),
         m.toolCallId != "", "tool_call_id", Str(m.toolCallId))
  }

  // ---- scrubbing its content ----

  /** An object that says it is a text; the system role also wants its text to be a string. */
  predicate IsText(system: bool, block: Json) {
    && block.Obj? && "type" in block.fields && block.fields["type"] == Str("text")
    && (system ==> "text" in block.fields && block.fields["text"].Str?)
  }

  function TextOf(fields: Fields): string {
    if "text" in fields && fields["text"].Str? then fields["text"].text else ""
  }

  function Scrubbed(system: bool, text: string): string {
    if system then ScrubSystem(text) else ScrubHistory(text)
  }

  function ScrubbedBlock(system: bool, block: Json): Json {
    if IsText(system, block) then Obj(block.fields["text" := Str(Scrubbed(system, TextOf(block.fields)))]) else block
  }

  /** A single object is scrubbed like a block in the system role, and passed on in all others. */
  function ScrubbedContent(system: bool, content: Json): Json {
    match content
    case Str(text) => Str(Scrubbed(system, text))
    case List(items) => List(seq(|items|, i requires 0 <= i < |items| => ScrubbedBlock(system, items[i])))
    case Obj(_) => if system then ScrubbedBlock(true, content) else content
    case Atom(_) => content
  }

  function Outbound(m: Message): Fields {
    var fields, system := Assembled(m), SentRole(m.role) == "system";
    if "content" in fields then fields["content" := ScrubbedContent(system, fields["content"])] else fields
  }

  method ScrubContent(content: Json) returns (out: Json)
    ensures out == ScrubbedContent(true, content)
  {
    match content
    case Str(text) =>
      var scrubbed := ScrubText(text);
      out := Str(scrubbed);
    case List(items) =>
      var done: seq<Json> := [];
      for i := 0 to |items|
        invariant |done| == i && forall j :: 0 <= j < i ==> done[j] == ScrubbedBlock(true, items[j])
      {
        var block := items[i];
        if block.Obj? && "type" in block.fields && block.fields["type"] == Str("text")
          && "text" in block.fields && block.fields["text"].Str?
        {
          var scrubbed := ScrubText(block.fields["text"].text);
          block := Obj(block.fields["text" := Str(scrubbed)]);
        }
        done := done + [block];
      }
      out := List(done);
    case Obj(fields) =>
      out := content;
      if IsText(true, content) {
        var scrubbed := ScrubText(fields["text"].text);
        out := Obj(fields["text" := Str(scrubbed)]);
      }
    case Atom(_) =>
      out := content;
  }

  method ScrubHistoryContent(content: Json) returns (out: Json)
    ensures out == ScrubbedContent(false, content)
  {
    match content
    case Str(text) =>
      out := Str(ScrubHistory(text));
    case List(items) =>
      var done: seq<Json> := [];
      for i := 0 to |items|
        invariant |done| == i && forall j :: 0 <= j < i ==> done[j] == ScrubbedBlock(false, items[j])
      {
        var block := items[i];
        if block.Obj? && "type" in block.fields && block.fields["type"] == Str("text") {
          block := Obj(block.fields["text" := Str(ScrubHistory(TextOf(block.fields)))]);
        }
        done := done + [block];
      }
      out := List(done);
    case _ =>
      out := content;
  }

  method OutboundMessage(m: Message) returns (out: Fields)
    ensures out == Outbound(m)
  {
    hide ScrubbedContent, CallsJson;
    out := m.extra;
    var role := if m.role == "developer" then "system" else m.role;
    out := out["role" := Str(role)];
    if m.content.Some? {
      out := out["content" := m.content.value];
    }
    if m.name != "" {
      out := out["name" := Str(m.name)];
    }
    if m.toolCalls != [] {
      out := out["tool_calls" := CallsJson(m.toolCalls)];
    }
    if m.toolCallId != "" {
      out := out["tool_call_id" := Str(m.toolCallId)];
    }
    if "content" in out {
      var content;
      if role == "system" {
        content := ScrubContent(out["content"]);
      } else {
        content := ScrubHistoryContent(out["content"]);
      }
      out := out["content" := content];
    }
  }

  // ---- where the line gets through ----

  /** A key of the object holds the line, or a value does other than the scrubbed text. */
  ghost predicate BlockLeaks(system: bool, block: Json) {
    if IsText(system, block) then exists k :: k in block.fields && k != "text" && HoldsAt(block, k)
    else Holds(block)
  }

  ghost predicate ContentLeaks(system: bool, content: Json) {
    match content
    case Str(_) => false
    case List(items) => exists i :: 0 <= i < |items| && BlockLeaks(system, items[i])
    case Obj(_) => if system then BlockLeaks(true, content) else Holds(content)
    case Atom(_) => false
  }

  ghost predicate CallLeaks(call: ToolCall) {
    Contains(call.id, IDENTITY) || Contains(call.kind, IDENTITY) || Contains(call.name, IDENTITY)
      || Contains(call.arguments, IDENTITY)
  }

  /** The fields that the known ones write over. */
  predicate Overwritten(m: Message, k: string) {
    || k == "role" || (k == "content" && m.content.Some?) || (k == "name" && m.name != "")
    || (k == "tool_calls" && m.toolCalls != []) || (k == "tool_call_id" && m.toolCallId != "")
  }

  /** The content the message goes out with: its own, or a further field of that name. */
  function ContentIn(m: Message): Option<Json> {
    if m.content.Some? then m.content
    else if "content" in m.extra then Some(m.extra["content"]) else None
  }

  ghost predicate ExtraLeaks(m: Message, k: string)
    requires k in m.extra
  {
    !Overwritten(m, k) && k != "content" && HoldsAt(Obj(m.extra), k)
  }

  /** Everything of the message that is not scrubbed, and holds the line. */
  ghost predicate Leaks(m: Message) {
    || Contains(m.role, IDENTITY) || Contains(m.name, IDENTITY) || Contains(m.toolCallId, IDENTITY)
    || (exists i :: 0 <= i < |m.toolCalls| && CallLeaks(m.toolCalls[i]))
    || (exists k :: k in m.extra && ExtraLeaks(m, k))
    || (ContentIn(m).Some? && ContentLeaks(SentRole(m.role) == "system", ContentIn(m).value))
  }

  lemma ShortIsClean(k: string)
    requires |k| < 20
    ensures !Contains(k, IDENTITY)
  {
    assert |IDENTITY| > 20;
    forall i ensures !At(k, IDENTITY, i) {
    }
  }

  lemma ScrubbedIsClean(system: bool, text: string)
    ensures !Contains(Scrubbed(system, text), IDENTITY)
  {
    hide IDENTITY, Contains, ScrubSystem, ScrubHistory;
    SystemIsClean(text);
    HistoryIsClean(text);
  }

  lemma BlockHoldsIff(system: bool, block: Json)
    ensures Holds(ScrubbedBlock(system, block)) <==> BlockLeaks(system, block)
  {
    hide IDENTITY, Contains, Scrubbed, TextOf;
    if IsText(system, block) {
      var out := ScrubbedBlock(system, block);
      ShortIsClean("text");
      ScrubbedIsClean(system, TextOf(block.fields));
      assert !HoldsAt(out, "text");
      forall k | k in block.fields && k != "text" ensures HoldsAt(out, k) <==> HoldsAt(block, k) {
      }
    }
  }

  lemma ContentHoldsIff(system: bool, content: Json)
    ensures Holds(ScrubbedContent(system, content)) <==> ContentLeaks(system, content)
  {
    hide IDENTITY, Contains, Scrubbed, BlockLeaks, ScrubbedBlock, IsText;
    match content
    case Str(text) => ScrubbedIsClean(system, text);
    case List(items) =>
      forall i | 0 <= i < |items| ensures Holds(ScrubbedBlock(system, items[i])) <==> BlockLeaks(system, items[i]) {
        BlockHoldsIff(system, items[i]);
      }
      var out := ScrubbedContent(system, content);
      assert forall i :: 0 <= i < |items| ==> out.items[i] == ScrubbedBlock(system, items[i]);
    case Obj(_) => BlockHoldsIff(true, content);
    case Atom(_) =>
  }

  /** One more field. */
  lemma PlusHoldsIff(fields: Fields, present: bool, key: string, value: Json)
    requires key !in fields && |key| < 20
    ensures Holds(Obj(Plus(fields, present, key, value))) <==> (present && Holds(value)) || Holds(Obj(fields))
  {
    hide IDENTITY, Contains;
    ShortIsClean(key);
    if present {
      var was, now := Obj(fields), Obj(Plus(fields, present, key, value));
      forall k | k in fields ensures HoldsAt(now, k) <==> HoldsAt(was, k) {
      }
      assert HoldsAt(now, key) <==> Holds(value);
    }
  }

  lemma CallHoldsIff(call: ToolCall)
    ensures Holds(CallJson(call)) <==> CallLeaks(call)
  {
    hide IDENTITY, Contains;
    ShortIsClean("");
    var payload := Obj(map["name" := Str(call.name), "arguments" := Str(call.arguments)]);
    PayloadHoldsIff(call.name, call.arguments);
    ShortIsClean("function");
    var base := map["function" := payload];
    assert HoldsAt(Obj(base), "function") <==> Holds(payload);
    assert Holds(Obj(base)) <==> Holds(payload);
    hide Holds;
    var second := Plus(base, call.index.Some?, "index", Atom("0"));
    PlusHoldsIff(base, call.index.Some?, "index", Atom("0"));
    var third := Plus(second, call.id != "", "id", Str(call.id));
    PlusHoldsIff(second, call.id != "", "id", Str(call.id));
    PlusHoldsIff(third, call.kind != "", "type", Str(call.kind));
    PlainHolds(call.id, call.kind);
  }

  lemma PlainHolds(id: string, kind: string)
    ensures (Holds(Str(id)) <==> Contains(id, IDENTITY)) && (Holds(Str(kind)) <==> Contains(kind, IDENTITY))
    ensures !Holds(Atom("0"))
  {
  }

  lemma PayloadHoldsIff(name: string, arguments: string)
    ensures Holds(Obj(map["name" := Str(name), "arguments" := Str(arguments)]))
       <==> Contains(name, IDENTITY) || Contains(arguments, IDENTITY)
  {
    hide IDENTITY, Contains;
    ShortIsClean("name");
    ShortIsClean("arguments");
    var payload := Obj(map["name" := Str(name), "arguments" := Str(arguments)]);
    assert HoldsAt(payload, "name") <==> Contains(name, IDENTITY);
    assert HoldsAt(payload, "arguments") <==> Contains(arguments, IDENTITY);
  }

  lemma CallsHoldIff(calls: seq<ToolCall>)
    ensures Holds(CallsJson(calls)) <==> exists i :: 0 <= i < |calls| && CallLeaks(calls[i])
  {
    hide CallLeaks, CallJson;
    var out := CallsJson(calls);
    forall i | 0 <= i < |calls| ensures Holds(out.items[i]) <==> CallLeaks(calls[i]) {
      CallHoldsIff(calls[i]);
    }
  }

  /** Which fields go out, and what each of them is. */
  lemma OutboundIs(m: Message)
    ensures var out := Outbound(m);
            && (forall k :: k in out <==> k in m.extra || Overwritten(m, k))
            && out["role"] == Str(SentRole(m.role))
            && ("content" in out <==> ContentIn(m).Some?)
            && (ContentIn(m).Some? ==>
                out["content"] == ScrubbedContent(SentRole(m.role) == "system", ContentIn(m).value))
            && (m.name != "" ==> out["name"] == Str(m.name))
            && (m.toolCalls != [] ==> out["tool_calls"] == CallsJson(m.toolCalls))
            && (m.toolCallId != "" ==> out["tool_call_id"] == Str(m.toolCallId))
            && forall k :: k in out && !Overwritten(m, k) && k != "content" ==> out[k] == m.extra[k]
  {
    hide ScrubbedContent, CallsJson, SentRole;
  }

  /**
   The identity line still goes out exactly when something that is not scrubbed holds it: the role, name or call
   id, a tool call, a further field, a key, a block that is not a text, a bare string in a list, or, outside the
   system role, a content that is a single object.
   */
  lemma OutboundIsClean(m: Message)
    ensures Holds(Obj(Outbound(m))) <==> Leaks(m)
  {
    hide *;
    if Leaks(m) {
      LeaksOut(m);
    }
    if Holds(Obj(Outbound(m))) {
      OutLeaks(m);
    }
  }

  lemma RoleHoldsIff(role: string)
    ensures Contains(SentRole(role), IDENTITY) <==> Contains(role, IDENTITY)
  {
    hide IDENTITY, Contains;
    ShortIsClean("system");
    ShortIsClean("developer");
  }

  lemma FixedNames()
    ensures forall k :: k in {"role", "content", "name", "tool_calls", "tool_call_id", ""} ==> !Contains(k, IDENTITY)
  {
    forall k | k in {"role", "content", "name", "tool_calls", "tool_call_id", ""} ensures !Contains(k, IDENTITY) {
      ShortIsClean(k);
    }
  }

  lemma LeaksOut(m: Message)
    requires Leaks(m)
    ensures Holds(Obj(Outbound(m)))
  {
    var out := Obj(Outbound(m));
    OutboundIs(m);
    FixedNames();
    RoleHoldsIff(m.role);
    CallsHoldIff(m.toolCalls);
    hide Outbound, IDENTITY, Contains, CallLeaks, CallsJson, ScrubbedContent, ContentLeaks, SentRole;
    if Contains(m.role, IDENTITY) {
      assert HoldsAt(out, "role");
    } else if Contains(m.name, IDENTITY) {
      assert HoldsAt(out, "name");
    } else if Contains(m.toolCallId, IDENTITY) {
      assert HoldsAt(out, "tool_call_id");
    } else if exists i :: 0 <= i < |m.toolCalls| && CallLeaks(m.toolCalls[i]) {
      assert HoldsAt(out, "tool_calls");
    } else if exists k :: k in m.extra && ExtraLeaks(m, k) {
      var k :| k in m.extra && ExtraLeaks(m, k);
      assert HoldsAt(out, k);
    } else {
      ContentHoldsIff(SentRole(m.role) == "system", ContentIn(m).value);
      assert HoldsAt(out, "content");
    }
  }

  lemma OutLeaks(m: Message)
    requires Holds(Obj(Outbound(m)))
    ensures Leaks(m)
  {
    var out := Obj(Outbound(m));
    var k :| k in out.fields && HoldsAt(out, k);
    OutboundIs(m);
    FixedNames();
    RoleHoldsIff(m.role);
    CallsHoldIff(m.toolCalls);
    hide Outbound, IDENTITY, Contains, CallLeaks, CallsJson, ScrubbedContent, ContentLeaks, SentRole;
    if k == "content" {
      ContentHoldsIff(SentRole(m.role) == "system", ContentIn(m).value);
    } else if !Overwritten(m, k) {
      assert ExtraLeaks(m, k);
    } else {
      assert k in {"role", "content", "name", "tool_calls", "tool_call_id", ""};
      assert Holds(out.fields[k]);
    }
  }

  /** Five turns that still carry the line: in a call, a bare string, another kind of block, an object, a field. */
  lemma LineStillGoesOut()
    ensures Holds(Obj(Outbound(
              Message("assistant", Some(Str("ok")), "", [ToolCall(None, "1", "function", "f", IDENTITY)], "", map[]))))
    ensures Holds(Obj(Outbound(Message("user", Some(List([Str(IDENTITY)])), "", [], "", map[]))))
    ensures Holds(Obj(Outbound(Message("user", Some(List([Result()])), "", [], "", map[]))))
    ensures Holds(Obj(Outbound(Message("user", Some(TextBlock()), "", [], "", map[]))))
    ensures Holds(Obj(Outbound(Message("user", None, "", [], "", map["note" := Str(IDENTITY)]))))
    ensures !Holds(Obj(Outbound(Message("user", Some(List([TextBlock()])), "", [], "", map[]))))
  {
    IdentityIsIn();
    assert HoldsAt(Result(), "content") && HoldsAt(TextBlock(), "text");
    CallCarries(Message("assistant", Some(Str("ok")), "", [ToolCall(None, "1", "function", "f", IDENTITY)], "", map[]));
    BlockCarries("user", Str(IDENTITY));
    BlockCarries("user", Result());
    ObjectCarries("user", TextBlock());
    FieldCarries(Message("user", None, "", [], "", map["note" := Str(IDENTITY)]), "note");
    TextBlockIsClean();
  }

  lemma CallCarries(m: Message)
    requires m.toolCalls != [] && Contains(m.toolCalls[0].arguments, IDENTITY)
    ensures Holds(Obj(Outbound(m)))
  {
    OutboundIsClean(m);
  }

  lemma BlockCarries(role: string, block: Json)
    requires role != "system" && role != "developer" && BlockLeaks(false, block)
    ensures Holds(Obj(Outbound(Message(role, Some(List([block])), "", [], "", map[]))))
  {
    var m := Message(role, Some(List([block])), "", [], "", map[]);
    hide BlockLeaks, Holds;
    assert BlockLeaks(false, m.content.value.items[0]);
    OutboundIsClean(m);
  }

  lemma ObjectCarries(role: string, whole: Json)
    requires role != "system" && role != "developer" && whole.Obj? && Holds(whole)
    ensures Holds(Obj(Outbound(Message(role, Some(whole), "", [], "", map[]))))
  {
    hide Holds;
    OutboundIsClean(Message(role, Some(whole), "", [], "", map[]));
  }

  lemma FieldCarries(m: Message, k: string)
    requires k in m.extra && ExtraLeaks(m, k)
    ensures Holds(Obj(Outbound(m)))
  {
    OutboundIsClean(m);
  }

  function Result(): Json {
    Obj(map["type" := Str("tool_result"), "content" := Str(IDENTITY)])
  }

  function TextBlock(): Json {
    Obj(map["type" := Str("text"), "text" := Str(IDENTITY)])
  }

  lemma IdentityIsIn()
    ensures Contains(IDENTITY, IDENTITY)
  {
    assert At(IDENTITY, IDENTITY, 0);
  }

  lemma TextBlockIsClean()
    ensures !Holds(Obj(Outbound(Message("user", Some(List([TextBlock()])), "", [], "", map[]))))
  {
    hide IDENTITY, Contains;
    var m := Message("user", Some(List([TextBlock()])), "", [], "", map[]);
    ShortIsClean("");
    ShortIsClean("user");
    ShortIsClean("type");
    ShortIsClean("text");
    assert !HoldsAt(TextBlock(), "type") && !BlockLeaks(false, TextBlock());
    OutboundIsClean(m);
  }

  // ---- what is left alone ----

  ghost predicate Free(system: bool, text: string) {
    if system then !HasPhrase(text) else !Contains(text, IDENTITY)
  }

  ghost predicate BlockUntouched(system: bool, block: Json) {
    IsText(system, block) ==>
      "text" in block.fields && block.fields["text"].Str? && Free(system, block.fields["text"].text)
  }

  ghost predicate Untouched(system: bool, content: Json) {
    match content
    case Str(text) => Free(system, text)
    case List(items) => forall i :: 0 <= i < |items| ==> BlockUntouched(system, items[i])
    case Obj(_) => system ==> BlockUntouched(true, content)
    case Atom(_) => true
  }

  lemma FreeIff(system: bool, text: string)
    ensures Scrubbed(system, text) == text <==> Free(system, text)
  {
    hide IDENTITY, Contains, ScrubSystem, ScrubHistory, HasPhrase;
    UnchangedIffPhraseFree(text);
    HistoryIsKeptIff(text);
  }

  lemma BlockKeptIff(system: bool, block: Json)
    ensures ScrubbedBlock(system, block) == block <==> BlockUntouched(system, block)
  {
    hide Scrubbed, Free;
    if IsText(system, block) {
      FreeIff(system, TextOf(block.fields));
      assert ScrubbedBlock(system, block).fields["text"] == Str(Scrubbed(system, TextOf(block.fields)));
      if BlockUntouched(system, block) {
        assert block.fields["text" := block.fields["text"]] == block.fields;
      }
    }
  }

  /**
   A turn goes out as it came exactly when its texts hold none of the phrases its role is scrubbed of. Outside the
   system role that is the identity line alone, except that a text block without a string text is given an empty one.
   */
  lemma MessageIsKeptIff(m: Message)
    ensures Outbound(m) == Assembled(m)
       <==> (ContentIn(m).Some? ==> Untouched(SentRole(m.role) == "system", ContentIn(m).value))
  {
    OutboundIs(m);
    AssembledContent(m);
    hide Outbound, Assembled, SentRole, ScrubbedContent, Untouched;
    if ContentIn(m).Some? {
      ContentKeptIff(SentRole(m.role) == "system", ContentIn(m).value);
    }
  }

  lemma AssembledContent(m: Message)
    ensures ("content" in Assembled(m) <==> ContentIn(m).Some?)
    ensures ContentIn(m).Some? ==> Assembled(m)["content"] == ContentIn(m).value
    ensures Outbound(m) == Assembled(m) <==>
              ("content" in Assembled(m) ==> Outbound(m)["content"] == Assembled(m)["content"])
  {
    hide ScrubbedContent, CallsJson, SentRole;
  }

  lemma ContentKeptIff(system: bool, content: Json)
    ensures ScrubbedContent(system, content) == content <==> Untouched(system, content)
  {
    hide Scrubbed, Free, BlockUntouched, ScrubbedBlock;
    match content
    case Str(text) => FreeIff(system, text);
    case List(items) =>
      forall i | 0 <= i < |items|
        ensures ScrubbedBlock(system, items[i]) == items[i] <==> BlockUntouched(system, items[i])
      {
        BlockKeptIff(system, items[i]);
      }
      var out := ScrubbedContent(system, content);
      assert |out.items| == |items| && forall i :: 0 <= i < |items| ==> out.items[i] == ScrubbedBlock(system, items[i]);
    case Obj(_) => BlockKeptIff(true, content);
    case Atom(_) =>
  }
}
