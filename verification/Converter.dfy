/** Translating a chunk stream into Anthropic message events. */
module Converter {
  import opened Chunks

  datatype ToolId = Given(id: string) | Generated

  datatype ToolName = Named(name: string) | Numbered(slot: int)

  datatype Kind = TextBlock | ThinkingBlock | ToolBlock(id: ToolId, name: ToolName)

  datatype Part = TextPart(text: string) | ThinkingPart(text: string) | JsonPart(text: string)

  datatype Event =
    | MessageStart
    | BlockStart(index: nat, kind: Kind)
    | BlockDelta(index: nat, part: Part)
    | BlockStop(index: nat)
    | MessageDelta(reason: string)
    | MessageStop

  /** A decoded line of a frame: a chunk, the terminal marker, or anything else. */
  datatype Line = Data(chunk: Chunk) | Done | Skipped

  datatype State = State(
    started: bool, stopped: bool, next: nat, active: seq<nat>,
    text: Option<nat>, thinking: Option<nat>, tools: map<int, nat>)

  const FRESH := State(false, false, 0, [], None, None, map[])

  function MapFinish(reason: string): string {
    match reason
    case "stop" => "end_turn"
    case "length" => "max_tokens"
    case "tool_calls" => "tool_use"
    case "content_filter" => "stop_sequence"
    case _ => reason
  }

  function Start(c: State): (State, seq<Event>) {
    if c.started then (c, []) else (c.(started := true), [MessageStart])
  }

  function Stops(active: seq<nat>): seq<Event> {
    if active == [] then [] else Stops(active[..|active| - 1]) + [BlockStop(active[|active| - 1])]
  }

  function Stop(c: State, reason: string): (State, seq<Event>) {
    if c.stopped then (c, [])
    else
      var (s, opening) := Start(c);
      (s.(active := [], stopped := true),
       opening + Stops(c.active) + [MessageDelta(if reason == "" then "end_turn" else reason), MessageStop])
  }

  function Reserve(c: State): State {
    c.(next := c.next + 1, active := c.active + [c.next])
  }

  function Think(c: State, text: string): (State, seq<Event>) {
    if c.thinking.Some? then (c, [BlockDelta(c.thinking.value, ThinkingPart(text))])
    else (Reserve(c).(thinking := Some(c.next)),
          [BlockStart(c.next, ThinkingBlock), BlockDelta(c.next, ThinkingPart(text))])
  }

  function Speak(c: State, text: string): (State, seq<Event>) {
    if c.text.Some? then (c, [BlockDelta(c.text.value, TextPart(text))])
    else (Reserve(c).(text := Some(c.next)),
          [BlockStart(c.next, TextBlock), BlockDelta(c.next, TextPart(text))])
  }

  function ThinkIf(c: State, text: string): (State, seq<Event>) {
    if text == "" then (c, []) else Think(c, text)
  }

  function SpeakIf(c: State, text: string): (State, seq<Event>) {
    if text == "" then (c, []) else Speak(c, text)
  }

  function Opening(call: Call): Kind {
    ToolBlock(if call.id != "" then Given(call.id) else Generated,
              if call.name != "" then Named(call.name) else Numbered(Slot(call)))
  }

  function Tool(c: State, call: Call): (State, seq<Event>) {
    var known := Slot(call) in c.tools;
    var index := if known then c.tools[Slot(call)] else c.next;
    (if known then c else Reserve(c).(tools := c.tools[Slot(call) := c.next]),
     (if known then [] else [BlockStart(index, Opening(call))])
     + if call.arguments != "" then [BlockDelta(index, JsonPart(call.arguments))] else [])
  }

  function ToolRun(c: State, calls: seq<Call>): (State, seq<Event>) {
    if calls == [] then (c, [])
    else
      var (before, events) := ToolRun(c, calls[..|calls| - 1]);
      var (after, more) := Tool(before, calls[|calls| - 1]);
      (after, events + more)
  }

  function ProcessDelta(c: State, delta: Delta): (State, seq<Event>) {
    var (c1, thought) := ThinkIf(c, delta.reasoning);
    var (c2, said) := SpeakIf(c1, delta.content);
    var (c3, called) := ToolRun(c2, delta.calls);
    (c3, thought + said + called)
  }

  function ProcessChunk(c: State, chunk: Chunk): (State, seq<Event>) {
    var (c1, events) := ProcessDelta(c, DeltaOf(chunk));
    if FinishOf(chunk) == "" then (c1, events)
    else
      var (c2, closing) := Stop(c1, MapFinish(FinishOf(chunk)));
      (c2, events + closing)
  }

  function Lines(c: State, lines: seq<Line>): (State, seq<Event>)
    decreases |lines|
  {
    if lines == [] then (c, [])
    else
      match lines[0]
      case Done => Stop(c, "end_turn")
      case Skipped => Lines(c, lines[1..])
      case Data(chunk) =>
        var (c1, events) := ProcessChunk(c, chunk);
        var (c2, more) := Lines(c1, lines[1..]);
        (c2, events + more)
  }

  function Consume(c: State, frame: seq<Line>): (State, seq<Event>) {
    var (c1, opening) := Start(c);
    var (c2, events) := Lines(c1, frame);
    (c2, opening + events)
  }

  function Feed(c: State, frames: seq<seq<Line>>): (State, seq<Event>)
    decreases |frames|
  {
    if frames == [] then (c, [])
    else
      var (before, events) := Feed(c, frames[..|frames| - 1]);
      var (after, more) := Consume(before, frames[|frames| - 1]);
      (after, events + more)
  }

  // ---- the converter object ----

  class AnthropicStreamConverter {
    var started: bool
    var stopped: bool
    var nextIndex: nat
    var activeBlock: seq<nat>
    var textIndex: Option<nat>
    var thinkIndex: Option<nat>
    var toolIndexes: map<int, nat>

    function Value(): State
      reads this
    {
      State(started, stopped, nextIndex, activeBlock, textIndex, thinkIndex, toolIndexes)
    }

    constructor ()
      ensures Value() == FRESH
    {
      started, stopped, nextIndex, activeBlock := false, false, 0, [];
      textIndex, thinkIndex, toolIndexes := None, None, map[];
    }

    method ConsumeFrame(frame: seq<Line>) returns (events: seq<Event>)
      modifies this
      ensures Value() == Consume(old(Value()), frame).0
      ensures events == Consume(old(Value()), frame).1
    {
      var opening := EmitStart();
      ghost var c1 := Value();
      var emitted: seq<Event> := [];
      assert frame[0..] == frame;
      for i := 0 to |frame|
        invariant Lines(c1, frame).0 == Lines(Value(), frame[i..]).0
        invariant Lines(c1, frame).1 == emitted + Lines(Value(), frame[i..]).1
      {
        assert frame[i..][1..] == frame[i + 1..] && frame[i..][0] == frame[i];
        match frame[i]
        case Done =>
          var closing := EmitStop("end_turn");
          return opening + (emitted + closing);
        case Skipped =>
        case Data(chunk) =>
          var more := ConsumeChunk(chunk);
          ghost var later := Lines(Value(), frame[i + 1..]).1;
          assert emitted + (more + later) == emitted + more + later;
          emitted := emitted + more;
      }
      events := opening + emitted;
    }

    method EmitStart() returns (events: seq<Event>)
      modifies this`started
      ensures Value() == Start(old(Value())).0
      ensures events == Start(old(Value())).1
    {
      if started {
        return [];
      }
      started := true;
      events := [MessageStart];
    }

    method ConsumeChunk(chunk: Chunk) returns (events: seq<Event>)
      modifies this
      ensures Value() == ProcessChunk(old(Value()), chunk).0
      ensures events == ProcessChunk(old(Value()), chunk).1
    {
      if chunk.choice.None? {
        return [];
      }
      if chunk.choice.value.delta.Some? {
        events := ConsumeDelta(chunk.choice.value.delta.value);
      } else {
        events := [];
      }
      if chunk.choice.value.finish != "" {
        var closing := EmitStop(MapFinish(chunk.choice.value.finish));
        events := events + closing;
      }
    }

    method ConsumeDelta(delta: Delta) returns (events: seq<Event>)
      modifies this
      ensures Value() == ProcessDelta(old(Value()), delta).0
      ensures events == ProcessDelta(old(Value()), delta).1
    {
      events := [];
      if delta.reasoning != "" {
        events := ThinkingDelta(delta.reasoning);
      }
      if delta.content != "" {
        var said := TextDelta(delta.content);
        events := events + said;
      }
      ghost var c2 := Value();
      var called: seq<Event> := [];
      for i := 0 to |delta.calls|
        invariant Value() == ToolRun(c2, delta.calls[..i]).0
        invariant called == ToolRun(c2, delta.calls[..i]).1
      {
        assert delta.calls[..i + 1][..i] == delta.calls[..i];
        var more := ToolDelta(delta.calls[i]);
        called := called + more;
      }
      assert delta.calls[..|delta.calls|] == delta.calls;
      events := events + called;
    }

    method EmitStop(stopReason: string) returns (events: seq<Event>)
      modifies this
      ensures Value() == Stop(old(Value()), stopReason).0
      ensures events == Stop(old(Value()), stopReason).1
    {
      if stopped {
        return [];
      }
      events := EmitStart();
      ghost var opening := events;
      for i := 0 to |activeBlock|
        invariant events == opening + Stops(activeBlock[..i])
      {
        assert activeBlock[..i + 1][..i] == activeBlock[..i];
        events := events + [BlockStop(activeBlock[i])];
      }
      assert activeBlock[..|activeBlock|] == activeBlock;
      activeBlock := [];
      events := events + [MessageDelta(if stopReason == "" then "end_turn" else stopReason), MessageStop];
      stopped := true;
    }

    method TextDelta(text: string) returns (events: seq<Event>)
      modifies this
      ensures Value() == Speak(old(Value()), text).0
      ensures events == Speak(old(Value()), text).1
    {
      events := [];
      if textIndex.None? {
        var index := ReserveBlock();
        textIndex := Some(index);
        events := [BlockStart(index, TextBlock)];
      }
      events := events + [BlockDelta(textIndex.value, TextPart(text))];
    }

    method ThinkingDelta(text: string) returns (events: seq<Event>)
      modifies this
      ensures Value() == Think(old(Value()), text).0
      ensures events == Think(old(Value()), text).1
    {
      events := [];
      if thinkIndex.None? {
        var index := ReserveBlock();
        thinkIndex := Some(index);
        events := [BlockStart(index, ThinkingBlock)];
      }
      events := events + [BlockDelta(thinkIndex.value, ThinkingPart(text))];
    }

    method ToolDelta(call: Call) returns (events: seq<Event>)
      modifies this
      ensures Value() == Tool(old(Value()), call).0
      ensures events == Tool(old(Value()), call).1
    {
      var slot := if call.index.Some? then call.index.value else 0;
      var index: nat;
      events := [];
      if slot in toolIndexes {
        index := toolIndexes[slot];
      } else {
        index := ReserveBlock();
        toolIndexes := toolIndexes[slot := index];
        events := [BlockStart(index, Opening(call))];
      }
      if call.arguments != "" {
        events := events + [BlockDelta(index, JsonPart(call.arguments))];
      }
    }

    method ReserveBlock() returns (index: nat)
      modifies this`nextIndex, this`activeBlock
      ensures index == old(nextIndex) && Value() == Reserve(old(Value()))
    {
      index := nextIndex;
      nextIndex := nextIndex + 1;
      activeBlock := activeBlock + [index];
    }
  }
}
