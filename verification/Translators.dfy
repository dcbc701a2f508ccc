/** The two consumers of one chunk stream agree on what the model said. */
module Translators {
  import opened Chunks
  import A = Aggregate
  import opened C = Converter

  // ---- what a client assembles from the events ----

  function TextOf(events: seq<Event>): string {
    if events == [] then ""
    else
      var last := events[|events| - 1];
      TextOf(events[..|events| - 1]) + if last.BlockDelta? && last.part.TextPart? then last.part.text else ""
  }

  function ThinkingOf(events: seq<Event>): string {
    if events == [] then ""
    else
      var last := events[|events| - 1];
      ThinkingOf(events[..|events| - 1]) + if last.BlockDelta? && last.part.ThinkingPart? then last.part.text else ""
  }

  function JsonOf(events: seq<Event>, index: nat): string {
    if events == [] then ""
    else
      var last := events[|events| - 1];
      JsonOf(events[..|events| - 1], index)
      + if last.BlockDelta? && last.index == index && last.part.JsonPart? then last.part.text else ""
  }

  /** The kinds of the blocks that were started, in order. */
  function KindsOf(events: seq<Event>): seq<Kind> {
    if events == [] then []
    else
      var last := events[|events| - 1];
      KindsOf(events[..|events| - 1]) + if last.BlockStart? then [last.kind] else []
  }

  /** One event appended. */
  lemma FoldsStep(events: seq<Event>, e: Event, index: nat)
    ensures TextOf(events + [e]) == TextOf(events) + if e.BlockDelta? && e.part.TextPart? then e.part.text else ""
    ensures ThinkingOf(events + [e]) == ThinkingOf(events) + if e.BlockDelta?
              && e.part.ThinkingPart? then e.part.text else ""
    ensures JsonOf(events + [e], index)
         == JsonOf(events, index) + if e.BlockDelta? && e.index == index && e.part.JsonPart? then e.part.text else ""
    ensures KindsOf(events + [e]) == KindsOf(events) + if e.BlockStart? then [e.kind] else []
  {
    assert (events + [e])[..|events|] == events;
  }

  // ---- the running correspondence ----

  ghost predicate SameTools(tools: map<int, nat>, next: nat, events: seq<Event>, calls: seq<Call>) {
    && |KindsOf(events)| == next
    && (forall k: nat :: k >= next ==> JsonOf(events, k) == "")
    && (forall i, j :: i in tools && j in tools && tools[i] == tools[j] ==> i == j)
    && (forall i :: i in tools <==> Own(calls, i) != [])
    && (forall i :: i in tools ==>
         tools[i] < next && JsonOf(events, tools[i]) == JoinArguments(Own(calls, i))
         && KindsOf(events)[tools[i]] == Opening(Own(calls, i)[0]))
  }

  ghost predicate Agreed(c: State, events: seq<Event>, said: string, thought: string, calls: seq<Call>) {
    && TextOf(events) == said && ThinkingOf(events) == thought
    && SameTools(c.tools, c.next, events, calls)
  }

  /** An event that neither starts a block nor extends a tool leaves the tools alone. */
  lemma ToolsKept(tools: map<int, nat>, next: nat, events: seq<Event>, calls: seq<Call>, e: Event)
    requires SameTools(tools, next, events, calls) && !e.BlockStart? && !(e.BlockDelta? && e.part.JsonPart?)
    ensures SameTools(tools, next, events + [e], calls)
  {
    forall k: nat ensures JsonOf(events + [e], k) == JsonOf(events, k) {
      FoldsStep(events, e, k);
      assert JsonOf(events, k) + "" == JsonOf(events, k);
    }
    FoldsStep(events, e, 0);
  }

  /** Starting a block that belongs to no tool. */
  lemma BlockAdded(tools: map<int, nat>, next: nat, events: seq<Event>, calls: seq<Call>, kind: Kind)
    requires SameTools(tools, next, events, calls)
    ensures SameTools(tools, next + 1, events + [BlockStart(next, kind)], calls)
    ensures KindsOf(events + [BlockStart(next, kind)]) == KindsOf(events) + [kind]
  {
    var e := BlockStart(next, kind);
    forall k: nat ensures JsonOf(events + [e], k) == JsonOf(events, k) {
      FoldsStep(events, e, k);
      assert JsonOf(events, k) + "" == JsonOf(events, k);
    }
    FoldsStep(events, e, 0);
  }

  lemma Thinks(c: State, events: seq<Event>, said: string, thought: string, calls: seq<Call>, text: string)
    requires Agreed(c, events, said, thought, calls)
    ensures Agreed(ThinkIf(c, text).0, events + ThinkIf(c, text).1, said, thought + text, calls)
  {
    hide SameTools;
    if text == "" {
      assert events + [] == events && thought + text == thought;
    } else if c.thinking.Some? {
      var e := BlockDelta(c.thinking.value, ThinkingPart(text));
      ToolsKept(c.tools, c.next, events, calls, e);
      FoldsStep(events, e, 0);
      assert said + "" == said;
    } else {
      var e := BlockDelta(c.next, ThinkingPart(text));
      var start := BlockStart(c.next, ThinkingBlock);
      BlockAdded(c.tools, c.next, events, calls, ThinkingBlock);
      ToolsKept(c.tools, c.next + 1, events + [start], calls, e);
      FoldsStep(events, start, 0);
      FoldsStep(events + [start], e, 0);
      assert events + [start, e] == events + [start] + [e];
      assert said + "" == said && thought + "" == thought;
    }
  }

  lemma Speaks(c: State, events: seq<Event>, said: string, thought: string, calls: seq<Call>, text: string)
    requires Agreed(c, events, said, thought, calls)
    ensures Agreed(SpeakIf(c, text).0, events + SpeakIf(c, text).1, said + text, thought, calls)
  {
    hide SameTools;
    if text == "" {
      assert events + [] == events && said + text == said;
    } else if c.text.Some? {
      var e := BlockDelta(c.text.value, TextPart(text));
      ToolsKept(c.tools, c.next, events, calls, e);
      FoldsStep(events, e, 0);
      assert thought + "" == thought;
    } else {
      var e := BlockDelta(c.next, TextPart(text));
      var start := BlockStart(c.next, TextBlock);
      BlockAdded(c.tools, c.next, events, calls, TextBlock);
      ToolsKept(c.tools, c.next + 1, events + [start], calls, e);
      FoldsStep(events, start, 0);
      FoldsStep(events + [start], e, 0);
      assert events + [start, e] == events + [start] + [e];
      assert said + "" == said && thought + "" == thought;
    }
  }

  lemma OwnStep(calls: seq<Call>, call: Call, slot: int)
    ensures Own(calls + [call], slot) == if Slot(call) == slot then Own(calls, slot) + [call] else Own(calls, slot)
    ensures JoinArguments(Own(calls + [call], slot))
         == JoinArguments(Own(calls, slot)) + if Slot(call) == slot then call.arguments else ""
  {
    assert (calls + [call])[..|calls|] == calls;
    var own := Own(calls, slot);
    assert (own + [call])[..|own|] == own;
    assert own + [] == own && JoinArguments(own) + "" == JoinArguments(own);
  }

  lemma OwnSteps(calls: seq<Call>, call: Call)
    ensures forall i :: Own(calls + [call], i) == if Slot(call) == i then Own(calls, i) + [call] else Own(calls, i)
    ensures forall i :: JoinArguments(Own(calls + [call], i))
                     == JoinArguments(Own(calls, i)) + if Slot(call) == i then call.arguments else ""
  {
    forall i ensures Own(calls + [call], i) == if Slot(call) == i then Own(calls, i) + [call] else Own(calls, i)
             ensures JoinArguments(Own(calls + [call], i)) == JoinArguments(Own(calls, i)) + if Slot(call) == i
                       then call.arguments else ""
    {
      OwnStep(calls, call, i);
    }
  }

  ghost predicate Extends(events: seq<Event>, after: seq<Event>, index: nat, text: string, kinds: seq<Kind>) {
    && KindsOf(after) == KindsOf(events) + kinds
    && forall k: nat :: JsonOf(after, k) == if k == index then JsonOf(events, k) + text else JsonOf(events, k)
  }

  /** A fragment of a tool that is already open extends its own argument text and no other. */
  lemma KnownTool(tools: map<int, nat>, next: nat, events: seq<Event>, after: seq<Event>, calls: seq<Call>, call: Call)
    requires SameTools(tools, next, events, calls) && Slot(call) in tools
    requires Extends(events, after, tools[Slot(call)], call.arguments, [])
    ensures SameTools(tools, next, after, calls + [call])
  {
    OwnSteps(calls, call);
    hide KindsOf, JsonOf, Own, JoinArguments, Slot, Opening;
    assert KindsOf(after) == KindsOf(events);
    assert forall s: string :: s + "" == s;
  }

  lemma NewToolAt(tools: map<int, nat>, next: nat, events: seq<Event>, after: seq<Event>, calls: seq<Call>,
                  call: Call, i: int)
    requires SameTools(tools, next, events, calls) && Slot(call) !in tools
    requires Extends(events, after, next, call.arguments, [Opening(call)])
    ensures i in tools[Slot(call) := next] <==> Own(calls + [call], i) != []
    ensures i in tools[Slot(call) := next] ==>
              && tools[Slot(call) := next][i] < next + 1
              && JsonOf(after, tools[Slot(call) := next][i]) == JoinArguments(Own(calls + [call], i))
              && KindsOf(after)[tools[Slot(call) := next][i]] == Opening(Own(calls + [call], i)[0])
  {
    OwnStep(calls, call, i);
    hide *;
    if i == Slot(call) {
      NewToolHere(tools, next, events, after, calls, call);
    } else {
      OldToolStays(tools, next, events, after, calls, call, i);
    }
  }

  lemma NewToolHere(tools: map<int, nat>, next: nat, events: seq<Event>, after: seq<Event>, calls: seq<Call>,
                    call: Call)
    requires SameTools(tools, next, events, calls) && Slot(call) !in tools
    requires Extends(events, after, next, call.arguments, [Opening(call)])
    ensures Own(calls + [call], Slot(call)) != []
              && JsonOf(after, next) == JoinArguments(Own(calls + [call], Slot(call)))
    ensures |KindsOf(after)| > next && KindsOf(after)[next] == Opening(Own(calls + [call], Slot(call))[0])
  {
    OwnStep(calls, call, Slot(call));
    assert JoinArguments([]) == "";
    hide KindsOf, JsonOf, Own, JoinArguments, Slot, Opening;
    assert JsonOf(events, next) == "" && "" + call.arguments == call.arguments;
  }

  lemma OldToolStays(tools: map<int, nat>, next: nat, events: seq<Event>, after: seq<Event>, calls: seq<Call>,
                     call: Call, i: int)
    requires SameTools(tools, next, events, calls) && i != Slot(call)
    requires Extends(events, after, next, call.arguments, [Opening(call)])
    ensures i in tools <==> Own(calls + [call], i) != []
    ensures i in tools ==>
              && tools[i] < next && JsonOf(after, tools[i]) == JoinArguments(Own(calls + [call], i))
              && |KindsOf(after)| > tools[i] && KindsOf(after)[tools[i]] == Opening(Own(calls + [call], i)[0])
  {
    OwnStep(calls, call, i);
    hide KindsOf, JsonOf, Own, JoinArguments, Slot, Opening;
  }

  /** The first fragment of a tool opens its block, is announced by it, and fills it. */
  lemma NewTool(tools: map<int, nat>, next: nat, events: seq<Event>, after: seq<Event>, calls: seq<Call>, call: Call)
    requires SameTools(tools, next, events, calls) && Slot(call) !in tools
    requires Extends(events, after, next, call.arguments, [Opening(call)])
    ensures SameTools(tools[Slot(call) := next], next + 1, after, calls + [call])
  {
    hide KindsOf, JsonOf, Own, JoinArguments, Slot, Opening;
    forall i
      ensures i in tools[Slot(call) := next] <==> Own(calls + [call], i) != []
      ensures i in tools[Slot(call) := next] ==>
                && tools[Slot(call) := next][i] < next + 1
                && JsonOf(after, tools[Slot(call) := next][i]) == JoinArguments(Own(calls + [call], i))
                && KindsOf(after)[tools[Slot(call) := next][i]] == Opening(Own(calls + [call], i)[0])
    {
      NewToolAt(tools, next, events, after, calls, call, i);
    }
  }

  lemma ExtendsOne(events: seq<Event>, index: nat, text: string)
    ensures Extends(events, events + [BlockDelta(index, JsonPart(text))], index, text, [])
    ensures TextOf(events + [BlockDelta(index, JsonPart(text))]) == TextOf(events)
    ensures ThinkingOf(events + [BlockDelta(index, JsonPart(text))]) == ThinkingOf(events)
  {
    var e := BlockDelta(index, JsonPart(text));
    forall k: nat ensures JsonOf(events + [e], k) == if k == index then JsonOf(events, k) + text
      else JsonOf(events, k) {
      FoldsStep(events, e, k);
      assert JsonOf(events, k) + "" == JsonOf(events, k);
    }
    FoldsStep(events, e, 0);
    assert TextOf(events) + "" == TextOf(events) && ThinkingOf(events) + "" == ThinkingOf(events);
  }

  lemma ExtendsStart(events: seq<Event>, index: nat, kind: Kind)
    ensures Extends(events, events + [BlockStart(index, kind)], index, "", [kind])
    ensures TextOf(events + [BlockStart(index, kind)]) == TextOf(events)
    ensures ThinkingOf(events + [BlockStart(index, kind)]) == ThinkingOf(events)
  {
    var e := BlockStart(index, kind);
    forall k: nat ensures JsonOf(events + [e], k) == JsonOf(events, k) {
      FoldsStep(events, e, k);
      assert JsonOf(events, k) + "" == JsonOf(events, k);
    }
    FoldsStep(events, e, 0);
    assert TextOf(events) + "" == TextOf(events) && ThinkingOf(events) + "" == ThinkingOf(events);
    assert forall s: string :: s + "" == s;
  }

  lemma ExtendsTwice(a: seq<Event>, b: seq<Event>, c: seq<Event>, index: nat, text: string, kinds: seq<Kind>)
    requires Extends(a, b, index, "", kinds) && Extends(b, c, index, text, [])
    ensures Extends(a, c, index, text, kinds)
  {
    assert forall s: string :: s + "" == s;
    assert KindsOf(c) == KindsOf(b);
  }

  lemma OneTool(c: State, events: seq<Event>, said: string, thought: string, calls: seq<Call>, call: Call)
    requires Agreed(c, events, said, thought, calls)
    ensures Agreed(Tool(c, call).0, events + Tool(c, call).1, said, thought, calls + [call])
  {
    hide SameTools, Extends, Slot, Opening;
    var more := Tool(c, call).1;
    var known := Slot(call) in c.tools;
    var index := if known then c.tools[Slot(call)] else c.next;
    var started := if known then events else events + [BlockStart(index, Opening(call))];
    if !known {
      ExtendsStart(events, index, Opening(call));
    }
    var after := started + if call.arguments != "" then [BlockDelta(index, JsonPart(call.arguments))] else [];
    if call.arguments != "" {
      ExtendsOne(started, index, call.arguments);
    } else {
      assert after == started;
      ExtendsNothing(started, index);
    }
    assert events + more == after;
    if known {
      KnownTool(c.tools, c.next, events, after, calls, call);
    } else {
      ExtendsTwice(events, started, after, index, call.arguments, [Opening(call)]);
      NewTool(c.tools, c.next, events, after, calls, call);
    }
  }

  lemma ExtendsNothing(events: seq<Event>, index: nat)
    ensures Extends(events, events, index, "", [])
  {
    assert forall s: string :: s + "" == s;
    assert KindsOf(events) + [] == KindsOf(events);
  }

  lemma {:induction false} ManyTools(c: State, events: seq<Event>, said: string, thought: string, before: seq<Call>,
                                     calls: seq<Call>)
    requires Agreed(c, events, said, thought, before)
    ensures Agreed(ToolRun(c, calls).0, events + ToolRun(c, calls).1, said, thought, before + calls)
  {
    hide Agreed, Tool;
    if calls == [] {
      assert events + [] == events && before + calls == before;
    } else {
      var front, last := calls[..|calls| - 1], calls[|calls| - 1];
      ManyTools(c, events, said, thought, before, front);
      var (c1, more) := ToolRun(c, front);
      OneTool(c1, events + more, said, thought, before + front, last);
      assert before + calls == before + front + [last];
      assert events + (more + Tool(c1, last).1) == events + more + Tool(c1, last).1;
    }
  }

  /** Events outside the content change nothing a client assembles. */
  ghost predicate Framing(events: seq<Event>) {
    forall e :: e in events ==> !e.BlockStart? && !e.BlockDelta?
  }

  lemma {:induction false} FramingKept(c: State, d: State, events: seq<Event>, more: seq<Event>, said: string,
                                       thought: string, calls: seq<Call>)
    requires Agreed(c, events, said, thought, calls) && Framing(more) && d.tools == c.tools && d.next == c.next
    ensures Agreed(d, events + more, said, thought, calls)
  {
    if more == [] {
      assert events + more == events;
    } else {
      hide SameTools;
      var front, e := more[..|more| - 1], more[|more| - 1];
      FramingKept(c, d, events, front, said, thought, calls);
      assert events + more == events + front + [e];
      ToolsKept(c.tools, c.next, events + front, calls, e);
      FoldsStep(events + front, e, 0);
      assert said + "" == said && thought + "" == thought;
    }
  }

  lemma {:induction false} StopsFrame(active: seq<nat>)
    ensures Framing(Stops(active))
  {
    if active != [] {
      StopsFrame(active[..|active| - 1]);
    }
  }

  lemma StopKeeps(c: State, events: seq<Event>, said: string, thought: string, calls: seq<Call>, reason: string)
    requires Agreed(c, events, said, thought, calls)
    ensures Agreed(Stop(c, reason).0, events + Stop(c, reason).1, said, thought, calls)
  {
    StopsFrame(c.active);
    hide Agreed;
    FramingKept(c, Stop(c, reason).0, events, Stop(c, reason).1, said, thought, calls);
  }

  lemma ChunkKeeps(c: State, events: seq<Event>, said: string, thought: string, calls: seq<Call>, chunk: Chunk)
    requires Agreed(c, events, said, thought, calls)
    ensures var delta := DeltaOf(chunk);
            Agreed(ProcessChunk(c, chunk).0, events + ProcessChunk(c, chunk).1,
                   said + delta.content, thought + delta.reasoning, calls + delta.calls)
  {
    hide Agreed, ThinkIf, SpeakIf, ToolRun, Stop;
    var delta := DeltaOf(chunk);
    var (c1, e1) := ThinkIf(c, delta.reasoning);
    var (c2, e2) := SpeakIf(c1, delta.content);
    var (c3, e3) := ToolRun(c2, delta.calls);
    Thinks(c, events, said, thought, calls, delta.reasoning);
    Speaks(c1, events + e1, said, thought + delta.reasoning, calls, delta.content);
    ManyTools(c2, events + e1 + e2, said + delta.content, thought + delta.reasoning, calls, delta.calls);
    assert events + (e1 + e2 + e3) == events + e1 + e2 + e3;
    if FinishOf(chunk) != "" {
      var e4 := Stop(c3, MapFinish(FinishOf(chunk))).1;
      StopKeeps(c3, events + (e1 + e2 + e3), said + delta.content, thought + delta.reasoning, calls + delta.calls,
                MapFinish(FinishOf(chunk)));
      assert events + (e1 + e2 + e3) + e4 == events + (e1 + e2 + e3 + e4);
    }
  }

  /** The frames the router hands on: one chunk each. */
  function Framed(chunks: seq<Chunk>): seq<seq<Line>> {
    seq(|chunks|, i requires 0 <= i < |chunks| => [Data(chunks[i])])
  }

  lemma {:induction false} StreamAgrees(chunks: seq<Chunk>)
    ensures var (c, events) := Feed(FRESH, Framed(chunks));
            Agreed(c, events, Contents(chunks), Reasonings(chunks), AllCalls(chunks))
  {
    if chunks != [] {
      var front, last := chunks[..|chunks| - 1], chunks[|chunks| - 1];
      StreamAgrees(front);
      var frames := Framed(chunks);
      assert frames[..|frames| - 1] == Framed(front) && frames[|frames| - 1] == [Data(last)];
      var (c, events) := Feed(FRESH, Framed(front));
      FrameKeeps(c, events, Contents(front), Reasonings(front), AllCalls(front), last);
    }
  }

  lemma FrameKeeps(c: State, events: seq<Event>, said: string, thought: string, calls: seq<Call>, chunk: Chunk)
    requires Agreed(c, events, said, thought, calls)
    ensures var delta := DeltaOf(chunk);
            Agreed(Consume(c, [Data(chunk)]).0, events + Consume(c, [Data(chunk)]).1,
                   said + delta.content, thought + delta.reasoning, calls + delta.calls)
  {
    var (c1, opening) := Start(c);
    hide Agreed, ProcessChunk, DeltaOf;
    FramingKept(c, c1, events, opening, said, thought, calls);
    ChunkKeeps(c1, events + opening, said, thought, calls, chunk);
    var more := ProcessChunk(c1, chunk).1;
    assert [Data(chunk)][1..] == [];
    assert Lines(c1, [Data(chunk)]).1 == more + [] == more;
    assert Consume(c, [Data(chunk)]) == (ProcessChunk(c1, chunk).0, opening + more);
    assert events + (opening + more) == events + opening + more;
  }

  /**
   Both translations of one stream agree: the same text, the same thinking, the same tools, and for
   every tool index the same argument string. Chunks after the finish count for both.
   */
  lemma TranslatorsAgree(chunks: seq<Chunk>)
    requires A.WellIndexed(chunks)
    ensures var (c, events) := Feed(FRESH, Framed(chunks));
            var folded := A.Fold(chunks);
            && TextOf(events) == folded.content
            && ThinkingOf(events) == folded.reasoning
            && (forall i :: i in c.tools ==>
                 0 <= i < |folded.tools| && JsonOf(events, c.tools[i]) == folded.tools[i].arguments)
            && (forall i :: 0 <= i < |folded.tools| && i !in c.tools ==> folded.tools[i] == A.NEW_TOOL)
            && (folded.tools != [] ==> |folded.tools| - 1 in c.tools)
  {
    StreamAgrees(chunks);
    A.FoldMeaning(chunks);
    var (c, events) := Feed(FRESH, Framed(chunks));
    var folded := A.Fold(chunks);
    var calls := AllCalls(chunks);
    A.CallsWellIndexed(chunks);
    forall i ensures Own(calls, i) == [] <==> forall call :: call in calls ==> Slot(call) != i {
      OwnEmpty(calls, i);
    }
    hide KindsOf, JsonOf, TextOf, ThinkingOf, Feed, A.Fold, Own, Contents, Reasonings, AllCalls, Slot;
    ToolsMatch(c, events, calls, folded.tools);
  }

  lemma ToolsMatch(c: State, events: seq<Event>, calls: seq<Call>, tools: seq<A.Tool>)
    requires SameTools(c.tools, c.next, events, calls) && A.Describes(tools, calls) && A.Indexed(calls)
    requires forall i :: Own(calls, i) == [] <==> forall call :: call in calls ==> Slot(call) != i
    ensures forall i :: i in c.tools ==> 0 <= i < |tools| && JsonOf(events, c.tools[i]) == tools[i].arguments
    ensures forall i :: 0 <= i < |tools| && i !in c.tools ==> tools[i] == A.NEW_TOOL
    ensures tools != [] ==> |tools| - 1 in c.tools
  {
    assert A.ToolFrom([]) == A.NEW_TOOL;
    hide KindsOf, JsonOf, Own, Slot, JoinArguments, JoinNames, LastId;
    forall i | i in c.tools ensures 0 <= i < |tools| && JsonOf(events, c.tools[i]) == tools[i].arguments {
      assert Own(calls, i) != [];
    }
    forall i | 0 <= i < |tools| && i !in c.tools ensures tools[i] == A.NEW_TOOL {
      assert Own(calls, i) == [];
    }
    if tools != [] {
      assert Own(calls, |tools| - 1) != [];
    }
  }

  /** A number's decimal digits. */
  function Decimal(n: nat): string {
    if n < 10 then [Digit(n)] else Decimal(n / 10) + [Digit(n % 10)]
  }

  function Digit(n: nat): char
    requires n < 10
  {
    '0' + n as char
  }

  /** The name a tool is announced with when its first fragment carries none. */
  function Fallback(slot: int): string {
    "tool_" + if slot < 0 then "-" + Decimal(-slot) else Decimal(slot)
  }

  function AnthropicName(kind: Kind): string {
    if kind.ToolBlock? then (if kind.name.Named? then kind.name.name else Fallback(kind.name.slot)) else ""
  }

  /**
   Names do differ in general: the converter announces a tool by its first fragment alone, or by a name
   of its own making, while the aggregator joins the names of all fragments and makes none up. They agree
   exactly when only the first fragment carries a name, or when the later ones spell the made-up name.
   */
  lemma NamesAgreeIff(chunks: seq<Chunk>, i: int)
    requires A.WellIndexed(chunks)
    ensures var (c, events) := Feed(FRESH, Framed(chunks));
            var own := Own(AllCalls(chunks), i);
            i in c.tools ==>
              && c.tools[i] < |KindsOf(events)| && 0 <= i < |A.Fold(chunks).tools| && own != []
              && (AnthropicName(KindsOf(events)[c.tools[i]]) == A.Fold(chunks).tools[i].name <==>
                   JoinNames(own[1..]) == if own[0].name != "" then "" else Fallback(i))
  {
    StreamAgrees(chunks);
    A.FoldMeaning(chunks);
    A.CallsWellIndexed(chunks);
    var (c, events) := Feed(FRESH, Framed(chunks));
    if i in c.tools {
      var own := Own(AllCalls(chunks), i);
      OwnEmpty(AllCalls(chunks), i);
      OwnSlots(AllCalls(chunks), i);
      assert KindsOf(events)[c.tools[i]] == Opening(own[0]) && A.Fold(chunks).tools[i].name == JoinNames(own);
      NamesSplit(own);
      OpeningName(own[0], i);
      hide *;
      NamesIff(own[0].name, JoinNames(own[1..]), Fallback(i));
    }
  }

  /**
   Ids differ, too: the converter announces the first fragment's, the aggregator keeps the last one given. They
   agree exactly when the first fragment gives one and no later fragment gives another.
   */
  lemma IdsAgreeIff(chunks: seq<Chunk>, i: int)
    requires A.WellIndexed(chunks)
    ensures var (c, events) := Feed(FRESH, Framed(chunks));
            var own := Own(AllCalls(chunks), i);
            i in c.tools ==>
              && c.tools[i] < |KindsOf(events)| && 0 <= i < |A.Fold(chunks).tools| && own != []
              && KindsOf(events)[c.tools[i]].ToolBlock?
              && KindsOf(events)[c.tools[i]].id == (if own[0].id == "" then Generated else Given(own[0].id))
              && (KindsOf(events)[c.tools[i]].id == Given(A.Fold(chunks).tools[i].id) <==>
                   own[0].id != "" && LastId(own[1..]) in {"", own[0].id})
  {
    StreamAgrees(chunks);
    A.FoldMeaning(chunks);
    var (c, events) := Feed(FRESH, Framed(chunks));
    if i in c.tools {
      var own := Own(AllCalls(chunks), i);
      AnnouncedAs(c, events, Contents(chunks), Reasonings(chunks), AllCalls(chunks), i);
      A.CallsWellIndexed(chunks);
      OwnEmpty(AllCalls(chunks), i);
      OwnSlots(AllCalls(chunks), i);
      assert A.Fold(chunks).tools[i].id == LastId(own);
      hide Own, AllCalls, Feed, Framed, A.Fold, KindsOf;
      IdsSplit(own);
    }
  }

  lemma {:induction false} IdsSplit(own: seq<Call>)
    requires own != []
    ensures LastId(own) == if LastId(own[1..]) != "" then LastId(own[1..]) else own[0].id
  {
    var front, last := own[..|own| - 1], own[|own| - 1];
    if |own| == 1 {
      assert front == [] && own[1..] == [];
    } else {
      IdsSplit(front);
      var rest := own[1..];
      assert rest[..|rest| - 1] == front[1..] && rest[|rest| - 1] == last;
    }
  }

  /** A name that arrives in two halves: the converter announces the first, the aggregator joins both. */
  lemma NamesDiffer()
    ensures var chunks := [Calling(Call(Some(0), "id", "get_", "")), Calling(Call(Some(0), "", "weather", "{}"))];
            var (c, events) := Feed(FRESH, Framed(chunks));
            && A.WellIndexed(chunks) && |A.Fold(chunks).tools| > 0 && 0 in c.tools && c.tools[0] < |KindsOf(events)|
            && AnthropicName(KindsOf(events)[c.tools[0]]) == "get_"
            && A.Fold(chunks).tools[0].name == "get_weather"
  {
    hide Feed, Framed, A.Fold, A.WellIndexed, KindsOf, AnthropicName;
    NameInHalves(Call(Some(0), "id", "get_", ""), Call(Some(0), "", "weather", "{}"));
    assert "get_" + "weather" == "get_weather";
  }

  lemma NameInHalves(one: Call, two: Call)
    requires Slot(one) == 0 == Slot(two) && one.name != "" && two.name != ""
    ensures var chunks := [Calling(one), Calling(two)];
            var (c, events) := Feed(FRESH, Framed(chunks));
            && A.WellIndexed(chunks) && |A.Fold(chunks).tools| > 0 && 0 in c.tools && c.tools[0] < |KindsOf(events)|
            && AnthropicName(KindsOf(events)[c.tools[0]]) == one.name
            && A.Fold(chunks).tools[0].name == one.name + two.name
  {
    var chunks := [Calling(one), Calling(two)];
    var (c, events) := Feed(FRESH, Framed(chunks));
    TwoHalves(one, two);
    StreamAgrees(chunks);
    AnnouncedAs(c, events, Contents(chunks), Reasonings(chunks), AllCalls(chunks), 0);
    OpeningName(one, 0);
    hide *;
    JoinedAs(chunks, 0);
  }

  /** An id that arrives late: the converter has announced one of its own by then, the aggregator keeps it. */
  lemma IdsDiffer()
    ensures var chunks := [Calling(Call(Some(0), "", "f", "")), Calling(Call(Some(0), "id", "", "{}"))];
            var (c, events) := Feed(FRESH, Framed(chunks));
            && A.WellIndexed(chunks) && |A.Fold(chunks).tools| > 0 && 0 in c.tools && c.tools[0] < |KindsOf(events)|
            && KindsOf(events)[c.tools[0]].ToolBlock? && KindsOf(events)[c.tools[0]].id == Generated
            && A.Fold(chunks).tools[0].id == "id"
  {
    hide Feed, Framed, A.Fold, A.WellIndexed, KindsOf;
    LateId(Call(Some(0), "", "f", ""), Call(Some(0), "id", "", "{}"));
  }

  lemma LateId(one: Call, two: Call)
    requires Slot(one) == 0 == Slot(two) && one.id == "" && two.id != ""
    ensures var chunks := [Calling(one), Calling(two)];
            var (c, events) := Feed(FRESH, Framed(chunks));
            && A.WellIndexed(chunks) && |A.Fold(chunks).tools| > 0 && 0 in c.tools && c.tools[0] < |KindsOf(events)|
            && KindsOf(events)[c.tools[0]].ToolBlock? && KindsOf(events)[c.tools[0]].id == Generated
            && A.Fold(chunks).tools[0].id == two.id
  {
    var chunks := [Calling(one), Calling(two)];
    var (c, events) := Feed(FRESH, Framed(chunks));
    TwoHalves(one, two);
    StreamAgrees(chunks);
    AnnouncedAs(c, events, Contents(chunks), Reasonings(chunks), AllCalls(chunks), 0);
    assert Opening(one).ToolBlock? && Opening(one).id == Generated;
    assert [one, two][1] == two && LastId([one, two]) == two.id;
    hide *;
    JoinedAs(chunks, 0);
  }

  lemma AnnouncedAs(c: State, events: seq<Event>, said: string, thought: string, calls: seq<Call>, i: int)
    requires Agreed(c, events, said, thought, calls) && Own(calls, i) != []
    ensures i in c.tools && c.tools[i] < |KindsOf(events)|
    ensures KindsOf(events)[c.tools[i]] == Opening(Own(calls, i)[0])
  {
  }

  lemma JoinedAs(chunks: seq<Chunk>, i: nat)
    requires A.WellIndexed(chunks) && Own(AllCalls(chunks), i) != []
    ensures i < |A.Fold(chunks).tools| && A.Fold(chunks).tools[i].name == JoinNames(Own(AllCalls(chunks), i))
    ensures A.Fold(chunks).tools[i].id == LastId(Own(AllCalls(chunks), i))
  {
    A.FoldMeaning(chunks);
    OwnEmpty(AllCalls(chunks), i);
  }

  function Calling(call: Call): Chunk {
    Chunk(Some(Choice(Some(Delta("", "", [call])), "")))
  }

  lemma OneMoreCall(calls: seq<Call>, last: Call)
    ensures Own(calls + [last], Slot(last)) == Own(calls, Slot(last)) + [last]
    ensures JoinNames(calls + [last]) == JoinNames(calls) + last.name
  {
    assert (calls + [last])[..|calls|] == calls;
  }

  lemma TwoHalves(one: Call, two: Call)
    requires Slot(one) == Slot(two)
    ensures A.WellIndexed([Calling(one), Calling(two)]) <==> Slot(one) >= 0
    ensures AllCalls([Calling(one), Calling(two)]) == [one, two]
    ensures Own([one, two], Slot(one)) == [one, two] && JoinNames([one, two]) == one.name + two.name
  {
    TwoCalls(one, two);
    OneMoreCall([], one);
    OneMoreCall([one], two);
    assert [one] + [two] == [one, two] && [] + [one] == [one];
    assert Own([], Slot(one)) == [] && JoinNames([]) == "";
    hide Own, JoinNames, AllCalls;
    var chunks := [Calling(one), Calling(two)];
    assert chunks[0] in chunks && DeltaOf(chunks[0]).calls == [one] && DeltaOf(chunks[1]).calls == [two];
    assert one in DeltaOf(chunks[0]).calls;
  }

  lemma TwoCalls(one: Call, two: Call)
    ensures AllCalls([Calling(one), Calling(two)]) == [one, two]
  {
    OneMoreChunk([], Calling(one));
    OneMoreChunk([Calling(one)], Calling(two));
    assert [Calling(one)] + [Calling(two)] == [Calling(one), Calling(two)] && [] + [Calling(one)] == [Calling(one)];
    assert AllCalls([]) == [] && [one] + [two] == [one, two] && [] + [one] == [one];
  }

  lemma OpeningName(call: Call, i: int)
    requires Slot(call) == i
    ensures AnthropicName(Opening(call)) == if call.name != "" then call.name else Fallback(i)
  {
  }

  lemma NamesIff(first: string, rest: string, made: string)
    ensures (if first != "" then first else made) == first + rest <==> rest == if first != "" then "" else made
  {
    assert |first + rest| == |first| + |rest|;
    assert first + "" == first && "" + rest == rest;
  }

  lemma {:induction false} OwnSlots(calls: seq<Call>, i: int)
    ensures forall call :: call in Own(calls, i) ==> Slot(call) == i
  {
    if calls != [] {
      OwnSlots(calls[..|calls| - 1], i);
    }
  }

  lemma {:induction false} NamesSplit(own: seq<Call>)
    requires own != []
    ensures JoinNames(own) == own[0].name + JoinNames(own[1..])
  {
    var front, last := own[..|own| - 1], own[|own| - 1];
    if |own| == 1 {
      assert front == [] && own[1..] == [];
      assert JoinNames(own) == JoinNames(front) + last.name;
      assert JoinNames(front) == "" && JoinNames(own[1..]) == "";
    } else {
      NamesSplit(front);
      var rest := own[1..];
      assert rest[..|rest| - 1] == front[1..] && rest[|rest| - 1] == last;
      assert JoinNames(rest) == JoinNames(front[1..]) + last.name;
      assert own[0].name + JoinNames(front[1..]) + last.name == own[0].name + (JoinNames(front[1..]) + last.name);
    }
  }

  // ---- streams with terminal markers in them ----

  /** One line to a frame, as the stream delivers them. */
  function FramesOf(lines: seq<Line>): seq<seq<Line>> {
    seq(|lines|, i requires 0 <= i < |lines| => [lines[i]])
  }

  /** The chunks the converter works off: all of them. */
  function Passed(lines: seq<Line>): seq<Chunk> {
    if lines == [] then []
    else
      var last := lines[|lines| - 1];
      Passed(lines[..|lines| - 1]) + if last.Data? then [last.chunk] else []
  }

  /** The chunks up to the first terminal marker, where the aggregating loop stops, and those behind it. */
  function Before(lines: seq<Line>): seq<Chunk> {
    if lines == [] then []
    else
      var front, last := lines[..|lines| - 1], lines[|lines| - 1];
      Before(front) + if last.Data? && Done !in front then [last.chunk] else []
  }

  function Behind(lines: seq<Line>): seq<Chunk> {
    if lines == [] then []
    else
      var front, last := lines[..|lines| - 1], lines[|lines| - 1];
      Behind(front) + if last.Data? && Done in front then [last.chunk] else []
  }

  lemma {:induction false} MarkerSplits(lines: seq<Line>)
    ensures Passed(lines) == Before(lines) + Behind(lines)
    ensures Done !in lines ==> Behind(lines) == []
  {
    if lines != [] {
      var front, last := lines[..|lines| - 1], lines[|lines| - 1];
      assert lines == front + [last];
      MarkerSplits(front);
    }
  }

  lemma MarkerKeeps(c: State, events: seq<Event>, said: string, thought: string, calls: seq<Call>, line: Line)
    requires Agreed(c, events, said, thought, calls) && !line.Data?
    ensures Agreed(Consume(c, [line]).0, events + Consume(c, [line]).1, said, thought, calls)
  {
    var (c1, opening) := Start(c);
    hide Agreed, Stop;
    FramingKept(c, c1, events, opening, said, thought, calls);
    assert [line][1..] == [];
    if line.Done? {
      StopKeeps(c1, events + opening, said, thought, calls, "end_turn");
      assert events + (opening + Stop(c1, "end_turn").1) == events + opening + Stop(c1, "end_turn").1;
    } else {
      assert Lines(c1, [line][1..]) == (c1, []);
      assert events + (opening + []) == events + opening;
    }
  }

  lemma {:induction false} LinesAgree(lines: seq<Line>)
    ensures var (c, events) := Feed(FRESH, FramesOf(lines));
            Agreed(c, events, Contents(Passed(lines)), Reasonings(Passed(lines)), AllCalls(Passed(lines)))
  {
    if lines != [] {
      var front, last := lines[..|lines| - 1], lines[|lines| - 1];
      LinesAgree(front);
      var frames := FramesOf(lines);
      assert frames[..|frames| - 1] == FramesOf(front) && frames[|frames| - 1] == [last];
      var (c, events) := Feed(FRESH, FramesOf(front));
      var passed := Passed(front);
      hide Agreed, Consume;
      if last.Data? {
        FrameKeeps(c, events, Contents(passed), Reasonings(passed), AllCalls(passed), last.chunk);
        OneMoreChunk(passed, last.chunk);
        assert Passed(lines) == passed + [last.chunk];
      } else {
        MarkerKeeps(c, events, Contents(passed), Reasonings(passed), AllCalls(passed), last);
        assert Passed(lines) == passed;
      }
    } else {
      assert FramesOf(lines) == [];
    }
  }

  /**
   The events carry what the aggregate of `chunks` says: text, thinking, and the same tools with the same
   arguments.
   */
  ghost predicate Carries(c: State, events: seq<Event>, chunks: seq<Chunk>)
    requires A.WellIndexed(chunks)
  {
    && TextOf(events) == A.Fold(chunks).content && ThinkingOf(events) == A.Fold(chunks).reasoning
    && (forall i :: i in c.tools <==> Own(AllCalls(chunks), i) != [])
    && forall i :: i in c.tools && 0 <= i < |A.Fold(chunks).tools| ==>
         JsonOf(events, c.tools[i]) == A.Fold(chunks).tools[i].arguments
  }

  /** Nothing content-bearing: no text, and only empty fragments of tools that `seen` knows. */
  ghost predicate QuietAfter(seen: seq<Chunk>, rest: seq<Chunk>) {
    && Contents(rest) == "" && Reasonings(rest) == ""
    && forall call :: call in AllCalls(rest) ==> call.arguments == "" && Own(AllCalls(seen), Slot(call)) != []
  }

  /**
   The aggregating loop stops at the first terminal marker and the converter does not: over any stream
   the two agree exactly when nothing content-bearing follows that marker.
   */
  lemma MarkersAgreeIff(lines: seq<Line>)
    requires A.WellIndexed(Passed(lines))
    ensures A.WellIndexed(Before(lines))
    ensures var (c, events) := Feed(FRESH, FramesOf(lines));
            Carries(c, events, Before(lines)) <==> QuietAfter(Before(lines), Behind(lines))
  {
    var (c, events) := Feed(FRESH, FramesOf(lines));
    var seen, rest := Before(lines), Behind(lines);
    MarkerSplits(lines);
    LinesAgree(lines);
    A.FoldMeaning(seen);
    A.CallsWellIndexed(seen);
    ContentsAppend(seen, rest);
    var x, y := AllCalls(seen), AllCalls(rest);
    hide *;
    AgreedParts(c, events, seen + rest);
    CarriesIff(c, events, seen, rest, x, y);
  }

  /** Text behind the marker: the converter still sends it on, the aggregate does not have it. */
  lemma MarkersDiffer()
    ensures var lines := [Done, Data(Chunk(Some(Choice(Some(Delta("late", "", [])), ""))))];
            A.WellIndexed(Before(lines)) && A.Fold(Before(lines)).content == ""
            && TextOf(Feed(FRESH, FramesOf(lines)).1) == "late"
  {
    var late := Chunk(Some(Choice(Some(Delta("late", "", [])), "")));
    var lines := [Done, Data(late)];
    OneMoreLine([], Done);
    OneMoreLine([Done], Data(late));
    assert [] + [Done] == [Done] && [Done] + [Data(late)] == lines && [] + [late] == [late];
    OneMoreChunk([], late);
    LinesAgree(lines);
    hide Feed, FramesOf, Before, Passed;
    AgreedParts(Feed(FRESH, FramesOf(lines)).0, Feed(FRESH, FramesOf(lines)).1, Passed(lines));
  }

  lemma AgreedParts(c: State, events: seq<Event>, chunks: seq<Chunk>)
    requires Agreed(c, events, Contents(chunks), Reasonings(chunks), AllCalls(chunks))
    ensures TextOf(events) == Contents(chunks) && ThinkingOf(events) == Reasonings(chunks)
    ensures forall i :: i in c.tools <==> Own(AllCalls(chunks), i) != []
    ensures forall i :: i in c.tools ==> JsonOf(events, c.tools[i]) == JoinArguments(Own(AllCalls(chunks), i))
  {
  }

  lemma OneMoreLine(lines: seq<Line>, last: Line)
    ensures Passed(lines + [last]) == Passed(lines) + if last.Data? then [last.chunk] else []
    ensures Before(lines + [last]) == Before(lines) + if last.Data? && Done !in lines then [last.chunk] else []
  {
    assert (lines + [last])[..|lines|] == lines;
  }

  lemma OneMoreChunk(chunks: seq<Chunk>, chunk: Chunk)
    ensures Contents(chunks + [chunk]) == Contents(chunks) + DeltaOf(chunk).content
    ensures Reasonings(chunks + [chunk]) == Reasonings(chunks) + DeltaOf(chunk).reasoning
    ensures AllCalls(chunks + [chunk]) == AllCalls(chunks) + DeltaOf(chunk).calls
  {
    assert (chunks + [chunk])[..|chunks|] == chunks;
  }

  lemma {:induction false} ContentsAppend(a: seq<Chunk>, b: seq<Chunk>)
    ensures Contents(a + b) == Contents(a) + Contents(b) && Reasonings(a + b) == Reasonings(a) + Reasonings(b)
    ensures AllCalls(a + b) == AllCalls(a) + AllCalls(b)
  {
    if b == [] {
      assert a + b == a;
    } else {
      var front, last := b[..|b| - 1], b[|b| - 1];
      assert b == front + [last] && a + b == (a + front) + [last];
      hide *;
      ContentsAppend(a, front);
      OneMoreChunk(a + front, last);
      OneMoreChunk(front, last);
      Regroup(Contents(a), Contents(front), DeltaOf(last).content);
      Regroup(Reasonings(a), Reasonings(front), DeltaOf(last).reasoning);
      Regroup(AllCalls(a), AllCalls(front), DeltaOf(last).calls);
    }
  }

  lemma Regroup<T>(a: seq<T>, b: seq<T>, c: seq<T>)
    ensures (a + b) + c == a + (b + c)
  {
  }

  lemma {:induction false} JoinAppend(a: seq<Call>, b: seq<Call>)
    ensures JoinArguments(a + b) == JoinArguments(a) + JoinArguments(b)
  {
    if b == [] {
      assert a + b == a;
    } else {
      assert (a + b)[..|a + b| - 1] == a + b[..|b| - 1];
      JoinAppend(a, b[..|b| - 1]);
    }
  }

  lemma {:induction false} JoinEmptyIff(calls: seq<Call>)
    ensures JoinArguments(calls) == "" <==> forall call :: call in calls ==> call.arguments == ""
  {
    if calls != [] {
      var front, last := calls[..|calls| - 1], calls[|calls| - 1];
      assert calls == front + [last];
      JoinEmptyIff(front);
    }
  }

  lemma {:induction false} OwnMembers(calls: seq<Call>, i: int)
    ensures forall call :: call in Own(calls, i) <==> call in calls && Slot(call) == i
  {
    if calls != [] {
      assert calls == calls[..|calls| - 1] + [calls[|calls| - 1]];
      OwnMembers(calls[..|calls| - 1], i);
    }
  }

  /** What lies behind the marker adds nothing to a tool exactly when its fragments there are empty. */
  lemma ToolQuietIff(x: seq<Call>, y: seq<Call>, i: int)
    ensures Own(x + y, i) == Own(x, i) + Own(y, i)
    ensures JoinArguments(Own(x + y, i)) == JoinArguments(Own(x, i)) <==>
              forall call :: call in y && Slot(call) == i ==> call.arguments == ""
    ensures (Own(x + y, i) != [] <==> Own(x, i) != []) <==>
              (Own(x, i) != [] || forall call :: call in y ==> Slot(call) != i)
  {
    OwnAppend(x, y, i);
    JoinAppend(Own(x, i), Own(y, i));
    JoinEmptyIff(Own(y, i));
    OwnMembers(y, i);
    OwnEmpty(y, i);
  }

  lemma CarriesIff(c: State, events: seq<Event>, seen: seq<Chunk>, rest: seq<Chunk>, x: seq<Call>, y: seq<Call>)
    requires A.WellIndexed(seen) && x == AllCalls(seen) && y == AllCalls(rest) && A.Indexed(x)
    requires A.Fold(seen).content == Contents(seen) && A.Fold(seen).reasoning == Reasonings(seen)
               && A.Describes(A.Fold(seen).tools, x)
    requires TextOf(events) == Contents(seen) + Contents(rest)
               && ThinkingOf(events) == Reasonings(seen) + Reasonings(rest)
    requires forall i :: i in c.tools <==> Own(x + y, i) != []
    requires forall i :: i in c.tools ==> JsonOf(events, c.tools[i]) == JoinArguments(Own(x + y, i))
    ensures Carries(c, events, seen) <==> QuietAfter(seen, rest)
  {
    hide TextOf, ThinkingOf, JsonOf, Contents, Reasonings, AllCalls, Own, JoinArguments, JoinNames, LastId, Slot,
      A.Fold, A.Indexed;
    assert Contents(seen) + Contents(rest) == Contents(seen) <==> Contents(rest) == "" by {
      assert |Contents(seen) + Contents(rest)| == |Contents(seen)| + |Contents(rest)|;
    }
    assert Reasonings(seen) + Reasonings(rest) == Reasonings(seen) <==> Reasonings(rest) == "" by {
      assert |Reasonings(seen) + Reasonings(rest)| == |Reasonings(seen)| + |Reasonings(rest)|;
    }
    if Carries(c, events, seen) {
      forall call | call in y ensures call.arguments == "" && Own(x, Slot(call)) != [] {
        ToolQuietIff(x, y, Slot(call));
        ToolInRange(A.Fold(seen).tools, x, Slot(call));
        OwnMembers(y, Slot(call));
        assert call in Own(y, Slot(call));
      }
    }
    if QuietAfter(seen, rest) {
      forall i ensures (Own(x + y, i) != [] <==> Own(x, i) != [])
        && JoinArguments(Own(x + y, i)) == JoinArguments(Own(x, i)) {
        ToolQuietIff(x, y, i);
      }
      forall i | i in c.tools && 0 <= i < |A.Fold(seen).tools| ensures JsonOf(events, c.tools[i])
        == A.Fold(seen).tools[i].arguments {
        assert A.Fold(seen).tools[i] == A.ToolFrom(Own(x, i));
      }
    }
  }

  lemma ToolInRange(tools: seq<A.Tool>, calls: seq<Call>, i: int)
    requires A.Describes(tools, calls) && A.Indexed(calls)
    ensures Own(calls, i) != [] ==> 0 <= i < |tools| && tools[i].arguments == JoinArguments(Own(calls, i))
  {
    OwnMembers(calls, i);
    if Own(calls, i) != [] {
      var call := Own(calls, i)[0];
      assert call in Own(calls, i);
    }
  }
}
