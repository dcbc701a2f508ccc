/** Folding a chunk stream into one completion. */
module Aggregate {
  import opened Chunks

  datatype Tool = Tool(id: string, name: string, arguments: string)

  const NEW_TOOL := Tool("", "", "")

  datatype State = State(content: string, reasoning: string, tools: seq<Tool>, finish: string)

  const FRESH := State("", "", [], "stop")

  predicate Indexed(calls: seq<Call>) {
    forall c :: c in calls ==> Slot(c) >= 0
  }

  /** The source would index its slice with a negative number: such a stream crashes it. */
  predicate WellIndexed(chunks: seq<Chunk>) {
    forall c :: c in chunks ==> Indexed(DeltaOf(c).calls)
  }

  function Grow(tools: seq<Tool>, slot: nat): seq<Tool>
    decreases slot + 1 - |tools|
  {
    if |tools| > slot then tools else Grow(tools + [NEW_TOOL], slot)
  }

  function MergeOne(tools: seq<Tool>, call: Call): seq<Tool>
    requires Slot(call) >= 0
  {
    var grown := Grow(tools, Slot(call));
    GrowFacts(tools, Slot(call));
    var target := grown[Slot(call)];
    grown[Slot(call) := Tool(if call.id != "" then call.id else target.id,
                             target.name + call.name,
                             target.arguments + call.arguments)]
  }

  function Merge(tools: seq<Tool>, calls: seq<Call>): seq<Tool>
    requires Indexed(calls)
  {
    if calls == [] then tools else MergeOne(Merge(tools, calls[..|calls| - 1]), calls[|calls| - 1])
  }

  function Process(s: State, chunk: Chunk): State
    requires Indexed(DeltaOf(chunk).calls)
  {
    var delta := DeltaOf(chunk);
    State(s.content + delta.content, s.reasoning + delta.reasoning, Merge(s.tools, delta.calls),
          if FinishOf(chunk) != "" then FinishOf(chunk) else s.finish)
  }

  function Fold(chunks: seq<Chunk>): State
    requires WellIndexed(chunks)
  {
    if chunks == [] then FRESH else Process(Fold(chunks[..|chunks| - 1]), chunks[|chunks| - 1])
  }

  lemma {:induction false} GrowFacts(tools: seq<Tool>, slot: nat)
    ensures |Grow(tools, slot)| == if |tools| > slot then |tools| else slot + 1
    ensures forall i :: 0 <= i < |Grow(tools, slot)| ==>
              Grow(tools, slot)[i] == if i < |tools| then tools[i] else NEW_TOOL
    decreases slot + 1 - |tools|
  {
    if |tools| <= slot {
      GrowFacts(tools + [NEW_TOOL], slot);
    }
  }

  /** The tool a fragment subsequence describes on its own. */
  function ToolFrom(own: seq<Call>): Tool {
    Tool(LastId(own), JoinNames(own), JoinArguments(own))
  }

  lemma OneMore(own: seq<Call>, last: Call)
    ensures ToolFrom(own + [last]) == Tool(if last.id != "" then last.id else ToolFrom(own).id,
                                           ToolFrom(own).name + last.name, ToolFrom(own).arguments + last.arguments)
  {
    assert (own + [last])[..|own|] == own;
  }

  ghost predicate Describes(tools: seq<Tool>, calls: seq<Call>) {
    && (forall i :: 0 <= i < |tools| ==> tools[i] == ToolFrom(Own(calls, i)))
    && (forall c :: c in calls ==> Slot(c) < |tools|)
    && (tools != [] ==> exists c :: c in calls && Slot(c) == |tools| - 1)
  }

  lemma {:induction false} MergeDescribes(tools: seq<Tool>, before: seq<Call>, calls: seq<Call>)
    requires Indexed(calls) && Describes(tools, before)
    ensures Describes(Merge(tools, calls), before + calls)
  {
    if calls == [] {
      assert before + calls == before;
    } else {
      var front, last := calls[..|calls| - 1], calls[|calls| - 1];
      MergeDescribes(tools, before, front);
      assert before + calls == before + front + [last];
      MergeOneDescribes(Merge(tools, front), before + front, last);
    }
  }

  lemma MergeOneDescribes(tools: seq<Tool>, calls: seq<Call>, last: Call)
    requires Slot(last) >= 0 && Describes(tools, calls)
    ensures Describes(MergeOne(tools, last), calls + [last])
  {
    GrowFacts(tools, Slot(last));
    var merged := MergeOne(tools, last);
    assert (calls + [last])[..|calls|] == calls;
    forall i | 0 <= i < |merged| ensures merged[i] == ToolFrom(Own(calls + [last], i)) {
      var own := Own(calls, i);
      if i >= |tools| {
        OwnEmpty(calls, i);
      }
      assert Grow(tools, Slot(last))[i] == ToolFrom(own);
      assert Own(calls + [last], i) == if Slot(last) == i then own + [last] else own;
      OneMore(own, last);
    }
    if |merged| == |tools| {
      var c :| c in calls && Slot(c) == |tools| - 1;
      assert c in calls + [last];
    } else {
      assert last in calls + [last];
    }
  }

  /**
   The fold, said without running it: text and reasoning are the concatenated fragments, and each
   tool depends only on the fragments of its own index, whatever lies between them.
   */
  lemma {:induction false} FoldMeaning(chunks: seq<Chunk>)
    requires WellIndexed(chunks)
    ensures Fold(chunks).content == Contents(chunks)
    ensures Fold(chunks).reasoning == Reasonings(chunks)
    ensures Describes(Fold(chunks).tools, AllCalls(chunks))
  {
    if chunks != [] {
      var front, last := chunks[..|chunks| - 1], chunks[|chunks| - 1];
      FoldMeaning(front);
      MergeDescribes(Fold(front).tools, AllCalls(front), DeltaOf(last).calls);
    }
  }

  /** Two streams that agree on every index's own fragments aggregate to the same tools. */
  lemma InterleavingIsIrrelevant(a: seq<Chunk>, b: seq<Chunk>)
    requires WellIndexed(a) && WellIndexed(b)
    requires forall slot :: Own(AllCalls(a), slot) == Own(AllCalls(b), slot)
    ensures Fold(a).tools == Fold(b).tools
  {
    FoldMeaning(a);
    FoldMeaning(b);
    var x, y := Fold(a).tools, Fold(b).tools;
    SameReach(x, AllCalls(a), y, AllCalls(b));
    SameReach(y, AllCalls(b), x, AllCalls(a));
  }

  lemma SameReach(x: seq<Tool>, calls: seq<Call>, y: seq<Tool>, others: seq<Call>)
    requires Describes(x, calls) && Describes(y, others)
    requires forall slot :: Own(calls, slot) == Own(others, slot)
    ensures |x| <= |y|
  {
    if x != [] {
      OwnEmpty(calls, |x| - 1);
      OwnEmpty(others, |x| - 1);
    }
  }

  datatype Completion = Completion(content: Option<string>, reasoning: Option<string>, tools: seq<Tool>, finish: string)

  /** `newId` stands for the generated id of a tool that was never given one. */
  function Response(s: State, newId: nat -> string): Completion {
    Completion(if s.content != "" then Some(s.content) else None,
               if s.reasoning != "" then Some(s.reasoning) else None,
               seq(|s.tools|, i requires 0 <= i < |s.tools| =>
                 if s.tools[i].id == "" then s.tools[i].(id := newId(i)) else s.tools[i]),
               if |s.tools| > 0 then "tool_calls" else s.finish)
  }

  /** A tool's id is the last one its fragments gave, or the generated one if they gave none. */
  predicate HasId(id: string, own: seq<Call>, generated: string) {
    || (id == generated && forall c :: c in own ==> c.id == "")
    || exists j :: 0 <= j < |own| && LastIdAt(own, j) && id == own[j].id
  }

  predicate LastIdAt(own: seq<Call>, j: nat)
    requires j < |own|
  {
    own[j].id != "" && forall k :: j < k < |own| ==> own[k].id == ""
  }

  lemma {:induction false} LastIdIs(own: seq<Call>)
    ensures LastId(own) == "" ==> forall c :: c in own ==> c.id == ""
    ensures LastId(own) != "" ==> exists j :: 0 <= j < |own| && LastIdAt(own, j) && LastId(own) == own[j].id
  {
    if own != [] {
      var front, last := own[..|own| - 1], own[|own| - 1];
      assert own == front + [last];
      if last.id != "" {
        assert LastIdAt(own, |own| - 1);
      } else {
        LastIdIs(front);
        if LastId(front) != "" {
          var j :| 0 <= j < |front| && LastIdAt(front, j) && LastId(front) == front[j].id;
          assert LastIdAt(own, j);
        }
      }
    }
  }

  lemma {:induction false} CallsWellIndexed(chunks: seq<Chunk>)
    requires WellIndexed(chunks)
    ensures Indexed(AllCalls(chunks))
  {
    if chunks != [] {
      CallsWellIndexed(chunks[..|chunks| - 1]);
    }
  }

  /**
   The answer in terms of the stream's fragments: its content and reasoning are theirs, joined, and absent if
   they come to nothing; its tools are those the fragments name, each with its own fragments' name and
   arguments joined.
   */
  lemma ResponseMeaning(chunks: seq<Chunk>, newId: nat -> string)
    requires WellIndexed(chunks)
    ensures var (calls, r) := (AllCalls(chunks), Response(Fold(chunks), newId));
            && r.content == (if Contents(chunks) == "" then None else Some(Contents(chunks)))
            && r.reasoning == (if Reasonings(chunks) == "" then None else Some(Reasonings(chunks)))
            && (forall c :: c in calls ==> 0 <= Slot(c) < |r.tools|)
            && (r.tools != [] ==> exists c :: c in calls && Slot(c) == |r.tools| - 1)
            && forall i :: 0 <= i < |r.tools| ==>
                 && r.tools[i].name == JoinNames(Own(calls, i)) && r.tools[i].arguments == JoinArguments(Own(calls, i))
                 && HasId(r.tools[i].id, Own(calls, i), newId(i))
  {
    FoldMeaning(chunks);
    CallsWellIndexed(chunks);
    hide Fold, AllCalls, Contents, Reasonings, Describes;
    ToolsMeaning(Fold(chunks), AllCalls(chunks), newId);
  }

  lemma ToolsMeaning(s: State, calls: seq<Call>, newId: nat -> string)
    requires Describes(s.tools, calls) && Indexed(calls)
    ensures var tools := Response(s, newId).tools;
            && (forall c :: c in calls ==> 0 <= Slot(c) < |tools|)
            && (tools != [] ==> exists c :: c in calls && Slot(c) == |tools| - 1)
            && forall i :: 0 <= i < |tools| ==>
                 && tools[i].name == JoinNames(Own(calls, i)) && tools[i].arguments == JoinArguments(Own(calls, i))
                 && HasId(tools[i].id, Own(calls, i), newId(i))
  {
    hide Own, LastId, JoinNames, JoinArguments;
    forall i | 0 <= i < |s.tools| ensures HasId(Response(s, newId).tools[i].id, Own(calls, i), newId(i)) {
      assert s.tools[i] == ToolFrom(Own(calls, i));
      LastIdIs(Own(calls, i));
    }
  }

  class Aggregator {
    var content: string
    var reasoning: string
    var toolCalls: seq<Tool>
    var finishReason: string

    function Value(): State
      reads this
    {
      State(content, reasoning, toolCalls, finishReason)
    }

    constructor ()
      ensures Value() == FRESH
    {
      content, reasoning, toolCalls, finishReason := "", "", [], "stop";
    }

    method ProcessChunk(chunk: Chunk)
      requires Indexed(DeltaOf(chunk).calls)
      modifies this
      ensures Value() == Process(old(Value()), chunk)
    {
      if chunk.choice.None? {
        return;
      }
      if chunk.choice.value.delta.Some? {
        var delta := chunk.choice.value.delta.value;
        content := content + delta.content;
        reasoning := reasoning + delta.reasoning;
        MergeToolCalls(delta.calls);
      }
      if chunk.choice.value.finish != "" {
        finishReason := chunk.choice.value.finish;
      }
    }

    /** The answer. Tools that were never given an id get one, in place. */
    method Respond(newId: nat -> string) returns (completion: Completion)
      modifies this`toolCalls
      ensures completion == Response(old(Value()), newId) && toolCalls == completion.tools
    {
      var finish := finishReason;
      if |toolCalls| > 0 {
        for i := 0 to |toolCalls|
          invariant |toolCalls| == |old(toolCalls)|
          invariant forall j :: 0 <= j < |toolCalls| ==>
                      toolCalls[j] == if j < i then Response(old(Value()), newId).tools[j] else old(toolCalls)[j]
        {
          if toolCalls[i].id == "" {
            toolCalls := toolCalls[i := toolCalls[i].(id := newId(i))];
          }
        }
        finish := "tool_calls";
      }
      completion := Completion(if content != "" then Some(content) else None,
                               if reasoning != "" then Some(reasoning) else None, toolCalls, finish);
    }

    method MergeToolCalls(calls: seq<Call>)
      requires Indexed(calls)
      modifies this`toolCalls
      ensures toolCalls == Merge(old(toolCalls), calls)
    {
      ghost var given := toolCalls;
      for i := 0 to |calls|
        invariant toolCalls == Merge(given, calls[..i])
      {
        assert calls[..i + 1][..i] == calls[..i] && calls[i] in calls;
        var call := calls[i];
        var slot: nat := if call.index.Some? then call.index.value else 0;
        ghost var merged := toolCalls;
        while |toolCalls| <= slot
          invariant Grow(toolCalls, slot) == Grow(merged, slot)
          decreases slot + 1 - |toolCalls|
        {
          toolCalls := toolCalls + [NEW_TOOL];
        }
        var target := toolCalls[slot];
        target := target.(name := target.name + call.name, arguments := target.arguments + call.arguments);
        if call.id != "" {
          target := target.(id := call.id);
        }
        toolCalls := toolCalls[slot := target];
      }
      assert calls[..|calls|] == calls;
    }
  }
}
