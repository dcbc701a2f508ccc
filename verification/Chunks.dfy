/** Decoded OpenAI stream chunks, as both consumers of the stream see them. */
module Chunks {

  datatype Option<+T> = None | Some(value: T)

  /** One tool-call fragment; absent strings decode to "" and an absent index to zero. */
  datatype Call = Call(index: Option<int>, id: string, name: string, arguments: string)

  datatype Delta = Delta(content: string, reasoning: string, calls: seq<Call>)

  datatype Choice = Choice(delta: Option<Delta>, finish: string)

  datatype Chunk = Chunk(choice: Option<Choice>)

  const EMPTY_DELTA := Delta("", "", [])

  function Slot(call: Call): int {
    if call.index.Some? then call.index.value else 0
  }

  function DeltaOf(chunk: Chunk): Delta {
    if chunk.choice.Some? && chunk.choice.value.delta.Some? then chunk.choice.value.delta.value else EMPTY_DELTA
  }

  function FinishOf(chunk: Chunk): string {
    if chunk.choice.Some? then chunk.choice.value.finish else ""
  }

  // ---- what a chunk sequence says, fragment by fragment ----

  function Contents(chunks: seq<Chunk>): string {
    if chunks == [] then "" else Contents(chunks[..|chunks| - 1]) + DeltaOf(chunks[|chunks| - 1]).content
  }

  function Reasonings(chunks: seq<Chunk>): string {
    if chunks == [] then "" else Reasonings(chunks[..|chunks| - 1]) + DeltaOf(chunks[|chunks| - 1]).reasoning
  }

  function AllCalls(chunks: seq<Chunk>): seq<Call> {
    if chunks == [] then [] else AllCalls(chunks[..|chunks| - 1]) + DeltaOf(chunks[|chunks| - 1]).calls
  }

  /** The fragments of one tool index, in arrival order. */
  function Own(calls: seq<Call>, slot: int): seq<Call> {
    if calls == [] then []
    else
      var last := calls[|calls| - 1];
      Own(calls[..|calls| - 1], slot) + if Slot(last) == slot then [last] else []
  }

  function JoinArguments(calls: seq<Call>): string {
    if calls == [] then "" else JoinArguments(calls[..|calls| - 1]) + calls[|calls| - 1].arguments
  }

  function JoinNames(calls: seq<Call>): string {
    if calls == [] then "" else JoinNames(calls[..|calls| - 1]) + calls[|calls| - 1].name
  }

  function LastId(calls: seq<Call>): string {
    if calls == [] then ""
    else if calls[|calls| - 1].id != "" then calls[|calls| - 1].id
    else LastId(calls[..|calls| - 1])
  }

  lemma {:induction false} OwnAppend(a: seq<Call>, b: seq<Call>, slot: int)
    ensures Own(a + b, slot) == Own(a, slot) + Own(b, slot)
  {
    if b == [] {
      assert a + b == a;
    } else {
      assert (a + b)[..|a + b| - 1] == a + b[..|b| - 1];
      OwnAppend(a, b[..|b| - 1], slot);
    }
  }

  lemma {:induction false} OwnEmpty(calls: seq<Call>, slot: int)
    ensures Own(calls, slot) == [] <==> forall c :: c in calls ==> Slot(c) != slot
  {
    if calls != [] {
      assert calls == calls[..|calls| - 1] + [calls[|calls| - 1]];
      OwnEmpty(calls[..|calls| - 1], slot);
    }
  }
}
