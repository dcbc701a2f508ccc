/** Which stop reason each translation reports. */
module Endings {
  import opened Chunks
  import opened Converter
  import opened Translators
  import A = Aggregate

  function ReasonsOf(events: seq<Event>): seq<string> {
    if events == [] then []
    else ReasonsOf(events[..|events| - 1]) + if events[|events| - 1].MessageDelta? then [events[|events| - 1].reason]
      else []
  }

  /** The first thing in a frame that ends the message: a finish reason, or the terminal marker. */
  function EndOfLines(lines: seq<Line>): Option<string> {
    if lines == [] then None
    else
      match lines[0]
      case Done => Some("end_turn")
      case Skipped => EndOfLines(lines[1..])
      case Data(chunk) => if FinishOf(chunk) != "" then Some(MapFinish(FinishOf(chunk))) else EndOfLines(lines[1..])
  }

  function EndOf(frames: seq<seq<Line>>): Option<string> {
    if frames == [] then None
    else
      var before := EndOf(frames[..|frames| - 1]);
      if before.Some? then before else EndOfLines(frames[|frames| - 1])
  }

  function Told(end: Option<string>): seq<string> {
    if end.Some? then [end.value] else []
  }

  lemma {:induction false} ReasonsAppend(a: seq<Event>, b: seq<Event>)
    ensures ReasonsOf(a + b) == ReasonsOf(a) + ReasonsOf(b)
  {
    if b == [] {
      assert a + b == a;
    } else {
      assert (a + b)[..|a + b| - 1] == a + b[..|b| - 1];
      ReasonsAppend(a, b[..|b| - 1]);
    }
  }

  lemma {:induction false} NoReasons(events: seq<Event>)
    requires forall i :: 0 <= i < |events| ==> !events[i].MessageDelta?
    ensures ReasonsOf(events) == []
  {
    if events != [] {
      NoReasons(events[..|events| - 1]);
    }
  }

  lemma {:induction false} StopsTellNothing(active: seq<nat>)
    ensures forall i :: 0 <= i < |Stops(active)| ==> !Stops(active)[i].MessageDelta?
  {
    if active != [] {
      StopsTellNothing(active[..|active| - 1]);
    }
  }

  lemma {:induction false} ToolsTellNothing(c: State, calls: seq<Call>)
    ensures forall i :: 0 <= i < |ToolRun(c, calls).1| ==> !ToolRun(c, calls).1[i].MessageDelta?
    ensures ToolRun(c, calls).0.stopped == c.stopped
  {
    if calls != [] {
      ToolsTellNothing(c, calls[..|calls| - 1]);
    }
  }

  lemma DeltaTellsNothing(c: State, delta: Delta)
    ensures ReasonsOf(ProcessDelta(c, delta).1) == [] && ProcessDelta(c, delta).0.stopped == c.stopped
  {
    var (c1, thought) := ThinkIf(c, delta.reasoning);
    var (c2, said) := SpeakIf(c1, delta.content);
    ToolsTellNothing(c2, delta.calls);
    hide ToolRun, ReasonsOf;
    NoReasons(ProcessDelta(c, delta).1);
  }

  lemma OneTells(e: Event)
    ensures ReasonsOf([e]) == if e.MessageDelta? then [e.reason] else []
  {
    assert [e][..0] == [];
  }

  lemma StopTells(c: State, reason: string)
    requires reason != ""
    ensures Stop(c, reason).0.stopped && ReasonsOf(Stop(c, reason).1) == if c.stopped then [] else [reason]
  {
    if !c.stopped {
      var (s, opening) := Start(c);
      var front, closing := opening + Stops(c.active), [MessageDelta(reason), MessageStop];
      StopsTellNothing(c.active);
      NoReasons(front);
      ReasonsAppend(front, closing);
      OneTells(MessageDelta(reason));
      OneTells(MessageStop);
      ReasonsAppend([MessageDelta(reason)], [MessageStop]);
      assert closing == [MessageDelta(reason)] + [MessageStop];
      assert Stop(c, reason).1 == front + closing;
    }
  }

  lemma ChunkTells(c: State, chunk: Chunk)
    ensures var (d, events) := ProcessChunk(c, chunk);
            var finish := FinishOf(chunk);
            && d.stopped == (c.stopped || finish != "")
            && ReasonsOf(events) == if c.stopped || finish == "" then [] else [MapFinish(finish)]
  {
    DeltaTellsNothing(c, DeltaOf(chunk));
    var (c1, events) := ProcessDelta(c, DeltaOf(chunk));
    hide ProcessDelta, Stop, ReasonsOf;
    if FinishOf(chunk) != "" {
      StopTells(c1, MapFinish(FinishOf(chunk)));
      ReasonsAppend(events, Stop(c1, MapFinish(FinishOf(chunk))).1);
    }
  }

  lemma {:induction false} LinesTell(c: State, lines: seq<Line>)
    ensures var (d, events) := Lines(c, lines);
            && d.stopped == (c.stopped || EndOfLines(lines).Some?)
            && ReasonsOf(events) == if c.stopped then [] else Told(EndOfLines(lines))
    decreases |lines|
  {
    hide ProcessChunk, Stop, ReasonsOf, MapFinish;
    NoReasons([]);
    if lines != [] {
      match lines[0]
      case Done => StopTells(c, "end_turn");
      case Skipped => LinesTell(c, lines[1..]);
      case Data(chunk) =>
        ChunkTells(c, chunk);
        var (c1, events) := ProcessChunk(c, chunk);
        LinesTell(c1, lines[1..]);
        ReasonsAppend(events, Lines(c1, lines[1..]).1);
    }
  }

  /**
   However often a stream ends, the message reports one reason: that of its first ending, mapped to
   Anthropic's words, or the end of the turn when the terminal marker came first.
   */
  lemma {:induction false} FirstEndingIsTold(frames: seq<seq<Line>>)
    ensures var (c, events) := Feed(FRESH, frames);
            c.stopped == EndOf(frames).Some? && ReasonsOf(events) == Told(EndOf(frames))
  {
    if frames != [] {
      var front, last := frames[..|frames| - 1], frames[|frames| - 1];
      FirstEndingIsTold(front);
      var (before, events) := Feed(FRESH, front);
      var (begun, opening) := Start(before);
      NoReasons(opening);
      hide ReasonsOf, Lines, Feed;
      LinesTell(begun, last);
      var more := Lines(begun, last).1;
      ReasonsAppend(opening, more);
      ReasonsAppend(events, opening + more);
      FeedNext(frames);
    }
  }

  lemma FeedNext(frames: seq<seq<Line>>)
    requires frames != []
    ensures var (before, events) := Feed(FRESH, frames[..|frames| - 1]);
            var (after, more) := Consume(before, frames[|frames| - 1]);
            Feed(FRESH, frames) == (after, events + more)
  {
  }

  // ---- the aggregate reports the last one ----

  function LastFinish(chunks: seq<Chunk>): string {
    if chunks == [] then "stop"
    else if FinishOf(chunks[|chunks| - 1]) != "" then FinishOf(chunks[|chunks| - 1])
    else LastFinish(chunks[..|chunks| - 1])
  }

  /** The first finish reason of a stream, or nothing. */
  function FirstFinish(chunks: seq<Chunk>): string {
    if chunks == [] then ""
    else if FirstFinish(chunks[..|chunks| - 1]) != "" then FirstFinish(chunks[..|chunks| - 1])
    else FinishOf(chunks[|chunks| - 1])
  }

  lemma {:induction false} AggregateTellsLast(chunks: seq<Chunk>)
    requires A.WellIndexed(chunks)
    ensures A.Fold(chunks).finish == LastFinish(chunks)
  {
    if chunks != [] {
      AggregateTellsLast(chunks[..|chunks| - 1]);
    }
  }

  lemma {:induction false} FramedTellsFirst(chunks: seq<Chunk>)
    ensures EndOf(Framed(chunks)) == if FirstFinish(chunks) != "" then Some(MapFinish(FirstFinish(chunks))) else None
  {
    if chunks != [] {
      var front, last := chunks[..|chunks| - 1], chunks[|chunks| - 1];
      FramedTellsFirst(front);
      assert Framed(chunks)[..|chunks| - 1] == Framed(front);
      assert EndOfLines([Data(last)][1..]) == None;
    }
  }

  lemma MarkerEnds(frames: seq<seq<Line>>)
    ensures EndOf(frames + [[Done]]) == if EndOf(frames).Some? then EndOf(frames) else Some("end_turn")
  {
    assert (frames + [[Done]])[..|frames|] == frames;
  }

  lemma Mapped()
    ensures MapFinish("stop") == "end_turn" && MapFinish("tool_calls") == "tool_use"
  {
  }

  /** Of a stream closed by the terminal marker the converter tells the first finish reason. */
  lemma ConverterTellsFirst(chunks: seq<Chunk>)
    ensures ReasonsOf(Feed(FRESH, Framed(chunks) + [[Done]]).1)
              == [MapFinish(if FirstFinish(chunks) != "" then FirstFinish(chunks) else "stop")]
  {
    hide Feed, Framed, MapFinish, EndOf, ReasonsOf;
    FirstEndingIsTold(Framed(chunks) + [[Done]]);
    FramedTellsFirst(chunks);
    MarkerEnds(Framed(chunks));
    Mapped();
  }

  /** The aggregate tells the last one, or the tools if there are any. */
  lemma AggregateTellsTools(chunks: seq<Chunk>, newId: nat -> string)
    requires A.WellIndexed(chunks)
    ensures A.Response(A.Fold(chunks), newId).finish ==
              if AllCalls(chunks) != [] then "tool_calls" else LastFinish(chunks)
    ensures MapFinish(A.Response(A.Fold(chunks), newId).finish) == if A.Fold(chunks).tools != [] then "tool_use"
              else MapFinish(LastFinish(chunks))
  {
    AggregateTellsLast(chunks);
    A.ResponseMeaning(chunks, newId);
    Mapped();
    hide MapFinish, A.Fold, AllCalls;
    if AllCalls(chunks) != [] {
      assert AllCalls(chunks)[0] in AllCalls(chunks);
    }
  }

  lemma ToolWord(reason: string)
    ensures MapFinish(reason) == "tool_use" <==> reason in {"tool_calls", "tool_use"}
  {
    assert "end_turn"[0] == 'e' && "max_tokens"[0] == 'm' && "stop_sequence"[0] == 's' && "tool_use"[0] == 't';
  }

  /** What a completion in Anthropic's words would give as its stop reason, and what the event stream gives. */
  function CompletedReason(chunks: seq<Chunk>, newId: nat -> string): string
    requires A.WellIndexed(chunks)
  {
    MapFinish(A.Response(A.Fold(chunks), newId).finish)
  }

  function StreamedReasons(chunks: seq<Chunk>): seq<string> {
    ReasonsOf(Feed(FRESH, Framed(chunks) + [[Done]]).1)
  }

  /**
   The two agree exactly when, with tools, the first finish reason already names the tool calls, and,
   without, the first and the last finish reason come to the same word.
   */
  lemma EndingsAgreeIff(chunks: seq<Chunk>, newId: nat -> string)
    requires A.WellIndexed(chunks)
    ensures StreamedReasons(chunks) == [CompletedReason(chunks, newId)] <==>
              var first := if FirstFinish(chunks) != "" then FirstFinish(chunks) else "stop";
              if A.Fold(chunks).tools != [] then first in {"tool_calls", "tool_use"}
                else MapFinish(first) == MapFinish(LastFinish(chunks))
  {
    var first := if FirstFinish(chunks) != "" then FirstFinish(chunks) else "stop";
    hide Feed, Framed, MapFinish, ReasonsOf, A.Fold, A.Response, FirstFinish, LastFinish;
    ConverterTellsFirst(chunks);
    AggregateTellsTools(chunks, newId);
    ToolWord(first);
  }

  /** A stream that finishes twice, and one that calls a tool but stops: both tell two different reasons. */
  lemma EndingsDiffer(newId: nat -> string)
    ensures var chunks := [Chunk(Some(Choice(None, "stop"))), Chunk(Some(Choice(None, "length")))];
            StreamedReasons(chunks) == ["end_turn"] && CompletedReason(chunks, newId) == "max_tokens"
    ensures var chunks := [Chunk(Some(Choice(Some(Delta("", "", [Call(Some(0), "", "", "{}")])), "stop")))];
            A.WellIndexed(chunks) && StreamedReasons(chunks) == ["end_turn"]
              && CompletedReason(chunks, newId) == "tool_use"
  {
    var one, two := Chunk(Some(Choice(None, "stop"))), Chunk(Some(Choice(None, "length")));
    FinishedTwice(one, two, newId);
    var call := Call(Some(0), "", "", "{}");
    ToolAndStop(Chunk(Some(Choice(Some(Delta("", "", [call])), "stop"))), call, newId);
  }

  lemma FinishedTwice(one: Chunk, two: Chunk, newId: nat -> string)
    requires DeltaOf(one) == EMPTY_DELTA && DeltaOf(two) == EMPTY_DELTA && FinishOf(one) == "stop"
               && FinishOf(two) == "length"
    ensures A.WellIndexed([one, two]) && StreamedReasons([one, two]) == ["end_turn"]
              && CompletedReason([one, two], newId) == "max_tokens"
  {
    var chunks := [one, two];
    assert chunks[..1] == [one] && [one][..0] == [];
    assert FirstFinish([]) == "" && FirstFinish([one]) == "stop" && FirstFinish(chunks) == "stop"
      && LastFinish(chunks) == "length";
    assert A.Fold([one]).tools == A.Merge([], EMPTY_DELTA.calls) == [];
    assert A.Fold(chunks).tools == A.Merge(A.Fold([one]).tools, EMPTY_DELTA.calls) == [];
    hide Feed, Framed, ReasonsOf, A.Fold, FirstFinish, LastFinish;
    ConverterTellsFirst(chunks);
    AggregateTellsTools(chunks, newId);
  }

  lemma ToolAndStop(chunk: Chunk, call: Call, newId: nat -> string)
    requires DeltaOf(chunk) == Delta("", "", [call]) && Slot(call) == 0 && FinishOf(chunk) == "stop"
    ensures A.WellIndexed([chunk]) && StreamedReasons([chunk]) == ["end_turn"]
              && CompletedReason([chunk], newId) == "tool_use"
  {
    var chunks := [chunk];
    assert chunks[..0] == [] && FirstFinish([]) == "" && FirstFinish(chunks) == "stop";
    A.FoldMeaning(chunks);
    assert AllCalls(chunks) == [] + [call];
    assert call in AllCalls(chunks);
    assert A.Fold(chunks).tools != [];
    hide Feed, Framed, ReasonsOf, A.Fold, FirstFinish, LastFinish;
    ConverterTellsFirst(chunks);
    AggregateTellsTools(chunks, newId);
  }
}
