/**
 The two ways a completion reaches the client: collected into one text, or forwarded
 and streamed chunk by chunk. A consumer receives a sequence of events and then sees the
 channel closed or its context done; that it may be cancelled at any point is covered by
 letting the sequence be any part of what was sent.
 */
module Completion {
  import opened Wrappers
  import opened Errors
  import opened Protocol
  import opened ReadLoop
  import opened Sse

  datatype Ending = Closed | Cancelled(err: Err)

  // ---------- Collecting ----------

  /** What an event adds to the text. */
  function Shown(e: StreamEvent): string {
    match e
    case AppendText(t) => t
    case ImageGenerated(_, url) => ImageMarkdown(url)
    case _ => ""
  }

  /** The text up to the first terminal event. */
  function TextOf(events: seq<StreamEvent>): string {
    if events == [] || IsTerminal(events[0]) then "" else Shown(events[0]) + TextOf(events[1..])
  }

  /** The events up to the first terminal one, and that one too. */
  function Cut(events: seq<StreamEvent>): seq<StreamEvent> {
    if events == [] then [] else [events[0]] + if IsTerminal(events[0]) then [] else Cut(events[1..])
  }

  function FirstTerminal(events: seq<StreamEvent>): Option<StreamEvent> {
    if events == [] then None else if IsTerminal(events[0]) then Some(events[0]) else FirstTerminal(events[1..])
  }

  function LastMessage(events: seq<StreamEvent>, id: string): string {
    if events == [] || IsTerminal(events[0]) then id
    else LastMessage(events[1..], if events[0].StartMessage? then events[0].messageId else id)
  }

  function Failing(events: seq<StreamEvent>, ending: Ending): Option<Err> {
    match FirstTerminal(events)
    case Some(Failure(e)) => Some(e)
    case Some(_) => None
    case None => match ending case Cancelled(e) => Some(e) case Closed => None
  }

  /** Before position `i` there is no event that ends the response. */
  predicate GoesOnUntil(events: seq<StreamEvent>, i: nat) {
    i <= |events| && forall j :: 0 <= j < i ==> !events[j].Finish? && !events[j].Failure?
  }

  /** The error is that of the first terminal event; with none, that of the context if it is done. */
  ghost predicate EndsWith(events: seq<StreamEvent>, ending: Ending, err: Option<Err>) {
    && (forall i: nat :: i < |events| && GoesOnUntil(events, i) && events[i].Failure? ==> err == Some(events[i].err))
    && (forall i: nat :: i < |events| && GoesOnUntil(events, i) && events[i].Finish? ==> err == None)
    && (GoesOnUntil(events, |events|) ==> err == if ending.Cancelled? then Some(ending.err) else None)
  }

  lemma {:induction false} FirstTerminalIs(events: seq<StreamEvent>)
    ensures forall i: nat :: i < |events| && GoesOnUntil(events, i) && (events[i].Failure? || events[i].Finish?) ==>
      FirstTerminal(events) == Some(events[i])
    ensures GoesOnUntil(events, |events|) <==> FirstTerminal(events) == None
  {
    if events != [] {
      FirstTerminalIs(events[1..]);
      forall i: nat | 0 < i <= |events| && !IsTerminal(events[0])
        ensures GoesOnUntil(events, i) <==> GoesOnUntil(events[1..], i - 1)
      {
        assert forall j :: 0 <= j < i - 1 ==> events[1..][j] == events[j + 1];
      }
      assert forall i: nat :: 0 < i < |events| ==> events[i] == events[1..][i - 1];
    }
  }

  method Complete(events: seq<StreamEvent>, ending: Ending) returns (text: string, messageId: string, err: Option<Err>)
    ensures text == TextOf(events)
    ensures messageId == LastMessage(events, "")
    ensures err == Failing(events, ending) && EndsWith(events, ending, err)
  {
    hide TextOf, LastMessage, FirstTerminal, ImageMarkdown;
    FirstTerminalIs(events);
    text, messageId := "", "";
    var i := 0;
    assert events[0..] == events;
    while i < |events|
      invariant i <= |events|
      invariant text + TextOf(events[i..]) == TextOf(events)
      invariant LastMessage(events[i..], messageId) == LastMessage(events, "")
      invariant FirstTerminal(events[i..]) == FirstTerminal(events)
    {
      CollectStep(events, i, messageId);
      var evt := events[i];
      if evt.Failure? {
        return text, messageId, Some(evt.err);
      } else if evt.Finish? {
        return text, messageId, None;
      }
      Regroup(text, Shown(evt), TextOf(events[i + 1..]));
      if evt.AppendText? {
        text := text + evt.text;
      } else if evt.ImageGenerated? {
        text := text + ImageMarkdown(evt.url);
      } else if evt.StartMessage? {
        messageId := evt.messageId;
      }
      i := i + 1;
    }
    CollectNothing(events[i..], messageId);
    return text, messageId, if ending.Cancelled? then Some(ending.err) else None;
  }

  lemma Regroup(a: string, b: string, c: string)
    ensures a + (b + c) == (a + b) + c
  {
  }

  lemma CollectStep(events: seq<StreamEvent>, i: nat, id: string)
    requires i < |events|
    ensures var e := events[i];
      && TextOf(events[i..]) == (if IsTerminal(e) then "" else Shown(e) + TextOf(events[i + 1..]))
      && FirstTerminal(events[i..]) == (if IsTerminal(e) then Some(e) else FirstTerminal(events[i + 1..]))
      && LastMessage(events[i..], id) ==
           (if IsTerminal(e) then id else LastMessage(events[i + 1..], if e.StartMessage? then e.messageId else id))
  {
    hide Shown;
    assert events[i..][1..] == events[i + 1..];
  }

  lemma CollectNothing(events: seq<StreamEvent>, id: string)
    requires events == []
    ensures TextOf(events) == "" && FirstTerminal(events) == None && LastMessage(events, id) == id
  {
  }

  // ---------- Forwarding ----------

  /** The channel is closed after `out`; a cancelled context can hit after any number of deliveries. */
  method Forward(events: seq<StreamEvent>, interruptedAfter: Option<nat>) returns (out: seq<StreamEvent>)
    ensures out == if interruptedAfter.Some? && interruptedAfter.value < |Cut(events)|
                   then Cut(events)[..interruptedAfter.value] else Cut(events)
  {
    hide Cut;
    out := [];
    var i := 0;
    assert events[0..] == events;
    while i < |events|
      invariant i == |out| <= |events| && (interruptedAfter.Some? ==> i <= interruptedAfter.value)
      invariant Cut(events) == out + Cut(events[i..])
    {
      CutStep(events, i);
      var evt := events[i];
      if interruptedAfter == Some(i) {
        return;
      }
      out := out + [evt];
      if evt.Finish? || evt.Failure? {
        return;
      }
      i := i + 1;
    }
    CutNothing(events[i..]);
  }

  lemma CutStep(events: seq<StreamEvent>, i: nat)
    requires i < |events|
    ensures Cut(events[i..]) == [events[i]] + if IsTerminal(events[i]) then [] else Cut(events[i + 1..])
  {
    assert events[i..][1..] == events[i + 1..];
  }

  /** The cut ends behind the first terminal event, and takes everything if there is none. */
  lemma {:induction false} CutEndsThere(events: seq<StreamEvent>, i: nat)
    requires GoesOnUntil(events, i)
    ensures i == |events| ==> Cut(events) == events
    ensures i < |events| && (events[i].Finish? || events[i].Failure?) ==> Cut(events) == events[..i + 1]
    decreases i
  {
    if i > 0 {
      var rest := events[1..];
      assert forall j :: 0 <= j < i - 1 ==> rest[j] == events[j + 1];
      CutEndsThere(rest, i - 1);
      assert Cut(events) == [events[0]] + Cut(rest) && events == [events[0]] + rest;
      if i < |events| { assert events[..i + 1] == [events[0]] + rest[..i]; }
    }
  }

  lemma CutNothing(events: seq<StreamEvent>)
    requires events == []
    ensures Cut(events) == []
  {
  }

  // ---------- Streaming ----------

  datatype Header = Header(id: string, created: int, model: string)

  datatype Chunk = Chunk(header: Header, role: string, content: string, finishReason: Option<string>)

  function RoleChunk(h: Header): Chunk { Chunk(h, "assistant", "", None) }

  function ContentChunk(h: Header, content: string): Chunk { Chunk(h, "", content, None) }

  function StopChunk(h: Header): Chunk { Chunk(h, "", "", Some("stop")) }

  /** The content chunks for the events up to the first terminal one; a blank image gets none. */
  function ContentChunks(h: Header, events: seq<StreamEvent>): seq<Chunk> {
    if events == [] || IsTerminal(events[0]) then []
    else ChunkOf(h, events[0]) + ContentChunks(h, events[1..])
  }

  function ChunkOf(h: Header, e: StreamEvent): seq<Chunk> {
    match e
    case AppendText(t) => [ContentChunk(h, t)]
    case ImageGenerated(_, url) => if ImageMarkdown(url) == "" then [] else [ContentChunk(h, ImageMarkdown(url))]
    case _ => []
  }

  function StreamChunks(h: Header, events: seq<StreamEvent>): seq<Chunk> {
    [RoleChunk(h)] + ContentChunks(h, events) + [StopChunk(h)]
  }

  /** However the events end, the response is the chunks and then the end marker. */
  method StreamResponse(sse: SseWriter<Chunk>, h: Header, events: seq<StreamEvent>, ending: Ending)
    modifies sse
    ensures sse.body == old(sse.body) + Frames(Payloads(sse.marshal, StreamChunks(h, events)) + [DONE])
  {
    hide Frames, Payloads, ImageMarkdown, ContentChunks;
    ghost var start := sse.body;
    ghost var written := [RoleChunk(h)];
    sse.WriteJSON(RoleChunk(h));
    var i := 0;
    assert events[0..] == events;
    while i < |events|
      invariant i <= |events|
      invariant sse.body == start + Frames(Payloads(sse.marshal, written))
      invariant written + ContentChunks(h, events[i..]) == [RoleChunk(h)] + ContentChunks(h, events)
    {
      StreamStep(h, events, i, written);
      var evt := events[i];
      if evt.Failure? || evt.Finish? {
        break;
      }
      Appended(sse.marshal, start, written, ChunkOf(h, evt));
      written := written + ChunkOf(h, evt);
      if evt.AppendText? {
        sse.WriteJSON(ContentChunk(h, evt.text));
      } else if evt.ImageGenerated? {
        var content := ImageMarkdown(evt.url);
        if content != "" {
          sse.WriteJSON(ContentChunk(h, content));
        }
      }
      i := i + 1;
    }
    StreamEnd(h, events, i, written);
    Finished(sse.marshal, start, written, StopChunk(h));
    sse.WriteDone(Some(StopChunk(h)));
  }

  lemma StreamStep(h: Header, events: seq<StreamEvent>, i: nat, written: seq<Chunk>)
    requires i < |events|
    ensures ContentChunks(h, events[i..]) ==
      if IsTerminal(events[i]) then [] else ChunkOf(h, events[i]) + ContentChunks(h, events[i + 1..])
    ensures written + (ChunkOf(h, events[i]) + ContentChunks(h, events[i + 1..]))
         == written + ChunkOf(h, events[i]) + ContentChunks(h, events[i + 1..])
  {
    hide ChunkOf;
    assert events[i..][1..] == events[i + 1..];
  }

  /** At the end of the events, or at a terminal one, everything has been written. */
  lemma StreamEnd(h: Header, events: seq<StreamEvent>, i: nat, written: seq<Chunk>)
    requires i <= |events| && (i < |events| ==> IsTerminal(events[i]))
    requires written + ContentChunks(h, events[i..]) == [RoleChunk(h)] + ContentChunks(h, events)
    ensures written == [RoleChunk(h)] + ContentChunks(h, events)
  {
    hide ChunkOf;
    assert ContentChunks(h, events[i..]) == [];
  }

  lemma Finished(marshal: Chunk -> Option<string>, start: string, written: seq<Chunk>, stop: Chunk)
    ensures start + Frames(Payloads(marshal, written)) + Frames(Payloads(marshal, [stop]) + [DONE])
         == start + Frames(Payloads(marshal, written + [stop]) + [DONE])
  {
    hide Payloads, Frames;
    PayloadsConcat(marshal, written, [stop]);
    FramesConcat(Payloads(marshal, written), Payloads(marshal, [stop]) + [DONE]);
    assert Payloads(marshal, written) + (Payloads(marshal, [stop]) + [DONE])
        == Payloads(marshal, written + [stop]) + [DONE];
  }

  lemma Appended(marshal: Chunk -> Option<string>, start: string, written: seq<Chunk>, more: seq<Chunk>)
    ensures start + Frames(Payloads(marshal, written)) + Frames(Payloads(marshal, more))
         == start + Frames(Payloads(marshal, written + more))
    ensures more == [] ==> Frames(Payloads(marshal, more)) == ""
  {
    hide Payloads, Frames;
    NoPayloads(marshal);
    PayloadsConcat(marshal, written, more);
    FramesConcat(Payloads(marshal, written), Payloads(marshal, more));
  }

  // ---------- The two views agree ----------

  function Deltas(chunks: seq<Chunk>): string {
    if chunks == [] then "" else chunks[0].content + Deltas(chunks[1..])
  }

  lemma {:induction false} DeltasConcat(a: seq<Chunk>, b: seq<Chunk>)
    ensures Deltas(a + b) == Deltas(a) + Deltas(b)
  {
    if a == [] {
      assert a + b == b;
    } else {
      DeltasConcat(a[1..], b);
      assert (a + b)[1..] == a[1..] + b;
      Regroup(a[0].content, Deltas(a[1..]), Deltas(b));
    }
  }

  lemma {:induction false} ContentIsText(h: Header, events: seq<StreamEvent>)
    ensures Deltas(ContentChunks(h, events)) == TextOf(events)
  {
    hide ImageMarkdown;
    if events != [] && !IsTerminal(events[0]) {
      ContentIsText(h, events[1..]);
      DeltasConcat(ChunkOf(h, events[0]), ContentChunks(h, events[1..]));
      OneChunk(h, events[0]);
    }
  }

  lemma OneChunk(h: Header, e: StreamEvent)
    ensures Deltas(ChunkOf(h, e)) == Shown(e)
  {
    if ChunkOf(h, e) != [] { assert ChunkOf(h, e)[1..] == []; }
  }

  lemma {:induction false} CutIsEnough(h: Header, events: seq<StreamEvent>)
    ensures ContentChunks(h, Cut(events)) == ContentChunks(h, events)
    ensures FirstTerminal(Cut(events)) == FirstTerminal(events)
  {
    hide ImageMarkdown;
    if events != [] && !IsTerminal(events[0]) {
      CutIsEnough(h, events[1..]);
      assert Cut(events)[1..] == Cut(events[1..]);
    }
  }

  /**
   What a client reads out of the streamed deltas, after forwarding, is the text it would
   have got in one piece, whether the events end well, in an error, or not at all.
   */
  lemma StreamedIsCollected(h: Header, events: seq<StreamEvent>)
    ensures Deltas(StreamChunks(h, Cut(events))) == TextOf(events)
  {
    CutIsEnough(h, events);
    ContentIsText(h, events);
    var content := ContentChunks(h, events);
    DeltasConcat([RoleChunk(h)] + content, [StopChunk(h)]);
    DeltasConcat([RoleChunk(h)], content);
    assert [RoleChunk(h)][1..] == [] && [StopChunk(h)][1..] == [];
  }

  /** A consumer that is cancelled early has got a prefix of the text. */
  lemma {:induction false} CancelledGetsPrefix(events: seq<StreamEvent>, n: nat)
    requires n <= |events|
    ensures TextOf(events[..n]) <= TextOf(events)
  {
    if n > 0 && !IsTerminal(events[0]) {
      CancelledGetsPrefix(events[1..], n - 1);
      assert events[..n][1..] == events[1..][..n - 1];
    }
  }

  lemma {:induction false} TerminalAddsNothing(h: Header, events: seq<StreamEvent>, t: StreamEvent)
    requires IsTerminal(t) && FirstTerminal(events) == None
    ensures ContentChunks(h, events + [t]) == ContentChunks(h, events)
  {
    hide ChunkOf;
    if events == [] {
      assert events + [t] == [t];
    } else {
      TerminalAddsNothing(h, events[1..], t);
      assert (events + [t])[1..] == events[1..] + [t];
    }
  }

  /** In the stream an error cannot be told from a normal end, nor from none: only the text events count. */
  lemma ErrorLooksLikeStop(h: Header, events: seq<StreamEvent>, a: StreamEvent, b: StreamEvent)
    requires IsTerminal(a) && IsTerminal(b) && FirstTerminal(events) == None
    ensures StreamChunks(h, events + [a]) == StreamChunks(h, events + [b]) == StreamChunks(h, events)
  {
    TerminalAddsNothing(h, events, a);
    TerminalAddsNothing(h, events, b);
  }

  /**
   On the events of a read loop a consumer that is not cancelled always stops at a terminal
   event, never at the closed channel; if the server sent none, its error is the reading error.
   */
  lemma {:induction false} StopsAtTerminal(frames: seq<Frame>, end: ReadEnd)
    ensures var events := Emitted(frames) + [Terminal(end)];
      && FirstTerminal(events) == (match FirstTerminal(Emitted(frames))
                                   case Some(t) => Some(t)
                                   case None => Some(Terminal(end)))
      && Failing(events, Closed) == Failing(events, Cancelled(Canceled))
      && FirstTerminal(Cut(events)).Some?
  {
    var events := Emitted(frames) + [Terminal(end)];
    TerminalAppended(Emitted(frames), Terminal(end));
    CutIsEnough(Header("", 0, ""), events);
  }

  lemma {:induction false} TerminalAppended(events: seq<StreamEvent>, t: StreamEvent)
    requires IsTerminal(t)
    ensures FirstTerminal(events + [t]) == if FirstTerminal(events).Some? then FirstTerminal(events) else Some(t)
  {
    if events == [] {
      assert events + [t] == [t];
    } else {
      TerminalAppended(events[1..], t);
      assert (events + [t])[1..] == events[1..] + [t];
    }
  }

  // ---------- The grammar of the stream ----------

  /** One role chunk, any number of content chunks, one stop chunk, all under one header. */
  ghost predicate WellFormed(h: Header, chunks: seq<Chunk>) {
    && |chunks| >= 2
    && chunks[0] == Chunk(h, "assistant", "", None)
    && chunks[|chunks| - 1] == Chunk(h, "", "", Some("stop"))
    && forall i :: 0 < i < |chunks| - 1 ==> chunks[i].header == h && chunks[i].role == "" && chunks[i].finishReason == None
  }

  lemma {:induction false} ContentGrammar(h: Header, events: seq<StreamEvent>)
    ensures forall i :: 0 <= i < |ContentChunks(h, events)| ==>
      ContentChunks(h, events)[i] == ContentChunk(h, ContentChunks(h, events)[i].content)
  {
    hide ImageMarkdown;
    if events != [] && !IsTerminal(events[0]) { ContentGrammar(h, events[1..]); }
  }

  lemma StreamGrammar(h: Header, events: seq<StreamEvent>)
    ensures WellFormed(h, StreamChunks(h, events))
  {
    ContentGrammar(h, events);
  }

  /** Marshalling succeeds, gives one line, and can be undone, as it can for chunks. */
  ghost predicate Faithful(marshal: Chunk -> Option<string>, parse: string -> Option<Chunk>) {
    forall c :: marshal(c).Some? && OneLine(marshal(c).value) && parse(marshal(c).value) == Some(c)
  }

  /**
   A client that reads the body of a streamed response gets a well-formed list of chunks
   whose deltas are the text, and then the end marker as its last event.
   */
  lemma ClientReads(
    marshal: Chunk -> Option<string>, parse: string -> Option<Chunk>, h: Header, events: seq<StreamEvent>)
    requires Faithful(marshal, parse)
    ensures var chunks := StreamChunks(h, Cut(events));
      var read := ReadStream(Frames(Payloads(marshal, chunks) + [DONE]));
      && |read| == |chunks| + 1 && read[|chunks|] == DONE
      && (forall i :: 0 <= i < |chunks| ==> parse(read[i]) == Some(chunks[i]))
      && WellFormed(h, chunks) && Deltas(chunks) == TextOf(events)
  {
    var chunks := StreamChunks(h, Cut(events));
    StreamGrammar(h, Cut(events));
    StreamedIsCollected(h, events);
    hide StreamChunks, Frames, ReadStream;
    OnePayloadEach(marshal, parse, chunks);
    ReadsBack(Payloads(marshal, chunks) + [DONE]);
  }

  lemma {:induction false} OnePayloadEach(
    marshal: Chunk -> Option<string>, parse: string -> Option<Chunk>, chunks: seq<Chunk>)
    requires Faithful(marshal, parse)
    ensures var ps := Payloads(marshal, chunks);
      && |ps| == |chunks|
      && forall i :: 0 <= i < |ps| ==> OneLine(ps[i]) && parse(ps[i]) == Some(chunks[i])
  {
    if chunks != [] {
      OnePayloadEach(marshal, parse, chunks[1..]);
      assert marshal(chunks[0]).Some?;
    }
  }
}
