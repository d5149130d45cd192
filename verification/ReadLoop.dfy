/** The read loop of a connection as a filter on the frames of the socket. */
module ReadLoop {
  import opened Wrappers
  import opened Errors
  import opened Protocol
  import opened Hashcash

  /** How reading ends: the state of the context, and the error itself. */
  datatype ReadEnd = ReadEnd(ctxErr: Option<Err>, normalClosure: bool, err: Err)

  function Terminal(end: ReadEnd): StreamEvent {
    if end.ctxErr.Some? then Failure(end.ctxErr.value)
    else if end.normalClosure then Finish("")
    else Failure(Wrap("copilot websocket read failed", end.err))
  }

  predicate IsTerminal(e: StreamEvent) { e.Failure? || e.Finish? }

  /** Passed on to the consumer. */
  predicate Visible(f: Frame) { f.Decoded? && !ParseEvent(f.env).Ignore? && !ParseEvent(f.env).Challenge? }

  /** What one frame adds to the events, and to the challenges. */
  function EventOf(f: Frame): seq<StreamEvent> { if Visible(f) then [ParseEvent(f.env)] else [] }

  function ChallengeOf(f: Frame): seq<string> {
    if f.Decoded? && ParseEvent(f.env).Challenge? then [ParseEvent(f.env).parameter] else []
  }

  function Emitted(frames: seq<Frame>): seq<StreamEvent> {
    if frames == [] then [] else EventOf(frames[0]) + Emitted(frames[1..])
  }

  function Challenges(frames: seq<Frame>): seq<string> {
    if frames == [] then [] else ChallengeOf(frames[0]) + Challenges(frames[1..])
  }

  ghost predicate AllSolvable(hash: string -> seq<bv8>, frames: seq<Frame>) {
    forall i :: 0 <= i < |frames| && frames[i].Decoded? && ParseEvent(frames[i].env).Challenge?
      ==> Solvable(hash, ParseEvent(frames[i].env).parameter)
  }

  /** One answer for each challenge, and the right one. */
  ghost predicate Answered(hash: string -> seq<bv8>, challenges: seq<string>, answers: seq<string>) {
    && |answers| == |challenges|
    && forall i :: 0 <= i < |answers| ==> Answers(hash, challenges[i], answers[i])
  }

  /** Whether an answer could be sent makes no difference, and so it is no input. */
  method ReadLoop(hash: string -> seq<bv8>, frames: seq<Frame>, end: ReadEnd)
    returns (events: seq<StreamEvent>, answers: seq<string>)
    requires AllSolvable(hash, frames)
    ensures events == Emitted(frames) + [Terminal(end)]
    ensures Answered(hash, Challenges(frames), answers)
  {
    hide Solvable, Answers, ParseEvent;
    events, answers := [], [];
    var i := 0;
    assert frames[..0] == [];
    while i < |frames|
      invariant i <= |frames|
      invariant events == Emitted(frames[..i])
      invariant Answered(hash, Challenges(frames[..i]), answers)
    {
      OneMore(frames, i);
      var frame := frames[i];
      i := i + 1;
      if frame == Garbled {
        continue;
      }
      var evt := ParseEvent(frame.env);
      if evt.Challenge? {
        var answer := SolveHashcash(hash, evt.parameter);
        answers := answers + [answer];
        continue;
      }
      if evt == Ignore {
        continue;
      }
      events := events + [evt];
    }
    assert frames[..i] == frames;
    events := events + [Terminal(end)];
  }

  lemma OneMore(frames: seq<Frame>, i: nat)
    requires i < |frames|
    ensures Emitted(frames[..i + 1]) == Emitted(frames[..i]) + EventOf(frames[i])
    ensures Challenges(frames[..i + 1]) == Challenges(frames[..i]) + ChallengeOf(frames[i])
  {
    hide EventOf, ChallengeOf;
    var last := [frames[i]];
    assert frames[..i + 1] == frames[..i] + last;
    EmittedConcat(frames[..i], last);
    ChallengesConcat(frames[..i], last);
    assert last[1..] == [];
    assert EventOf(frames[i]) + [] == EventOf(frames[i]) && ChallengeOf(frames[i]) + [] == ChallengeOf(frames[i]);
  }

  /** The filter looks at each frame by itself. */
  lemma {:induction false} EmittedConcat(a: seq<Frame>, b: seq<Frame>)
    ensures Emitted(a + b) == Emitted(a) + Emitted(b)
  {
    hide EventOf;
    if a == [] {
      assert a + b == b;
    } else {
      assert (a + b)[1..] == a[1..] + b;
      EmittedConcat(a[1..], b);
    }
  }

  lemma {:induction false} ChallengesConcat(a: seq<Frame>, b: seq<Frame>)
    ensures Challenges(a + b) == Challenges(a) + Challenges(b)
  {
    hide ChallengeOf;
    if a == [] {
      assert a + b == b;
    } else {
      assert (a + b)[1..] == a[1..] + b;
      ChallengesConcat(a[1..], b);
    }
  }

  /** The frames that are passed on, in increasing order, are exactly the events emitted. */
  lemma {:induction false} EmittedPositions(frames: seq<Frame>) returns (at: seq<nat>)
    ensures |at| == |Emitted(frames)|
    ensures forall j :: 0 <= j < |at| ==>
      at[j] < |frames| && Visible(frames[at[j]]) && Emitted(frames)[j] == ParseEvent(frames[at[j]].env)
    ensures forall j, k :: 0 <= j < k < |at| ==> at[j] < at[k]
    ensures forall i: nat :: i < |frames| && Visible(frames[i]) ==> i in at
  {
    hide ParseEvent;
    if frames == [] {
      at := [];
    } else {
      var n := |frames| - 1;
      at := EmittedPositions(frames[..n]);
      OneMore(frames, n);
      assert frames[..n + 1] == frames;
      if Visible(frames[n]) { at := at + [n]; }
    }
  }

  /** Every consumer of the loop's events meets a terminal one. */
  lemma AlwaysTerminal(frames: seq<Frame>, end: ReadEnd)
    ensures exists i :: 0 <= i < |Emitted(frames) + [Terminal(end)]| && IsTerminal((Emitted(frames) + [Terminal(end)])[i])
  {
    assert (Emitted(frames) + [Terminal(end)])[|Emitted(frames)|] == Terminal(end);
  }
}
