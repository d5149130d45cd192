/**
 A whole answer, from the frames of the socket to what the caller gets: the read loop and
 the collecting consumer, joined by a channel that neither of them leaves early. Everything
 is said in terms of the fields of the server's messages.
 */
module Exchange {
  import opened Wrappers
  import opened Strings
  import opened Errors
  import opened Protocol
  import opened Hashcash
  import opened ReadLoop
  import C = Completion

  predicate Carries(f: Frame, event: string) { f.Decoded? && f.env.event == event }

  /** What a frame adds to the text. */
  function Part(f: Frame): string {
    if Carries(f, "appendText") then f.env.text
    else if Carries(f, "imageGenerated") && !Blank(f.env.url) then "\n![image](" + TrimSpace(f.env.url) + ")\n"
    else ""
  }

  predicate Last(f: Frame) { Carries(f, "done") || Carries(f, "error") }

  /** The text of all frames up to the first that ends the answer. */
  function Reply(frames: seq<Frame>): string {
    if frames == [] || Last(frames[0]) then "" else Part(frames[0]) + Reply(frames[1..])
  }

  /** Frame `i` is still part of the answer. */
  ghost predicate Counts(frames: seq<Frame>, i: nat) {
    i < |frames| && forall j :: 0 <= j < i ==> !Last(frames[j])
  }

  /** The answer is named by its last start message. */
  ghost predicate NamedBy(frames: seq<Frame>, otherwise: string, id: string) {
    && (forall i: nat :: Counts(frames, i) && Carries(frames[i], "startMessage")
                         && (forall k: nat :: i < k && Counts(frames, k) ==> !Carries(frames[k], "startMessage"))
          ==> id == frames[i].env.messageId)
    && ((forall i: nat :: Counts(frames, i) ==> !Carries(frames[i], "startMessage")) ==> id == otherwise)
  }

  /** What an error frame is reported as. */
  ghost predicate Reports(env: Envelope, err: Option<Err>) {
    var body := if env.body != "" then env.body else if env.text != "" then env.text else env.errorCode;
    err == Some(
      if Contains(body, "blocked") then
        Plain("copilot start reports session user is blocked; websocket may not produce completions")
      else Upstream("upstream_error: " + body))
  }

  /** The first `done` or `error` frame decides how the answer ends, and without one the end of the connection. */
  ghost predicate EndedBy(frames: seq<Frame>, end: ReadEnd, err: Option<Err>) {
    && (forall i: nat :: Counts(frames, i) && Carries(frames[i], "done") ==> err == None)
    && (forall i: nat :: Counts(frames, i) && Carries(frames[i], "error") ==> Reports(frames[i].env, err))
    && ((forall j :: 0 <= j < |frames| ==> !Last(frames[j])) ==>
          err == if end.ctxErr.Some? then end.ctxErr
                 else if end.normalClosure then None
                 else Some(Wrap("copilot websocket read failed", end.err)))
  }

  /** The frames at the positions `at` are the challenges, and `answers` their answers, in order. */
  ghost predicate AnswersAll(hash: string -> seq<bv8>, frames: seq<Frame>, at: seq<nat>, answers: seq<string>) {
    && |at| == |answers|
    && (forall k :: 0 <= k < |at| ==>
          && at[k] < |frames| && Carries(frames[at[k]], "challenge")
          && Answers(hash, frames[at[k]].env.parameter, answers[k]))
    && (forall j, k :: 0 <= j < k < |at| ==> at[j] < at[k])
    && (forall i: nat :: i < |frames| && Carries(frames[i], "challenge") ==> i in at)
  }

  /** The caller gets the text, the message ID and the error the frames say, and the server every answer it asks for. */
  method Exchange(hash: string -> seq<bv8>, frames: seq<Frame>, end: ReadEnd)
    returns (text: string, messageId: string, err: Option<Err>, answers: seq<string>, ghost at: seq<nat>)
    requires forall i :: 0 <= i < |frames| && Carries(frames[i], "challenge") ==> Solvable(hash, frames[i].env.parameter)
    ensures text == Reply(frames)
    ensures NamedBy(frames, "", messageId)
    ensures EndedBy(frames, end, err)
    ensures AnswersAll(hash, frames, at, answers)
  {
    hide Solvable, Answers, NamedBy, EndedBy, Reply, C.TextOf, C.LastMessage, C.EndsWith;
    var events;
    ChallengesCarry(frames);
    events, answers := ReadLoop.ReadLoop(hash, frames, end);
    at := ChallengePositions(frames);
    text, messageId, err := C.Complete(events, C.Closed);
    ReplyIsText(frames, Terminal(end));
    NamesTheReply(frames, Terminal(end), "");
    EndsTheReply(frames, end);
  }

  lemma ChallengesCarry(frames: seq<Frame>)
    ensures forall i :: 0 <= i < |frames| && frames[i].Decoded? && ParseEvent(frames[i].env).Challenge? ==>
      Carries(frames[i], "challenge") && ParseEvent(frames[i].env).parameter == frames[i].env.parameter
  {
    hide TrimSpace, ErrorBody;
  }

  /** What the loop makes of one frame, as its consumer sees it. */
  lemma OneFrame(f: Frame)
    ensures Last(f) ==> EventOf(f) == [ParseEvent(f.env)] && IsTerminal(ParseEvent(f.env))
    ensures !Last(f) && EventOf(f) != [] ==> !IsTerminal(ParseEvent(f.env)) && EventOf(f) == [ParseEvent(f.env)]
    ensures !Last(f) ==> Part(f) == if EventOf(f) == [] then "" else C.Shown(ParseEvent(f.env))
    ensures Carries(f, "startMessage") <==> EventOf(f) != [] && ParseEvent(f.env).StartMessage?
    ensures Carries(f, "startMessage") ==> ParseEvent(f.env).messageId == f.env.messageId
  {
    hide ErrorBody, TrimSpace;
    if f.Decoded? { Retrims(f.env.url); }
  }

  /** Trimming what has been trimmed changes nothing. */
  lemma Retrims(s: string)
    ensures TrimSpace(TrimSpace(s)) == TrimSpace(s)
  {
  }

  /** The events of the frames without the first are those behind its own. */
  lemma Peel(frames: seq<Frame>, t: StreamEvent)
    requires frames != []
    ensures Emitted(frames) + [t] == EventOf(frames[0]) + (Emitted(frames[1..]) + [t])
  {
    hide EventOf;
  }

  lemma {:induction false} ReplyIsText(frames: seq<Frame>, t: StreamEvent)
    requires IsTerminal(t)
    ensures C.TextOf(Emitted(frames) + [t]) == Reply(frames)
  {
    hide EventOf, Part, Last, ParseEvent, IsTerminal, C.Shown;
    if frames != [] {
      Peel(frames, t);
      OneFrame(frames[0]);
      ReplyIsText(frames[1..], t);
      Behind(EventOf(frames[0]), Emitted(frames[1..]) + [t]);
    }
  }

  /** The stream shows the same text. */
  lemma StreamsTheReply(h: C.Header, frames: seq<Frame>, end: ReadEnd)
    ensures C.Deltas(C.StreamChunks(h, C.Cut(Emitted(frames) + [Terminal(end)]))) == Reply(frames)
  {
    C.StreamedIsCollected(h, Emitted(frames) + [Terminal(end)]);
    ReplyIsText(frames, Terminal(end));
  }

  lemma Behind(e: seq<StreamEvent>, rest: seq<StreamEvent>)
    ensures e == [] ==> e + rest == rest
    ensures |e| == 1 ==> (e + rest)[0] == e[0] && (e + rest)[1..] == rest
  {
  }

  lemma {:induction false} NamesTheReply(frames: seq<Frame>, t: StreamEvent, id: string)
    requires IsTerminal(t)
    ensures NamedBy(frames, id, C.LastMessage(Emitted(frames) + [t], id))
  {
    hide EventOf, Part, Last, ParseEvent, IsTerminal, NamedBy;
    if frames == [] {
      NamedByNone(id);
    } else {
      Peel(frames, t);
      OneFrame(frames[0]);
      Behind(EventOf(frames[0]), Emitted(frames[1..]) + [t]);
      var next := if Carries(frames[0], "startMessage") then frames[0].env.messageId else id;
      NamesTheReply(frames[1..], t, next);
      NamedByFirst(frames, id, C.LastMessage(Emitted(frames) + [t], id));
    }
  }

  lemma NamedByNone(id: string)
    ensures NamedBy([], id, id)
  {
  }

  lemma CountsNext(frames: seq<Frame>, i: nat)
    requires frames != [] && !Last(frames[0])
    ensures Counts(frames, i + 1) <==> Counts(frames[1..], i)
  {
    if Counts(frames[1..], i) {
      forall j | 0 <= j < i + 1 ensures !Last(frames[j]) {
        if j > 0 { assert frames[j] == frames[1..][j - 1]; }
      }
    }
    if Counts(frames, i + 1) {
      forall j | 0 <= j < i ensures !Last(frames[1..][j]) {
        assert frames[1..][j] == frames[j + 1];
      }
    }
  }

  /** The first frame is the name only if no later one is. */
  lemma NamedByFirst(frames: seq<Frame>, id: string, name: string)
    requires frames != []
    requires Last(frames[0]) ==> name == id
    requires !Last(frames[0]) ==>
      NamedBy(frames[1..], if Carries(frames[0], "startMessage") then frames[0].env.messageId else id, name)
    ensures NamedBy(frames, id, name)
  {
    hide Last;
    LastIsNoStart(frames[0]);
    if !Last(frames[0]) {
      forall i: nat ensures Counts(frames, i + 1) <==> Counts(frames[1..], i) {
        CountsNext(frames, i);
      }
      forall i: nat | Counts(frames, i) && Carries(frames[i], "startMessage")
                      && forall k: nat :: i < k && Counts(frames, k) ==> !Carries(frames[k], "startMessage")
        ensures name == frames[i].env.messageId
      {
        forall k: nat | Counts(frames[1..], k) && k + 1 > i ensures !Carries(frames[1..][k], "startMessage") {
          assert Counts(frames, k + 1);
        }
        if i > 0 { assert Counts(frames[1..], i - 1) && frames[1..][i - 1] == frames[i]; }
      }
      if forall i: nat :: Counts(frames, i) ==> !Carries(frames[i], "startMessage") {
        assert Counts(frames, 0);
        forall k: nat | Counts(frames[1..], k) ensures !Carries(frames[1..][k], "startMessage") {
          assert Counts(frames, k + 1);
        }
      }
    }
  }

  lemma LastIsNoStart(f: Frame)
    ensures Last(f) ==> !Carries(f, "startMessage")
  {
  }

  lemma EndsTheReply(frames: seq<Frame>, end: ReadEnd)
    ensures EndedBy(frames, end, C.Failing(Emitted(frames) + [Terminal(end)], C.Closed))
  {
    hide Emitted, Last, ParseEvent, Reports, C.FirstTerminal;
    var first := C.FirstTerminal(Emitted(frames) + [Terminal(end)]);
    forall i: nat | Counts(frames, i) && Last(frames[i])
      ensures frames[i].Decoded? && first == Some(ParseEvent(frames[i].env))
    {
      EndMeans(frames[i]);
      FirstEnd(frames, Terminal(end), i);
    }
    forall i: nat | Counts(frames, i) ensures EndsIt(frames[i]) {
      EndMeans(frames[i]);
    }
    if forall j :: 0 <= j < |frames| ==> !Last(frames[j]) { NoEnd(frames, Terminal(end)); }
  }

  /** How the events show that a frame ends the answer. */
  ghost predicate EndsIt(f: Frame) {
    && (Last(f) ==> f.Decoded?)
    && (Carries(f, "done") ==> Last(f) && ParseEvent(f.env).Finish?)
    && (Carries(f, "error") ==> Last(f) && ParseEvent(f.env).Failure? && Reports(f.env, Some(ParseEvent(f.env).err)))
  }

  lemma EndMeans(f: Frame)
    ensures EndsIt(f)
  {
    hide TrimSpace, Contains;
    if f.Decoded? { FirstOfThree(f.env.body, f.env.text, f.env.errorCode); }
  }

  lemma {:induction false} FirstEnd(frames: seq<Frame>, t: StreamEvent, i: nat)
    requires Counts(frames, i) && Last(frames[i])
    ensures C.FirstTerminal(Emitted(frames) + [t]) == Some(ParseEvent(frames[i].env))
    decreases i
  {
    hide EventOf, Part, Last, ParseEvent, IsTerminal, Emitted;
    Peel(frames, t);
    OneFrame(frames[0]);
    Behind(EventOf(frames[0]), Emitted(frames[1..]) + [t]);
    if i > 0 {
      CountsNext(frames, i - 1);
      FirstEnd(frames[1..], t, i - 1);
    }
  }

  lemma {:induction false} NoEnd(frames: seq<Frame>, t: StreamEvent)
    requires IsTerminal(t) && forall j :: 0 <= j < |frames| ==> !Last(frames[j])
    ensures C.FirstTerminal(Emitted(frames) + [t]) == Some(t)
  {
    hide EventOf, Part, Last, ParseEvent, IsTerminal;
    if frames != [] {
      Peel(frames, t);
      OneFrame(frames[0]);
      NoEnd(frames[1..], t);
      Behind(EventOf(frames[0]), Emitted(frames[1..]) + [t]);
    }
  }

  lemma {:induction false} ChallengePositions(frames: seq<Frame>) returns (at: seq<nat>)
    ensures |at| == |Challenges(frames)|
    ensures forall k :: 0 <= k < |at| ==>
      at[k] < |frames| && Carries(frames[at[k]], "challenge") && Challenges(frames)[k] == frames[at[k]].env.parameter
    ensures forall j, k :: 0 <= j < k < |at| ==> at[j] < at[k]
    ensures forall i: nat :: i < |frames| && Carries(frames[i], "challenge") ==> i in at
  {
    hide ParseEvent;
    if frames == [] {
      at := [];
    } else {
      var n := |frames| - 1;
      at := ChallengePositions(frames[..n]);
      OneMore(frames, n);
      assert frames[..n + 1] == frames;
      OneChallenge(frames[n]);
      if Carries(frames[n], "challenge") { at := at + [n]; }
    }
  }

  lemma OneChallenge(f: Frame)
    ensures ChallengeOf(f) == if Carries(f, "challenge") then [f.env.parameter] else []
  {
    hide TrimSpace, ErrorBody;
  }
}
