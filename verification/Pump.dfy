/**
 The connection pump: senders, a bounded queue, one writer, one-slot result channels, a
 close signal, and the reader, which answers challenges as one more sender and delivers
 events into a bounded channel. A step is one channel operation or the outcome of one
 socket operation.
 */
module Pump {

  /** What a call of `send` returned. */
  datatype Outcome = Written | WriteFailed | PumpClosed | Cancelled

  datatype Sender = Offering | Waiting | Returned(outcome: Outcome)

  datatype Writer =
    | Free
    | Holding(id: nat)
    | Replying(id: nat, ok: bool)
    | Closing
    | Exited

  datatype Reader =
    | Reading
    | Answering(id: nat)       // sends a challenge answer as sender `id`
    | Delivering(last: bool)   // offers an event to the event channel
    | Ending                   // the read loop has returned
    | Joining                  // waits for the writer
    | Gone

  const QUEUE_SIZE := 16
  const EVENT_BUFFER := 128

  /** `accepted`, `taken`, `socket` and `answered` record history; requests are named by their sender. */
  datatype State = State(
    senders: seq<Sender>,
    queue: seq<nat>,
    writer: Writer,
    reader: Reader,
    results: map<nat, bool>,   // the one-slot channels that hold an answer
    closed: bool,
    hungUp: bool,              // the connection has been closed, by whoever closed the pump or by the manager
    buffered: nat,             // events in the event channel
    listening: bool,           // somebody still receives from it
    accepted: seq<nat>,        // in the order the queue accepted them
    taken: seq<nat>,           // by the writer
    socket: seq<nat>,          // written without error
    answered: set<nat>)

  const START := State([], [], Free, Reading, map[], false, false, 0, true, [], [], [], {})

  datatype Step =
    | Call                      // somebody calls send
    | Offer(i: nat)             // the queue accepts the request
    | GiveUp(i: nat, cancelled: bool)
    | Collect(i: nat)           // the sender receives its answer
    | TakeRequest
    | Write(ok: bool)
    | Reply
    | PingFails
    | WriterSeesClose
    | WriterCloses
    | WatcherCloses             // the request's context is done
    | HangUp                    // the connection is closed
    | ReadChallenge
    | AnswerDone
    | ReadEvent
    | ReadFails                 // the terminal event is to be delivered
    | Delivered
    | Receive
    | StopListening
    | ReaderCloses
    | ReaderJoins

  predicate Enabled(s: State, a: Step) {
    match a
    case Call => true
    case Offer(i) => i < |s.senders| && s.senders[i] == Offering && |s.queue| < QUEUE_SIZE
    case GiveUp(i, cancelled) =>
      && i < |s.senders| && !s.senders[i].Returned?
      && (cancelled || (s.closed && (s.senders[i] == Waiting ==> i !in s.results)))
    case Collect(i) => i < |s.senders| && s.senders[i] == Waiting && i in s.results
    case TakeRequest => s.writer == Free && s.queue != []
    case Write(ok) => s.writer.Holding? && (ok ==> !s.hungUp)
    case Reply => s.writer.Replying? && s.writer.id !in s.results   // else the writer would block
    case PingFails => s.writer == Free
    case WriterSeesClose => s.writer == Free && s.closed
    case WriterCloses => s.writer == Closing
    case WatcherCloses => !s.closed
    case HangUp => !s.hungUp
    case ReadChallenge => s.reader == Reading
    case AnswerDone => s.reader.Answering? && s.reader.id < |s.senders| && s.senders[s.reader.id].Returned?
    case ReadEvent => s.reader == Reading
    case ReadFails => s.reader == Reading
    case Delivered => s.reader.Delivering? && s.buffered < EVENT_BUFFER
    case Receive => s.listening && s.buffered > 0
    case StopListening => s.listening
    case ReaderCloses => s.reader == Ending
    case ReaderJoins => s.reader == Joining && s.writer == Exited
  }

  function SetSender(s: State, i: nat, p: Sender): State
    requires i < |s.senders|
  {
    s.(senders := s.senders[i := p])
  }

  function Next(s: State, a: Step): State
    requires Enabled(s, a)
  {
    match a
    case Call => s.(senders := s.senders + [Offering])
    case Offer(i) => SetSender(s, i, Waiting).(queue := s.queue + [i], accepted := s.accepted + [i])
    case GiveUp(i, cancelled) => SetSender(s, i, Returned(if cancelled then Cancelled else PumpClosed))
    case Collect(i) =>
      SetSender(s, i, Returned(if s.results[i] then Written else WriteFailed)).(results := s.results - {i})
    case TakeRequest => s.(writer := Holding(s.queue[0]), queue := s.queue[1..], taken := s.taken + [s.queue[0]])
    case Write(ok) =>
      s.(writer := Replying(s.writer.id, ok), socket := if ok then s.socket + [s.writer.id] else s.socket)
    case Reply =>
      s.(results := s.results[s.writer.id := s.writer.ok], answered := s.answered + {s.writer.id},
         writer := if s.writer.ok then Free else Closing)
    case PingFails => s.(writer := Closing)
    case WriterSeesClose => s.(writer := Exited)
    case WriterCloses => s.(closed := true, writer := Exited)
    case WatcherCloses => s.(closed := true)
    case HangUp => s.(hungUp := true)
    case ReadChallenge => s.(senders := s.senders + [Offering], reader := Answering(|s.senders|))
    case AnswerDone => s.(reader := Reading)
    case ReadEvent => s.(reader := Delivering(false))
    case ReadFails => s.(reader := Delivering(true))
    case Delivered => s.(reader := if s.reader.last then Ending else Reading, buffered := s.buffered + 1)
    case Receive => s.(buffered := s.buffered - 1)
    case StopListening => s.(listening := false)
    case ReaderCloses => s.(closed := true, reader := Joining)
    case ReaderJoins => s.(reader := Gone)
  }

  ghost predicate Moves(s: State, s': State) { exists a: Step :: Enabled(s, a) && s' == Next(s, a) }

  ghost predicate Run(run: seq<State>) {
    && |run| > 0 && run[0] == START
    && forall i :: 0 <= i < |run| - 1 ==> Moves(run[i], run[i + 1])
  }

  predicate Schedule(s: State, steps: seq<Step>)
    decreases |steps|
  {
    steps == [] || (Enabled(s, steps[0]) && Schedule(Next(s, steps[0]), steps[1..]))
  }

  function After(s: State, steps: seq<Step>): State
    requires Schedule(s, steps)
    decreases |steps|
  {
    if steps == [] then s else After(Next(s, steps[0]), steps[1..])
  }

  // ---------- The invariant ----------

  ghost predicate NoDup(s: seq<nat>) { forall i, j :: 0 <= i < j < |s| ==> s[i] != s[j] }

  /** The request the writer has in hand and has not answered. */
  function InHand(w: Writer): set<nat> {
    match w
    case Holding(i) => {i}
    case Replying(i, _) => {i}
    case _ => {}
  }

  /** Written so far: all requests taken, but for one that is being written or has failed. */
  ghost predicate SocketOk(s: State) {
    match s.writer
    case Free => s.socket == s.taken
    case Holding(i) => s.taken == s.socket + [i]
    case Replying(i, ok) =>
      if ok then s.socket == s.taken && |s.socket| > 0 && s.socket[|s.socket| - 1] == i else s.taken == s.socket + [i]
    case _ => s.socket <= s.taken && |s.taken| <= |s.socket| + 1
  }

  ghost predicate QueueOk(s: State) {
    && s.accepted == s.taken + s.queue && |s.queue| <= QUEUE_SIZE && NoDup(s.accepted)
    && (forall i :: i in s.accepted ==> i < |s.senders| && s.senders[i] != Offering)
    && (forall i: nat :: i < |s.senders| && s.senders[i] == Waiting ==> i in s.accepted)
  }

  ghost predicate AnswersOk(s: State) {
    && (forall i :: i in s.taken <==> i in s.answered || i in InHand(s.writer))
    && s.answered !! InHand(s.writer)
    && (forall i :: i in s.results ==> i in s.answered && (s.results[i] <==> i in s.socket))
    && (forall i: nat :: i < |s.senders| && s.senders[i] == Waiting && i in s.answered ==> i in s.results)
    && (forall i: nat :: i < |s.senders| && s.senders[i] == Returned(Written) ==> i in s.socket && i in s.answered)
    && (forall i: nat :: i < |s.senders| && s.senders[i] == Returned(WriteFailed) ==> i !in s.socket && i in s.answered)
  }

  ghost predicate EndOk(s: State) {
    && (s.writer == Exited ==> s.closed)
    && (s.reader == Joining || s.reader == Gone ==> s.closed)
    && (s.reader.Answering? ==> s.reader.id < |s.senders|)
    && (s.reader == Gone ==> s.writer == Exited)
    && s.buffered <= EVENT_BUFFER
  }

  ghost predicate Inv(s: State) { SocketOk(s) && QueueOk(s) && AnswersOk(s) && EndOk(s) }

  lemma StepKeeps(s: State, a: Step)
    requires Inv(s) && Enabled(s, a)
    ensures Inv(Next(s, a))
  {
    SocketKeeps(s, a);
    QueueKeeps(s, a);
    AnswersKeep(s, a);
  }

  lemma SocketKeeps(s: State, a: Step)
    requires Inv(s) && Enabled(s, a)
    ensures SocketOk(Next(s, a)) && EndOk(Next(s, a))
  {
    hide QueueOk, AnswersOk;
  }

  lemma QueueKeeps(s: State, a: Step)
    requires Inv(s) && Enabled(s, a)
    ensures QueueOk(Next(s, a))
  {
    hide SocketOk, AnswersOk, EndOk;
  }

  lemma AnswersKeep(s: State, a: Step)
    requires Inv(s) && Enabled(s, a)
    ensures AnswersOk(Next(s, a))
  {
    hide AnswersOk;
    if a.Call? || a.ReadChallenge? {
      NewSenderAnswers(s, a);
    } else if a.Offer? || a.GiveUp? || a.Collect? {
      SenderAnswers(s, a);
    } else if a.TakeRequest? {
      TakeAnswers(s);
    } else if a.Write? {
      WriteAnswers(s, a.ok);
    } else if a.Reply? {
      ReplyAnswers(s);
    } else {
      OtherAnswers(s, a);
    }
  }

  lemma NewSenderAnswers(s: State, a: Step)
    requires Inv(s) && Enabled(s, a) && (a.Call? || a.ReadChallenge?)
    ensures AnswersOk(Next(s, a))
  {
    hide EndOk, SocketOk;
  }

  lemma SenderAnswers(s: State, a: Step)
    requires Inv(s) && Enabled(s, a) && (a.Offer? || a.GiveUp? || a.Collect?)
    ensures AnswersOk(Next(s, a))
  {
    hide EndOk, SocketOk;
  }

  lemma TakeAnswers(s: State)
    requires Inv(s) && Enabled(s, TakeRequest)
    ensures AnswersOk(Next(s, TakeRequest))
  {
    HeadIsNew(s);
    hide EndOk, QueueOk, SocketOk;
    assert forall i :: i in s.taken + [s.queue[0]] <==> i in s.taken || i == s.queue[0];
  }

  lemma WriteAnswers(s: State, ok: bool)
    requires Inv(s) && Enabled(s, Write(ok))
    ensures AnswersOk(Next(s, Write(ok)))
  {
    UnwrittenInHand(s);
    hide EndOk, QueueOk, SocketOk;
  }

  lemma ReplyAnswers(s: State)
    requires Inv(s) && Enabled(s, Reply)
    ensures AnswersOk(Next(s, Reply))
  {
    UnwrittenInHand(s);
    hide EndOk, QueueOk, SocketOk;
  }

  lemma OtherAnswers(s: State, a: Step)
    requires AnswersOk(s) && SocketOk(s) && Enabled(s, a)
    requires !a.Offer? && !a.Call? && !a.GiveUp? && !a.Collect? && !a.ReadChallenge?
    requires !a.TakeRequest? && !a.Write? && !a.Reply?
    ensures AnswersOk(Next(s, a))
  {
    hide AnswersOk, SocketOk;
    SameRequests(s, a);
    SameAnswers(s, Next(s, a));
  }

  lemma SameRequests(s: State, a: Step)
    requires Enabled(s, a)
    requires !a.Offer? && !a.Call? && !a.GiveUp? && !a.Collect? && !a.ReadChallenge?
    requires !a.TakeRequest? && !a.Write? && !a.Reply?
    ensures var s' := Next(s, a);
      && s'.taken == s.taken && s'.answered == s.answered && s'.results == s.results && s'.socket == s.socket
      && s'.senders == s.senders && InHand(s'.writer) == InHand(s.writer)
  {
  }

  lemma SameAnswers(s: State, s': State)
    requires AnswersOk(s)
    requires s'.taken == s.taken && s'.answered == s.answered && s'.results == s.results && s'.socket == s.socket
    requires s'.senders == s.senders && InHand(s'.writer) == InHand(s.writer)
    ensures AnswersOk(s')
  {
  }

  lemma HeadIsNew(s: State)
    requires QueueOk(s) && s.queue != []
    ensures s.queue[0] !in s.taken
  {
    assert s.accepted[|s.taken|] == s.queue[0];
    forall i | 0 <= i < |s.taken| ensures s.taken[i] != s.queue[0] {
      assert s.accepted[i] == s.taken[i];
    }
  }

  /** A request in hand has been written only if its write has succeeded. */
  lemma UnwrittenInHand(s: State)
    requires SocketOk(s) && QueueOk(s)
    ensures s.writer.Holding? ==> s.writer.id !in s.socket
    ensures s.writer.Replying? ==> (s.writer.ok <==> s.writer.id in s.socket)
  {
    if s.writer.Holding? || (s.writer.Replying? && !s.writer.ok) {
      var n := |s.socket|;
      assert s.accepted[n] == s.writer.id;
      forall i | 0 <= i < n ensures s.socket[i] != s.writer.id {
        assert s.accepted[i] == s.socket[i];
      }
    }
  }

  // ---------- Over every run ----------

  lemma {:induction false} RunKeeps(run: seq<State>, i: nat)
    requires Run(run) && i < |run|
    ensures Inv(run[i])
  {
    hide Inv, Enabled, Next;
    if i == 0 {
      StartOk();
    } else {
      RunKeeps(run, i - 1);
      RunMoves(run, i - 1);
      var a: Step :| Enabled(run[i - 1], a) && run[i] == Next(run[i - 1], a);
      StepKeeps(run[i - 1], a);
    }
  }

  lemma RunMoves(run: seq<State>, i: nat)
    requires Run(run) && i + 1 < |run|
    ensures Moves(run[i], run[i + 1])
  {
  }

  lemma StartOk()
    ensures Inv(START)
  {
  }

  /** The socket has got the messages in the order the queue accepted them, each once and none left out. */
  lemma WritesInOrder(run: seq<State>, i: nat)
    requires Run(run) && i < |run|
    ensures run[i].socket <= run[i].taken <= run[i].accepted
    ensures |run[i].taken| <= |run[i].socket| + 1
    ensures NoDup(run[i].accepted)
  {
    RunKeeps(run, i);
  }

  /** Neither channel ever holds more than it has room for. */
  lemma ChannelsBounded(run: seq<State>, i: nat)
    requires Run(run) && i < |run|
    ensures |run[i].accepted| - |run[i].taken| == |run[i].queue| <= 16 && run[i].buffered <= 128
  {
    RunKeeps(run, i);
  }

  /**
   A send that reports success has had its message written; one that reports the writer's
   error has not, and never will.
   */
  lemma SendTellsTheTruth(run: seq<State>, i: nat, j: nat, p: nat)
    requires Run(run) && i <= j < |run| && p < |run[i].senders|
    ensures run[i].senders[p] == Returned(Written) ==> p in run[i].socket
    ensures run[i].senders[p] == Returned(WriteFailed) ==> p !in run[j].socket
  {
    hide Inv, Enabled, Next;
    RunKeeps(run, i);
    RunKeeps(run, j);
    Outcomes(run[i], p);
    if run[i].senders[p] == Returned(WriteFailed) {
      ReturnsOnce(run, i, j, p);
      Outcomes(run[j], p);
    }
  }

  lemma Outcomes(s: State, p: nat)
    requires Inv(s) && p < |s.senders|
    ensures s.senders[p] == Returned(Written) ==> p in s.socket
    ensures s.senders[p] == Returned(WriteFailed) ==> p !in s.socket
  {
  }

  lemma {:induction false} ReturnsOnce(run: seq<State>, i: nat, j: nat, p: nat)
    requires Run(run) && i <= j < |run| && p < |run[i].senders| && run[i].senders[p].Returned?
    ensures p < |run[j].senders| && run[j].senders[p] == run[i].senders[p]
    decreases j
  {
    hide Enabled, Next;
    if i < j {
      ReturnsOnce(run, i, j - 1, p);
      RunMoves(run, j - 1);
      var a: Step :| Enabled(run[j - 1], a) && run[j] == Next(run[j - 1], a);
      StaysReturned(run[j - 1], a, p);
    }
  }

  lemma StaysReturned(s: State, a: Step, p: nat)
    requires Enabled(s, a) && p < |s.senders| && s.senders[p].Returned?
    ensures p < |Next(s, a).senders| && Next(s, a).senders[p] == s.senders[p]
  {
  }

  predicate WriterDown(w: Writer) { w == Closing || w == Exited || (w.Replying? && !w.ok) }

  /** The message is written, or it is with a writer that may still get to it on an open connection. */
  predicate MayYetBeWritten(s: State, p: nat) {
    p in s.socket || ((p in s.queue || s.writer == Holding(p)) && !s.hungUp && !WriterDown(s.writer))
  }

  ghost predicate Writes(s: State, steps: seq<Step>, p: nat) { Schedule(s, steps) && p in After(s, steps).socket }

  /**
   What any other error leaves open: after a send has returned, whatever it reported, its
   message is on the socket in some continuation exactly if it is there already, or was
   accepted and the writer and the connection are still up. One that the queue never
   accepted is never written.
   */
  lemma WrittenAfterAll(s: State, p: nat)
    requires Inv(s) && p < |s.senders| && s.senders[p].Returned?
    ensures (exists steps: seq<Step> :: Writes(s, steps, p)) <==> MayYetBeWritten(s, p)
    ensures p !in s.accepted ==> !MayYetBeWritten(s, p)
  {
    hide Inv, Enabled, Next, Schedule, After;
    Accepted(s, p);
    if MayYetBeWritten(s, p) {
      var steps := WayToWrite(s, p);
      assert Writes(s, steps, p);
    } else {
      forall steps: seq<Step> ensures !Writes(s, steps, p) {
        if Schedule(s, steps) { NeverWritten(s, steps, p); }
      }
    }
  }

  lemma Accepted(s: State, p: nat)
    requires Inv(s)
    ensures MayYetBeWritten(s, p) ==> p in s.accepted
  {
    assert p in s.socket ==> p in s.taken;
    if s.writer == Holding(p) { assert s.taken[|s.socket|] == p; }
  }

  lemma {:induction false} NeverWritten(s: State, steps: seq<Step>, p: nat)
    requires Schedule(s, steps) && p < |s.senders| && s.senders[p].Returned? && !MayYetBeWritten(s, p)
    ensures p !in After(s, steps).socket
    decreases |steps|
  {
    hide Enabled, Next, MayYetBeWritten;
    if steps == [] {
      NotWritten(s, p);
    } else {
      StaysReturned(s, steps[0], p);
      StaysUnwritten(s, steps[0], p);
      NeverWritten(Next(s, steps[0]), steps[1..], p);
    }
  }

  lemma NotWritten(s: State, p: nat)
    requires !MayYetBeWritten(s, p)
    ensures p !in s.socket
  {
  }

  lemma StaysUnwritten(s: State, a: Step, p: nat)
    requires Enabled(s, a) && p < |s.senders| && s.senders[p].Returned? && !MayYetBeWritten(s, p)
    ensures !MayYetBeWritten(Next(s, a), p)
  {
  }

  /** The writer works through the queue up to the message. */
  lemma {:induction false} WayToWrite(s: State, p: nat) returns (steps: seq<Step>)
    requires Inv(s) && MayYetBeWritten(s, p)
    ensures Schedule(s, steps) && p in After(s, steps).socket
    decreases |s.queue|, WriterRank(s.writer)
  {
    hide Inv, Enabled, Next, MayYetBeWritten, WriterRank;
    if p in s.socket {
      return [];
    }
    WriterGetsOn(s, p);
    var a := WriterStep(s.writer);
    var rest := WayToWrite(Next(s, a), p);
    steps := [a] + rest;
    assert steps[1..] == rest;
  }

  /** What the writer does next while it is up. */
  function WriterStep(w: Writer): Step {
    if w.Holding? then Write(true) else if w.Replying? then Reply else TakeRequest
  }

  lemma WriterGetsOn(s: State, p: nat)
    requires Inv(s) && MayYetBeWritten(s, p) && p !in s.socket
    ensures var a := WriterStep(s.writer);
      && Enabled(s, a) && Inv(Next(s, a)) && MayYetBeWritten(Next(s, a), p)
      && (|Next(s, a).queue| < |s.queue|
          || (|Next(s, a).queue| == |s.queue| && WriterRank(Next(s, a).writer) < WriterRank(s.writer)))
  {
    hide Inv;
    if s.writer.Replying? {
      AnswersOnce(s);
      LastWritten(s);
    }
    StepKeeps(s, WriterStep(s.writer));
  }

  lemma LastWritten(s: State)
    requires Inv(s) && s.writer.Replying? && s.writer.ok
    ensures s.writer.id in s.socket
  {
  }

  /** So an error may be reported for a message that was written: here the pump closes before the answer. */
  lemma ErrorDespiteWrite()
    ensures exists s: State :: Reachable(s) && s.senders == [Returned(PumpClosed)] && s.socket == [0]
  {
    var s1 := START.(senders := [Offering]);
    var s2 := s1.(senders := [Waiting], queue := [0], accepted := [0]);
    var s3 := s2.(writer := Holding(0), queue := [], taken := [0]);
    var s4 := s3.(writer := Replying(0, true), socket := [0]);
    var s5 := s4.(closed := true);
    assert Run([START]);
    ReachNext(START, Call, s1);
    ReachNext(s1, Offer(0), s2);
    ReachNext(s2, TakeRequest, s3);
    ReachNext(s3, Write(true), s4);
    ReachNext(s4, WatcherCloses, s5);
    ReachNext(s5, GiveUp(0, false), s5.(senders := [Returned(PumpClosed)]));
  }

  /** And for one that is written later: here the call is cancelled while its request is in the queue. */
  lemma WrittenAfterCancel()
    ensures exists s: State ::
      Reachable(s) && s.senders == [Returned(Cancelled)] && s.socket == [] && exists steps: seq<Step> :: Writes(s, steps, 0)
  {
    var s1 := START.(senders := [Offering]);
    var s2 := s1.(senders := [Waiting], queue := [0], accepted := [0]);
    var s3 := s2.(senders := [Returned(Cancelled)]);
    assert Run([START]);
    ReachNext(START, Call, s1);
    ReachNext(s1, Offer(0), s2);
    ReachNext(s2, GiveUp(0, true), s3);
    ReachableKeeps(s3);
    WrittenAfterAll(s3, 0);
  }

  lemma ReachableKeeps(s: State)
    requires Reachable(s)
    ensures Inv(s)
  {
    hide Inv;
    var run: seq<State> :| Run(run) && run[|run| - 1] == s;
    RunKeeps(run, |run| - 1);
  }

  ghost predicate Reachable(s: State) { exists run: seq<State> :: Run(run) && run[|run| - 1] == s }

  lemma ReachNext(s: State, a: Step, s': State)
    requires Reachable(s) && Enabled(s, a) && s' == Next(s, a)
    ensures Reachable(s')
  {
    hide Enabled, Next;
    var run: seq<State> :| Run(run) && run[|run| - 1] == s;
    var longer := run + [s'];
    assert Moves(s, s');
    forall i | 0 <= i < |longer| - 1 ensures Moves(longer[i], longer[i + 1]) {
      if i < |run| - 1 { assert Moves(run[i], run[i + 1]); }
    }
    assert Run(longer) && longer[|longer| - 1] == s';
  }

  /** A request is answered at most once, so its one-slot channel has room and the writer never blocks on it. */
  lemma AnswersOnce(s: State)
    requires Inv(s) && s.writer.Replying?
    ensures s.writer.id !in s.answered && Enabled(s, Reply)
  {
  }

  /** A send reports a closed pump only if the pump is closed and no answer has come; an answer that has come is reported. */
  lemma AnswerIsNotMissed(s: State, a: Step, p: nat)
    requires Enabled(s, a) && p < |s.senders| && !s.senders[p].Returned?
    ensures Next(s, a).senders[p] == Returned(PumpClosed) ==> s.closed && (s.senders[p] == Waiting ==> p !in s.results)
    ensures Next(s, a).senders[p] == Returned(Written) || Next(s, a).senders[p] == Returned(WriteFailed) ==>
      p in s.results && (s.results[p] <==> Next(s, a).senders[p] == Returned(Written))
  {
  }

  // ---------- The reader ----------

  /** The reader is in its loop, in which a challenge or an event is only an interlude. */
  predicate InLoop(r: Reader) { r == Reading || r.Answering? || r == Delivering(false) }

  /** Whatever else happens, only a failing read takes the reader out of its loop. */
  lemma {:induction false} ReadsOn(s: State, steps: seq<Step>)
    requires InLoop(s.reader) && Schedule(s, steps) && ReadFails !in steps
    ensures InLoop(After(s, steps).reader)
    decreases |steps|
  {
    if steps != [] {
      assert steps[0] != ReadFails;
      ReadsOn(Next(s, steps[0]), steps[1..]);
    }
  }

  /** A challenge is answered by a send of the reader's own, and the reader goes on only when that has returned. */
  lemma AnswersByItself(s: State, a: Step)
    requires Enabled(s, a)
    ensures !s.reader.Answering? && Next(s, a).reader.Answering? ==>
      s.reader == Reading && Next(s, a).reader.id == |s.senders| && Next(s, a).senders == s.senders + [Offering]
    ensures s.reader.Answering? && Next(s, a).reader != s.reader ==>
      s.reader.id < |s.senders| && s.senders[s.reader.id].Returned? && Next(s, a).reader == Reading
  {
  }

  /** How many events a run of steps reads off the connection, and how many the consumer receives. */
  function EventsRead(steps: seq<Step>): nat {
    if steps == [] then 0 else (if steps[0].ReadEvent? || steps[0].ReadFails? then 1 else 0) + EventsRead(steps[1..])
  }

  function EventsReceived(steps: seq<Step>): nat {
    if steps == [] then 0 else (if steps[0].Receive? then 1 else 0) + EventsReceived(steps[1..])
  }

  /** Events that have been read and not received: one in the reader's hands, and those in the channel. */
  function InTransit(s: State): nat { (if s.reader.Delivering? then 1 else 0) + s.buffered }

  lemma TransitStep(s: State, a: Step)
    requires Enabled(s, a)
    ensures InTransit(s) + EventsRead([a]) == InTransit(Next(s, a)) + EventsReceived([a])
  {
  }

  /** No event is lost or doubled on its way from the connection to the consumer. */
  lemma {:induction false} EventsConserved(s: State, steps: seq<Step>)
    requires Schedule(s, steps)
    ensures InTransit(s) + EventsRead(steps) == InTransit(After(s, steps)) + EventsReceived(steps)
    decreases |steps|
  {
    hide Enabled, Next, InTransit;
    if steps != [] {
      TransitStep(s, steps[0]);
      EventsConserved(Next(s, steps[0]), steps[1..]);
    }
  }

  // ---------- No sender waits forever ----------

  /** Once the pump is closed, and so whenever the writer is gone, every pending send can return on its own. */
  lemma ClosedFreesSenders(s: State, i: nat)
    requires Inv(s) && i < |s.senders| && !s.senders[i].Returned? && (s.closed || s.writer == Exited)
    ensures if s.senders[i] == Waiting && i in s.results then Enabled(s, Collect(i)) else Enabled(s, GiveUp(i, false))
  {
  }

  /** The writer's steps until it has answered the request accepted as number `k`. */
  function Distance(s: State, k: nat): int {
    3 * (k + 1 - |s.taken|) + match s.writer case Holding(_) => 2 case Replying(_, _) => 1 case _ => 0
  }

  predicate Pending(s: State, k: nat) {
    && k < |s.accepted| && s.accepted[k] < |s.senders|
    && s.senders[s.accepted[k]] == Waiting && s.accepted[k] !in s.results
  }

  predicate WriterWorks(a: Step) { a.TakeRequest? || a.Write? || a.Reply? }

  /** While the writer is alive it has a step to take for whoever still waits. */
  lemma WriterHasWork(s: State, k: nat)
    requires Inv(s) && Pending(s, k) && s.writer != Closing && s.writer != Exited
    ensures Distance(s, k) >= 1
    ensures Enabled(s, TakeRequest) || Enabled(s, Write(!s.hungUp)) || Enabled(s, Reply)
  {
    var i := s.accepted[k];
    assert i !in s.answered;
    if k < |s.taken| {
      assert s.taken[k] == i;
      assert i in InHand(s.writer);
      var last := |s.taken| - 1;
      assert s.taken[last] == i;
      assert s.accepted[last] == i;
    }
  }

  /** No step puts an answer off, and each step of the writer brings it closer. */
  lemma AnswerDrawsNearer(s: State, a: Step, k: nat)
    requires Inv(s) && Enabled(s, a) && Pending(s, k) && Pending(Next(s, a), k)
    requires Next(s, a).writer != Closing && Next(s, a).writer != Exited
    ensures Distance(Next(s, a), k) == Distance(s, k) - if WriterWorks(a) then 1 else 0
  {
    hide Inv;
  }

  // ---------- After the close the pump comes to rest ----------

  function SenderRank(p: Sender): nat {
    match p case Offering => 5 case Waiting => 1 case Returned(_) => 0
  }

  function SendersRank(senders: seq<Sender>): nat {
    if senders == [] then 0 else SenderRank(senders[0]) + SendersRank(senders[1..])
  }

  lemma {:induction false} SendersUpdate(senders: seq<Sender>, i: nat, p: Sender)
    requires i < |senders|
    ensures SendersRank(senders[i := p]) == SendersRank(senders) - SenderRank(senders[i]) + SenderRank(p)
  {
    if i == 0 {
      assert senders[i := p][1..] == senders[1..];
    } else {
      assert senders[i := p][1..] == senders[1..][i - 1 := p];
      SendersUpdate(senders[1..], i - 1, p);
    }
  }

  lemma {:induction false} SendersAppend(senders: seq<Sender>, p: Sender)
    ensures SendersRank(senders + [p]) == SendersRank(senders) + SenderRank(p)
  {
    if senders == [] {
      assert senders + [p] == [p];
    } else {
      assert (senders + [p])[1..] == senders[1..] + [p];
      SendersAppend(senders[1..], p);
    }
  }

  function WriterRank(w: Writer): nat {
    match w case Free => 2 case Holding(_) => 4 case Replying(_, _) => 3 case Closing => 1 case Exited => 0
  }

  function ReaderRank(r: Reader): nat {
    match r
    case Reading => 5
    case Answering(_) => 6
    case Delivering(last) => if last then 4 else 7
    case Ending => 2
    case Joining => 1
    case Gone => 0
  }

  function Rank(s: State): nat {
    SendersRank(s.senders) + 3 * |s.queue| + WriterRank(s.writer) + ReaderRank(s.reader) + s.buffered
    + (if s.listening then 1 else 0) + if s.hungUp then 0 else 1
  }

  /** The steps that bring in new work: a call of send, and a frame still found on the connection. */
  predicate Input(a: Step) { a.Call? || a.ReadChallenge? || a.ReadEvent? }

  lemma StepFalls(s: State, a: Step)
    requires Enabled(s, a) && s.closed
    ensures Next(s, a).closed
    ensures if Input(a) then Rank(Next(s, a)) <= Rank(s) + 6 else Rank(Next(s, a)) < Rank(s)
  {
    if a.Call? || a.ReadChallenge? {
      SendersAppend(s.senders, Offering);
    } else if a.Offer? || a.GiveUp? || a.Collect? {
      SendersUpdate(s.senders, a.i, Next(s, a).senders[a.i]);
    }
  }

  function Inputs(steps: seq<Step>): nat {
    if steps == [] then 0 else (if Input(steps[0]) then 1 else 0) + Inputs(steps[1..])
  }

  /** After the close there are only boundedly many steps, seven more for each piece of new work. */
  lemma {:induction false} ComesToRest(s: State, steps: seq<Step>)
    requires s.closed && Schedule(s, steps)
    ensures |steps| <= Rank(s) + 7 * Inputs(steps)
    decreases |steps|
  {
    hide Enabled, Next, Rank, Input;
    if steps != [] {
      StepFalls(s, steps[0]);
      ComesToRest(Next(s, steps[0]), steps[1..]);
    }
  }

  /** The reader offers an event to a full channel that nobody receives from. */
  predicate Hung(s: State) { s.reader.Delivering? && s.buffered >= EVENT_BUFFER && !s.listening }

  /**
   The moves nobody can count on: new work, cancelled calls, a failing ping, a consumer that
   leaves, a read that fails on an open connection, and, before the pump is closed, somebody
   who closes the connection.
   */
  predicate Optional(s: State, a: Step) {
    || Input(a) || (a.GiveUp? && a.cancelled) || a.PingFails? || a.WatcherCloses? || a.StopListening?
    || (a.ReadFails? && !s.hungUp) || (a.HangUp? && !s.closed)
  }

  /** Everybody has gone as far as they can by themselves; a consumer that listens has emptied the channel. */
  ghost predicate AtRest(s: State) { forall a: Step :: Enabled(s, a) ==> Optional(s, a) }

  /**
   Once the pump is closed no send, no writer and no reader needs a cancelled context to get
   to its end: at rest all sends have returned and the writer is gone, and so is the reader,
   whether the consumer listens or not, unless it hangs.
   */
  lemma RestIsClean(s: State)
    requires Inv(s) && s.closed && AtRest(s)
    ensures forall i: nat :: i < |s.senders| ==> s.senders[i].Returned?
    ensures s.writer == Exited && s.hungUp
    ensures s.reader == Gone <==> !Hung(s)
  {
    hide Inv;
    forall i: nat | i < |s.senders| ensures s.senders[i].Returned? {
      if !s.senders[i].Returned? {
        ClosedFreesSenders(s, i);
        assert false;
      }
    }
    WriterGone(s);
    ReaderGone(s);
  }

  lemma WriterGone(s: State)
    requires Inv(s) && s.closed && AtRest(s)
    ensures s.writer == Exited && s.hungUp
  {
    assert !Enabled(s, Write(false)) && !Enabled(s, Reply) && !Enabled(s, WriterCloses) && !Enabled(s, WriterSeesClose);
    if s.writer.Replying? { AnswersOnce(s); }
    assert !Enabled(s, HangUp);
  }

  lemma ReaderGone(s: State)
    requires Inv(s) && AtRest(s) && s.writer == Exited && s.hungUp
    requires forall i: nat :: i < |s.senders| ==> s.senders[i].Returned?
    ensures s.reader == Gone <==> !Hung(s)
  {
    assert !Enabled(s, AnswerDone) && !Enabled(s, ReadFails) && !Enabled(s, Delivered) && !Enabled(s, Receive);
    assert !Enabled(s, ReaderCloses) && !Enabled(s, ReaderJoins);
  }

  /**
   A session the manager closes brings its own pump to the end: with the connection gone the
   reader reads no more and closes the pump, unless it hangs.
   */
  lemma HangUpEndsPump(s: State)
    requires Inv(s) && s.hungUp && AtRest(s)
    ensures s.closed || Hung(s)
    ensures s.closed ==> s.writer == Exited && (s.reader == Gone || Hung(s))
  {
    hide Inv;
    if s.closed {
      RestIsClean(s);
    } else {
      WriterIdles(s);
      SendersDone(s);
      ReaderCannotRest(s);
    }
  }

  lemma WriterIdles(s: State)
    requires Inv(s) && AtRest(s) && !s.closed
    ensures s.writer == Free && s.queue == []
  {
    assert !Enabled(s, TakeRequest) && !Enabled(s, Write(false)) && !Enabled(s, Reply) && !Enabled(s, WriterCloses);
    if s.writer.Replying? { AnswersOnce(s); }
  }

  lemma SendersDone(s: State)
    requires Inv(s) && AtRest(s) && s.writer == Free && s.queue == []
    ensures forall i: nat :: i < |s.senders| ==> s.senders[i].Returned?
  {
    forall i: nat | i < |s.senders| ensures s.senders[i].Returned? {
      assert !Enabled(s, Offer(i)) && !Enabled(s, Collect(i));
    }
  }

  lemma ReaderCannotRest(s: State)
    requires Inv(s) && AtRest(s) && s.hungUp && !s.closed
    requires forall i: nat :: i < |s.senders| ==> s.senders[i].Returned?
    ensures Hung(s)
  {
    assert !Enabled(s, AnswerDone) && !Enabled(s, ReadFails) && !Enabled(s, Delivered) && !Enabled(s, Receive);
    assert !Enabled(s, ReaderCloses);
  }

  /** A reader in its loop never stops half-way: at rest it reads, on an open connection, unless it hangs. */
  lemma RestsReading(s: State)
    requires Inv(s) && AtRest(s) && InLoop(s.reader) && !Hung(s)
    ensures s.reader == Reading && !s.hungUp && !s.closed
  {
    hide Inv;
    if s.closed {
      RestIsClean(s);
    } else if s.hungUp {
      HangUpEndsPump(s);
    } else {
      WriterIdles(s);
      SendersDone(s);
      if s.reader.Answering? { ReaderInBounds(s); }
      assert !Enabled(s, AnswerDone) && !Enabled(s, Delivered) && !Enabled(s, Receive);
    }
  }

  lemma ReaderInBounds(s: State)
    requires Inv(s) && s.reader.Answering?
    ensures s.reader.id < |s.senders|
  {
  }

  /** A reader that hangs hangs for good, closed pump or not. */
  lemma {:induction false} HungForever(s: State, steps: seq<Step>)
    requires Hung(s) && Schedule(s, steps)
    ensures Hung(After(s, steps)) && After(s, steps).reader == s.reader
    decreases |steps|
  {
    if steps != [] { HungForever(Next(s, steps[0]), steps[1..]); }
  }

  /** And it does happen: the channel fills up, the consumer leaves, and one more event arrives. */
  lemma HangHappens()
    ensures exists s: State :: Reachable(s) && Hung(s)
  {
    var full := START.(buffered := EVENT_BUFFER);
    FillsUp(EVENT_BUFFER);
    var left := full.(listening := false);
    ReachNext(full, StopListening, left);
    var hung := left.(reader := Delivering(false));
    ReachNext(left, ReadEvent, hung);
    assert Hung(hung);
  }

  lemma {:induction false} FillsUp(n: nat)
    requires n <= EVENT_BUFFER
    ensures Reachable(START.(buffered := n))
  {
    if n == 0 {
      assert Run([START]) && [START][|[START]| - 1] == START;
      assert START.(buffered := 0) == START;
    } else {
      FillsUp(n - 1);
      var before := START.(buffered := n - 1);
      var offering := before.(reader := Delivering(false));
      ReachNext(before, ReadEvent, offering);
      ReachNext(offering, Delivered, START.(buffered := n));
    }
  }
}
