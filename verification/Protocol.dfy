/** What the server's messages mean, from the decoded envelope on. */
module Protocol {
  import opened Wrappers
  import opened Strings
  import opened Errors
  import StartRetry

  datatype Envelope = Envelope(
    event: string, conversationId: string, messageId: string, text: string, body: string,
    errorCode: string, parameter: string, url: string)

  /** A message as read from the socket. */
  datatype Frame = Garbled | Decoded(env: Envelope)

  datatype StreamEvent =
    | Ignore
    | AppendText(text: string)
    | StartMessage(messageId: string, conversationId: string)
    | Failure(err: Err)
    | Finish(messageId: string)
    | Challenge(parameter: string)
    | ImageGenerated(messageId: string, url: string)

  const BLOCKED_TEXT := "copilot start reports session user is blocked; websocket may not produce completions"
  const UPSTREAM_PREFIX: string := "upstream_error: "
  const CONNECT_PREFIX: string := "copilot error during connect: "

  function ParseEvent(env: Envelope): StreamEvent {
    if env.event == "appendText" then AppendText(env.text)
    else if env.event == "startMessage" then StartMessage(env.messageId, env.conversationId)
    else if env.event == "imageGenerated" then
      var url := TrimSpace(env.url);
      if url == "" then Ignore else ImageGenerated(env.messageId, url)
    else if env.event == "challenge" then Challenge(env.parameter)
    else if env.event == "error" then Failure(ReportedError(UPSTREAM_PREFIX, ErrorBody(env)))
    else if env.event == "done" then Finish(env.messageId)
    else Ignore
  }

  function ErrorBody(env: Envelope): string { FirstNonEmpty([env.body, env.text, env.errorCode]) }

  /** The error made of an upstream message: the lower-case word is told apart as a plain error. */
  function ReportedError(prefix: string, body: string): Err {
    if Contains(body, "blocked") then Plain(BLOCKED_TEXT) else Upstream(prefix + body)
  }

  /** What waitForConnected fails with when the first message is an error. */
  function ConnectError(env: Envelope): Err { ReportedError(CONNECT_PREFIX, FirstNonEmpty([env.body, env.text])) }

  function ImageMarkdown(url: string): (md: string)
    ensures md == "" <==> Blank(url)
  {
    if TrimSpace(url) == "" then "" else "\n![image](" + url + ")\n"
  }

  /** An image event always shows: blank addresses are ignored before they become one. */
  lemma ParsedImagesShow(env: Envelope)
    ensures ParseEvent(env).ImageGenerated? ==> ImageMarkdown(ParseEvent(env).url) != ""
  {
    hide TrimSpace;
  }

  // ---------- Where an upstream error ends up ----------

  /**
   The message an event is made of, as the server sends it. `ParsesBack` shows that every
   field arrives where it is meant to.
   */
  function MessageOf(e: StreamEvent): Envelope
    requires !e.Ignore? && !e.Failure?
  {
    match e
    case AppendText(t) => Envelope("appendText", "", "", t, "", "", "", "")
    case StartMessage(id, conv) => Envelope("startMessage", conv, id, "", "", "", "", "")
    case Finish(id) => Envelope("done", "", id, "", "", "", "", "")
    case Challenge(p) => Envelope("challenge", "", "", "", "", "", p, "")
    case ImageGenerated(id, url) => Envelope("imageGenerated", "", id, "", "", "", "", url)
  }

  lemma ParsesBack(e: StreamEvent, left: string, right: string)
    requires !e.Ignore? && !e.Failure? && Blank(left) && Blank(right)
    requires e.ImageGenerated? ==> e.url != "" && !IsSpace(e.url[0]) && !IsSpace(e.url[|e.url| - 1])
    ensures ParseEvent(if e.ImageGenerated? then MessageOf(e).(url := left + e.url + right) else MessageOf(e)) == e
  {
    if e.ImageGenerated? { TrimsBlanks(left, e.url, right); }
  }

  predicate SaysBlocked(s: string) { Contains(ToLower(s), "blocked") }

  predicate SaysTooMany(s: string) {
    Contains(ToLower(s), "too-many-messages") || Contains(ToLower(s), "too many messages")
  }

  /** Neither prefix can be part of one of the phrases looked for. */
  lemma PhraseIsInBody(prefix: string, body: string)
    requires prefix == UPSTREAM_PREFIX || prefix == CONNECT_PREFIX
    ensures SaysBlocked(prefix + body) <==> SaysBlocked(body)
    ensures prefix == UPSTREAM_PREFIX ==> (SaysTooMany(prefix + body) <==> SaysTooMany(body))
  {
    LowerConcat(prefix, body);
    var low := ToLower(body);
    assert ToLower(prefix) == prefix;
    NoB(prefix);
    PrefixIrrelevant(prefix, low, "blocked");
    if prefix == UPSTREAM_PREFIX {
      TooManyIsInBody(low, "too-many-messages");
      TooManyIsInBody(low, "too many messages");
    }
  }

  lemma NoB(prefix: string)
    requires prefix == UPSTREAM_PREFIX || prefix == CONNECT_PREFIX
    ensures forall i: nat :: i < |prefix| ==> Mismatch(prefix, "blocked", i)
  {
    assert forall i: nat :: i < |UPSTREAM_PREFIX| ==> UPSTREAM_PREFIX[i] != 'b';
    assert forall i: nat :: i < |CONNECT_PREFIX| ==> CONNECT_PREFIX[i] != 'b';
  }

  lemma TooManyIsInBody(low: string, phrase: string)
    requires |phrase| > 1 && phrase[0] == 't' && phrase[1] == 'o'
    ensures Contains(UPSTREAM_PREFIX + low, phrase) <==> Contains(low, phrase)
  {
    forall i: nat | i < |UPSTREAM_PREFIX| ensures Mismatch(UPSTREAM_PREFIX, phrase, i) {
      assert UPSTREAM_PREFIX[i] == 't' ==> i == 3;
    }
    PrefixIrrelevant(UPSTREAM_PREFIX, low, phrase);
  }

  lemma ErrorsOfBody(prefix: string, body: string)
    requires prefix == UPSTREAM_PREFIX || prefix == CONNECT_PREFIX
    ensures var e := ReportedError(prefix, body);
      && (IsBlocked(e) <==> SaysBlocked(body) && !Contains(body, "blocked"))
      && !IsClientCanceled(e) && !IsTimeout(e)
      && (prefix == UPSTREAM_PREFIX ==> (IsCapacity(e) <==> SaysTooMany(body) && !Contains(body, "blocked")))
  {
    PhraseIsInBody(prefix, body);
    hide Contains, ToLower;
  }

  /**
   The status an upstream error event is answered with. The word in lower case makes it a
   502: only other spellings of it reach the 403 meant for blocked users.
   */
  lemma ErrorEventStatus(env: Envelope)
    requires env.event == "error"
    ensures ParseEvent(env).Failure?
    ensures var body := if env.body != "" then env.body else if env.text != "" then env.text else env.errorCode;
      var r := Classify(Some(ParseEvent(env).err));
      && r.statusCode == (if Contains(body, "blocked") then 502
                          else if SaysBlocked(body) then 403
                          else if SaysTooMany(body) then 503
                          else 502)
      && r.message == if Contains(body, "blocked") then
                        "copilot start reports session user is blocked; websocket may not produce completions"
                      else "upstream_error: " + body
  {
    FirstOfThree(env.body, env.text, env.errorCode);
    ErrorsOfBody(UPSTREAM_PREFIX, ErrorBody(env));
    hide Contains, ToLower, IsBlocked, IsCapacity, IsTimeout, IsClientCanceled;
  }

  /** A blocked user noticed while connecting is tried again, unless the word is spelt in another case. */
  lemma ConnectErrorRetried(env: Envelope, attempt: nat)
    ensures var body := if env.body != "" then env.body else env.text;
      StartRetry.ShouldRetry(false, Retryable("copilot wait connected", Some(ConnectError(env))), attempt) <==>
        attempt < 2 && (Contains(body, "blocked") || !SaysBlocked(body))
  {
    FirstOfThree(env.body, env.text, "");
    ErrorsOfBody(CONNECT_PREFIX, FirstNonEmpty([env.body, env.text]));
    hide Contains, ToLower;
  }
}
