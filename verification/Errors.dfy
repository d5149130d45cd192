/**
 Error values as the chains that `errors.Is` and `errors.As` walk, the program's error
 predicates over them, and the response a failed request is answered with.
 */
module Errors {
  import opened Wrappers
  import opened Strings

  /** An error; `cause` is what its `Unwrap` method returns. */
  datatype Err =
    | Plain(message: string)
    | Canceled                    // context.Canceled
    | DeadlineExceeded            // context.DeadlineExceeded
    | ErrCapacity
    | ErrTimeout
    | ErrRetryableStart
    | Upstream(message: string)
    | Blocked(message: string)
    | Capacity(message: string, cause: Option<Err>)
    | Timeout(operation: string, cause: Option<Err>)
    | Retryable(message: string, cause: Option<Err>)
    | Net(message: string, timeout: bool, cause: Option<Err>)   // some implementation of net.Error
    | Wrap(prefix: string, inner: Err)                          // fmt.Errorf("prefix: %w", inner)

  function Unwrap(e: Err): Option<Err> {
    match e
    case Capacity(_, cause) => cause
    case Timeout(_, cause) => cause
    case Retryable(_, cause) => cause
    case Net(_, _, cause) => cause
    case Wrap(_, inner) => Some(inner)
    case _ => None
  }

  /** The error itself, then everything it wraps. */
  function Chain(e: Err): seq<Err> {
    match e
    case Wrap(_, inner) => [e] + Chain(inner)
    case Capacity(_, Some(c)) => [e] + Chain(c)
    case Timeout(_, Some(c)) => [e] + Chain(c)
    case Retryable(_, Some(c)) => [e] + Chain(c)
    case Net(_, _, Some(c)) => [e] + Chain(c)
    case _ => [e]
  }

  const CAPACITY_TEXT := "copilot capacity exhausted"
  const TIMEOUT_TEXT := "copilot upstream timeout"

  function Text(e: Err): string {
    match e
    case Plain(m) => m
    case Canceled => "context canceled"
    case DeadlineExceeded => "context deadline exceeded"
    case ErrCapacity => CAPACITY_TEXT
    case ErrTimeout => TIMEOUT_TEXT
    case ErrRetryableStart => "copilot retryable session start failure"
    case Upstream(m) => m
    case Blocked(m) => m
    case Capacity(m, c) => if m != "" then m else if c.Some? then Text(c.value) else CAPACITY_TEXT
    case Timeout(op, _) => if op == "" then TIMEOUT_TEXT else "copilot " + op + " timeout"
    case Retryable(m, c) => if c.None? then m else if m == "" then Text(c.value) else m + ": " + Text(c.value)
    case Net(m, _, _) => m
    case Wrap(p, inner) => p + ": " + Text(inner)
  }

  /** The `Is` methods, with identity of the sentinel values as the default. */
  predicate Matches(e: Err, target: Err) {
    || e == target
    || (e.Capacity? && target == ErrCapacity)
    || (e.Timeout? && target == ErrTimeout)
    || (e.Retryable? && target == ErrRetryableStart)
  }

  /** `errors.Is`. */
  predicate Is(e: Err, target: Err) { Matches(e, target) || (Unwrap(e).Some? && Is(Unwrap(e).value, target)) }

  /** `errors.As`: the first error of the chain in the wanted class. */
  function FirstUpstream(e: Err): Option<Err> {
    if e.Upstream? then Some(e) else if Unwrap(e).Some? then FirstUpstream(Unwrap(e).value) else None
  }

  predicate IsNet(e: Err) { e.Net? || e.DeadlineExceeded? }

  function FirstNet(e: Err): Option<Err> {
    if IsNet(e) then Some(e) else if Unwrap(e).Some? then FirstNet(Unwrap(e).value) else None
  }

  predicate HasBlocked(e: Err) { e.Blocked? || (Unwrap(e).Some? && HasBlocked(Unwrap(e).value)) }

  predicate IsBlocked(e: Err) {
    HasBlocked(e) || (FirstUpstream(e).Some? && UpstreamBlocked(FirstUpstream(e).value))
  }

  predicate UpstreamBlocked(e: Err) { e.Upstream? && Contains(ToLower(e.message), "blocked") }

  predicate IsCapacity(e: Err) {
    Is(e, ErrCapacity) || (FirstUpstream(e).Some? && UpstreamCapacity(FirstUpstream(e).value))
  }

  predicate UpstreamCapacity(e: Err) {
    && e.Upstream?
    && (Contains(ToLower(e.message), "too-many-messages") || Contains(ToLower(e.message), "too many messages"))
  }

  predicate IsTimeout(e: Err) {
    || Is(e, ErrTimeout) || Is(e, DeadlineExceeded)
    || (FirstNet(e).Some? && (FirstNet(e).value.Net? ==> FirstNet(e).value.timeout))
  }

  predicate IsClientCanceled(e: Err) { Is(e, Canceled) }

  // ---------- The response to a failed request ----------

  datatype Response = Response(statusCode: nat, errType: string, message: string, retryAfter: string, swallow: bool)

  function Classify(err: Option<Err>): Response {
    match err
    case None => Response(0, "", "", "", false)
    case Some(e) =>
      if IsClientCanceled(e) then Response(0, "", "", "", true)
      else if IsBlocked(e) then Response(403, "authentication_error", Text(e), "", false)
      else if IsCapacity(e) then Response(503, "server_error", Text(e), "1", false)
      else if IsTimeout(e) then Response(504, "server_error", Text(e), "", false)
      else Response(502, "server_error", Text(e), "", false)
  }

  // ---------- errors.Is over chains ----------

  lemma {:induction false} IsMeansInChain(e: Err, target: Err)
    ensures Is(e, target) <==> exists i :: 0 <= i < |Chain(e)| && Matches(Chain(e)[i], target)
  {
    if Unwrap(e).Some? {
      var inner := Unwrap(e).value;
      IsMeansInChain(inner, target);
      assert Chain(e) == [e] + Chain(inner);
      if Is(e, target) && !Matches(e, target) {
        var i :| 0 <= i < |Chain(inner)| && Matches(Chain(inner)[i], target);
        assert Chain(e)[i + 1] == Chain(inner)[i];
        assert Matches(Chain(e)[i + 1], target);
      }
      if i :| 0 <= i < |Chain(e)| && Matches(Chain(e)[i], target) {
        if i > 0 {
          assert Chain(inner)[i - 1] == Chain(e)[i];
          assert Matches(Chain(inner)[i - 1], target);
        }
      }
      if Matches(e, target) { assert Matches(Chain(e)[0], target); }
    } else {
      assert Chain(e) == [e];
      if Matches(e, target) { assert Matches(Chain(e)[0], target); }
    }
  }

  /** The sentinels that stand for themselves: found exactly when they are in the chain. */
  lemma SentinelInChain(e: Err, target: Err)
    requires target == Canceled || target == DeadlineExceeded
    ensures Is(e, target) <==> target in Chain(e)
  {
    IsMeansInChain(e, target);
  }

  /** `errors.As` finds the outermost error of its class. */
  lemma {:induction false} FirstUpstreamIsOutermost(e: Err)
    ensures match FirstUpstream(e)
      case None => forall i :: 0 <= i < |Chain(e)| ==> !Chain(e)[i].Upstream?
      case Some(u) => exists i :: 0 <= i < |Chain(e)| && Chain(e)[i] == u && u.Upstream?
                                  && forall j :: 0 <= j < i ==> !Chain(e)[j].Upstream?
  {
    if e.Upstream? {
      assert Chain(e)[0] == e;
    } else if Unwrap(e).Some? {
      var inner := Unwrap(e).value;
      FirstUpstreamIsOutermost(inner);
      assert Chain(e) == [e] + Chain(inner);
      if FirstUpstream(inner).Some? {
        var u := FirstUpstream(inner).value;
        var i :| 0 <= i < |Chain(inner)| && Chain(inner)[i] == u && forall j :: 0 <= j < i ==> !Chain(inner)[j].Upstream?;
        assert Chain(e)[i + 1] == u;
        forall j | 0 <= j < i + 1 ensures !Chain(e)[j].Upstream? {
          if j > 0 { assert Chain(e)[j] == Chain(inner)[j - 1]; }
        }
      }
    } else {
      assert Chain(e) == [e];
    }
  }

  lemma {:induction false} FirstNetIsOutermost(e: Err)
    ensures match FirstNet(e)
      case None => forall i :: 0 <= i < |Chain(e)| ==> !IsNet(Chain(e)[i])
      case Some(u) => exists i :: 0 <= i < |Chain(e)| && Chain(e)[i] == u && IsNet(u)
                                  && forall j :: 0 <= j < i ==> !IsNet(Chain(e)[j])
  {
    if IsNet(e) {
      assert Chain(e)[0] == e;
    } else if Unwrap(e).Some? {
      var inner := Unwrap(e).value;
      FirstNetIsOutermost(inner);
      assert Chain(e) == [e] + Chain(inner);
      if FirstNet(inner).Some? {
        var u := FirstNet(inner).value;
        var i :| 0 <= i < |Chain(inner)| && Chain(inner)[i] == u && forall j :: 0 <= j < i ==> !IsNet(Chain(inner)[j]);
        assert Chain(e)[i + 1] == u;
        forall j | 0 <= j < i + 1 ensures !IsNet(Chain(e)[j]) {
          if j > 0 { assert Chain(e)[j] == Chain(inner)[j - 1]; }
        }
      }
    } else {
      assert Chain(e) == [e];
    }
  }

  lemma {:induction false} BlockedInChain(e: Err)
    ensures HasBlocked(e) <==> exists i :: 0 <= i < |Chain(e)| && Chain(e)[i].Blocked?
  {
    if e.Blocked? { assert Chain(e)[0].Blocked?; }
    if Unwrap(e).Some? {
      var inner := Unwrap(e).value;
      BlockedInChain(inner);
      assert Chain(e) == [e] + Chain(inner);
      if HasBlocked(inner) {
        var i :| 0 <= i < |Chain(inner)| && Chain(inner)[i].Blocked?;
        assert Chain(e)[i + 1].Blocked?;
      }
      if i :| 0 <= i < |Chain(e)| && Chain(e)[i].Blocked? {
        if i > 0 { assert Chain(inner)[i - 1].Blocked?; }
      }
    } else {
      assert Chain(e) == [e];
    }
  }

  // ---------- Classes of chains ----------

  /** The outermost upstream error of the chain is `u`. */
  ghost predicate OutermostUpstream(chain: seq<Err>, u: Err) {
    exists i :: 0 <= i < |chain| && chain[i] == u && u.Upstream? && forall j :: 0 <= j < i ==> !chain[j].Upstream?
  }

  ghost predicate OutermostNet(chain: seq<Err>, u: Err) {
    exists i :: 0 <= i < |chain| && chain[i] == u && IsNet(u) && forall j :: 0 <= j < i ==> !IsNet(chain[j])
  }

  ghost predicate BlockedChain(chain: seq<Err>) {
    || (exists i :: 0 <= i < |chain| && chain[i].Blocked?)
    || (exists u: Err :: OutermostUpstream(chain, u) && UpstreamBlocked(u))
  }

  ghost predicate CapacityChain(chain: seq<Err>) {
    || (exists i :: 0 <= i < |chain| && (chain[i].Capacity? || chain[i] == ErrCapacity))
    || (exists u: Err :: OutermostUpstream(chain, u) && UpstreamCapacity(u))
  }

  ghost predicate TimeoutChain(chain: seq<Err>) {
    || (exists i :: 0 <= i < |chain| && (chain[i].Timeout? || chain[i] == ErrTimeout))
    || DeadlineExceeded in chain
    || (exists u: Err :: OutermostNet(chain, u) && u.Net? && u.timeout)
  }

  lemma UniqueUpstream(chain: seq<Err>, u: Err, v: Err)
    requires OutermostUpstream(chain, u) && OutermostUpstream(chain, v)
    ensures u == v
  {
    var i :| 0 <= i < |chain| && chain[i] == u && u.Upstream? && forall j :: 0 <= j < i ==> !chain[j].Upstream?;
    var k :| 0 <= k < |chain| && chain[k] == v && v.Upstream? && forall j :: 0 <= j < k ==> !chain[j].Upstream?;
  }

  lemma UniqueNet(chain: seq<Err>, u: Err, v: Err)
    requires OutermostNet(chain, u) && OutermostNet(chain, v)
    ensures u == v
  {
    var i :| 0 <= i < |chain| && chain[i] == u && IsNet(u) && forall j :: 0 <= j < i ==> !IsNet(chain[j]);
    var k :| 0 <= k < |chain| && chain[k] == v && IsNet(v) && forall j :: 0 <= j < k ==> !IsNet(chain[j]);
  }

  lemma UpstreamByChain(e: Err)
    ensures forall u: Err :: OutermostUpstream(Chain(e), u) <==> FirstUpstream(e) == Some(u)
  {
    FirstUpstreamIsOutermost(e);
    forall u: Err ensures OutermostUpstream(Chain(e), u) <==> FirstUpstream(e) == Some(u) {
      if OutermostUpstream(Chain(e), u) && FirstUpstream(e).Some? { UniqueUpstream(Chain(e), u, FirstUpstream(e).value); }
    }
  }

  lemma NetByChain(e: Err)
    ensures forall u: Err :: OutermostNet(Chain(e), u) <==> FirstNet(e) == Some(u)
  {
    FirstNetIsOutermost(e);
    forall u: Err ensures OutermostNet(Chain(e), u) <==> FirstNet(e) == Some(u) {
      if OutermostNet(Chain(e), u) && FirstNet(e).Some? { UniqueNet(Chain(e), u, FirstNet(e).value); }
    }
  }

  /** The program's predicates, which walk an error one `Unwrap` at a time, see the chain as a whole. */
  lemma PredicatesByChain(e: Err)
    ensures IsClientCanceled(e) <==> Canceled in Chain(e)
    ensures IsBlocked(e) <==> BlockedChain(Chain(e))
    ensures IsCapacity(e) <==> CapacityChain(Chain(e))
    ensures IsTimeout(e) <==> TimeoutChain(Chain(e))
  {
    hide Is, Chain, FirstUpstream, FirstNet, HasBlocked, UpstreamBlocked, UpstreamCapacity, OutermostUpstream;
    hide OutermostNet;
    SentinelInChain(e, Canceled);
    SentinelInChain(e, DeadlineExceeded);
    UpstreamByChain(e);
    NetByChain(e);
    BlockedInChain(e);
    IsMeansInChain(e, ErrCapacity);
    IsMeansInChain(e, ErrTimeout);
    assert FirstNet(e) == Some(DeadlineExceeded) ==> DeadlineExceeded in Chain(e) by { NetIsInChain(e); }
    assert FirstNet(e).Some? ==> IsNet(FirstNet(e).value) by { NetIsInChain(e); }
  }

  lemma NetIsInChain(e: Err)
    ensures FirstNet(e).Some? ==> FirstNet(e).value in Chain(e) && IsNet(FirstNet(e).value)
  {
    FirstNetIsOutermost(e);
  }

  // ---------- Wrapping ----------

  /** `err` under layers of `%w`, the last prefix outermost. */
  function Layers(prefixes: seq<string>, err: Err): Err {
    if prefixes == [] then err else Layers(prefixes[1..], Wrap(prefixes[0], err))
  }

  /** One layer of `%w` is looked through by every search along the chain. */
  lemma LayerIsTransparent(prefix: string, e: Err)
    ensures FirstUpstream(Wrap(prefix, e)) == FirstUpstream(e) && FirstNet(Wrap(prefix, e)) == FirstNet(e)
    ensures HasBlocked(Wrap(prefix, e)) == HasBlocked(e)
    ensures forall target: Err :: !target.Wrap? ==> (Is(Wrap(prefix, e), target) <==> Is(e, target))
  {
  }

  lemma LayerKeepsClass(prefix: string, e: Err)
    ensures Classify(Some(Wrap(prefix, e))).(message := "") == Classify(Some(e)).(message := "")
    ensures IsBlocked(Wrap(prefix, e)) <==> IsBlocked(e)
  {
    hide UpstreamBlocked, UpstreamCapacity, Is, FirstUpstream, FirstNet, HasBlocked, Text;
    LayerIsTransparent(prefix, e);
  }

  /** Layers of `%w`, however many, change no decision, only the text. */
  lemma {:induction false} WrappingKeepsClass(prefixes: seq<string>, e: Err)
    ensures var outer := Classify(Some(Layers(prefixes, e))); var inner := Classify(Some(e));
      && outer.(message := "") == inner.(message := "")
      && (outer.swallow || outer.message == Text(Layers(prefixes, e)))
    ensures forall target: Err :: !target.Wrap? ==> (Is(Layers(prefixes, e), target) <==> Is(e, target))
    ensures IsBlocked(Layers(prefixes, e)) <==> IsBlocked(e)
    decreases |prefixes|
  {
    hide Is, IsBlocked, IsCapacity, IsTimeout, Text;
    if prefixes != [] {
      LayerIsTransparent(prefixes[0], e);
      LayerKeepsClass(prefixes[0], e);
      WrappingKeepsClass(prefixes[1..], Wrap(prefixes[0], e));
    }
  }

  /** The layers in front of the message, the outermost first. */
  function Prefix(prefixes: seq<string>): string {
    if prefixes == [] then "" else Prefix(prefixes[1..]) + (prefixes[0] + ": ")
  }

  lemma {:induction false} LayersText(prefixes: seq<string>, e: Err)
    ensures Text(Layers(prefixes, e)) == Prefix(prefixes) + Text(e)
    decreases |prefixes|
  {
    if prefixes != [] {
      LayersText(prefixes[1..], Wrap(prefixes[0], e));
      assert Prefix(prefixes[1..]) + (prefixes[0] + ": " + Text(e)) == Prefix(prefixes) + Text(e);
    }
  }

  /** Marking a start failure as retryable does not change how it is reported either. */
  lemma RetryableKeepsClass(message: string, e: Err)
    ensures Classify(Some(Retryable(message, Some(e)))).(message := "") == Classify(Some(e)).(message := "")
    ensures Text(Retryable(message, Some(e))) == (if message == "" then "" else message + ": ") + Text(e)
  {
    var outer := Retryable(message, Some(e));
    assert FirstUpstream(outer) == FirstUpstream(e) && FirstNet(outer) == FirstNet(e) && HasBlocked(outer) == HasBlocked(e);
    assert Is(outer, Canceled) == Is(e, Canceled) && Is(outer, ErrCapacity) == Is(e, ErrCapacity);
    assert Is(outer, ErrTimeout) == Is(e, ErrTimeout) && Is(outer, DeadlineExceeded) == Is(e, DeadlineExceeded);
    hide UpstreamBlocked, UpstreamCapacity, Is, FirstUpstream, FirstNet, HasBlocked, Text;
  }

  // ---------- Priorities ----------

  /** A cancelled context anywhere in the chain silences the error, and nothing else does. */
  lemma CancelWins(e: Err)
    ensures Classify(Some(e)).swallow <==> Canceled in Chain(e)
  {
    SentinelInChain(e, Canceled);
  }

  /**
   What reaches the client when the semaphore gives up: an expired deadline is a 503 that
   asks to retry, not a timeout, under any layers; a cancelled request is not answered.
   */
  lemma AcquireGivesUp(prefixes: seq<string>, cause: Err)
    requires cause == DeadlineExceeded || cause == Canceled
    ensures var e := Layers(prefixes, Capacity("session capacity exhausted", Some(cause)));
      var r := Classify(Some(e));
      if cause == Canceled then r == Response(0, "", "", "", true)
      else r == Response(503, "server_error", Text(e), "1", false)
  {
    WrappingKeepsClass(prefixes, Capacity("session capacity exhausted", Some(cause)));
    var e := Capacity("session capacity exhausted", Some(cause));
    assert Unwrap(e) == Some(cause) && Unwrap(cause) == None;
  }

  /** A capacity error is a 503 with Retry-After exactly when its cause is neither cancellation nor a block. */
  lemma CapacityIsRetried(message: string, cause: Option<Err>)
    ensures var r := Classify(Some(Capacity(message, cause)));
      (r.statusCode == 503 && r.retryAfter == "1") <==>
        (cause.Some? ==> Canceled !in Chain(cause.value) && !IsBlocked(cause.value))
    ensures var r := Classify(Some(Capacity(message, cause)));
      !r.swallow ==> r.message == if message != "" then message
                                  else if cause.Some? then Text(cause.value)
                                  else "copilot capacity exhausted"
  {
    if cause.Some? { SentinelInChain(cause.value, Canceled); }
  }

  /** A timeout is a 504 exactly when nothing it wraps counts as cancelled, blocked or out of capacity. */
  lemma TimeoutYields(operation: string, cause: Option<Err>)
    ensures var r := Classify(Some(Timeout(operation, cause)));
      && (r.statusCode == 504 <==>
            (cause.Some? ==> Canceled !in Chain(cause.value) && !IsBlocked(cause.value) && !IsCapacity(cause.value)))
      && (!r.swallow ==>
            r.message == if operation == "" then "copilot upstream timeout" else "copilot " + operation + " timeout")
  {
    if cause.Some? { SentinelInChain(cause.value, Canceled); }
  }

  /** A network error is asked for its own timeout before what it wraps is, and hides nothing else. */
  lemma NetDecidesFirst(message: string, timeout: bool, cause: Option<Err>)
    ensures var r := Classify(Some(Net(message, timeout, cause)));
      && r.statusCode == (if cause.Some? && Canceled in Chain(cause.value) then 0
                          else if cause.Some? && IsBlocked(cause.value) then 403
                          else if cause.Some? && IsCapacity(cause.value) then 503
                          else if timeout || (cause.Some? && (Is(cause.value, ErrTimeout) || Is(cause.value, DeadlineExceeded)))
                          then 504
                          else 502)
      && (!r.swallow ==> r.message == message)
  {
    if cause.Some? { SentinelInChain(cause.value, Canceled); }
    hide UpstreamBlocked, UpstreamCapacity;
  }

  /** An expired deadline under any layers, with no capacity error around it, is a 504. */
  lemma DeadlineIsTimeout(prefixes: seq<string>)
    ensures Classify(Some(Layers(prefixes, DeadlineExceeded))).statusCode == 504
  {
    WrappingKeepsClass(prefixes, DeadlineExceeded);
  }

  /**
   The response as a function of what is somewhere in the chain: cancellation before block,
   block before capacity, capacity before timeout. Retry-After goes with 503 alone.
   */
  lemma ResponseByChain(e: Err)
    ensures var r := Classify(Some(e)); var chain := Chain(e);
      && r.statusCode == (if Canceled in chain then 0
                          else if BlockedChain(chain) then 403
                          else if CapacityChain(chain) then 503
                          else if TimeoutChain(chain) then 504
                          else 502)
      && r.retryAfter == (if r.statusCode == 503 then "1" else "")
      && r.errType == (if r.statusCode == 0 then "" else if r.statusCode == 403 then "authentication_error" else "server_error")
      && r.message == (if r.statusCode == 0 then "" else Text(e))
      && (r.swallow <==> Canceled in chain)
  {
    hide IsBlocked, IsCapacity, IsTimeout, IsClientCanceled, BlockedChain, CapacityChain, TimeoutChain, Text;
    PredicatesByChain(e);
  }
}
