/**
 * The RemoteLogger state machine as pure transition functions. Each function is one
 * synchronous stretch of the logger's code, between the call or continuation that starts it
 * and the next suspension point; it returns the new state and the request (if any) it hands
 * to the network. Besides the logger's own fields, the state carries the bookkeeping that
 * the JavaScript runtime does for it (timers still pending, requests awaiting a response)
 * and two histories used only to state properties: the entries `log` accepted and the
 * batches handed to the network.
 */
module LoggerSpec {
  import opened Wrappers
  import opened Entries
  import opened Settings
  import opened Protocol

  datatype State<M> = State(
    // the logger's fields
    token: Option<string>,
    buffer: seq<LogEntry<M>>,
    flushTimer: bool,           // a timer handle is held
    disabled: bool,
    // the runtime's bookkeeping
    armedTimers: nat,           // timers scheduled that have neither fired nor been cancelled
    authsPending: nat,          // auth requests awaiting their outcome
    deliveriesPending: nat,     // submissions awaiting their outcome
    // histories
    accepted: seq<LogEntry<M>>, // every entry log appended, in order
    sent: seq<seq<LogEntry<M>>>)  // every batch handed to the network, in order

  datatype Transition<M> = Transition(next: State<M>, out: Output<M>)

  /** The events that drive the logger: a call to log, and the continuations the runtime resumes. */
  datatype Event<M> =
    | LogCalled(entry: LogEntry<M>)
    | TimerFired
    | AuthReplied(auth: AuthOutcome)
    | DeliveryReplied(delivery: DeliveryOutcome)

  /** All batches in order, concatenated. */
  function Flatten<T>(batches: seq<seq<T>>): seq<T>
  {
    if |batches| == 0 then [] else batches[0] + Flatten(batches[1..])
  }

  lemma {:induction false} FlattenSnoc<T>(batches: seq<seq<T>>, b: seq<T>)
    ensures Flatten(batches + [b]) == Flatten(batches) + b
  {
    if |batches| == 0 {
      assert batches + [b] == [b];
      assert Flatten([b][1..]) == [];
    } else {
      assert (batches + [b])[1..] == batches[1..] + [b];
      FlattenSnoc(batches[1..], b);
    }
  }

  /**
   * What holds in every reachable state: at most one timer is pending and only while its
   * handle is held; the batches sent followed by the buffer are exactly the entries
   * accepted (nothing lost, duplicated or reordered); and without a password the logger
   * never authenticates, holds no token and is never disabled.
   */
  ghost predicate Inv<M>(c: Config, s: State<M>) {
    && s.armedTimers <= 1
    && (s.armedTimers == 1 ==> s.flushTimer)
    && Flatten(s.sent) + s.buffer == s.accepted
    && (!Truthy(c.password) ==> s.token.None? && s.authsPending == 0 && !s.disabled)
  }

  /** flush's second gate: a password is configured but no usable token is held yet. */
  predicate AwaitingToken<M>(c: Config, s: State<M>) {
    !Truthy(s.token) && Truthy(c.password)
  }

  /** connect: authenticate when a (non-empty) password is configured, else do nothing. */
  function Connect<M>(c: Config, s: State<M>): (t: Transition<M>)
    ensures !Truthy(c.password) ==> t == Transition(s, NoRequest)
    ensures Truthy(c.password) ==>
      t.out == Authenticate(AuthRequest(c.packageName, c.password.value, c.isNewAccount))
    ensures t.next == s.(authsPending := t.next.authsPending)
    ensures t.next.authsPending == s.authsPending + (if t.out.Authenticate? then 1 else 0)
    ensures Inv(c, s) ==> Inv(c, t.next)
  {
    if !Truthy(c.password) then Transition(s, NoRequest)
    else
      Transition(s.(authsPending := s.authsPending + 1),
                 Authenticate(AuthRequest(c.packageName, c.password.value, c.isNewAccount)))
  }

  /** The state a new logger starts in, followed by the connect its constructor starts. */
  function Initial<M>(c: Config): (t: Transition<M>)
    ensures t.next.token == None && t.next.buffer == [] && !t.next.disabled && !t.next.flushTimer
    ensures t.next.accepted == [] && t.next.sent == [] && t.next.armedTimers == 0
    ensures t.next.deliveriesPending == 0
    ensures t.next.authsPending == (if Truthy(c.password) then 1 else 0)
    ensures t.out.Authenticate? <==> Truthy(c.password)
    ensures Inv(c, t.next)
  {
    Connect(c, State(None, [], false, false, 0, 0, 0, [], []))
  }

  /** connect's continuation: a non-ok status or a fault disables for good; ok stores the token. */
  function OnAuth<M>(c: Config, s: State<M>, o: AuthOutcome): (t: Transition<M>)
    ensures t.out == NoRequest
    ensures s.authsPending == 0 ==> t.next == s
    ensures s.authsPending > 0 ==> t.next.authsPending == s.authsPending - 1
    ensures s.authsPending > 0 ==>
      (t.next.disabled <==> s.disabled || !(o.AuthReply? && IsOk(o.status)))
    ensures s.authsPending > 0 && o.AuthReply? && IsOk(o.status) ==> t.next.token == Some(o.token)
    ensures !(o.AuthReply? && IsOk(o.status)) ==> t.next.token == s.token
    ensures t.next.buffer == s.buffer && t.next.flushTimer == s.flushTimer
    ensures t.next.armedTimers == s.armedTimers && t.next.deliveriesPending == s.deliveriesPending
    ensures t.next.accepted == s.accepted && t.next.sent == s.sent
    ensures Inv(c, s) ==> Inv(c, t.next)
  {
    if s.authsPending == 0 then Transition(s, NoRequest)
    else
      var s1 := s.(authsPending := s.authsPending - 1);
      match o
      case AuthReply(status, token) =>
        if !IsOk(status) then Transition(s1.(disabled := true), NoRequest)
        else Transition(s1.(token := Some(token)), NoRequest)
      case AuthFault => Transition(s1.(disabled := true), NoRequest)
  }

  /**
   * flush: unless disabled, empty, or still waiting for a token, hand the whole buffer to
   * the network as one batch, empty the buffer and cancel the pending timer.
   */
  function Flush<M>(c: Config, s: State<M>): (t: Transition<M>)
    ensures t.out.Submit? <==> !s.disabled && |s.buffer| > 0 && !AwaitingToken(c, s)
    ensures !t.out.Submit? ==> t == Transition(s, NoRequest)
    ensures t.out.Submit? ==>
      && t.out.submission == Submission(AuthorizationHeader(s.token), s.buffer)
      && t.next.buffer == [] && !t.next.flushTimer
      && t.next.sent == s.sent + [s.buffer]
      && t.next.deliveriesPending == s.deliveriesPending + 1
      && t.next.armedTimers == (if s.armedTimers > 0 && s.flushTimer then s.armedTimers - 1 else s.armedTimers)
    ensures t.next.token == s.token && t.next.disabled == s.disabled
    ensures t.next.accepted == s.accepted && t.next.authsPending == s.authsPending
    ensures t.out.Submit? && Inv(c, s) ==> t.next.armedTimers == 0
    ensures Inv(c, s) ==> Inv(c, t.next)
  {
    if s.disabled || |s.buffer| == 0 then Transition(s, NoRequest)
    else if AwaitingToken(c, s) then Transition(s, NoRequest)
    else
      var logsToSend := s.buffer;
      var cancelled := if s.flushTimer && s.armedTimers > 0 then s.armedTimers - 1 else s.armedTimers;
      FlattenSnoc(s.sent, logsToSend);
      Transition(
        s.(buffer := [], flushTimer := false, armedTimers := cancelled,
           sent := s.sent + [logsToSend], deliveriesPending := s.deliveriesPending + 1),
        Submit(Submission(AuthorizationHeader(s.token), logsToSend)))
  }

  /**
   * log: ignored once disabled; otherwise append the entry, then request a flush when the
   * buffer has reached bufferSize, or else schedule a timer unless a handle is held.
   */
  function Log<M>(c: Config, s: State<M>, e: LogEntry<M>): (t: Transition<M>)
    ensures s.disabled ==> t == Transition(s, NoRequest)
    ensures !s.disabled ==> t.next.accepted == s.accepted + [e]
    ensures !s.disabled && |s.buffer| + 1 >= c.bufferSize ==>
      t == Flush(c, s.(buffer := s.buffer + [e], accepted := s.accepted + [e]))
    ensures t.out.Submit? <==> !s.disabled && |s.buffer| + 1 >= c.bufferSize && !AwaitingToken(c, s)
    ensures t.out.Submit? ==> t.out.submission.logs == s.buffer + [e] && t.next.buffer == []
    ensures !s.disabled && !t.out.Submit? ==> t.out == NoRequest && t.next.buffer == s.buffer + [e]
    ensures !s.disabled && |s.buffer| + 1 < c.bufferSize ==>
      && t.next.flushTimer
      && t.next.armedTimers == s.armedTimers + (if s.flushTimer then 0 else 1)
    ensures !s.disabled && |s.buffer| + 1 < c.bufferSize ==>
      t.next.sent == s.sent && t.next.deliveriesPending == s.deliveriesPending
    ensures !s.disabled && |s.buffer| + 1 >= c.bufferSize ==> t.next.armedTimers <= s.armedTimers
    ensures t.next.token == s.token && t.next.disabled == s.disabled && t.next.authsPending == s.authsPending
    ensures s.sent <= t.next.sent
    ensures Inv(c, s) ==> Inv(c, t.next)
  {
    if s.disabled then Transition(s, NoRequest)
    else
      var s1 := s.(buffer := s.buffer + [e], accepted := s.accepted + [e]);
      if |s1.buffer| >= c.bufferSize then Flush(c, s1)
      else if !s1.flushTimer then
        Transition(s1.(flushTimer := true, armedTimers := s1.armedTimers + 1), NoRequest)
      else Transition(s1, NoRequest)
  }

  /**
   * The timer callback: the timer is no longer pending, and flush runs. The callback does
   * not clear the handle; only a flush that drains does.
   */
  function OnTimer<M>(c: Config, s: State<M>): (t: Transition<M>)
    ensures s.armedTimers == 0 ==> t == Transition(s, NoRequest)
    ensures s.armedTimers > 0 ==> t == Flush(c, s.(armedTimers := s.armedTimers - 1))
    ensures s.armedTimers > 0 ==> (t.next.flushTimer <==> s.flushTimer && !t.out.Submit?)
    ensures Inv(c, s) ==> Inv(c, t.next) && t.next.armedTimers == 0
  {
    if s.armedTimers == 0 then Transition(s, NoRequest)
    else Flush(c, s.(armedTimers := s.armedTimers - 1))
  }

  /**
   * flush's continuation: a 401 forgets the token and starts connect again; every other
   * outcome changes nothing. The batch is never put back.
   */
  function OnDelivery<M>(c: Config, s: State<M>, o: DeliveryOutcome): (t: Transition<M>)
    ensures s.deliveriesPending == 0 ==> t == Transition(s, NoRequest)
    ensures s.deliveriesPending > 0 && o == DeliveryReply(UNAUTHORIZED) ==>
      t == Connect(c, s.(token := None, deliveriesPending := s.deliveriesPending - 1))
    ensures s.deliveriesPending > 0 && o != DeliveryReply(UNAUTHORIZED) ==>
      t == Transition(s.(deliveriesPending := s.deliveriesPending - 1), NoRequest)
    ensures !t.out.Submit?
    ensures t.next.buffer == s.buffer && t.next.disabled == s.disabled
    ensures t.next.sent == s.sent && t.next.accepted == s.accepted
    ensures t.next.flushTimer == s.flushTimer && t.next.armedTimers == s.armedTimers
    ensures Inv(c, s) ==> Inv(c, t.next)
  {
    if s.deliveriesPending == 0 then Transition(s, NoRequest)
    else
      var s1 := s.(deliveriesPending := s.deliveriesPending - 1);
      match o
      case DeliveryReply(status) =>
        if !IsOk(status) && status == UNAUTHORIZED then Connect(c, s1.(token := None))
        else Transition(s1, NoRequest)
      case DeliveryFault => Transition(s1, NoRequest)
  }

  /** One event. */
  function Step<M>(c: Config, s: State<M>, ev: Event<M>): (t: Transition<M>)
    ensures Inv(c, s) ==> Inv(c, t.next)
    ensures s.disabled ==>
      && t.next.disabled && !t.out.Submit?
      && t.next.buffer == s.buffer && t.next.sent == s.sent && t.next.accepted == s.accepted
    ensures s.sent <= t.next.sent && s.accepted <= t.next.accepted
  {
    match ev
    case LogCalled(e) => Log(c, s, e)
    case TimerFired => OnTimer(c, s)
    case AuthReplied(o) => OnAuth(c, s, o)
    case DeliveryReplied(o) => OnDelivery(c, s, o)
  }

  /** The state a sequence of events leads to, and the request each event issued. */
  datatype Trace<M> = Trace(final: State<M>, outs: seq<Output<M>>)

  function Run<M>(c: Config, s: State<M>, evs: seq<Event<M>>): (r: Trace<M>)
    ensures |r.outs| == |evs|
    decreases |evs|
  {
    if |evs| == 0 then Trace(s, [])
    else
      var t := Step(c, s, evs[0]);
      var rest := Run(c, t.next, evs[1..]);
      Trace(rest.final, [t.out] + rest.outs)
  }
}
