/**
 * The RemoteLogger class: its fields are the logger's, its methods the synchronous stretches
 * of its code. Each method that reaches the network returns the request it issues; each
 * `await` continuation is a method of its own, taking the outcome it resumes with. Each
 * method is proved to perform the corresponding LoggerSpec transition, and to keep Valid().
 */
module Logger {
  import opened Wrappers
  import opened Entries
  import opened Settings
  import opened Protocol
  import LoggerSpec

  class RemoteLogger<M> {
    const packageName: string
    const password: Option<string>
    const isNewAccount: bool
    const bufferSize: int
    const flushInterval: int

    var token: Option<string>
    var buffer: seq<LogEntry<M>>
    var flushTimer: bool          // a timer handle is held
    var disabled: bool

    // What the runtime keeps track of, and the histories properties are stated over.
    ghost var armedTimers: nat
    ghost var authsPending: nat
    ghost var deliveriesPending: nat
    ghost var accepted: seq<LogEntry<M>>
    ghost var sent: seq<seq<LogEntry<M>>>

    function Cfg(): Config {
      Config(packageName, password, isNewAccount, bufferSize, flushInterval)
    }

    ghost function Snapshot(): LoggerSpec.State<M>
      reads this
    {
      LoggerSpec.State(token, buffer, flushTimer, disabled,
                       armedTimers, authsPending, deliveriesPending, accepted, sent)
    }

    ghost predicate Valid()
      reads this
    {
      LoggerSpec.Inv(Cfg(), Snapshot())
    }

    /** Applies the defaults, then starts authenticating (the request it issues is not returned). */
    constructor (options: Options)
      ensures Cfg() == Resolve(options)
      ensures Snapshot() == LoggerSpec.Initial<M>(Cfg()).next
      ensures Valid()
    {
      packageName := options.packageName;
      password := options.password;
      isNewAccount := options.isNewAccount == Some(true);
      bufferSize := OrDefault(options.bufferSize, DEFAULT_BUFFER_SIZE);
      flushInterval := OrDefault(options.flushInterval, DEFAULT_FLUSH_INTERVAL);
      token := None;
      buffer := [];
      flushTimer := false;
      disabled := false;
      armedTimers, authsPending, deliveriesPending := 0, 0, 0;
      accepted, sent := [], [];
      new;
      var _ := Connect();
    }

    /** Issues an auth request when a non-empty password is configured. */
    method Connect() returns (out: Output<M>)
      requires Valid()
      modifies this
      ensures LoggerSpec.Transition(Snapshot(), out) == LoggerSpec.Connect(Cfg(), old(Snapshot()))
      ensures Valid()
    {
      out := NoRequest;
      if !Truthy(password) {
        return;
      }
      out := Authenticate(AuthRequest(packageName, password.value, isNewAccount));
      authsPending := authsPending + 1;
    }

    /** connect resumed with the auth outcome. */
    method OnAuthResponse(outcome: AuthOutcome)
      requires Valid() && authsPending > 0
      modifies this
      ensures Snapshot() == LoggerSpec.OnAuth(Cfg(), old(Snapshot()), outcome).next
      ensures Valid()
    {
      authsPending := authsPending - 1;
      match outcome
      case AuthReply(status, t) =>
        if !IsOk(status) {
          disabled := true;
          return;
        }
        token := Some(t);
      case AuthFault =>
        disabled := true;
    }

    method Log(level: LogLevel, message: string, meta: Option<M>, timestamp: string) returns (out: Output<M>)
      requires Valid()
      modifies this
      ensures LoggerSpec.Transition(Snapshot(), out)
           == LoggerSpec.Log(Cfg(), old(Snapshot()), LogEntry(level, message, meta, timestamp))
      ensures Valid()
    {
      out := NoRequest;
      if disabled {
        return;
      }
      var entry := LogEntry(level, message, meta, timestamp);
      buffer := buffer + [entry];
      accepted := accepted + [entry];
      if |buffer| >= bufferSize {
        out := Flush();
      } else if !flushTimer {
        flushTimer := true;
        armedTimers := armedTimers + 1;
      }
    }

    method Info(message: string, meta: Option<M>, timestamp: string) returns (out: Output<M>)
      requires Valid()
      modifies this
      ensures LoggerSpec.Transition(Snapshot(), out)
           == LoggerSpec.Log(Cfg(), old(Snapshot()), LogEntry(LogLevel.Info, message, meta, timestamp))
      ensures Valid()
    {
      out := Log(LogLevel.Info, message, meta, timestamp);
    }

    method Warn(message: string, meta: Option<M>, timestamp: string) returns (out: Output<M>)
      requires Valid()
      modifies this
      ensures LoggerSpec.Transition(Snapshot(), out)
           == LoggerSpec.Log(Cfg(), old(Snapshot()), LogEntry(LogLevel.Warn, message, meta, timestamp))
      ensures Valid()
    {
      out := Log(LogLevel.Warn, message, meta, timestamp);
    }

    method Error(message: string, meta: Option<M>, timestamp: string) returns (out: Output<M>)
      requires Valid()
      modifies this
      ensures LoggerSpec.Transition(Snapshot(), out)
           == LoggerSpec.Log(Cfg(), old(Snapshot()), LogEntry(LogLevel.Error, message, meta, timestamp))
      ensures Valid()
    {
      out := Log(LogLevel.Error, message, meta, timestamp);
    }

    method Debug(message: string, meta: Option<M>, timestamp: string) returns (out: Output<M>)
      requires Valid()
      modifies this
      ensures LoggerSpec.Transition(Snapshot(), out)
           == LoggerSpec.Log(Cfg(), old(Snapshot()), LogEntry(LogLevel.Debug, message, meta, timestamp))
      ensures Valid()
    {
      out := Log(LogLevel.Debug, message, meta, timestamp);
    }

    /** The part of flush before its suspension: check the gates, drain, cancel the timer, send. */
    method Flush() returns (out: Output<M>)
      requires Valid()
      modifies this
      ensures LoggerSpec.Transition(Snapshot(), out) == LoggerSpec.Flush(Cfg(), old(Snapshot()))
      ensures Valid()
    {
      out := NoRequest;
      if disabled || |buffer| == 0 {
        return;
      }
      if !Truthy(token) && Truthy(password) {
        return;
      }
      var logsToSend := buffer;
      buffer := [];
      if flushTimer {
        flushTimer := false;
        armedTimers := if armedTimers > 0 then armedTimers - 1 else 0;
      }
      out := Submit(Submission(AuthorizationHeader(token), logsToSend));
      sent := sent + [logsToSend];
      deliveriesPending := deliveriesPending + 1;
    }

    /** The timer callback: calls flush and leaves the handle as it is. */
    method OnTimer() returns (out: Output<M>)
      requires Valid() && armedTimers > 0
      modifies this
      ensures LoggerSpec.Transition(Snapshot(), out) == LoggerSpec.OnTimer(Cfg(), old(Snapshot()))
      ensures Valid()
    {
      armedTimers := armedTimers - 1;
      out := Flush();
    }

    /** flush resumed with the outcome of its submission; a 401 starts connect again. */
    method OnDeliveryResponse(outcome: DeliveryOutcome) returns (out: Output<M>)
      requires Valid() && deliveriesPending > 0
      modifies this
      ensures LoggerSpec.Transition(Snapshot(), out)
           == LoggerSpec.OnDelivery(Cfg(), old(Snapshot()), outcome)
      ensures Valid()
    {
      deliveriesPending := deliveriesPending - 1;
      out := NoRequest;
      if outcome.DeliveryReply? && !IsOk(outcome.status) {
        if outcome.status == UNAUTHORIZED {
          token := None;
          out := Connect();
        }
      }
    }
  }

  /** A caller's view: with bufferSize 1 and no password, each log is shipped at once, alone. */
  method AnonymousClient(e: string, f: string)
  {
    var logger := new RemoteLogger<int>(Options("com.demo.app", None, None, None, Some(1), None));
    var out := logger.Info(e, None, "t0");
    assert out == Submit(Submission("Bearer null", [LogEntry(LogLevel.Info, e, None, "t0")]));
    out := logger.Warn(f, Some(123), "t1");
    assert out == Submit(Submission("Bearer null", [LogEntry(LogLevel.Warn, f, Some(123), "t1")]));
    assert logger.buffer == [];
  }

  /**
   * A caller's view: a rejected authentication disables the logger; later logs are dropped
   * and schedule no timer, so nothing more reaches the network.
   */
  method RejectedClient(e: string)
  {
    var logger := new RemoteLogger<int>(Options("com.demo.app", Some("secret"), Some(true), None, None, None));
    logger.OnAuthResponse(AuthReply(UNAUTHORIZED, ""));
    assert logger.disabled;
    var out := logger.Error(e, None, "t0");
    assert out == NoRequest && logger.buffer == [] && logger.armedTimers == 0;
  }

  /**
   * A caller's view: an authenticated logger whose submission is answered with 401 forgets
   * its token, authenticates again, and does not keep the batch.
   */
  method UnauthorizedClient(e: string)
  {
    var logger := new RemoteLogger<int>(Options("com.demo.app", Some("secret"), None, None, Some(1), None));
    logger.OnAuthResponse(AuthReply(200, "tok"));
    var out := logger.Debug(e, None, "t0");
    assert out == Submit(Submission("Bearer tok", [LogEntry(LogLevel.Debug, e, None, "t0")]));
    out := logger.OnDeliveryResponse(DeliveryReply(UNAUTHORIZED));
    assert out == Authenticate(AuthRequest("com.demo.app", "secret", false));
    assert logger.token == None && logger.buffer == [];
  }
}
