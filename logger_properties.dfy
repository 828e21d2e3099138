/** Properties of whole event sequences, proved from the per-event contracts of LoggerSpec. */
module LoggerProperties {
  import opened Wrappers
  import opened Entries
  import opened Settings
  import opened Protocol
  import opened LoggerSpec

  /** The invariant holds after any sequence of events. */
  lemma {:induction false} RunKeepsInv<M>(c: Config, s: State<M>, evs: seq<Event<M>>)
    requires Inv(c, s)
    ensures Inv(c, Run(c, s, evs).final)
    decreases |evs|
  {
    if |evs| > 0 {
      RunKeepsInv(c, Step(c, s, evs[0]).next, evs[1..]);
    }
  }

  /**
   * Conservation from construction on: whatever happened, at most one timer is pending, and
   * the batches handed to the network followed by the buffer are the accepted entries.
   */
  lemma Conservation<M>(c: Config, evs: seq<Event<M>>)
    ensures var s := Run(c, Initial<M>(c).next, evs).final;
      && Flatten(s.sent) + s.buffer == s.accepted
      && s.armedTimers <= 1
  {
    RunKeepsInv(c, Initial<M>(c).next, evs);
  }

  /** Batches already sent and entries already accepted are never revised, only extended. */
  lemma {:induction false} HistoryOnlyExtends<M>(c: Config, s: State<M>, evs: seq<Event<M>>)
    ensures s.sent <= Run(c, s, evs).final.sent
    ensures s.accepted <= Run(c, s, evs).final.accepted
    decreases |evs|
  {
    if |evs| > 0 {
      var t := Step(c, s, evs[0]);
      HistoryOnlyExtends(c, t.next, evs[1..]);
    }
  }

  /**
   * Disabled is terminal and silent: after it, no event re-enables the logger, submits a
   * batch, or changes the buffer, the sent batches or the accepted entries.
   */
  lemma {:induction false} DisabledIsTerminal<M>(c: Config, s: State<M>, evs: seq<Event<M>>)
    requires s.disabled
    ensures var r := Run(c, s, evs);
      && r.final.disabled
      && r.final.buffer == s.buffer && r.final.sent == s.sent && r.final.accepted == s.accepted
      && forall i :: 0 <= i < |r.outs| ==> !r.outs[i].Submit?
    decreases |evs|
  {
    if |evs| > 0 {
      var t := Step(c, s, evs[0]);
      DisabledIsTerminal(c, t.next, evs[1..]);
      var rest := Run(c, t.next, evs[1..]);
      assert Run(c, s, evs).outs == [t.out] + rest.outs;
    }
  }

  /**
   * A rejected or failed authentication silences the logger: nothing that follows submits
   * a batch.
   */
  lemma RejectedAuthSilences<M>(c: Config, s: State<M>, o: AuthOutcome, evs: seq<Event<M>>)
    requires s.authsPending > 0
    requires !(o.AuthReply? && IsOk(o.status))
    ensures var r := Run(c, s, [AuthReplied(o)] + evs);
      r.final.disabled && forall i :: 0 <= i < |r.outs| ==> !r.outs[i].Submit?
  {
    var t := Step(c, s, AuthReplied(o));
    assert ([AuthReplied(o)] + evs)[1..] == evs;
    DisabledIsTerminal(c, t.next, evs);
  }

  /** Without a password the buffer holds fewer than bufferSize entries (or none). */
  ghost predicate BelowThreshold<M>(c: Config, s: State<M>) {
    |s.buffer| == 0 || |s.buffer| < c.bufferSize
  }

  lemma AnonymousStepBelowThreshold<M>(c: Config, s: State<M>, ev: Event<M>)
    requires Inv(c, s) && !Truthy(c.password) && BelowThreshold(c, s)
    ensures BelowThreshold(c, Step(c, s, ev).next)
  {
  }

  /** In anonymous mode every flush that is requested goes through, so the buffer stays below bufferSize. */
  lemma {:induction false} AnonymousBufferBelowThreshold<M>(c: Config, s: State<M>, evs: seq<Event<M>>)
    requires Inv(c, s) && !Truthy(c.password) && BelowThreshold(c, s)
    ensures BelowThreshold(c, Run(c, s, evs).final)
    decreases |evs|
  {
    if |evs| > 0 {
      AnonymousStepBelowThreshold(c, s, evs[0]);
      AnonymousBufferBelowThreshold(c, Step(c, s, evs[0]).next, evs[1..]);
    }
  }

  /**
   * With bufferSize 1 and no password, every log call submits exactly its own entry under
   * the header "Bearer null", and no other event submits anything.
   */
  lemma {:induction false} AnonymousUnitBatches<M>(c: Config, s: State<M>, evs: seq<Event<M>>)
    requires Inv(c, s) && !Truthy(c.password) && c.bufferSize == 1 && |s.buffer| == 0
    ensures var r := Run(c, s, evs);
      forall i :: 0 <= i < |evs| ==>
        && (r.outs[i].Submit? <==> evs[i].LogCalled?)
        && (evs[i].LogCalled? ==> r.outs[i] == Submit(Submission("Bearer null", [evs[i].entry])))
    decreases |evs|
  {
    if |evs| > 0 {
      var t := Step(c, s, evs[0]);
      AnonymousUnitBatches(c, t.next, evs[1..]);
      var r := Run(c, s, evs);
      var rest := Run(c, t.next, evs[1..]);
      assert r.outs == [t.out] + rest.outs;
      forall i | 0 <= i < |evs|
        ensures r.outs[i].Submit? <==> evs[i].LogCalled?
        ensures evs[i].LogCalled? ==> r.outs[i] == Submit(Submission("Bearer null", [evs[i].entry]))
      {
        if i > 0 {
          assert r.outs[i] == rest.outs[i - 1] && evs[i] == evs[1..][i - 1];
        }
      }
    }
  }

  /**
   * A 401 on a submission forgets the token and authenticates again; the batch it carried
   * stays in the sent history and is not put back in the buffer.
   */
  lemma UnauthorizedDropsBatch<M>(c: Config, s: State<M>)
    requires Truthy(c.password) && s.deliveriesPending > 0
    ensures var t := Step(c, s, DeliveryReplied(DeliveryReply(UNAUTHORIZED)));
      && t.next.token == None
      && t.out == Authenticate(AuthRequest(c.packageName, c.password.value, c.isNewAccount))
      && t.next.buffer == s.buffer && t.next.sent == s.sent && t.next.disabled == s.disabled
  {
  }

  /**
   * The timer callback leaves a stale handle behind when flush is skipped for want of a
   * token: the next log below the threshold then schedules no timer, and none is pending.
   */
  lemma StaleHandleBlocksTimer<M>(c: Config, s: State<M>, e: LogEntry<M>)
    requires AwaitingToken(c, s) && !s.disabled
    requires s.flushTimer && s.armedTimers == 1
    requires |s.buffer| + 1 < c.bufferSize
    ensures var r := Run(c, s, [TimerFired, LogCalled(e)]);
      && r.outs == [NoRequest, NoRequest]
      && r.final.flushTimer && r.final.armedTimers == 0
      && r.final.buffer == s.buffer + [e]
  {
    var t1 := Step(c, s, TimerFired);
    var t2 := Step(c, t1.next, LogCalled(e));
    assert [TimerFired, LogCalled(e)][1..] == [LogCalled(e)];
    assert Run(c, t1.next, [LogCalled(e)]) == Trace(t2.next, [t2.out]);
  }

  /**
   * A flush requested at the threshold while waiting for a token is skipped, and since the
   * flush path never schedules a timer, none is pending afterwards if none was before.
   */
  lemma ThresholdSkipSchedulesNothing<M>(c: Config, s: State<M>, e: LogEntry<M>)
    requires AwaitingToken(c, s) && !s.disabled
    requires s.armedTimers == 0
    requires |s.buffer| + 1 >= c.bufferSize
    ensures var t := Step(c, s, LogCalled(e));
      t.out == NoRequest && t.next.armedTimers == 0 && t.next.buffer == s.buffer + [e]
  {
  }
}
