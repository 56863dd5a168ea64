/** The multi-provider client: per call it orders its providers, runs the attempt loop
    against them, and queues one usage event for a terminal answer. */
module MultiProvider {
  import opened UsenetTypes
  import opened ProviderOrder
  import opened Failover

  /** The usage-tracking service as the client sees it: an append-only queue of events. */
  class UsageTracker {
    var queued: seq<UsageEvent>

    constructor ()
      ensures queued == []
    {
      queued := [];
    }

    method TrackProviderUsage(host: string, providerType: ProviderType, operationType: Option<OperationType>, bytesTransferred: Option<nat>)
      modifies this
      ensures queued == old(queued) + [UsageEvent(host, providerType, operationType, bytesTransferred)]
    {
      queued := queued + [UsageEvent(host, providerType, operationType, bytesTransferred)];
    }
  }

  /** A caller's onConnectionReadyAgain callback: it keeps what it is told, in order. */
  class ReadyCallback {
    var received: seq<ArticleBodyResult>

    constructor ()
      ensures received == []
    {
      received := [];
    }

    method Invoke(result: ArticleBodyResult)
      modifies this
      ensures received == old(received) + [result]
    {
      received := received + [result];
    }
  }

  class MultiProviderNntpClient {
    const providers: seq<ProviderClient>
    const tracker: UsageTracker
    /** The providers Dispose has been called on, in order. */
    var disposed: seq<ProviderClient>

    constructor (providers: seq<ProviderClient>, tracker: UsageTracker)
      ensures this.providers == providers && this.tracker == tracker && disposed == []
    {
      this.providers := providers;
      this.tracker := tracker;
      disposed := [];
    }

    /** The providers of this client in the order a call tries them, given each
        provider's available-connections gauge at the start of the call. */
    function Ordered(available: seq<nat>): (ordered: seq<ProviderClient>)
      requires |available| == |providers|
      ensures forall p :: p in ordered ==> p in providers && IsActive(p)
    {
      OrderedClients(providers, GetOrderedProviders(providers, available))
    }

    /** The attempt loop. `invoke(i, p)` is what attempt i against provider p does and
        `cancelledAt(i)` whether cancellation is requested before attempt i. */
    method RunFromPoolWithBackup(available: seq<nat>, invoke: (nat, ProviderClient) -> Attempt,
                                 cancelledAt: nat -> bool, op: OperationType) returns (outcome: Outcome)
      requires |available| == |providers|
      modifies tracker
      ensures var run := FailoverRun(Ordered(available), invoke, cancelledAt, op);
        outcome == run.outcome && tracker.queued == old(tracker.queued) + run.tracked
    {
      var ordered := Ordered(available);
      var lastException: Option<Fault> := None;
      for i := 0 to |ordered|
        invariant RunFrom(ordered, invoke, cancelledAt, op, i, lastException) == FailoverRun(ordered, invoke, cancelledAt, op)
        invariant tracker.queued == old(tracker.queued)
      {
        if cancelledAt(i) {
          return Threw(OperationCanceled);
        }
        var provider := ordered[i];
        var isLastProvider := i == |ordered| - 1;
        match invoke(i, provider) {
          case Cancelled =>
            return Threw(OperationCanceled);
          case Faulted(e) =>
            assert RunFrom(ordered, invoke, cancelledAt, op, i + 1, Some(e)) == RunFrom(ordered, invoke, cancelledAt, op, i, lastException);
            lastException := Some(e);
          case Answered(result) =>
            if !isLastProvider && result.kind == NoArticleWithThatMessageId {
              assert RunFrom(ordered, invoke, cancelledAt, op, i + 1, lastException) == RunFrom(ordered, invoke, cancelledAt, op, i, lastException);
              continue;
            }
            var bytesTransferred := result.streamLength;
            tracker.TrackProviderUsage(provider.host, provider.providerType, Some(op), bytesTransferred);
            return Returned(result, i);
        }
      }
      if lastException.Some? {
        return Threw(ProviderFault(lastException.value));
      }
      return Threw(NoProvidersConfigured);
    }

    /** The body and article overloads that take an onConnectionReadyAgain callback.
        `reported` is what the providers report through the wrapped callback during the
        call; only `Retrieved` is passed on, and the caller is told `NotRetrieved` if the
        call throws or ends with another kind than `expected`. */
    method RunWithReadyCallback(available: seq<nat>, invoke: (nat, ProviderClient) -> Attempt,
                                cancelledAt: nat -> bool, op: OperationType, expected: ResponseKind,
                                reported: seq<ArticleBodyResult>, onConnectionReadyAgain: ReadyCallback?)
      returns (outcome: Outcome)
      requires |available| == |providers|
      modifies tracker, onConnectionReadyAgain
      ensures var run := FailoverRun(Ordered(available), invoke, cancelledAt, op);
        outcome == run.outcome && tracker.queued == old(tracker.queued) + run.tracked
      ensures onConnectionReadyAgain != null ==>
        onConnectionReadyAgain.received == old(onConnectionReadyAgain.received) + ReadyNotifications(reported, outcome, expected)
    {
      outcome := RunFromPoolWithBackup(available, invoke, cancelledAt, op);
      DeliverReadyNotifications(reported, outcome, expected, onConnectionReadyAgain);
    }

    /** What the caller's callback hears around a call that ended with `outcome`: the
        provider reports through the wrapped callback, then `NotRetrieved` from the
        handler that checks the response kind or catches the exception. */
    static method DeliverReadyNotifications(reported: seq<ArticleBodyResult>, outcome: Outcome, expected: ResponseKind,
                                            onConnectionReadyAgain: ReadyCallback?)
      modifies onConnectionReadyAgain
      ensures onConnectionReadyAgain != null ==>
        onConnectionReadyAgain.received == old(onConnectionReadyAgain.received) + ReadyNotifications(reported, outcome, expected)
    {
      ForwardReports(reported, onConnectionReadyAgain);
      if NotRetrievedEnd(outcome, expected) && onConnectionReadyAgain != null {
        onConnectionReadyAgain.Invoke(NotRetrieved);
      }
    }

    /** Runs every provider report through the wrapped callback, in order. */
    static method ForwardReports(reported: seq<ArticleBodyResult>, onConnectionReadyAgain: ReadyCallback?)
      modifies onConnectionReadyAgain
      ensures onConnectionReadyAgain != null ==>
        onConnectionReadyAgain.received == old(onConnectionReadyAgain.received) + ForwardRetrieved(reported)
    {
      if onConnectionReadyAgain == null {
        return;
      }
      var k := 0;
      while k < |reported|
        invariant k <= |reported|
        invariant onConnectionReadyAgain.received == old(onConnectionReadyAgain.received) + ForwardRetrieved(reported[..k])
      {
        OnConnectionReadyAgain(onConnectionReadyAgain, reported[k]);
        ForwardRetrievedPrefix(reported, k);
        k := k + 1;
      }
      assert reported[..k] == reported;
    }

    /** The wrapped callback handed to the provider: it passes `Retrieved` on to the
        caller's callback, if there is one, and drops everything else. */
    static method OnConnectionReadyAgain(onConnectionReadyAgain: ReadyCallback?, articleBodyResult: ArticleBodyResult)
      modifies onConnectionReadyAgain
      ensures onConnectionReadyAgain != null ==>
        onConnectionReadyAgain.received == old(onConnectionReadyAgain.received) + ForwardRetrieved([articleBodyResult])
    {
      assert [articleBodyResult][..0] == [];
      assert ForwardRetrieved([articleBodyResult]) == (if articleBodyResult == Retrieved then [Retrieved] else []);
      if articleBodyResult == Retrieved && onConnectionReadyAgain != null {
        onConnectionReadyAgain.Invoke(Retrieved);
      }
    }

    method DecodedBodyAsync(available: seq<nat>, invoke: (nat, ProviderClient) -> Attempt, cancelledAt: nat -> bool,
                            reported: seq<ArticleBodyResult>, onConnectionReadyAgain: ReadyCallback?)
      returns (outcome: Outcome)
      requires |available| == |providers|
      modifies tracker, onConnectionReadyAgain
      ensures var run := FailoverRun(Ordered(available), invoke, cancelledAt, BODY);
        outcome == run.outcome && tracker.queued == old(tracker.queued) + run.tracked
      ensures onConnectionReadyAgain != null ==>
        onConnectionReadyAgain.received
          == old(onConnectionReadyAgain.received) + ReadyNotifications(reported, outcome, ArticleRetrievedBodyFollows)
    {
      outcome := RunWithReadyCallback(available, invoke, cancelledAt, BODY, ArticleRetrievedBodyFollows,
                                      reported, onConnectionReadyAgain);
    }

    method DecodedArticleAsync(available: seq<nat>, invoke: (nat, ProviderClient) -> Attempt, cancelledAt: nat -> bool,
                               reported: seq<ArticleBodyResult>, onConnectionReadyAgain: ReadyCallback?)
      returns (outcome: Outcome)
      requires |available| == |providers|
      modifies tracker, onConnectionReadyAgain
      ensures var run := FailoverRun(Ordered(available), invoke, cancelledAt, ARTICLE);
        outcome == run.outcome && tracker.queued == old(tracker.queued) + run.tracked
      ensures onConnectionReadyAgain != null ==>
        onConnectionReadyAgain.received
          == old(onConnectionReadyAgain.received) + ReadyNotifications(reported, outcome, ArticleRetrievedHeadAndBodyFollow)
    {
      outcome := RunWithReadyCallback(available, invoke, cancelledAt, ARTICLE, ArticleRetrievedHeadAndBodyFollow,
                                      reported, onConnectionReadyAgain);
    }

    /** Disposes every provider, disabled ones included, in configured order. */
    method Dispose()
      modifies this
      ensures disposed == old(disposed) + providers
    {
      for k := 0 to |providers|
        invariant disposed == old(disposed) + providers[..k]
      {
        assert providers[..k + 1] == providers[..k] + [providers[k]];
        disposed := disposed + [providers[k]];
      }
      assert providers[..|providers|] == providers;
    }
  }
}
