/** The failover rules of the multi-provider client, stated as functions of what each
    provider attempt does. `RunFrom` follows the attempt loop step by step; the lemmas
    below say what a whole call returns, throws and records. */
module Failover {
  import opened UsenetTypes

  /** A non-cancellation exception raised by a provider attempt. */
  datatype Fault = Fault(message: string)

  /** What one provider attempt does: answer, fail, or throw a cancellation exception. */
  datatype Attempt = Answered(response: Response) | Faulted(fault: Fault) | Cancelled

  /** What a call throws: a provider's captured exception, the plain exception carrying
      NoProvidersMessage, or a cancellation exception. */
  datatype Error = ProviderFault(fault: Fault) | NoProvidersConfigured | OperationCanceled

  const NoProvidersMessage: string := "There are no usenet providers configured."

  /** The end of a call: the response returned and the position, in the ordered list,
      of the provider that gave it; or the exception thrown. */
  datatype Outcome = Returned(response: Response, provider: nat) | Threw(error: Error)

  /** A whole call: its outcome, the usage events it recorded, and the position at which
      the loop stopped (the length of the list when it ran out of providers). */
  datatype Run = Run(outcome: Outcome, tracked: seq<UsageEvent>, stop: nat)

  /** The usage event recorded when `p` gives the terminal response `r` to operation `op`:
      bytes are the payload stream's length for body and article responses, absent otherwise. */
  function UsageFor(p: ProviderClient, op: OperationType, r: Response): UsageEvent {
    UsageEvent(p.host, p.providerType, Some(op), r.streamLength)
  }

  /** The loop moves past position i: no cancellation was requested before the attempt,
      and the provider either failed, or answered "no such article" while not last. */
  predicate PassedOver(ordered: seq<ProviderClient>, invoke: (nat, ProviderClient) -> Attempt,
                       cancelledAt: nat -> bool, i: nat)
    requires i < |ordered|
  {
    && !cancelledAt(i)
    && match invoke(i, ordered[i])
       case Faulted(_) => true
       case Answered(r) => i < |ordered| - 1 && r.kind == NoArticleWithThatMessageId
       case Cancelled => false
  }

  /** The attempt loop from position i on, with `last` the most recently captured fault.
      `invoke(i, p)` is what attempt i against provider p does; `cancelledAt(i)` says whether
      cancellation has been requested when the check before attempt i runs. */
  function RunFrom(ordered: seq<ProviderClient>, invoke: (nat, ProviderClient) -> Attempt,
                   cancelledAt: nat -> bool, op: OperationType, i: nat, last: Option<Fault>): (r: Run)
    requires i <= |ordered|
    decreases |ordered| - i
    ensures i <= r.stop <= |ordered|
    ensures r.outcome.Returned? ==> r.outcome.provider == r.stop < |ordered| && |r.tracked| == 1
    ensures !r.outcome.Returned? ==> r.tracked == []
  {
    if i == |ordered| then
      Run(Threw(if last.Some? then ProviderFault(last.value) else NoProvidersConfigured), [], i)
    else if cancelledAt(i) then
      Run(Threw(OperationCanceled), [], i)
    else
      match invoke(i, ordered[i])
      case Cancelled => Run(Threw(OperationCanceled), [], i)
      case Faulted(f) => RunFrom(ordered, invoke, cancelledAt, op, i + 1, Some(f))
      case Answered(r) =>
        if i < |ordered| - 1 && r.kind == NoArticleWithThatMessageId then
          RunFrom(ordered, invoke, cancelledAt, op, i + 1, last)
        else
          Run(Returned(r, i), [UsageFor(ordered[i], op, r)], i)
  }

  /** A whole call over the ordered provider list: it stops within the list, and it
      records one usage event when it returns an answer, of a provider in the list, and
      none when it throws. */
  function FailoverRun(ordered: seq<ProviderClient>, invoke: (nat, ProviderClient) -> Attempt,
                    cancelledAt: nat -> bool, op: OperationType): (r: Run)
    ensures r.stop <= |ordered|
    ensures r.outcome.Returned? ==> r.outcome.provider < |ordered| && |r.tracked| == 1
    ensures !r.outcome.Returned? ==> r.tracked == []
  {
    RunFrom(ordered, invoke, cancelledAt, op, 0, None)
  }

  /** The shape of every run from position i: it passes over a prefix, stops at the first
      position it does not pass over, and what it returns, throws and records is decided
      there. */
  lemma {:induction false} RunFromShape(ordered: seq<ProviderClient>, invoke: (nat, ProviderClient) -> Attempt,
                                        cancelledAt: nat -> bool, op: OperationType, i: nat, last: Option<Fault>)
    requires i <= |ordered|
    decreases |ordered| - i
    ensures var r := RunFrom(ordered, invoke, cancelledAt, op, i, last);
      && i <= r.stop <= |ordered|
      && (forall j :: i <= j < r.stop ==> PassedOver(ordered, invoke, cancelledAt, j))
      && (r.stop < |ordered| ==> !PassedOver(ordered, invoke, cancelledAt, r.stop))
      && (r.outcome.Returned? ==>
            && r.stop < |ordered|
            && !cancelledAt(r.stop)
            && invoke(r.stop, ordered[r.stop]) == Answered(r.outcome.response)
            && r.outcome.provider == r.stop
            && r.tracked == [UsageFor(ordered[r.stop], op, r.outcome.response)])
      && (!r.outcome.Returned? ==> r.tracked == [])
      && (r.stop < |ordered| && !r.outcome.Returned? ==>
            && r.outcome == Threw(OperationCanceled)
            && (cancelledAt(r.stop) || invoke(r.stop, ordered[r.stop]) == Cancelled))
      && (r.stop == |ordered| && i < |ordered| ==>
            && invoke(|ordered| - 1, ordered[|ordered| - 1]).Faulted?
            && r.outcome == Threw(ProviderFault(invoke(|ordered| - 1, ordered[|ordered| - 1]).fault)))
      && (i == |ordered| ==>
            r.outcome == Threw(if last.Some? then ProviderFault(last.value) else NoProvidersConfigured))
  {
    if i < |ordered| && !cancelledAt(i) {
      match invoke(i, ordered[i])
      case Cancelled =>
      case Faulted(f) =>
        RunFromShape(ordered, invoke, cancelledAt, op, i + 1, Some(f));
      case Answered(r) =>
        if i < |ordered| - 1 && r.kind == NoArticleWithThatMessageId {
          RunFromShape(ordered, invoke, cancelledAt, op, i + 1, last);
        }
    }
  }

  /** A "no such article" answer from a provider that is not last never ends the call:
      the loop goes on to the next provider, and nothing is returned or recorded for it. */
  lemma SoftMissMovesOn(ordered: seq<ProviderClient>, invoke: (nat, ProviderClient) -> Attempt,
                        cancelledAt: nat -> bool, op: OperationType, j: nat)
    requires j < |ordered| - 1
    requires !cancelledAt(j)
    requires invoke(j, ordered[j]).Answered? && invoke(j, ordered[j]).response.kind == NoArticleWithThatMessageId
    ensures var r := FailoverRun(ordered, invoke, cancelledAt, op);
      && r.stop != j
      && (r.outcome.Returned? ==> r.outcome.provider != j)
  {
    RunFromShape(ordered, invoke, cancelledAt, op, 0, None);
  }

  /** Once every earlier provider has been passed over, an answer from provider k that is
      not a soft miss (or any answer, when k is last, "no such article" included) is
      returned unchanged, with exactly one usage event for k. */
  lemma DecisiveAnswerIsReturned(ordered: seq<ProviderClient>, invoke: (nat, ProviderClient) -> Attempt,
                                 cancelledAt: nat -> bool, op: OperationType, k: nat)
    requires k < |ordered|
    requires forall j :: 0 <= j < k ==> PassedOver(ordered, invoke, cancelledAt, j)
    requires !cancelledAt(k)
    requires invoke(k, ordered[k]).Answered?
    requires k == |ordered| - 1 || invoke(k, ordered[k]).response.kind != NoArticleWithThatMessageId
    ensures var r := FailoverRun(ordered, invoke, cancelledAt, op);
      && r.outcome == Returned(invoke(k, ordered[k]).response, k)
      && r.tracked == [UsageFor(ordered[k], op, invoke(k, ordered[k]).response)]
  {
    RunFromShape(ordered, invoke, cancelledAt, op, 0, None);
    assert !PassedOver(ordered, invoke, cancelledAt, k);
  }

  /** A call records a usage event exactly when it returns a response, and then exactly
      one: for the provider that gave the response, with the call's operation type and the
      response's payload length. Failed, cancelled and soft-missed attempts record nothing. */
  lemma OneUsageEventPerReturn(ordered: seq<ProviderClient>, invoke: (nat, ProviderClient) -> Attempt,
                               cancelledAt: nat -> bool, op: OperationType)
    ensures var r := FailoverRun(ordered, invoke, cancelledAt, op);
      && (r.outcome.Returned? <==> |r.tracked| == 1)
      && (r.outcome.Returned? ==>
            && r.outcome.provider < |ordered|
            && invoke(r.outcome.provider, ordered[r.outcome.provider]) == Answered(r.outcome.response)
            && r.tracked[0].providerHost == ordered[r.outcome.provider].host
            && r.tracked[0].providerType == ordered[r.outcome.provider].providerType
            && r.tracked[0].operationType == Some(op)
            && r.tracked[0].bytesTransferred == r.outcome.response.streamLength
            && (forall j :: 0 <= j < r.outcome.provider ==> PassedOver(ordered, invoke, cancelledAt, j)))
  {
    RunFromShape(ordered, invoke, cancelledAt, op, 0, None);
  }

  /** The attempts carry a payload stream exactly when the operation is a body or an
      article operation: the operation fixes the response type the provider returns. */
  predicate PayloadFollowsOperation(ordered: seq<ProviderClient>, invoke: (nat, ProviderClient) -> Attempt,
                                    op: OperationType)
  {
    forall i :: 0 <= i < |ordered| && invoke(i, ordered[i]).Answered? ==>
      (invoke(i, ordered[i]).response.streamLength.Some? <==> op == BODY || op == ARTICLE)
  }

  /** Under that condition, the recorded event has a byte count exactly for body and
      article operations. */
  lemma BytesOnlyForPayloadOperations(ordered: seq<ProviderClient>, invoke: (nat, ProviderClient) -> Attempt,
                                      cancelledAt: nat -> bool, op: OperationType)
    requires PayloadFollowsOperation(ordered, invoke, op)
    ensures var r := FailoverRun(ordered, invoke, cancelledAt, op);
      forall e :: e in r.tracked ==> (e.bytesTransferred.Some? <==> op == BODY || op == ARTICLE)
  {
    RunFromShape(ordered, invoke, cancelledAt, op, 0, None);
  }

  /** When every provider is passed over, the call throws the exception captured from the
      last provider; conversely, a provider exception escapes only in that case. */
  lemma ExhaustedRethrowsLastFault(ordered: seq<ProviderClient>, invoke: (nat, ProviderClient) -> Attempt,
                                   cancelledAt: nat -> bool, op: OperationType)
    ensures var r := FailoverRun(ordered, invoke, cancelledAt, op);
      (r.outcome.Threw? && r.outcome.error.ProviderFault?) <==>
        (|ordered| > 0 && forall j :: 0 <= j < |ordered| ==> PassedOver(ordered, invoke, cancelledAt, j))
    ensures var r := FailoverRun(ordered, invoke, cancelledAt, op);
      r.outcome.Threw? && r.outcome.error.ProviderFault? ==>
        && invoke(|ordered| - 1, ordered[|ordered| - 1]) == Faulted(r.outcome.error.fault)
        && r.tracked == []
  {
    RunFromShape(ordered, invoke, cancelledAt, op, 0, None);
  }

  /** The distinct "no providers configured" exception is thrown exactly when the ordered
      list is empty, and an empty list never yields a response or a usage event. */
  lemma NoProvidersIffEmpty(ordered: seq<ProviderClient>, invoke: (nat, ProviderClient) -> Attempt,
                            cancelledAt: nat -> bool, op: OperationType)
    ensures var r := FailoverRun(ordered, invoke, cancelledAt, op);
      && (r.outcome == Threw(NoProvidersConfigured) <==> |ordered| == 0)
      && (|ordered| == 0 ==> r.tracked == [])
  {
    RunFromShape(ordered, invoke, cancelledAt, op, 0, None);
  }

  /** A cancellation, requested before an attempt or thrown by one, ends the call at that
      provider: it is rethrown, nothing is recorded, and no later provider matters. */
  lemma CancellationPropagatesAtOnce(ordered: seq<ProviderClient>, invoke: (nat, ProviderClient) -> Attempt,
                                     cancelledAt: nat -> bool, op: OperationType, k: nat)
    requires k < |ordered|
    requires forall j :: 0 <= j < k ==> PassedOver(ordered, invoke, cancelledAt, j)
    requires cancelledAt(k) || invoke(k, ordered[k]) == Cancelled
    ensures var r := FailoverRun(ordered, invoke, cancelledAt, op);
      r.outcome == Threw(OperationCanceled) && r.tracked == [] && r.stop == k
  {
    RunFromShape(ordered, invoke, cancelledAt, op, 0, None);
    assert !PassedOver(ordered, invoke, cancelledAt, k);
  }

  /** Providers are tried in list order and the loop never looks past where it stops: two
      environments that agree on every attempt up to and including the stopping position
      give the same run. */
  lemma {:induction false} UntriedProvidersDoNotMatter(ordered: seq<ProviderClient>,
                                                       invoke: (nat, ProviderClient) -> Attempt, invoke': (nat, ProviderClient) -> Attempt,
                                                       cancelledAt: nat -> bool, cancelledAt': nat -> bool,
                                                       op: OperationType, i: nat, last: Option<Fault>)
    requires i <= |ordered|
    requires var r := RunFrom(ordered, invoke, cancelledAt, op, i, last);
      forall j :: i <= j <= r.stop && j < |ordered| ==>
        cancelledAt'(j) == cancelledAt(j) && invoke'(j, ordered[j]) == invoke(j, ordered[j])
    ensures RunFrom(ordered, invoke', cancelledAt', op, i, last) == RunFrom(ordered, invoke, cancelledAt, op, i, last)
    decreases |ordered| - i
  {
    RunFromShape(ordered, invoke, cancelledAt, op, i, last);
    if i < |ordered| && !cancelledAt(i) {
      match invoke(i, ordered[i])
      case Cancelled =>
      case Faulted(f) =>
        UntriedProvidersDoNotMatter(ordered, invoke, invoke', cancelledAt, cancelledAt', op, i + 1, Some(f));
      case Answered(r) =>
        if i < |ordered| - 1 && r.kind == NoArticleWithThatMessageId {
          UntriedProvidersDoNotMatter(ordered, invoke, invoke', cancelledAt, cancelledAt', op, i + 1, last);
        }
    }
  }

  /** Forwarding by the callback overloads: of what a provider reports through the
      wrapped callback, only `Retrieved` reaches the caller. */
  function ForwardRetrieved(reported: seq<ArticleBodyResult>): (forwarded: seq<ArticleBodyResult>)
    ensures forall k :: 0 <= k < |forwarded| ==> forwarded[k] == Retrieved
    ensures |forwarded| == multiset(reported)[Retrieved]
  {
    if reported == [] then []
    else
      var init := reported[..|reported| - 1];
      assert reported == init + [reported[|reported| - 1]];
      ForwardRetrieved(init) + (if reported[|reported| - 1] == Retrieved then [Retrieved] else [])
  }

  /** A list of `Retrieved` only holds as many `Retrieved` as it is long. */
  lemma {:induction false} AllRetrievedCount(s: seq<ArticleBodyResult>)
    requires forall k :: 0 <= k < |s| ==> s[k] == Retrieved
    ensures multiset(s)[Retrieved] == |s|
  {
    if s != [] {
      assert s == s[..|s| - 1] + [s[|s| - 1]];
      AllRetrievedCount(s[..|s| - 1]);
    }
  }

  /** Forwarding works report by report. */
  lemma ForwardRetrievedAppend(reported: seq<ArticleBodyResult>, x: ArticleBodyResult)
    ensures ForwardRetrieved(reported + [x]) == ForwardRetrieved(reported) + ForwardRetrieved([x])
  {
    var s := reported + [x];
    assert s[..|s| - 1] == reported && s[|s| - 1] == x;
    assert [x][..0] == [];
    assert ForwardRetrieved([x]) == (if x == Retrieved then [Retrieved] else []);
  }

  /** Forwarding one more report of a longer list. */
  lemma ForwardRetrievedPrefix(reported: seq<ArticleBodyResult>, k: nat)
    requires k < |reported|
    ensures ForwardRetrieved(reported[..k + 1]) == ForwardRetrieved(reported[..k]) + ForwardRetrieved([reported[k]])
  {
    assert reported[..k + 1] == reported[..k] + [reported[k]];
    ForwardRetrievedAppend(reported[..k], reported[k]);
  }

  /** The call ended without the payload-bearing kind the overload expects. */
  predicate NotRetrievedEnd(outcome: Outcome, expected: ResponseKind) {
    outcome.Threw? || outcome.response.kind != expected
  }

  /** Everything a callback overload delivers to the caller's callback: the forwarded
      `Retrieved` reports, then one `NotRetrieved` if the call threw or ended with another
      kind than `expected`. */
  function ReadyNotifications(reported: seq<ArticleBodyResult>, outcome: Outcome, expected: ResponseKind): (n: seq<ArticleBodyResult>)
    ensures NotRetrieved in n <==> NotRetrievedEnd(outcome, expected)
    ensures multiset(n)[Retrieved] == multiset(reported)[Retrieved]
  {
    AllRetrievedCount(ForwardRetrieved(reported));
    ForwardRetrieved(reported) + (if NotRetrievedEnd(outcome, expected) then [NotRetrieved] else [])
  }

  /** The caller hears `NotRetrieved` at most once, exactly when the call threw or ended with
      the wrong kind, and as the last notification; it hears `Retrieved` exactly as often as
      the providers reported it. */
  lemma ReadyNotificationRule(reported: seq<ArticleBodyResult>, outcome: Outcome, expected: ResponseKind)
    ensures var n := ReadyNotifications(reported, outcome, expected);
      && multiset(n)[NotRetrieved] == (if NotRetrievedEnd(outcome, expected) then 1 else 0)
      && multiset(n)[Retrieved] == multiset(reported)[Retrieved]
      && (NotRetrievedEnd(outcome, expected) ==> n[|n| - 1] == NotRetrieved)
  {
    var f := ForwardRetrieved(reported);
    assert multiset(f)[NotRetrieved] == 0;
  }
}
