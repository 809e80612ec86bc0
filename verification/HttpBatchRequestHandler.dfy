/** A batch of transfers and the context of one request as the objects they are: lists changed in place
    by loops, and the completion that happens once. */
module HttpBatchRequestHandlerObject {
  import opened Wrappers
  import opened Requests
  import opened ManagerSteps
  import opened ManagerConservation
  import opened ManagerCancel

  // ----- What the loops of a batch compute

  /** The handlers of the contexts whose easy handle could be created, and the other contexts. */
  function Started(cs: seq<Context>, ok: seq<bool>): seq<Handler>
    requires |ok| == |cs|
  {
    if cs == [] then []
    else (if ok[0] then [Handler(Some(cs[0]), false, false, true)] else []) + Started(cs[1..], ok[1..])
  }

  function Refused(cs: seq<Context>, ok: seq<bool>): seq<Context>
    requires |ok| == |cs|
  {
    if cs == [] then [] else (if ok[0] then [] else [cs[0]]) + Refused(cs[1..], ok[1..])
  }

  /** Each context is started or refused, never both. */
  lemma {:induction false} StartPartitions(cs: seq<Context>, ok: seq<bool>, x: Context)
    requires |ok| == |cs|
    ensures InHandlers(Started(cs, ok), x) + InList(Refused(cs, ok), x) == InList(cs, x)
  {
    if cs == [] {
    } else {
      var hs, rs := Started(cs[1..], ok[1..]), Refused(cs[1..], ok[1..]);
      StartPartitions(cs[1..], ok[1..], x);
      HeadIn(cs, x);
      if ok[0] {
        var h := Handler(Some(cs[0]), false, false, true);
        HandlersSplit([h], hs, x);
        assert [h][1..] == [] && InHandlers([h], x) == Is(cs[0], x);
        assert [] + rs == rs;
      } else {
        ListsIn([cs[0]], rs, x);
        assert [] + hs == hs;
      }
    }
  }

  /** One turn of the constructor's loop is the build step of the transition system. */
  lemma BuildStepStarts(s: State, easyOk: bool)
    requires WorkerEnabled(s, BuildOne(easyOk))
    ensures var c, b, ok := s.work.pc.toBuild[0], s.work.pc.batch, s.work.pc.batch.multi && easyOk;
      var built := s.work.(pc := Building(s.work.pc.toBuild[1..], b.(handlers := b.handlers + Started([c], [ok]))));
      DoBuild(s, easyOk) == if Refused([c], [ok]) == [] then s.(work := built) else Finish(s, built, c, 0)
  {
    var c, b, ok := s.work.pc.toBuild[0], s.work.pc.batch, s.work.pc.batch.multi && easyOk;
    assert [c][1..] == [] && [ok][1..] == [];
    assert Refused([], []) == [] && Started([], []) == [];
    if ok {
      assert Refused([c], [ok]) == [];
      assert Started([c], [ok]) == [Handler(Some(c), false, false, true)];
    } else {
      assert Refused([c], [ok]) == [c];
      assert Started([c], [ok]) == [] && b.handlers + [] == b.handlers;
    }
  }

  // ----- libcurl's messages

  /** libcurl has finished the transfer of handler `h`; `now` is the clock when it is told. */
  datatype Message = Message(h: nat, curlError: bool, status: int, now: nat)

  predicate Addressed(b: Batch, m: Message) {
    m.h < |b.handlers| && b.handlers[m.h].ctx.Some? && b.handlers[m.h].ctx.value.req.Some?
  }

  /** At most one message for each handler that has its context. */
  predicate Messages(b: Batch, ms: seq<Message>) {
    && (forall i :: 0 <= i < |ms| ==> Addressed(b, ms[i]))
    && (forall i, j :: 0 <= i < j < |ms| ==> ms[i].h != ms[j].h)
  }

  predicate Retries(b: Batch, m: Message)
    requires Addressed(b, m)
  {
    var h := b.handlers[m.h];
    ShouldRetry(h.ctx.value.req.value, h.ctx.value.attempt + 1, m.curlError, m.status, h.hasChunk)
  }

  function DeliveryOf(b: Batch, m: Message): Delivery
    requires Addressed(b, m)
  {
    var n := b.handlers[m.h].ctx.value.attempt + 1;
    if Retries(b, m) then Retry(n) else Final(n)
  }

  function AfterMessage(b: Batch, m: Message): (r: Batch)
    requires Addressed(b, m)
    ensures |r.handlers| == |b.handlers| && forall h :: 0 <= h < |b.handlers| && h != m.h ==> r.handlers[h] == b.handlers[h]
  {
    var handler := b.handlers[m.h];
    var c := handler.ctx.value.(attempt := handler.ctx.value.attempt + 1);
    if Retries(b, m) then
      b.(handlers := b.handlers[m.h := handler.(ctx := None, called := true, inMulti := false)],
         failed := b.failed + [c.(start := m.now)])
    else b.(handlers := b.handlers[m.h := handler.(ctx := Some(c), called := true, inMulti := false)])
  }

  function AfterMessages(b: Batch, ms: seq<Message>): (r: Batch)
    requires Messages(b, ms)
    ensures |r.handlers| == |b.handlers|
    ensures forall h :: 0 <= h < |b.handlers| && (forall i :: 0 <= i < |ms| ==> ms[i].h != h) ==> r.handlers[h] == b.handlers[h]
  {
    if ms == [] then b else AfterMessage(AfterMessages(b, ms[..|ms| - 1]), ms[|ms| - 1])
  }

  function DeliveriesOf(b: Batch, ms: seq<Message>): seq<Delivery>
    requires Messages(b, ms)
  {
    if ms == [] then []
    else
      var n := |ms| - 1;
      DeliveriesOf(b, ms[..n]) + [DeliveryOf(AfterMessages(b, ms[..n]), ms[n])]
  }

  /** A message is the batch part of the transition system's step. */
  lemma DoneStepIsMessage(s: State, b: nat, h: nat, curlError: bool, status: int)
    requires WorkerEnabled(s, TransferDone(b, h, curlError, status))
    ensures Addressed(s.work.batches[b], Message(h, curlError, status, s.limits.clock))
    ensures DoDone(s, b, h, curlError, status).work.batches
         == s.work.batches[b := AfterMessage(s.work.batches[b], Message(h, curlError, status, s.limits.clock))]
  {
  }

  /** The contexts of the handlers that still owe their callback, in order. */
  function Flights(hs: seq<Handler>): seq<Context> {
    if hs == [] then []
    else if Running(hs[0]) then [hs[0].ctx.value] + Flights(hs[1..])
    else Flights(hs[1..])
  }

  class HttpBatchRequestHandler {
    const multi: bool
    var handlers: seq<Handler>
    var failed: seq<Context>

    ghost function View(): Batch
      reads this
    {
      Batch(multi, handlers, failed)
    }

    constructor (multiOk: bool)
      ensures View() == Batch(multiOk, [], [])
    {
      multi, handlers, failed := multiOk, [], [];
    }

    /** The constructor's loop: `easyOk` says which easy handles could be created. */
    method Start(contexts: seq<Context>, easyOk: seq<bool>) returns (refused: seq<Context>)
      requires |easyOk| == |contexts|
      modifies this`handlers
      ensures if multi
        then handlers == old(handlers) + Started(contexts, easyOk) && refused == Refused(contexts, easyOk)
        else handlers == old(handlers) && refused == contexts
    {
      if !multi { return contexts; }
      refused := [];
      var i := 0;
      while i < |contexts|
        invariant 0 <= i <= |contexts|
        invariant handlers + Started(contexts[i..], easyOk[i..]) == old(handlers) + Started(contexts, easyOk)
        invariant refused + Refused(contexts[i..], easyOk[i..]) == Refused(contexts, easyOk)
      {
        assert contexts[i..][1..] == contexts[i + 1..] && easyOk[i..][1..] == easyOk[i + 1..];
        if easyOk[i] {
          handlers := handlers + [Handler(Some(contexts[i]), false, false, true)];
        } else {
          refused := refused + [contexts[i]];
        }
        i := i + 1;
      }
    }

    /** A DONE message: the transfer is answered in place or parked in the batch's own list. */
    method HandleCompletedRequest(m: Message) returns (delivery: Delivery)
      requires Addressed(View(), m)
      modifies this`handlers, this`failed
      ensures View() == AfterMessage(old(View()), m) && delivery == DeliveryOf(old(View()), m)
    {
      var handler := handlers[m.h];
      var context := handler.ctx.value.(attempt := handler.ctx.value.attempt + 1);
      if ShouldRetry(context.req.value, context.attempt, m.curlError, m.status, handler.hasChunk) {
        handlers := handlers[m.h := handler.(ctx := None, called := true, inMulti := false)];
        failed := failed + [context.(start := m.now)];
        return Retry(context.attempt);
      }
      handlers := handlers[m.h := handler.(ctx := Some(context), called := true, inMulti := false)];
      return Final(context.attempt);
    }

    /** One call of `process`: libcurl's messages are handled in order, and when no transfer is left
        running the handlers are destroyed, which concludes those that still owe their callback. */
    method Process(performOk: bool, messages: seq<Message>, stillRunning: bool)
      returns (done: bool, deliveries: seq<Delivery>, concluded: seq<Context>)
      requires multi ==> Messages(View(), messages)
      modifies this`handlers, this`failed
      ensures done <==> !multi || (performOk && !stillRunning)
      ensures multi && !performOk ==> View() == old(View()) && deliveries == [] && concluded == []
      ensures multi && performOk ==>
        var b := AfterMessages(old(View()), messages);
        && failed == b.failed && deliveries == DeliveriesOf(old(View()), messages)
        && handlers == (if done then [] else b.handlers) && concluded == if done then Flights(b.handlers) else []
      ensures !multi ==> handlers == [] && failed == old(failed) && concluded == Flights(old(handlers))
    {
      deliveries, concluded := [], [];
      if !multi {
        concluded := Clear();
        return true, [], concluded;
      }
      if !performOk { return false, [], []; }
      var i := 0;
      while i < |messages|
        invariant 0 <= i <= |messages|
        invariant View() == AfterMessages(old(View()), messages[..i])
        invariant deliveries == DeliveriesOf(old(View()), messages[..i])
      {
        assert messages[..i + 1][..i] == messages[..i];
        var delivery := HandleCompletedRequest(messages[i]);
        deliveries := deliveries + [delivery];
        i := i + 1;
      }
      assert messages[..i] == messages;
      if !stillRunning {
        concluded := Clear();
        return true, deliveries, concluded;
      }
      return false, deliveries, [];
    }

    /** Destroying the handlers, first to last. */
    method Clear() returns (concluded: seq<Context>)
      modifies this`handlers
      ensures handlers == [] && concluded == Flights(old(handlers))
    {
      concluded := [];
      while handlers != []
        invariant concluded + Flights(handlers) == Flights(old(handlers))
        decreases |handlers|
      {
        if Running(handlers[0]) { concluded := concluded + [handlers[0].ctx.value]; }
        handlers := handlers[1..];
      }
    }

    method ExtractFailedRequests() returns (list: seq<Context>)
      modifies this`failed
      ensures list == old(failed) && failed == []
    {
      list := failed;
      failed := [];
    }

    method CancelRequests(ids: set<nat>, groups: set<nat>) returns (concluded: seq<Context>)
      modifies this`handlers
      ensures handlers == SparedHandlers(old(handlers), ids, groups)
      ensures concluded == Concluded(old(handlers), ids, groups)
    {
      var spared, i := [], 0;
      concluded := [];
      while i < |handlers|
        invariant 0 <= i <= |handlers| && handlers == old(handlers)
        invariant spared + SparedHandlers(handlers[i..], ids, groups) == SparedHandlers(handlers, ids, groups)
        invariant concluded + Concluded(handlers[i..], ids, groups) == Concluded(handlers, ids, groups)
      {
        var rest := handlers[i + 1..];
        assert handlers[i..][1..] == rest && handlers[i..][0] == handlers[i];
        if !HandlerMatches(handlers[i], ids, groups) {
          spared := spared + [handlers[i]];
        } else if Running(handlers[i]) {
          concluded := concluded + [handlers[i].ctx.value];
        }
        i := i + 1;
      }
      handlers := spared;
    }
  }

  // ----- The context and its once-only completion

  datatype Call = Responded(delivery: Delivery) | Released | GroupDone

  /** What completion calls: the limiter release when armed, then the group completion when grouped. */
  function Completions(armed: bool, grouped: bool): seq<Call> {
    (if armed then [Released] else []) + (if grouped then [GroupDone] else [])
  }

  /** The calls that are not responses. */
  function Completed(calls: seq<Call>): seq<Call> {
    if calls == [] then []
    else if calls[0].Responded? then Completed(calls[1..])
    else [calls[0]] + Completed(calls[1..])
  }

  lemma {:induction false} CompletedOn(calls: seq<Call>, more: seq<Call>)
    ensures Completed(calls + more) == Completed(calls) + Completed(more)
  {
    if calls == [] {
      assert calls + more == more;
    } else {
      assert (calls + more)[1..] == calls[1..] + more && (calls + more)[0] == calls[0];
      CompletedOn(calls[1..], more);
    }
  }

  lemma CompletionsStand(armed: bool, grouped: bool)
    ensures Completed(Completions(armed, grouped)) == Completions(armed, grouped)
  {
    assert Completed([]) == [];
    assert [GroupDone][1..] == [] && [Released][1..] == [] && [Released, GroupDone][1..] == [GroupDone];
    assert Completions(true, true) == [Released, GroupDone] && Completions(true, false) == [Released];
    assert Completions(false, true) == [GroupDone] && Completions(false, false) == [];
  }

  class HttpRequestContext {
    const hasCallback: bool
    const grouped: bool
    var armed: bool
    var completeCalled: bool
    var calls: seq<Call>

    /** The completion calls made so far are none, or one round of them: the release, if there was one to
        make, and then the group. */
    ghost predicate Valid()
      reads this
    {
      if completeCalled then exists released: bool :: Completed(calls) == Completions(released, grouped)
      else Completed(calls) == []
    }

    constructor (hasCallback: bool, grouped: bool)
      ensures Valid() && !completeCalled && !armed && calls == []
      ensures this.hasCallback == hasCallback && this.grouped == grouped
    {
      this.hasCallback, this.grouped := hasCallback, grouped;
      armed, completeCalled, calls := false, false, [];
    }

    method InvokeCallback(d: Delivery)
      requires Valid()
      modifies this`calls
      ensures Valid() && calls == old(calls) + if hasCallback then [Responded(d)] else []
    {
      if !hasCallback { return; }
      CompletedOn(calls, [Responded(d)]);
      calls := calls + [Responded(d)];
    }

    /** The first call makes the completion calls, any further call none. */
    method Complete()
      requires Valid()
      modifies this`calls, this`completeCalled
      ensures Valid() && completeCalled
      ensures calls == old(calls) + if old(completeCalled) then [] else Completions(armed, grouped)
    {
      if completeCalled { return; }
      completeCalled := true;
      CompletedOn(calls, Completions(armed, grouped));
      CompletionsStand(armed, grouped);
      if armed { calls := calls + [Released]; }
      if grouped { calls := calls + [GroupDone]; }
      assert calls == old(calls) + Completions(armed, grouped);
      assert Completed(calls) == Completions(armed, grouped);
    }

    /** The user's final response comes before the release and the release before the group. */
    method InvokeFinalCallback(d: Delivery)
      requires Valid()
      modifies this`calls, this`completeCalled
      ensures Valid() && completeCalled
      ensures calls == old(calls) + (if hasCallback then [Responded(d)] else [])
        + (if old(completeCalled) then [] else Completions(armed, grouped))
    {
      InvokeCallback(d);
      Complete();
    }
  }

  /** The owner of a rate-limit id: removal is asked for once, however often the handle is reset. */
  class HttpRateLimitHandle {
    var id: nat
    var removals: seq<nat>

    constructor (id: nat)
      ensures this.id == id && removals == []
    {
      this.id, removals := id, [];
    }

    method Reset()
      modifies this
      ensures id == 0 && removals == old(removals) + if old(id) != 0 then [old(id)] else []
    {
      var owned := id;
      id := 0;
      if owned != 0 { removals := removals + [owned]; }
    }
  }
}
