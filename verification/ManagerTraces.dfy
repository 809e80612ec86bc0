/** The callbacks of a request form a prefix of Retry^k Chunk* Final. */
module ManagerTraces {
  import opened Wrappers
  import opened Requests
  import opened ManagerSteps
  import opened ManagerEffects

  /** `k` retries numbered 1..k, then `m` chunks of attempt k + 1. */
  predicate Open(trace: seq<Delivery>, k: nat, m: nat) {
    && |trace| == k + m
    && (forall i :: 0 <= i < k ==> trace[i] == Retry(i + 1))
    && (forall i :: k <= i < k + m ==> trace[i] == Chunk(k + 1))
  }

  /** At most max(0, retryAttempts - 1) retries. */
  predicate Bounded(req: Option<Request>, k: nat) {
    k == 0 || (req.Some? && k <= req.value.retryAttempts - 1)
  }

  /** An open trace closed by one final callback, whose response carries attempt k + 1 when libcurl
      finished the transfer and 0 when the request was refused, cancelled or aborted. */
  predicate ClosedAt(r: Record, k: nat, m: nat) {
    && |r.trace| == k + m + 1
    && Open(r.trace[..k + m], k, m) && Bounded(r.req, k)
    && (r.trace[k + m] == Final(0) || r.trace[k + m] == Final(k + 1))
  }

  ghost predicate Closed(r: Record) {
    exists k: nat, m: nat :: ClosedAt(r, k, m)
  }

  /** The final callback of `t` is still to come. */
  predicate Awaits(l: Ledger, slot: Option<Completion>, t: nat) {
    t in l.live && !(slot.Some? && slot.value.ctx.token == t)
  }

  ghost predicate Tokens(l: Ledger) {
    && l.nextToken >= 1
    && (forall t :: t in l.records <==> 1 <= t < l.nextToken)
    && (forall t :: t in l.live ==> t in l.records && l.live[t].token == t && l.live[t].req == l.records[t].req)
  }

  ghost predicate TraceOk(l: Ledger, slot: Option<Completion>, t: nat)
    requires t in l.records
  {
    if Awaits(l, slot, t)
    then Open(l.records[t].trace, l.live[t].attempt, l.live[t].chunks) && Bounded(l.live[t].req, l.live[t].attempt)
    else Closed(l.records[t])
  }

  ghost predicate Traced(l: Ledger, slot: Option<Completion>) {
    forall t :: t in l.records ==> TraceOk(l, slot, t)
  }

  lemma TokensAfter(s: State, e: Effect)
    requires Tokens(s.ledger) && Sound(s, e)
    ensures Tokens(LedgerAfter(s.ledger, e))
  {
  }

  /** A final callback closes an open trace. */
  lemma FinalCloses(r: Record, r': Record, k: nat, m: nat, n: nat)
    requires Open(r.trace, k, m) && Bounded(r.req, k) && (n == 0 || n == k + 1)
    requires r' == r.(trace := r.trace + [Final(n)])
    ensures Closed(r')
  {
    assert r'.trace[..k + m] == r.trace;
    assert ClosedAt(r', k, m);
  }

  lemma FinalTrace(s: State, e: Effect)
    requires Tokens(s.ledger) && Traced(s.ledger, s.work.slot) && Sound(s, e) && e.Finals?
    ensures var l', slot' := LedgerAfter(s.ledger, e), SlotAfter(s.work.slot, e);
      e.c.token in l'.records && TraceOk(l', slot', e.c.token)
  {
    var l, t := s.ledger, e.c.token;
    assert t in l.records && TraceOk(l, s.work.slot, t);
    FinalCloses(l.records[t], LedgerAfter(l, e).records[t], e.c.attempt, e.c.chunks, e.attempt);
  }

  lemma OpenTrace(s: State, e: Effect)
    requires Tokens(s.ledger) && Traced(s.ledger, s.work.slot) && Sound(s, e) && (e.Retries? || e.Streams?)
    ensures var l' := LedgerAfter(s.ledger, e); e.c.token in l'.records && TraceOk(l', s.work.slot, e.c.token)
  {
    var l, c := s.ledger, e.c;
    assert c.token in l.records && TraceOk(l, s.work.slot, c.token);
    assert e.Retries? ==> Open(l.records[c.token].trace + [Retry(c.attempt + 1)], c.attempt + 1, 0);
    assert e.Streams? ==> Open(l.records[c.token].trace + [Chunk(c.attempt + 1)], c.attempt, c.chunks + 1);
  }

  /** The trace of the one request an effect is about. */
  lemma TraceAfter(s: State, e: Effect)
    requires Tokens(s.ledger) && Traced(s.ledger, s.work.slot) && Sound(s, e) && !e.Still?
    ensures var l', slot', t := LedgerAfter(s.ledger, e), SlotAfter(s.work.slot, e), e.c.token;
      t in l'.records && TraceOk(l', slot', t)
  {
    if e.Adds? {
      AddsTrace(s, e);
    } else if e.Finals? {
      FinalTrace(s, e);
    } else if e.Retries? || e.Streams? {
      OpenTrace(s, e);
    } else {
      assert e.c.token in s.ledger.records && TraceOk(s.ledger, s.work.slot, e.c.token);
    }
  }

  lemma AddsTrace(s: State, e: Effect)
    requires Tokens(s.ledger) && Sound(s, e) && e.Adds?
    ensures var l' := LedgerAfter(s.ledger, e); e.c.token in l'.records && TraceOk(l', s.work.slot, e.c.token)
  {
    var l' := LedgerAfter(s.ledger, e);
    assert Awaits(l', s.work.slot, e.c.token);
    assert Open(l'.records[e.c.token].trace, 0, 0);
  }

  /** Every effect keeps every trace in the grammar. */
  lemma TracedAfter(s: State, e: Effect)
    requires Tokens(s.ledger) && Traced(s.ledger, s.work.slot) && Sound(s, e)
    ensures Traced(LedgerAfter(s.ledger, e), SlotAfter(s.work.slot, e))
  {
    var l, l', slot' := s.ledger, LedgerAfter(s.ledger, e), SlotAfter(s.work.slot, e);
    forall t | t in l'.records ensures TraceOk(l', slot', t) {
      if !e.Still? && t == e.c.token {
        TraceAfter(s, e);
      } else {
        assert t in l.records && TraceOk(l, s.work.slot, t);
        assert l'.records[t] == l.records[t];
        assert Awaits(l', slot', t) <==> Awaits(l, s.work.slot, t);
      }
    }
  }
}
