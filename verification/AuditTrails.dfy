/** Audit events of state changes, for any state machine, and what replaying them shows
    (internal/app/transition.go, internal/app/payment_intent_transition.go). */
module AuditTrails {
  import opened Results
  import opened Paths

  /** An audit event; only events of state changes carry states. */
  datatype Event<St> = Event(intent: nat, previous: Option<St>, next: Option<St>)

  /** Where replaying an intent's audit events leads. */
  datatype Trail<St> = Silent | At(state: St) | Broken

  /** A creation may only come first and only to the start; a change must start where the trail is, and be legal. */
  function Extend<St(==)>(step: (St, St) -> bool, start: St, t: Trail<St>, e: Event<St>): Trail<St> {
    if e.next == None then t
    else if e.previous == None then (if t == Silent && e.next.value == start then At(start) else Broken)
    else if t == At(e.previous.value) && step(e.previous.value, e.next.value) then At(e.next.value)
    else Broken
  }

  function Replay<St(==)>(step: (St, St) -> bool, start: St, log: seq<Event<St>>, n: nat): Trail<St> {
    if log == [] then Silent
    else
      var t, e := Replay(step, start, log[..|log| - 1], n), log[|log| - 1];
      if e.intent == n then Extend(step, start, t, e) else t
  }

  lemma {:induction false} ReplayAppended<St>(step: (St, St) -> bool, start: St, log: seq<Event<St>>, e: Event<St>,
                                              n: nat)
    ensures e.intent != n ==> Replay(step, start, log + [e], n) == Replay(step, start, log, n)
    ensures e.intent == n ==> Replay(step, start, log + [e], n) == Extend(step, start, Replay(step, start, log, n), e)
  {
    assert (log + [e])[..|log|] == log;
  }

  /** The events that carry a new state of an intent. */
  function StateEvents<St>(log: seq<Event<St>>, n: nat): seq<Event<St>> {
    if log == [] then []
    else
      var before, e := StateEvents(log[..|log| - 1], n), log[|log| - 1];
      if e.intent == n && e.next.Some? then before + [e] else before
  }

  /** First a creation in the start state, then legal changes, each from the state the one before it led to. */
  ghost predicate Chained<St(!new)>(step: (St, St) -> bool, start: St, es: seq<Event<St>>) {
    && es != [] && es[0].previous == None && es[0].next == Some(start)
    && forall k | 0 < k < |es| ::
         && es[k].previous == es[k - 1].next && es[k].previous.Some? && es[k].next.Some?
         && step(es[k].previous.value, es[k].next.value)
  }

  /** One more event continues a chain exactly when it starts where the chain ends and is legal. */
  lemma {:induction false} ChainGrows<St(!new)>(step: (St, St) -> bool, start: St, es: seq<Event<St>>, e: Event<St>)
    requires e.next.Some?
    ensures Chained(step, start, es + [e])
            <==> if es == [] then e.previous == None && e.next == Some(start)
                 else Chained(step, start, es) && e.previous.Some? && e.previous == es[|es| - 1].next
                      && step(e.previous.value, e.next.value)
  {
    var more := es + [e];
    assert forall k | 0 <= k < |es| :: more[k] == es[k];
    if es != [] && Chained(step, start, more) {
      assert more[|es|] == e && more[|es| - 1] == es[|es| - 1];
      forall k | 0 < k < |es|
        ensures es[k].previous == es[k - 1].next && es[k].previous.Some? && es[k].next.Some?
                && step(es[k].previous.value, es[k].next.value)
      {
        assert more[k] == es[k] && more[k - 1] == es[k - 1];
      }
    }
  }

  /** Replay stays silent exactly without state events, arrives at a state exactly through a legal chain that ends
      there, and breaks on anything else. */
  lemma {:induction false} ReplayMeans<St(!new)>(step: (St, St) -> bool, start: St, log: seq<Event<St>>, n: nat)
    ensures var es := StateEvents(log, n);
            var t := Replay(step, start, log, n);
            && (t == Silent <==> es == [])
            && (t.At? <==> Chained(step, start, es))
            && (t.At? ==> es[|es| - 1].next == Some(t.state))
  {
    if log != [] {
      var init, e := log[..|log| - 1], log[|log| - 1];
      ReplayMeans(step, start, init, n);
      if e.intent == n && e.next.Some? {
        ChainGrows(step, start, StateEvents(init, n), e);
      }
    }
  }

  /** The states a chain of events goes through form a run of the machine. */
  lemma {:induction false} ChainIsPath<St(!new)>(step: (St, St) -> bool, start: St, es: seq<Event<St>>)
    returns (path: seq<St>)
    requires Chained(step, start, es)
    ensures IsPath(step, path) && |path| == |es| && forall k | 0 <= k < |es| :: es[k].next == Some(path[k])
  {
    assert forall k | 0 <= k < |es| :: es[k].next.Some?;
    path := seq(|es|, k requires 0 <= k < |es| => es[k].next.value);
  }
}
