/**
 * observabilityBus.js: per-event handler sets plus a set of wildcard
 * handlers. A JavaScript `Set` keeps insertion order and holds each handler
 * once, so each set is a duplicate-free sequence here. Handlers are
 * identifiers; the closures `on` and `onAny` return are subscription tokens
 * handed to `Unsubscribe`; which handlers throw is a parameter of emission,
 * and emission returns the log of the calls it made.
 */
module ObservabilityBus {

  /** A handler function, identified by a number. */
  type HandlerId = nat

  /** No handler occurs twice. */
  predicate Distinct(s: seq<HandlerId>) {
    forall i, j :: 0 <= i < j < |s| ==> s[i] != s[j]
  }

  /** `set.add(h)`: appended unless already present. */
  function Added(s: seq<HandlerId>, h: HandlerId): (r: seq<HandlerId>)
    ensures forall x :: x in r <==> x in s || x == h
    ensures h in s ==> r == s
    ensures Distinct(s) ==> Distinct(r)
  {
    if h in s then s else s + [h]
  }

  /** `set.delete(h)`: every other handler kept, in order. */
  function Removed(s: seq<HandlerId>, h: HandlerId): (r: seq<HandlerId>)
    ensures forall x :: x in r <==> x in s && x != h
    ensures |r| <= |s|
    ensures Distinct(s) ==> Distinct(r)
    decreases |s|
  {
    if s == [] then []
    else
      var rest := Removed(s[1..], h);
      assert forall x :: x in rest ==> x in s[1..];
      assert Distinct(s) ==> Distinct(s[1..]) && s[0] !in s[1..] by {
        if Distinct(s) {
          forall i, j | 0 <= i < j < |s[1..]| ensures s[1..][i] != s[1..][j] {
            assert s[1..][i] == s[i + 1] && s[1..][j] == s[j + 1];
          }
          forall k | 0 <= k < |s[1..]| ensures s[1..][k] != s[0] {
            assert s[1..][k] == s[k + 1];
          }
        }
      }
      if s[0] == h then rest else [s[0]] + rest
  }

  /** The unsubscribe closure returned by `on(event, handler)` or `onAny(handler)`. */
  datatype Subscription = OnEvent(event: string, handler: HandlerId) | OnAnyEvent(handler: HandlerId)

  /** One handler call made by `emitEvent`: `fn(payload)` for a handler of the
      event, `fn(event, payload)` for a wildcard handler. */
  datatype Invocation<P> = Delivered(handler: HandlerId, payload: P) | Broadcast(handler: HandlerId, event: string, payload: P)

  /** The handlers among the calls that threw, in call order (each is logged
      and then skipped). */
  function Failures<P>(calls: seq<Invocation<P>>, throws: set<HandlerId>): (r: seq<HandlerId>)
    ensures |r| <= |calls|
    ensures forall h :: h in r ==> h in throws
    decreases |calls|
  {
    if calls == [] then []
    else
      var last := calls[|calls| - 1];
      Failures(calls[..|calls| - 1], throws) + (if last.handler in throws then [last.handler] else [])
  }

  /** No handler is called twice in a run of calls. */
  predicate CalledOnce<P>(calls: seq<Invocation<P>>) {
    forall i, j :: 0 <= i < j < |calls| ==> calls[i].handler != calls[j].handler
  }

  /** The handlers registered for one event (none when it has no entry). */
  function HandlersOf(listeners: map<string, seq<HandlerId>>, event: string): seq<HandlerId> {
    if event in listeners then listeners[event] else []
  }

  class Bus {
    var listeners: map<string, seq<HandlerId>>
    var anyListeners: seq<HandlerId>

    /** Every handler set holds each handler once. */
    ghost predicate Valid()
      reads this
    {
      && (forall e :: e in listeners ==> Distinct(listeners[e]))
      && Distinct(anyListeners)
    }

    constructor()
      ensures Valid() && listeners == map[] && anyListeners == []
    {
      listeners := map[];
      anyListeners := [];
    }

    /** `on(event, handler)`: adds the handler to the event's set, creating the
        set on first use. */
    method On(event: string, handler: HandlerId) returns (unsubscribe: Subscription)
      requires Valid()
      modifies this
      ensures Valid()
      ensures listeners == old(listeners)[event := Added(HandlersOf(old(listeners), event), handler)]
      ensures handler in listeners[event]
      ensures anyListeners == old(anyListeners)
      ensures unsubscribe == OnEvent(event, handler)
    {
      if event !in listeners {
        listeners := listeners[event := []];
      }
      listeners := listeners[event := Added(listeners[event], handler)];
      return OnEvent(event, handler);
    }

    /** `onAny(handler)`: adds the handler to the wildcard set. */
    method OnAny(handler: HandlerId) returns (unsubscribe: Subscription)
      requires Valid()
      modifies this
      ensures Valid()
      ensures anyListeners == Added(old(anyListeners), handler)
      ensures listeners == old(listeners)
      ensures unsubscribe == OnAnyEvent(handler)
    {
      anyListeners := Added(anyListeners, handler);
      return OnAnyEvent(handler);
    }

    /** Calling an unsubscribe closure: removes the handler from the set it was
        added to; the event's (possibly empty) set stays in the map. */
    method Unsubscribe(subscription: Subscription)
      requires Valid()
      modifies this
      ensures Valid()
      ensures subscription.OnEvent? ==>
        && anyListeners == old(anyListeners)
        && (subscription.event in old(listeners) ==>
              listeners == old(listeners)[subscription.event := Removed(old(listeners)[subscription.event], subscription.handler)])
        && (subscription.event !in old(listeners) ==> listeners == old(listeners))
      ensures subscription.OnAnyEvent? ==>
        listeners == old(listeners) && anyListeners == Removed(old(anyListeners), subscription.handler)
    {
      match subscription
      case OnEvent(event, handler) =>
        if event in listeners {
          listeners := listeners[event := Removed(listeners[event], handler)];
        }
      case OnAnyEvent(handler) =>
        anyListeners := Removed(anyListeners, handler);
    }

    /** `emitEvent(event, payload)`: calls the event's handlers, then the
        wildcard handlers, each set in insertion order. A handler in `throws`
        fails; its error is reported and the next handler still runs, so
        every handler is called and emission itself never fails. */
    method EmitEvent<P>(event: string, payload: P, throws: set<HandlerId>)
      returns (calls: seq<Invocation<P>>, reported: seq<HandlerId>)
      requires Valid()
      ensures var hs := HandlersOf(listeners, event);
        && |calls| == |hs| + |anyListeners|
        && (forall i :: 0 <= i < |hs| ==> calls[i] == Delivered(hs[i], payload))
        && (forall i :: |hs| <= i < |calls| ==> calls[i] == Broadcast(anyListeners[i - |hs|], event, payload))
      // no handler of the event, and no wildcard handler, is called twice
      ensures var n := |HandlersOf(listeners, event)|;
        CalledOnce(calls[..n]) && CalledOnce(calls[n..])
      ensures reported == Failures(calls, throws)
    {
      var hs := HandlersOf(listeners, event);
      assert Distinct(hs) by {
        if event in listeners {
          assert Distinct(listeners[event]);
        }
      }
      var delivered, failed := DeliverAll(hs, payload, throws);
      var broadcast, failedAny := BroadcastAll(anyListeners, event, payload, throws);
      FailuresConcat(delivered, broadcast, throws);
      calls, reported := delivered + broadcast, failed + failedAny;
      ConcatenatedCalls(hs, anyListeners, event, payload, delivered, broadcast);
    }
  }

  /** The first loop of `emitEvent`: each handler of the event is called with
      the payload, in order, and the ones that throw are reported. */
  method DeliverAll<P>(hs: seq<HandlerId>, payload: P, throws: set<HandlerId>)
    returns (calls: seq<Invocation<P>>, reported: seq<HandlerId>)
    ensures |calls| == |hs|
    ensures forall i :: 0 <= i < |hs| ==> calls[i] == Delivered(hs[i], payload)
    ensures Distinct(hs) ==> CalledOnce(calls)
    ensures reported == Failures(calls, throws)
  {
    calls, reported := [], [];
    var i := 0;
    while i < |hs|
      invariant 0 <= i <= |hs|
      invariant |calls| == i
      invariant forall j :: 0 <= j < i ==> calls[j] == Delivered(hs[j], payload)
      invariant reported == Failures(calls, throws)
    {
      var call := Delivered(hs[i], payload);
      FailuresAppend(calls, call, throws);
      calls := calls + [call];
      if hs[i] in throws {
        reported := reported + [hs[i]];
      }
      i := i + 1;
    }
  }

  /** The second loop of `emitEvent`: each wildcard handler is called with the
      event name and the payload, in order, and the ones that throw are
      reported. */
  method BroadcastAll<P>(hs: seq<HandlerId>, event: string, payload: P, throws: set<HandlerId>)
    returns (calls: seq<Invocation<P>>, reported: seq<HandlerId>)
    ensures |calls| == |hs|
    ensures forall i :: 0 <= i < |hs| ==> calls[i] == Broadcast(hs[i], event, payload)
    ensures Distinct(hs) ==> CalledOnce(calls)
    ensures reported == Failures(calls, throws)
  {
    calls, reported := [], [];
    var k := 0;
    while k < |hs|
      invariant 0 <= k <= |hs|
      invariant |calls| == k
      invariant forall j :: 0 <= j < k ==> calls[j] == Broadcast(hs[j], event, payload)
      invariant reported == Failures(calls, throws)
    {
      var call := Broadcast(hs[k], event, payload);
      FailuresAppend(calls, call, throws);
      calls := calls + [call];
      if hs[k] in throws {
        reported := reported + [hs[k]];
      }
      k := k + 1;
    }
  }

  /** The calls of both loops of `emitEvent`, one run after the other. */
  lemma ConcatenatedCalls<P>(hs: seq<HandlerId>, anyHs: seq<HandlerId>, event: string, payload: P,
                             delivered: seq<Invocation<P>>, broadcast: seq<Invocation<P>>)
    requires |delivered| == |hs| && |broadcast| == |anyHs|
    requires forall i :: 0 <= i < |hs| ==> delivered[i] == Delivered(hs[i], payload)
    requires forall i :: 0 <= i < |anyHs| ==> broadcast[i] == Broadcast(anyHs[i], event, payload)
    requires CalledOnce(delivered) && CalledOnce(broadcast)
    ensures var calls := delivered + broadcast;
      && |calls| == |hs| + |anyHs|
      && (forall i :: 0 <= i < |hs| ==> calls[i] == Delivered(hs[i], payload))
      && (forall i :: |hs| <= i < |calls| ==> calls[i] == Broadcast(anyHs[i - |hs|], event, payload))
      && CalledOnce(calls[..|hs|]) && CalledOnce(calls[|hs|..])
  {
    var calls := delivered + broadcast;
    assert calls[..|hs|] == delivered && calls[|hs|..] == broadcast;
    forall i | |hs| <= i < |calls| ensures calls[i] == Broadcast(anyHs[i - |hs|], event, payload) {
      assert calls[i] == broadcast[i - |hs|];
    }
  }

  /** The failures of two runs of calls, one after the other. */
  lemma {:induction false} FailuresConcat<P>(a: seq<Invocation<P>>, b: seq<Invocation<P>>, throws: set<HandlerId>)
    ensures Failures(a + b, throws) == Failures(a, throws) + Failures(b, throws)
    decreases |b|
  {
    if b != [] {
      var init := b[..|b| - 1];
      FailuresConcat(a, init, throws);
      assert (a + b)[..|a + b| - 1] == a + init;
    } else {
      assert a + b == a;
    }
  }

  /** Reporting one more call adds its handler exactly when it throws. */
  lemma FailuresAppend<P>(calls: seq<Invocation<P>>, call: Invocation<P>, throws: set<HandlerId>)
    ensures Failures(calls + [call], throws) == Failures(calls, throws) + (if call.handler in throws then [call.handler] else [])
  {
    assert (calls + [call])[..|calls|] == calls;
  }

  /** Subscribing the same handler twice registers it once. */
  lemma SubscribeTwiceIsOnce(s: seq<HandlerId>, h: HandlerId)
    ensures Added(Added(s, h), h) == Added(s, h)
  {
  }

  /** Unsubscribing again has no further effect. */
  lemma {:induction false} UnsubscribeIdempotent(s: seq<HandlerId>, h: HandlerId)
    ensures Removed(Removed(s, h), h) == Removed(s, h)
  {
    NotPresentUnchanged(Removed(s, h), h);
  }

  /** Removing a handler that is not present changes nothing. */
  lemma {:induction false} NotPresentUnchanged(s: seq<HandlerId>, h: HandlerId)
    requires h !in s
    ensures Removed(s, h) == s
    decreases |s|
  {
    if s != [] {
      NotPresentUnchanged(s[1..], h);
      assert [s[0]] + s[1..] == s;
    }
  }

  /** Deleting from a set with one more handler at the end. */
  lemma {:induction false} RemovedAppend(s: seq<HandlerId>, x: HandlerId, h: HandlerId)
    ensures Removed(s + [x], h) == Removed(s, h) + (if x == h then [] else [x])
    decreases |s|
  {
    if s != [] {
      assert (s + [x])[1..] == s[1..] + [x];
      RemovedAppend(s[1..], x, h);
    }
  }

  /** Subscribing a new handler and then unsubscribing it restores the set. */
  lemma SubscribeThenUnsubscribe(s: seq<HandlerId>, h: HandlerId)
    requires h !in s
    ensures Removed(Added(s, h), h) == s
  {
    RemovedAppend(s, h, h);
    NotPresentUnchanged(s, h);
  }

  /** The handlers called for an event are exactly that event's handlers and
      the wildcard handlers: a handler of another event is never called, and an
      event without handlers reaches only the wildcard handlers. */
  lemma EmittedHandlers<P>(listeners: map<string, seq<HandlerId>>, anyListeners: seq<HandlerId>, event: string,
                           payload: P, calls: seq<Invocation<P>>)
    requires |calls| == |HandlersOf(listeners, event)| + |anyListeners|
    requires forall i :: 0 <= i < |HandlersOf(listeners, event)| ==> calls[i] == Delivered(HandlersOf(listeners, event)[i], payload)
    requires forall i :: |HandlersOf(listeners, event)| <= i < |calls| ==>
      calls[i] == Broadcast(anyListeners[i - |HandlersOf(listeners, event)|], event, payload)
    ensures forall c :: c in calls && c.Delivered? ==> event in listeners && c.handler in listeners[event]
    ensures forall c :: c in calls && c.Broadcast? ==> c.handler in anyListeners && c.event == event
    ensures event !in listeners ==> forall c :: c in calls ==> c.Broadcast?
  {
    var hs := HandlersOf(listeners, event);
    forall c | c in calls
      ensures c.Delivered? ==> event in listeners && c.handler in listeners[event]
      ensures c.Broadcast? ==> c.handler in anyListeners && c.event == event
    {
      var i :| 0 <= i < |calls| && calls[i] == c;
    }
  }
}
