/**
 * banditStore.memory.js: bandit states kept in an object under the key
 * `${context}:${provider}`; `save` is last-write-wins and `loadAll` returns a
 * copy. Stored states are values, so the copies `save` and `loadAll` make are
 * implicit.
 */
module MemoryStore {
  import opened Wrappers
  import opened Js

  /** `key(p, c)` = `${c}:${p}`. */
  function StoreKey(provider: JsValue, context: JsValue): (k: string)
    ensures ToStr(context) + [':'] <= k
    ensures |k| == |ToStr(context)| + 1 + |ToStr(provider)|
    ensures k[|ToStr(context)| + 1..] == ToStr(provider)
  {
    ToStr(context) + ":" + ToStr(provider)
  }

  /** What `load(p, c)` answers for the stored entries `state`. */
  function Lookup<S>(state: map<string, S>, provider: JsValue, context: JsValue): (r: Option<S>)
    ensures r.Some? <==> StoreKey(provider, context) in state
  {
    var k := StoreKey(provider, context);
    if k in state then Some(state[k]) else None
  }

  class MemoryBanditStore<S> {
    var state: map<string, S>

    constructor()
      ensures state == map[]
    {
      state := map[];
    }

    /** `load(p, c)`: the saved state, or null when nothing was saved (a
        saved state is an object and so never falsy). */
    method Load(provider: JsValue, context: JsValue) returns (r: Option<S>)
      ensures r == Lookup(state, provider, context)
      ensures StoreKey(provider, context) !in state ==> r.None?
      ensures StoreKey(provider, context) in state ==> r == Some(state[StoreKey(provider, context)])
    {
      var k := StoreKey(provider, context);
      if k in state {
        return Some(state[k]);
      }
      return None;
    }

    /** `save(p, c, s)`: stores a copy under the key, replacing what was there. */
    method Save(provider: JsValue, context: JsValue, s: S)
      modifies this
      ensures state == old(state)[StoreKey(provider, context) := s]
    {
      state := state[StoreKey(provider, context) := s];
    }

    /** `loadAll()`: a copy of every saved entry. */
    method LoadAll() returns (out: map<string, S>)
      ensures out == state
    {
      out := state;
    }
  }

  /** After `save(p, c, s)`, `load(p, c)` returns s; every pair with another
      key loads as before; a second save to the same pair wins. */
  lemma SaveThenLoad<S>(state: map<string, S>, provider: JsValue, context: JsValue, s: S, s2: S)
    ensures Lookup(state[StoreKey(provider, context) := s], provider, context) == Some(s)
    ensures forall p: JsValue, c: JsValue :: StoreKey(p, c) != StoreKey(provider, context) ==>
      Lookup(state[StoreKey(provider, context) := s], p, c) == Lookup(state, p, c)
    ensures state[StoreKey(provider, context) := s][StoreKey(provider, context) := s2]
      == state[StoreKey(provider, context) := s2]
  {
  }

  /** With a colon-free context, different (provider, context) pairs get
      different keys. */
  lemma {:induction false} KeyInjective(p1: JsValue, c1: JsValue, p2: JsValue, c2: JsValue)
    requires ':' !in ToStr(c1) && ':' !in ToStr(c2)
    requires StoreKey(p1, c1) == StoreKey(p2, c2)
    ensures ToStr(c1) == ToStr(c2) && ToStr(p1) == ToStr(p2)
  {
    SplitAfterFirst(ToStr(c1), ':', ToStr(p1));
    SplitAfterFirst(ToStr(c2), ':', ToStr(p2));
    assert ToStr(c1) + ":" + ToStr(p1) == ToStr(c1) + [':'] + ToStr(p1);
    assert ToStr(c2) + ":" + ToStr(p2) == ToStr(c2) + [':'] + ToStr(p2);
    assert Split(StoreKey(p1, c1), ':')[0] == ToStr(c1);
    assert Split(StoreKey(p2, c2), ':')[0] == ToStr(c2);
  }

  /** A colon inside the context makes two different pairs share a key:
      provider "x" in context "a:b" and provider "b:x" in context "a" both use
      "a:b:x", so saving one overwrites the other. */
  lemma ColonInContextCollides()
    ensures StoreKey(Str("x"), Str("a:b")) == StoreKey(Str("b:x"), Str("a")) == "a:b:x"
  {
  }
}
