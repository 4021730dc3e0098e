/**
 * providerRegistry.js: the health state of every provider, kept in a map whose
 * entries are updated in place by `disableProvider`, `enableProvider` and the
 * lazy cooldown expiry inside `isProviderDisabled`. The clock is the `now`
 * parameter; the events sent to the observability bus are appended to a log.
 */
module ProviderRegistry {
  import opened Wrappers
  import opened Js

  /** One provider's entry: `{enabled, disabledUntil, reason, lastChange}`. */
  datatype HealthState = HealthState(enabled: bool, disabledUntil: Option<int>, reason: JsValue, lastChange: int)

  /** The `provider.health.*` events. */
  datatype HealthEvent =
    | ProviderDisabled(provider: string, reason: JsValue, cooldownMs: int)
    | ProviderEnabled(provider: string, reason: JsValue)

  /** The default `cooldownMs` of `disableProvider`. */
  const DefaultCooldownMs: int := 60000

  /** The entry `ensure` creates on the first reference to a provider. */
  function FreshState(now: int): HealthState {
    HealthState(true, None, Null, now)
  }

  /** The registry after `ensure(provider)`. */
  function Ensured(m: map<string, HealthState>, p: string, now: int): map<string, HealthState> {
    if p in m then m else m[p := FreshState(now)]
  }

  /** The entry left by `disableProvider`. */
  function DisabledState(reason: JsValue, cooldownMs: int, now: int): HealthState {
    HealthState(false, Some(now + cooldownMs), reason, now)
  }

  /** The entry left by `enableProvider`. */
  function EnabledState(reason: JsValue, now: int): HealthState {
    HealthState(true, None, reason, now)
  }

  /** `!p.enabled && p.disabledUntil`: disabled with a truthy (non-zero) deadline. */
  predicate CooldownPending(s: HealthState) {
    !s.enabled && s.disabledUntil.Some? && s.disabledUntil.value != 0
  }

  /** The answer of `isProviderDisabled`, the registry after it and the events it emits. */
  datatype Check = Check(disabled: bool, providers: map<string, HealthState>, events: seq<HealthEvent>)

  /** `isProviderDisabled(provider)` at time `now`: a pending cooldown whose
      deadline has passed re-enables the provider with reason
      "cooldown_expired" and answers false. */
  function CheckDisabled(m: map<string, HealthState>, p: string, now: int): (c: Check)
    ensures c.providers.Keys == m.Keys + {p}
    ensures forall q :: q in m && q != p ==> c.providers[q] == m[q]
    ensures p !in m ==> !c.disabled && c.providers[p] == FreshState(now) && c.events == []
    ensures c.disabled <==> p in m && !m[p].enabled && !(CooldownPending(m[p]) && now >= m[p].disabledUntil.value)
    ensures c.events != [] <==> p in m && CooldownPending(m[p]) && now >= m[p].disabledUntil.value
    ensures c.events != [] ==>
      c.providers[p] == EnabledState(Str("cooldown_expired"), now) && c.events == [ProviderEnabled(p, Str("cooldown_expired"))]
    ensures c.events == [] ==> c.providers == Ensured(m, p, now)
  {
    var m1 := Ensured(m, p, now);
    var s := m1[p];
    if CooldownPending(s) then
      if now >= s.disabledUntil.value then
        Check(false, m1[p := EnabledState(Str("cooldown_expired"), now)], [ProviderEnabled(p, Str("cooldown_expired"))])
      else Check(true, m1, [])
    else Check(!s.enabled, m1, [])
  }

  /** Every entry is enabled exactly when it has no deadline. */
  predicate Consistent(m: map<string, HealthState>) {
    forall p :: p in m ==> (m[p].enabled <==> m[p].disabledUntil.None?)
  }

  /** Only entry p differs between m and m' (it may be added). */
  ghost predicate OnlyChanges(m: map<string, HealthState>, m': map<string, HealthState>, p: string) {
    && (forall q :: q != p ==> (q in m' <==> q in m))
    && (forall q :: q != p && q in m ==> m'[q] == m[q])
  }

  /** The module-level `providers` map and the events emitted so far. */
  class HealthRegistry {
    var providers: map<string, HealthState>
    var emitted: seq<HealthEvent>

    constructor()
      ensures providers == map[] && emitted == []
    {
      providers := map[];
      emitted := [];
    }

    /** `ensure(provider)`: creates the fresh entry on first reference and
        returns the (current) entry. */
    method Ensure(provider: string, now: int) returns (state: HealthState)
      modifies this
      ensures old(provider in providers) ==> providers == old(providers)
      ensures old(provider !in providers) ==> providers == old(providers)[provider := FreshState(now)]
      ensures provider in providers && state == providers[provider]
      ensures emitted == old(emitted)
    {
      if provider !in providers {
        providers := providers[provider := FreshState(now)];
      }
      state := providers[provider];
    }

    /** `disableProvider(provider, reason, cooldownMs = 60000)`. */
    method DisableProvider(provider: string, reason: JsValue, cooldownMs: Option<int>, now: int)
      modifies this
      ensures providers == old(providers)[provider := DisabledState(reason, cooldownMs.GetOr(DefaultCooldownMs), now)]
      ensures !providers[provider].enabled
      ensures providers[provider].disabledUntil == Some(now + cooldownMs.GetOr(DefaultCooldownMs))
      ensures emitted == old(emitted) + [ProviderDisabled(provider, reason, cooldownMs.GetOr(DefaultCooldownMs))]
    {
      var cooldown := cooldownMs.GetOr(DefaultCooldownMs);
      var _ := Ensure(provider, now);
      providers := providers[provider := DisabledState(reason, cooldown, now)];
      emitted := emitted + [ProviderDisabled(provider, reason, cooldown)];
    }

    /** `enableProvider(provider, reason = "manual")`. */
    method EnableProvider(provider: string, reason: JsValue, now: int)
      modifies this
      ensures var r := if reason == Undefined then Str("manual") else reason;
        && providers == old(providers)[provider := EnabledState(r, now)]
        && emitted == old(emitted) + [ProviderEnabled(provider, r)]
      ensures providers[provider].enabled && providers[provider].disabledUntil.None?
    {
      var r := if reason == Undefined then Str("manual") else reason;
      var _ := Ensure(provider, now);
      providers := providers[provider := EnabledState(r, now)];
      emitted := emitted + [ProviderEnabled(provider, r)];
    }

    /** `isProviderDisabled(provider)`: reads and, when the cooldown has run
        out, re-enables the provider. */
    method IsProviderDisabled(provider: string, now: int) returns (disabled: bool)
      modifies this
      ensures var c := CheckDisabled(old(providers), provider, now);
        disabled == c.disabled && providers == c.providers && emitted == old(emitted) + c.events
    {
      var p := Ensure(provider, now);
      if CooldownPending(p) {
        if now >= p.disabledUntil.value {
          EnableProvider(provider, Str("cooldown_expired"), now);
          return false;
        }
        return true;
      }
      return !p.enabled;
    }

    /** `getProviderState(provider)`: a copy of the (ensured) entry. */
    method GetProviderState(provider: string, now: int) returns (state: HealthState)
      modifies this
      ensures providers == Ensured(old(providers), provider, now)
      ensures state == providers[provider]
      ensures old(provider !in providers) ==> state == FreshState(now)
      ensures emitted == old(emitted)
    {
      state := Ensure(provider, now);
    }

    /** `getAllProvidersState()`: a copy of every entry, the registry unchanged. */
    method GetAllProvidersState() returns (out: map<string, HealthState>)
      ensures out.Keys == providers.Keys
      ensures forall p :: p in out ==> out[p] == providers[p]
    {
      out := map[];
      var pending := providers.Keys;
      while pending != {}
        invariant pending <= providers.Keys
        invariant out.Keys == providers.Keys - pending
        invariant forall p :: p in out ==> out[p] == providers[p]
        decreases pending
      {
        var p :| p in pending;
        out := out[p := providers[p]];
        pending := pending - {p};
      }
    }

    /** `resetProviderRegistry()`: empties the map. */
    method ResetProviderRegistry()
      modifies this
      ensures providers == map[] && emitted == old(emitted)
    {
      providers := map[];
    }
  }

  /** A provider never seen before is not disabled, and the check leaves its
      fresh entry behind. */
  lemma UnknownProvider(m: map<string, HealthState>, p: string, now: int)
    requires p !in m
    ensures !CheckDisabled(m, p, now).disabled
    ensures CheckDisabled(m, p, now).providers == m[p := FreshState(now)]
    ensures CheckDisabled(m, p, now).events == []
  {
  }

  /** During the cooldown (`now < disabledUntil`) a disabled provider stays
      disabled and nothing changes. */
  lemma DuringCooldown(m: map<string, HealthState>, p: string, reason: JsValue, cooldownMs: int, t0: int, now: int)
    requires t0 + cooldownMs != 0 && now < t0 + cooldownMs
    ensures var m1 := m[p := DisabledState(reason, cooldownMs, t0)];
      CheckDisabled(m1, p, now) == Check(true, m1, [])
  {
  }

  /** Once `now >= disabledUntil` the check answers false and re-enables the
      provider with reason "cooldown_expired". */
  lemma AfterCooldown(m: map<string, HealthState>, p: string, reason: JsValue, cooldownMs: int, t0: int, now: int)
    requires t0 + cooldownMs != 0 && now >= t0 + cooldownMs
    ensures var c := CheckDisabled(m[p := DisabledState(reason, cooldownMs, t0)], p, now);
      && !c.disabled
      && c.providers == m[p := HealthState(true, None, Str("cooldown_expired"), now)]
      && c.events == [ProviderEnabled(p, Str("cooldown_expired"))]
  {
  }

  /** A deadline of 0 is falsy in `p.disabledUntil`: such a provider reports
      disabled at every later time and its cooldown never expires. */
  lemma ZeroDeadlineNeverExpires(m: map<string, HealthState>, p: string, reason: JsValue, t0: int, now: int)
    ensures var m1 := m[p := DisabledState(reason, -t0, t0)];
      CheckDisabled(m1, p, now) == Check(true, m1, [])
  {
  }

  /** A disabled provider's check answers false again after a manual enable. */
  lemma EnableClearsDisable(m: map<string, HealthState>, p: string, reason: JsValue, now: int)
    ensures var m1 := m[p := EnabledState(reason, now)];
      CheckDisabled(m1, p, now) == Check(false, m1, [])
  {
  }

  /** The check touches only the named provider's entry. */
  lemma CheckFrame(m: map<string, HealthState>, p: string, now: int)
    ensures OnlyChanges(m, CheckDisabled(m, p, now).providers, p)
    ensures p in CheckDisabled(m, p, now).providers
  {
  }

  /** Disable, enable and check all keep every entry consistent. */
  lemma OperationsKeepConsistent(m: map<string, HealthState>, p: string, reason: JsValue, cooldownMs: int, now: int)
    requires Consistent(m)
    ensures Consistent(m[p := DisabledState(reason, cooldownMs, now)])
    ensures Consistent(m[p := EnabledState(reason, now)])
    ensures Consistent(CheckDisabled(m, p, now).providers)
  {
  }

  /** On a consistent registry the answer is exactly: disabled, with a deadline
      that is zero or still in the future. */
  lemma {:induction false} CheckAnswer(m: map<string, HealthState>, p: string, now: int)
    requires Consistent(m)
    ensures CheckDisabled(m, p, now).disabled <==>
      p in m && !m[p].enabled && (m[p].disabledUntil.value == 0 || now < m[p].disabledUntil.value)
  {
  }

  /** Checking twice at the same time gives the same answer and state as once. */
  lemma CheckIdempotent(m: map<string, HealthState>, p: string, now: int)
    ensures var c := CheckDisabled(m, p, now);
      var c2 := CheckDisabled(c.providers, p, now);
      c2.disabled == c.disabled && c2.providers == c.providers && c2.events == []
  {
  }
}
