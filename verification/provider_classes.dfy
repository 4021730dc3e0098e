/**
 * providerClasses.js: the Beta priors of the provider classes and the
 * lookup-or-default `getProviderPrior`.
 */
module ProviderClasses {
  import opened Js

  /** A prior `{alpha, beta}`. */
  datatype Prior = Prior(alpha: real, beta: real)

  /** `PROVIDER_CLASSES`. */
  const ProviderClassTable: map<string, Prior> := map[
    "fast_pricey" := Prior(3.0, 1.0),
    "slow_cheap" := Prior(2.0, 2.0),
    "unstable_powerful" := Prior(1.5, 2.5),
    "default" := Prior(1.0, 1.0)
  ]

  /** `PROVIDER_CLASSES.default`. */
  const DefaultPrior: Prior := Prior(1.0, 1.0)

  /** `getProviderPrior(cls = "default")`: the table entry under `String(cls)`,
      or the default prior when there is none. */
  function GetProviderPrior(cls: JsValue): (p: Prior)
    ensures cls != Undefined && ToStr(cls) in ProviderClassTable ==> p == ProviderClassTable[ToStr(cls)]
    ensures cls != Undefined && ToStr(cls) !in ProviderClassTable ==> p == DefaultPrior
    ensures cls == Undefined ==> p == DefaultPrior
    ensures p in ProviderClassTable.Values
  {
    var key := if cls == Undefined then "default" else ToStr(cls);
    assert ProviderClassTable["default"] == DefaultPrior;
    if key in ProviderClassTable then ProviderClassTable[key] else DefaultPrior
  }

  /** Every prior in the table, and so every prior the lookup returns, has
      positive alpha and beta. */
  lemma PriorsArePositive(cls: JsValue)
    ensures forall k :: k in ProviderClassTable ==> 0.0 < ProviderClassTable[k].alpha && 0.0 < ProviderClassTable[k].beta
    ensures 0.0 < GetProviderPrior(cls).alpha && 0.0 < GetProviderPrior(cls).beta
  {
  }

  /** The named classes resolve to their entries; an unknown name and a
      missing argument resolve to `{alpha: 1, beta: 1}`. */
  lemma KnownAndUnknownClasses()
    ensures GetProviderPrior(Str("fast_pricey")) == Prior(3.0, 1.0)
    ensures GetProviderPrior(Str("slow_cheap")) == Prior(2.0, 2.0)
    ensures GetProviderPrior(Str("unstable_powerful")) == Prior(1.5, 2.5)
    ensures GetProviderPrior(Str("premium")) == Prior(1.0, 1.0)
    ensures GetProviderPrior(Undefined) == GetProviderPrior(Str("default"))
  {
  }
}
