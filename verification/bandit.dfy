/**
 * banditEngine.js without its sampler: lazy creation of each provider's Beta
 * arm, the normalised reward and posterior update, the snapshot with its
 * average reward, and hydration from a stored snapshot. Numbers are exact
 * reals; the events sent to the observability bus are appended to a log.
 */
module BanditEngine {
  import opened Wrappers
  import opened Utils
  import opened ProviderClasses

  const DefaultAlpha: real := 1.0
  const DefaultBeta: real := 1.0
  /** The largest shaped reward; rewards are divided by it and clamped to [0, 1]. */
  const RewardMax: real := 2.5

  /** `banditState[provider]`: `{trials, rewardSum, alpha, beta}`. */
  datatype Arm = Arm(trials: real, rewardSum: real, alpha: real, beta: real)

  /** The `priors` argument of `ensureBandit`; a missing (null or undefined)
      field is None. */
  datatype Priors = Priors(alpha: Option<real>, beta: Option<real>)

  /** `priors = {}`. */
  const NoPriors: Priors := Priors(None, None)

  /** A stored state handed to `hydrateBandits`; missing fields are None. */
  datatype ArmRecord = ArmRecord(trials: Option<real>, rewardSum: Option<real>, alpha: Option<real>, beta: Option<real>)

  /** One entry of `getBanditSnapshot()`. */
  datatype ArmSnapshot = ArmSnapshot(trials: real, rewardSum: real, alpha: real, beta: real, avgReward: real)

  /** The `routing.bandit.*` events; `avgReward` is None where JavaScript
      divides by zero trials. The caller's reward `components` are not kept. */
  datatype BanditEvent =
    | Init(provider: string, alpha: real, beta: real)
    | Reward(provider: string, reward: real, rewardNorm: real, trials: real, avgReward: Option<real>, alpha: real, beta: real)
    | Hydrate(providers: set<string>)

  /** The arm `ensureBandit` creates: no trials, alpha and beta from the priors
      (`?? 1`). */
  function NewArm(priors: Priors): (a: Arm)
    ensures a.trials == 0.0 && a.rewardSum == 0.0
    ensures priors.alpha.Some? ==> a.alpha == priors.alpha.value
    ensures priors.alpha.None? ==> a.alpha == DefaultAlpha
    ensures priors.beta.Some? ==> a.beta == priors.beta.value
    ensures priors.beta.None? ==> a.beta == DefaultBeta
  {
    Arm(0.0, 0.0, priors.alpha.GetOr(DefaultAlpha), priors.beta.GetOr(DefaultBeta))
  }

  /** `rNorm = clamp(reward / 2.5, 0, 1)`. */
  function NormalizedReward(reward: real): (r: real)
    ensures 0.0 <= r <= 1.0
    ensures 0.0 <= reward <= RewardMax ==> r == reward / RewardMax
    ensures reward <= 0.0 ==> r == 0.0
    ensures RewardMax <= reward ==> r == 1.0
  {
    Clamp(reward / RewardMax, 0.0, 1.0)
  }

  /** The arm after `recordBanditReward` with `reward`: one more trial, the
      reward added to the sum, and the posterior moved by rNorm / 1 - rNorm. */
  function Rewarded(a: Arm, reward: real): (b: Arm)
    ensures b.trials == a.trials + 1.0
    ensures b.rewardSum == a.rewardSum + reward
    ensures a.alpha <= b.alpha && a.beta <= b.beta
    ensures b.alpha + b.beta == a.alpha + a.beta + 1.0
    ensures b.alpha - a.alpha == NormalizedReward(reward)
  {
    var r := NormalizedReward(reward);
    Arm(a.trials + 1.0, a.rewardSum + reward, a.alpha + r, a.beta + (1.0 - r))
  }

  /** `b.trials > 0 ? b.rewardSum / b.trials : 0`. */
  function AvgReward(a: Arm): real {
    if a.trials > 0.0 then a.rewardSum / a.trials else 0.0
  }

  /** The snapshot entry of one arm: its fields and its average reward. */
  function SnapshotOf(a: Arm): ArmSnapshot {
    ArmSnapshot(a.trials, a.rewardSum, a.alpha, a.beta, AvgReward(a))
  }

  /** `getBanditSnapshot()` of the state `arms`. */
  function Snapshot(arms: map<string, Arm>): (snap: map<string, ArmSnapshot>)
    ensures snap.Keys == arms.Keys
    ensures forall p :: p in arms ==>
      && snap[p].trials == arms[p].trials && snap[p].rewardSum == arms[p].rewardSum
      && snap[p].alpha == arms[p].alpha && snap[p].beta == arms[p].beta
      && (arms[p].trials > 0.0 ==> snap[p].avgReward * arms[p].trials == arms[p].rewardSum)
      && (arms[p].trials <= 0.0 ==> snap[p].avgReward == 0.0)
  {
    map p | p in arms :: SnapshotOf(arms[p])
  }

  /** The arm hydrated from a stored record (`?? 0` and `?? 1` defaults). */
  function ArmOf(r: ArmRecord): Arm {
    Arm(r.trials.GetOr(0.0), r.rewardSum.GetOr(0.0), r.alpha.GetOr(DefaultAlpha), r.beta.GetOr(DefaultBeta))
  }

  /** The state after hydrating `arms` with `records`: listed providers are
      overwritten, the others kept. */
  function Hydrated(arms: map<string, Arm>, records: map<string, ArmRecord>): (r: map<string, Arm>)
    ensures r.Keys == arms.Keys + records.Keys
    ensures forall p :: p in records ==> r[p] == ArmOf(records[p])
    ensures forall p :: p in arms && p !in records ==> r[p] == arms[p]
  {
    arms + map p | p in records :: ArmOf(records[p])
  }

  /** A snapshot entry read back as a stored record. */
  function RecordOf(s: ArmSnapshot): ArmRecord {
    ArmRecord(Some(s.trials), Some(s.rewardSum), Some(s.alpha), Some(s.beta))
  }

  /** A whole snapshot read back as stored records (what a store returns). */
  function SnapshotRecords(snap: map<string, ArmSnapshot>): map<string, ArmRecord> {
    map p | p in snap :: RecordOf(snap[p])
  }

  /** The module-level `banditState` and the events emitted so far. */
  class Bandits {
    var arms: map<string, Arm>
    var emitted: seq<BanditEvent>

    constructor()
      ensures arms == map[] && emitted == []
    {
      arms := map[];
      emitted := [];
    }

    /** `ensureBandit(provider, priors)`: creates the arm from the priors and
        emits `routing.bandit.init` only when the provider has none; an
        existing arm is returned as it is, whatever the priors. */
    method EnsureBandit(provider: string, priors: Priors) returns (arm: Arm)
      modifies this
      ensures old(provider in arms) ==> arms == old(arms) && emitted == old(emitted)
      ensures old(provider !in arms) ==>
        && arms == old(arms)[provider := NewArm(priors)]
        && emitted == old(emitted) + [Init(provider, arm.alpha, arm.beta)]
      ensures provider in arms && arm == arms[provider]
    {
      if provider !in arms {
        arms := arms[provider := NewArm(priors)];
        emitted := emitted + [Init(provider, arms[provider].alpha, arms[provider].beta)];
      }
      arm := arms[provider];
    }

    /** `recordBanditReward({provider, reward})`: ensures the arm with no
        priors, applies the update and emits `routing.bandit.reward`. */
    method RecordBanditReward(provider: string, reward: real)
      modifies this
      ensures var before := if provider in old(arms) then old(arms)[provider] else NewArm(NoPriors);
        var after := Rewarded(before, reward);
        && arms == old(arms)[provider := after]
        && emitted == old(emitted)
                      + (if provider in old(arms) then [] else [Init(provider, DefaultAlpha, DefaultBeta)])
                      + [Reward(provider, reward, NormalizedReward(reward), after.trials,
                                if after.trials == 0.0 then None else Some(after.rewardSum / after.trials),
                                after.alpha, after.beta)]
    {
      var b := EnsureBandit(provider, NoPriors);
      var rNorm := NormalizedReward(reward);
      b := Arm(b.trials + 1.0, b.rewardSum + reward, b.alpha + rNorm, b.beta + (1.0 - rNorm));
      arms := arms[provider := b];
      var avg := if b.trials == 0.0 then None else Some(b.rewardSum / b.trials);
      emitted := emitted + [Reward(provider, reward, rNorm, b.trials, avg, b.alpha, b.beta)];
    }

    /** `getBanditSnapshot()`: a fresh map with one entry per arm; the state is
        not changed. */
    method GetBanditSnapshot() returns (out: map<string, ArmSnapshot>)
      ensures out == Snapshot(arms)
    {
      out := map[];
      var pending := arms.Keys;
      while pending != {}
        invariant pending <= arms.Keys
        invariant out.Keys == arms.Keys - pending
        invariant forall p :: p in out ==> out[p] == SnapshotOf(arms[p])
        decreases pending
      {
        var p :| p in pending;
        var b := arms[p];
        out := out[p := ArmSnapshot(b.trials, b.rewardSum, b.alpha, b.beta,
                                     if b.trials > 0.0 then b.rewardSum / b.trials else 0.0)];
        pending := pending - {p};
      }
    }

    /** `hydrateBandits(allStates)`: overwrites the arm of every listed
        provider (none for a null argument), then emits
        `routing.bandit.hydrate` with all providers. */
    method HydrateBandits(allStates: Option<map<string, ArmRecord>>)
      modifies this
      ensures arms == Hydrated(old(arms), allStates.GetOr(map[]))
      ensures emitted == old(emitted) + [Hydrate(arms.Keys)]
    {
      var records := allStates.GetOr(map[]);
      var pending := records.Keys;
      while pending != {}
        invariant pending <= records.Keys
        invariant arms.Keys == old(arms).Keys + (records.Keys - pending)
        invariant forall p :: p in arms ==>
          arms[p] == if p in records && p !in pending then ArmOf(records[p]) else old(arms)[p]
        invariant emitted == old(emitted)
        decreases pending
      {
        var p :| p in pending;
        var state := records[p];
        arms := arms[p := Arm(state.trials.GetOr(0.0), state.rewardSum.GetOr(0.0),
                              state.alpha.GetOr(DefaultAlpha), state.beta.GetOr(DefaultBeta))];
        pending := pending - {p};
      }
      emitted := emitted + [Hydrate(arms.Keys)];
    }

    /** `exportBandits()`: the snapshot. */
    method ExportBandits() returns (out: map<string, ArmSnapshot>)
      ensures out == Snapshot(arms)
    {
      out := GetBanditSnapshot();
    }
  }

  /** Hydrating from a snapshot of the state restores that state exactly: the
      snapshot keeps every field hydration reads. */
  lemma HydrateFromSnapshotRestores(arms: map<string, Arm>)
    ensures Hydrated(arms, SnapshotRecords(Snapshot(arms))) == arms
    ensures Hydrated(map[], SnapshotRecords(Snapshot(arms))) == arms
  {
    var h := Hydrated(map[], SnapshotRecords(Snapshot(arms)));
    assert h.Keys == arms.Keys;
    forall p | p in arms ensures h[p] == arms[p] {
      assert ArmOf(RecordOf(SnapshotOf(arms[p]))) == arms[p];
    }
  }

  /** Hydration overwrites only the listed providers and is idempotent. */
  lemma HydrateOverwritesListed(arms: map<string, Arm>, records: map<string, ArmRecord>)
    ensures Hydrated(arms, records).Keys == arms.Keys + records.Keys
    ensures forall p :: p in records ==> Hydrated(arms, records)[p] == ArmOf(records[p])
    ensures forall p :: p in arms && p !in records ==> Hydrated(arms, records)[p] == arms[p]
    ensures Hydrated(Hydrated(arms, records), records) == Hydrated(arms, records)
  {
  }

  /** A record with every field missing hydrates to the fresh default arm. */
  lemma EmptyRecordIsDefaultArm()
    ensures ArmOf(ArmRecord(None, None, None, None)) == NewArm(NoPriors)
  {
  }

  /** The arm after a series of rewards, applied in order. */
  function RewardedAll(a: Arm, rewards: seq<real>): Arm
    decreases |rewards|
  {
    if rewards == [] then a else RewardedAll(Rewarded(a, rewards[0]), rewards[1..])
  }

  function Sum(xs: seq<real>): real
    decreases |xs|
  {
    if xs == [] then 0.0 else xs[0] + Sum(xs[1..])
  }

  /** Counter invariants: after n rewards, trials grew by n and rewardSum by
      their sum; alpha and beta never decrease and their sum grew by n. */
  lemma {:induction false} RewardsAccumulate(a: Arm, rewards: seq<real>)
    ensures RewardedAll(a, rewards).trials == a.trials + |rewards| as real
    ensures RewardedAll(a, rewards).rewardSum == a.rewardSum + Sum(rewards)
    ensures RewardedAll(a, rewards).alpha + RewardedAll(a, rewards).beta == a.alpha + a.beta + |rewards| as real
    ensures a.alpha <= RewardedAll(a, rewards).alpha && a.beta <= RewardedAll(a, rewards).beta
    decreases |rewards|
  {
    if rewards != [] {
      RewardsAccumulate(Rewarded(a, rewards[0]), rewards[1..]);
    }
  }

  /** Every reward in [lo, hi] keeps the sum within n * lo and n * hi. */
  lemma {:induction false} SumBounds(xs: seq<real>, lo: real, hi: real)
    requires forall i :: 0 <= i < |xs| ==> lo <= xs[i] <= hi
    ensures |xs| as real * lo <= Sum(xs) <= |xs| as real * hi
    decreases |xs|
  {
    if xs != [] {
      SumBounds(xs[1..], lo, hi);
    }
  }

  /** The average reward of a fresh arm after any rewards in [lo, hi] lies in
      [lo, hi] (and is 0 before the first reward). */
  lemma AverageWithinRewards(priors: Priors, rewards: seq<real>, lo: real, hi: real)
    requires 0 < |rewards|
    requires forall i :: 0 <= i < |rewards| ==> lo <= rewards[i] <= hi
    ensures lo <= AvgReward(RewardedAll(NewArm(priors), rewards)) <= hi
  {
    var start := NewArm(priors);
    var a := RewardedAll(start, rewards);
    var n := |rewards| as real;
    assert start.trials == 0.0 && start.rewardSum == 0.0;
    RewardsAccumulate(start, rewards);
    SumBounds(rewards, lo, hi);
    assert 0.0 < n;
    QuotientBounds(Sum(rewards), n, lo, hi);
    assert AvgReward(a) == Sum(rewards) / n;
  }

  /** Dividing n * lo <= s <= n * hi by a positive n. */
  lemma QuotientBounds(s: real, n: real, lo: real, hi: real)
    requires 0.0 < n
    requires n * lo <= s
    requires s <= n * hi
    ensures lo <= s / n <= hi
  {
    assert (s / n) * n == s;
  }

  /** Positive alpha and beta stay positive under every reward. */
  lemma PositiveArmsStayPositive(a: Arm, reward: real)
    requires 0.0 < a.alpha && 0.0 < a.beta
    ensures 0.0 < Rewarded(a, reward).alpha && 0.0 < Rewarded(a, reward).beta
  {
  }

  /** An arm created from a class prior of the table starts with positive
      alpha and beta. */
  lemma ClassPriorArmIsPositive(cls: Js.JsValue)
    ensures var prior := GetProviderPrior(cls);
      var a := NewArm(Priors(Some(prior.alpha), Some(prior.beta)));
      0.0 < a.alpha && 0.0 < a.beta
  {
    PriorsArePositive(cls);
  }
}
