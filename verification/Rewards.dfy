/** service/backend/pchain/account.go, getPendingRewardsBalance: who will get which part of a validator's rewards. */
module Rewards {
  import opened Prelude
  import opened PchainModel

  datatype Delegator = Delegator(potentialReward: uint64, owners: seq<ShortID>)

  /** feePpm is the delegation fee in parts per million. */
  datatype Validator = Validator(potentialReward: uint64, owners: seq<ShortID>, feePpm: nat, delegators: seq<Delegator>)

  datatype Pending = Pending(validator: nat, fees: nat, delegation: int) {
    function Total(): int {
      validator + fees + delegation
    }
  }

  const MILLION := 1_000_000

  function Fee(reward: uint64, ppm: nat): nat {
    reward * ppm / MILLION
  }

  /** What addr gets out of one delegation. */
  function FeeShare(v: Validator, d: Delegator, addr: ShortID): nat {
    if addr in v.owners then Fee(d.potentialReward, v.feePpm) else 0
  }

  function DelegatorShare(v: Validator, d: Delegator, addr: ShortID): int {
    if addr in d.owners then d.potentialReward - Fee(d.potentialReward, v.feePpm) else 0
  }

  function Delegations(v: Validator, ds: seq<Delegator>, addr: ShortID): Pending {
    if ds == [] then Pending(0, 0, 0)
    else
      var d := ds[|ds| - 1];
      var before := Delegations(v, ds[..|ds| - 1], addr);
      Pending(0, before.fees + FeeShare(v, d, addr), before.delegation + DelegatorShare(v, d, addr))
  }

  function OwnReward(v: Validator, addr: ShortID): nat {
    if addr in v.owners then v.potentialReward else 0
  }

  function RewardsOf(vs: seq<Validator>, addr: ShortID): Pending {
    if vs == [] then Pending(0, 0, 0)
    else
      var v := vs[|vs| - 1];
      var before, ds := RewardsOf(vs[..|vs| - 1], addr), Delegations(v, v.delegators, addr);
      Pending(before.validator + OwnReward(v, addr), before.fees + ds.fees, before.delegation + ds.delegation)
  }

  method GetPendingRewards(validators: seq<Validator>, addr: ShortID) returns (r: Pending, total: int)
    ensures r == RewardsOf(validators, addr) && total == r.Total()
  {
    var validatorRewards: nat, delegationFeeRewards: nat, delegationRewards: int := 0, 0, 0;
    hide Delegations;
    for i := 0 to |validators|
      invariant Pending(validatorRewards, delegationFeeRewards, delegationRewards) == RewardsOf(validators[..i], addr)
    {
      var v := validators[i];
      assert validators[..i + 1][..i] == validators[..i];
      var isValidatorOwner := false;
      if addr in v.owners {
        validatorRewards := validatorRewards + v.potentialReward;
        isValidatorOwner := true;
      }
      delegationFeeRewards, delegationRewards :=
        AddDelegations(v, addr, isValidatorOwner, delegationFeeRewards, delegationRewards);
    }
    assert validators[..|validators|] == validators;
    r := Pending(validatorRewards, delegationFeeRewards, delegationRewards);
    total := validatorRewards + delegationFeeRewards + delegationRewards;
  }

  /** The loop over one validator's delegators, added to the sums so far. */
  method AddDelegations(v: Validator, addr: ShortID, isValidatorOwner: bool, fees: nat, delegation: int)
    returns (delegationFeeRewards: nat, delegationRewards: int)
    requires isValidatorOwner <==> addr in v.owners
    ensures delegationFeeRewards == fees + Delegations(v, v.delegators, addr).fees
    ensures delegationRewards == delegation + Delegations(v, v.delegators, addr).delegation
  {
    delegationFeeRewards, delegationRewards := fees, delegation;
    hide Fee;
    for j := 0 to |v.delegators|
      invariant delegationFeeRewards == fees + Delegations(v, v.delegators[..j], addr).fees
      invariant delegationRewards == delegation + Delegations(v, v.delegators[..j], addr).delegation
    {
      var d := v.delegators[j];
      assert v.delegators[..j + 1][..j] == v.delegators[..j];
      var delegationFee := Fee(d.potentialReward, v.feePpm);
      if isValidatorOwner {
        delegationFeeRewards := delegationFeeRewards + delegationFee;
      }
      if addr in d.owners {
        var delegateReward := d.potentialReward - delegationFee;
        delegationRewards := delegationRewards + delegateReward;
      }
    }
    assert v.delegators[..|v.delegators|] == v.delegators;
  }

  /** A fee of at most a million parts per million leaves both sides something between nothing and the reward. */
  lemma FeeInRange(reward: uint64, ppm: nat)
    requires ppm <= MILLION
    ensures 0 <= Fee(reward, ppm) <= reward
  {
    MulLe(ppm, MILLION, reward);
  }

  /** One more delegation: the fee is the reward's share in parts per million, rounded down; the validator's owners get
      it, and the delegation's owners get the rest. */
  lemma OneMoreDelegation(v: Validator, ds: seq<Delegator>, d: Delegator, addr: ShortID, fee: nat)
    requires fee * 1_000_000 <= d.potentialReward * v.feePpm < (fee + 1) * 1_000_000
    ensures var before, after := Delegations(v, ds, addr), Delegations(v, ds + [d], addr);
            && after.fees == before.fees + (if addr in v.owners then fee else 0)
            && after.delegation == before.delegation + (if addr in d.owners then d.potentialReward - fee else 0)
    ensures Delegations(v, [], addr) == Pending(0, 0, 0)
  {
    assert (ds + [d])[..|ds|] == ds;
    assert Fee(d.potentialReward, v.feePpm) == fee;
  }

  /** One more validator: its own reward for its owners, and what its delegations give. */
  lemma OneMoreValidator(vs: seq<Validator>, v: Validator, addr: ShortID)
    ensures var before, after, ds := RewardsOf(vs, addr), RewardsOf(vs + [v], addr), Delegations(v, v.delegators, addr);
            && after.validator == before.validator + (if addr in v.owners then v.potentialReward else 0)
            && after.fees == before.fees + ds.fees && after.delegation == before.delegation + ds.delegation
    ensures RewardsOf([], addr) == Pending(0, 0, 0)
    ensures var p := RewardsOf(vs, addr); p.Total() == p.validator + p.fees + p.delegation
  {
    hide Delegations;
    assert (vs + [v])[..|vs|] == vs;
  }

  lemma MulLe(a: nat, b: nat, c: nat)
    requires a <= b
    ensures c * a <= c * b
  {
  }

  // ---------------------------------------------------------------- conservation

  /** Everybody's total over a list of addresses. */
  function TotalOver(vs: seq<Validator>, addrs: seq<ShortID>): int {
    if addrs == [] then 0 else TotalOver(vs, addrs[..|addrs| - 1]) + RewardsOf(vs, addrs[|addrs| - 1]).Total()
  }

  function DelegatorRewards(ds: seq<Delegator>): nat {
    if ds == [] then 0 else DelegatorRewards(ds[..|ds| - 1]) + ds[|ds| - 1].potentialReward
  }

  /** All rewards there are. */
  function AllRewards(vs: seq<Validator>): nat {
    if vs == [] then 0
    else AllRewards(vs[..|vs| - 1]) + vs[|vs| - 1].potentialReward + DelegatorRewards(vs[|vs| - 1].delegators)
  }

  ghost predicate Distinct(addrs: seq<ShortID>) {
    forall i, j :: 0 <= i < j < |addrs| ==> addrs[i] != addrs[j]
  }

  /** How many of the addresses are owners. */
  function Hits(owners: seq<ShortID>, addrs: seq<ShortID>): nat {
    if addrs == [] then 0 else Hits(owners, addrs[..|addrs| - 1]) + if addrs[|addrs| - 1] in owners then 1 else 0
  }

  /** Paid out of one delegation: every owner of the validator gets the fee, every owner of the delegation the rest. */
  function PaidDelegation(v: Validator, d: Delegator, addrs: seq<ShortID>): int {
    var fee := Fee(d.potentialReward, v.feePpm);
    Hits(v.owners, addrs) * fee + Hits(d.owners, addrs) * (d.potentialReward - fee)
  }

  function PaidDelegations(v: Validator, ds: seq<Delegator>, addrs: seq<ShortID>): int {
    if ds == [] then 0 else PaidDelegations(v, ds[..|ds| - 1], addrs) + PaidDelegation(v, ds[|ds| - 1], addrs)
  }

  function Paid(vs: seq<Validator>, addrs: seq<ShortID>): int {
    if vs == [] then 0
    else
      var v := vs[|vs| - 1];
      Paid(vs[..|vs| - 1], addrs) + Hits(v.owners, addrs) * v.potentialReward + PaidDelegations(v, v.delegators, addrs)
  }

  lemma HitsStep(hits: nat, one: bool, x: int)
    ensures (hits + if one then 1 else 0) * x == hits * x + if one then x else 0
  {
  }

  lemma {:induction false} PaidDelegationsStep(v: Validator, ds: seq<Delegator>, addrs: seq<ShortID>, a: ShortID)
    ensures PaidDelegations(v, ds, addrs + [a])
            == PaidDelegations(v, ds, addrs) + Delegations(v, ds, a).fees + Delegations(v, ds, a).delegation
  {
    if ds == [] { return; }
    var n := |ds| - 1;
    PaidDelegationsStep(v, ds[..n], addrs, a);
    PaidDelegationStep(v, ds[n], addrs, a);
    hide PaidDelegation, FeeShare, DelegatorShare;
  }

  lemma PaidDelegationStep(v: Validator, d: Delegator, addrs: seq<ShortID>, a: ShortID)
    ensures PaidDelegation(v, d, addrs + [a])
            == PaidDelegation(v, d, addrs) + FeeShare(v, d, a) + DelegatorShare(v, d, a)
  {
    var fee := Fee(d.potentialReward, v.feePpm);
    assert (addrs + [a])[..|addrs|] == addrs;
    HitsStep(Hits(v.owners, addrs), a in v.owners, fee);
    HitsStep(Hits(d.owners, addrs), a in d.owners, d.potentialReward - fee);
    hide Fee;
  }

  lemma OwnStep(v: Validator, addrs: seq<ShortID>, a: ShortID)
    ensures Hits(v.owners, addrs + [a]) * v.potentialReward
            == Hits(v.owners, addrs) * v.potentialReward + OwnReward(v, a)
  {
    assert (addrs + [a])[..|addrs|] == addrs;
    HitsStep(Hits(v.owners, addrs), a in v.owners, v.potentialReward);
  }

  lemma {:induction false} PaidStep(vs: seq<Validator>, addrs: seq<ShortID>, a: ShortID)
    ensures Paid(vs, addrs + [a]) == Paid(vs, addrs) + RewardsOf(vs, a).Total()
  {
    if vs == [] { return; }
    var n := |vs| - 1;
    PaidStep(vs[..n], addrs, a);
    PaidDelegationsStep(vs[n], vs[n].delegators, addrs, a);
    OwnStep(vs[n], addrs, a);
    hide PaidDelegations, Delegations, Hits, OwnReward;
  }

  lemma {:induction false} NobodyPaid(vs: seq<Validator>)
    ensures Paid(vs, []) == 0
  {
    if vs == [] { return; }
    NobodyPaid(vs[..|vs| - 1]);
    NobodyPaidDelegations(vs[|vs| - 1], vs[|vs| - 1].delegators);
  }

  lemma {:induction false} NobodyPaidDelegations(v: Validator, ds: seq<Delegator>)
    ensures PaidDelegations(v, ds, []) == 0
  {
    if ds != [] { NobodyPaidDelegations(v, ds[..|ds| - 1]); }
  }

  lemma TotalStep(vs: seq<Validator>, addrs: seq<ShortID>, a: ShortID)
    ensures TotalOver(vs, addrs + [a]) == TotalOver(vs, addrs) + RewardsOf(vs, a).Total()
  {
    hide RewardsOf;
    assert (addrs + [a])[..|addrs|] == addrs;
  }

  /** The totals shown to a list of addresses add up to each reward as often as the list names one of its owners. */
  lemma {:induction false} TotalsArePaid(vs: seq<Validator>, addrs: seq<ShortID>)
    ensures TotalOver(vs, addrs) == Paid(vs, addrs)
  {
    if addrs == [] {
      NobodyPaid(vs);
      return;
    }
    hide *;
    var n := |addrs| - 1;
    var before, last := addrs[..n], addrs[n];
    assert before + [last] == addrs;
    TotalsArePaid(vs, before);
    PaidStep(vs, before, last);
    TotalStep(vs, before, last);
  }

  /** Every owner list has one address, and it is on the list. */
  predicate SingleOwners(vs: seq<Validator>, addrs: seq<ShortID>) {
    forall i :: 0 <= i < |vs| ==> SingleOwned(vs[i], addrs)
  }

  predicate SingleOwned(v: Validator, addrs: seq<ShortID>) {
    |v.owners| == 1 && v.owners[0] in addrs && DelegationsOwned(v.delegators, addrs)
  }

  predicate DelegationsOwned(ds: seq<Delegator>, addrs: seq<ShortID>) {
    forall i :: 0 <= i < |ds| ==> |ds[i].owners| == 1 && ds[i].owners[0] in addrs
  }

  lemma {:induction false} HitsOnce(owners: seq<ShortID>, addrs: seq<ShortID>)
    requires Distinct(addrs) && |owners| == 1
    ensures Hits(owners, addrs) == if owners[0] in addrs then 1 else 0
  {
    if addrs == [] { return; }
    var n := |addrs| - 1;
    HitsOnce(owners, addrs[..n]);
    assert owners[0] in addrs <==> owners[0] in addrs[..n] || owners[0] == addrs[n];
  }

  lemma {:induction false} DelegationsPaidOnce(v: Validator, ds: seq<Delegator>, addrs: seq<ShortID>)
    requires Distinct(addrs) && |v.owners| == 1 && v.owners[0] in addrs && DelegationsOwned(ds, addrs)
    ensures PaidDelegations(v, ds, addrs) == DelegatorRewards(ds)
  {
    if ds == [] { return; }
    var n := |ds| - 1;
    DelegationsPaidOnce(v, ds[..n], addrs);
    HitsOnce(v.owners, addrs);
    HitsOnce(ds[n].owners, addrs);
    hide Hits, Fee;
  }

  /** Floor division loses nothing: the totals of all distinct single owners are exactly all rewards. */
  lemma {:induction false} RewardsConserved(vs: seq<Validator>, addrs: seq<ShortID>)
    requires Distinct(addrs) && SingleOwners(vs, addrs)
    ensures TotalOver(vs, addrs) == AllRewards(vs)
  {
    TotalsArePaid(vs, addrs);
    PaidOnce(vs, addrs);
  }

  lemma {:induction false} PaidOnce(vs: seq<Validator>, addrs: seq<ShortID>)
    requires Distinct(addrs) && SingleOwners(vs, addrs)
    ensures Paid(vs, addrs) == AllRewards(vs)
  {
    if vs == [] { return; }
    var n := |vs| - 1;
    assert SingleOwned(vs[n], addrs);
    PaidOnce(vs[..n], addrs);
    HitsOnce(vs[n].owners, addrs);
    DelegationsPaidOnce(vs[n], vs[n].delegators, addrs);
    hide Hits, PaidDelegations, DelegatorRewards;
  }
}
