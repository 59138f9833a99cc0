/** service/backend/pchain/account.go: UTXOs filtered, sorted into buckets and summed with overflow checks. */
module Balances {
  import opened Prelude
  import opened PchainModel

  // ---------------------------------------------------------------- buckets

  datatype Bucket = Unlocked | LockedStakeable | LockedNotStakeable

  datatype AccountBalance = AccountBalance(total: uint64, unlocked: uint64, staked: uint64, lockedStakeable: uint64,
                                           lockedNotStakeable: uint64)

  /** Where an output counts at the given time; None for outputs of other types. */
  function BucketOf(out: Output, now: uint64): Option<Bucket> {
    match out
    case Transfer(t) => Some(if t.locktime <= now then Unlocked else LockedNotStakeable)
    case LockOut(locktime, inner) =>
      if !inner.Transfer? then None
      else if inner.out.locktime > now then Some(LockedNotStakeable)
      else if locktime <= now then Some(Unlocked)
      else Some(LockedStakeable)
    case OtherOutput(_, _) => None
  }

  function InBucket(u: Utxo, now: uint64, b: Bucket): nat {
    if BucketOf(u.out, now) == Some(b) then OutputAmount(u.out) else 0
  }

  function BucketSum(utxos: seq<Utxo>, now: uint64, b: Bucket): nat {
    SumBy(utxos, u => InBucket(u, now, b))
  }

  /** The sum over all buckets. */
  function RecognisedSum(utxos: seq<Utxo>, now: uint64): nat {
    BucketSum(utxos, now, Unlocked) + BucketSum(utxos, now, LockedStakeable) + BucketSum(utxos, now, LockedNotStakeable)
  }

  lemma BucketSumStep(utxos: seq<Utxo>, now: uint64, b: Bucket, i: nat)
    requires i < |utxos|
    ensures BucketSum(utxos[..i + 1], now, b) == BucketSum(utxos[..i], now, b) + InBucket(utxos[i], now, b)
    ensures BucketSum(utxos[..i + 1], now, b) <= RecognisedSum(utxos, now)
  {
    assert utxos[..i + 1][..i] == utxos[..i];
    SumByPrefix(utxos, i + 1, (u: Utxo) => InBucket(u, now, b));
    hide InBucket;
  }

  // ---------------------------------------------------------------- the same by locktimes

  /** What a transfer records, plain or behind one lock; nothing else is recognised. */
  function Recorded(out: Output): nat {
    if out.Transfer? then out.out.amount
    else if out.LockOut? && out.inner.Transfer? then out.inner.out.amount
    else 0
  }

  /** The transfer's own locktime is still to come. */
  predicate OwnLocked(out: Output, now: uint64) {
    (out.Transfer? && out.out.locktime > now)
    || (out.LockOut? && out.inner.Transfer? && out.inner.out.locktime > now)
  }

  /** The locktime of the lock around it is. */
  predicate OuterLocked(out: Output, now: uint64) {
    out.LockOut? && out.locktime > now
  }

  function FreePart(u: Utxo, now: uint64): nat {
    if OwnLocked(u.out, now) || OuterLocked(u.out, now) then 0 else Recorded(u.out)
  }

  function OwnLockedPart(u: Utxo, now: uint64): nat {
    if OwnLocked(u.out, now) then Recorded(u.out) else 0
  }

  function OuterLockedPart(u: Utxo, now: uint64): nat {
    if !OwnLocked(u.out, now) && OuterLocked(u.out, now) then Recorded(u.out) else 0
  }

  function FreeSum(utxos: seq<Utxo>, now: uint64): nat {
    SumBy(utxos, u => FreePart(u, now))
  }

  function OwnLockedSum(utxos: seq<Utxo>, now: uint64): nat {
    SumBy(utxos, u => OwnLockedPart(u, now))
  }

  function OuterLockedSum(utxos: seq<Utxo>, now: uint64): nat {
    SumBy(utxos, u => OuterLockedPart(u, now))
  }

  lemma BucketByLocktime(u: Utxo, now: uint64)
    ensures InBucket(u, now, Unlocked) == FreePart(u, now)
    ensures InBucket(u, now, LockedNotStakeable) == OwnLockedPart(u, now)
    ensures InBucket(u, now, LockedStakeable) == OuterLockedPart(u, now)
  {
    if u.out.LockOut? && u.out.inner.Transfer? { assert OutputAmount(u.out.inner) == u.out.inner.out.amount; }
  }

  /** Unlocked is what no locktime holds back, not stakeable what its own locktime does, and stakeable what only the
      lock around it does. */
  lemma BucketsByLocktime(utxos: seq<Utxo>, now: uint64)
    ensures BucketSum(utxos, now, Unlocked) == FreeSum(utxos, now)
    ensures BucketSum(utxos, now, LockedNotStakeable) == OwnLockedSum(utxos, now)
    ensures BucketSum(utxos, now, LockedStakeable) == OuterLockedSum(utxos, now)
  {
    forall u: Utxo
      ensures InBucket(u, now, Unlocked) == FreePart(u, now)
      ensures InBucket(u, now, LockedNotStakeable) == OwnLockedPart(u, now)
      ensures InBucket(u, now, LockedStakeable) == OuterLockedPart(u, now)
    {
      BucketByLocktime(u, now);
    }
    hide InBucket, FreePart, OwnLockedPart, OuterLockedPart;
    SameSums(utxos, (u: Utxo) => InBucket(u, now, Unlocked), (u: Utxo) => FreePart(u, now));
    SameSums(utxos, (u: Utxo) => InBucket(u, now, LockedNotStakeable), (u: Utxo) => OwnLockedPart(u, now));
    SameSums(utxos, (u: Utxo) => InBucket(u, now, LockedStakeable), (u: Utxo) => OuterLockedPart(u, now));
  }

  lemma {:induction false} SameSums(utxos: seq<Utxo>, f: Utxo -> nat, g: Utxo -> nat)
    requires forall u :: f(u) == g(u)
    ensures SumBy(utxos, f) == SumBy(utxos, g)
  {
    if utxos != [] { SameSums(utxos[..|utxos| - 1], f, g); }
  }

  /** One more output that is the transfer t behind a lock until outer, or behind none when outer is zero, goes to
      exactly one of the three. */
  lemma OneMoreOutput(utxos: seq<Utxo>, u: Utxo, t: TransferOutput, outer: uint64, now: uint64)
    requires (u.out == Transfer(t) && outer == 0) || u.out == LockOut(outer, Transfer(t))
    ensures FreeSum(utxos + [u], now)
            == FreeSum(utxos, now) + if t.locktime <= now && outer <= now then t.amount else 0
    ensures OwnLockedSum(utxos + [u], now) == OwnLockedSum(utxos, now) + if t.locktime > now then t.amount else 0
    ensures OuterLockedSum(utxos + [u], now)
            == OuterLockedSum(utxos, now) + if t.locktime <= now && outer > now then t.amount else 0
  {
    SumBySnoc(utxos, u, (x: Utxo) => FreePart(x, now));
    SumBySnoc(utxos, u, (x: Utxo) => OwnLockedPart(x, now));
    SumBySnoc(utxos, u, (x: Utxo) => OuterLockedPart(x, now));
  }

  /** All that is recognised, whatever locks it. */
  function WholeSum(utxos: seq<Utxo>, now: uint64): nat {
    FreeSum(utxos, now) + OuterLockedSum(utxos, now) + OwnLockedSum(utxos, now)
  }

  lemma WholeIsRecognised(utxos: seq<Utxo>, now: uint64)
    ensures RecognisedSum(utxos, now) == WholeSum(utxos, now)
  {
    BucketsByLocktime(utxos, now);
    hide BucketSum, FreeSum, OuterLockedSum, OwnLockedSum;
  }

  /** math.Add64. */
  function Add64(a: uint64, b: uint64): Option<uint64> {
    if a + b < TWO_64 then Some(a + b) else None
  }

  /** The accumulator after a prefix, which has no total yet. */
  ghost predicate Sums(acc: AccountBalance, utxos: seq<Utxo>, now: uint64) {
    && acc.total == 0 && acc.staked == 0
    && acc.unlocked == BucketSum(utxos, now, Unlocked)
    && acc.lockedStakeable == BucketSum(utxos, now, LockedStakeable)
    && acc.lockedNotStakeable == BucketSum(utxos, now, LockedNotStakeable)
  }

  function AmountIn(acc: AccountBalance, b: Bucket): uint64 {
    match b
    case Unlocked => acc.unlocked
    case LockedStakeable => acc.lockedStakeable
    case LockedNotStakeable => acc.lockedNotStakeable
  }

  function WithAmount(acc: AccountBalance, b: Bucket, x: uint64): AccountBalance {
    match b
    case Unlocked => acc.(unlocked := x)
    case LockedStakeable => acc.(lockedStakeable := x)
    case LockedNotStakeable => acc.(lockedNotStakeable := x)
  }

  lemma SumsStep(acc: AccountBalance, utxos: seq<Utxo>, now: uint64, i: nat)
    requires i < |utxos| && Sums(acc, utxos[..i], now)
    ensures BucketOf(utxos[i].out, now).None? ==> Sums(acc, utxos[..i + 1], now)
    ensures BucketOf(utxos[i].out, now).Some? ==>
              var b := BucketOf(utxos[i].out, now).value;
              var sum := AmountIn(acc, b) + OutputAmount(utxos[i].out);
              sum <= RecognisedSum(utxos, now)
              && (sum < TWO_64 ==> Sums(WithAmount(acc, b, sum), utxos[..i + 1], now))
  {
    BucketSumStep(utxos, now, Unlocked, i);
    BucketSumStep(utxos, now, LockedStakeable, i);
    BucketSumStep(utxos, now, LockedNotStakeable, i);
    hide BucketOf, OutputAmount, RecognisedSum, BucketSum;
  }

  /** Each recognised UTXO counts in exactly one bucket; the sums are exact, with an error exactly if all of them
      together do not fit. */
  method GetBalancesWithoutMultisig(utxos: seq<Utxo>, now: uint64) returns (r: Result<AccountBalance, ()>)
    ensures r.Err? <==> WholeSum(utxos, now) >= TWO_64
    ensures r.Ok? ==>
              r.value == AccountBalance(WholeSum(utxos, now), FreeSum(utxos, now), 0, OuterLockedSum(utxos, now),
                                        OwnLockedSum(utxos, now))
  {
    BucketsByLocktime(utxos, now);
    WholeIsRecognised(utxos, now);
    var acc := AccountBalance(0, 0, 0, 0, 0);
    assert Sums(acc, utxos[..0], now);
    hide Sums, BucketSum, BucketOf, OutputAmount, FreeSum, OuterLockedSum, OwnLockedSum, WholeSum;
    for i := 0 to |utxos|
      invariant Sums(acc, utxos[..i], now)
    {
      SumsStep(acc, utxos, now, i);
      var bucket := BucketOf(utxos[i].out, now);
      if bucket.None? {
        continue;
      }
      var newBalance := Add64(AmountIn(acc, bucket.value), OutputAmount(utxos[i].out));
      if newBalance.None? {
        return Err(());
      }
      acc := WithAmount(acc, bucket.value, newBalance.value);
    }
    assert utxos[..|utxos|] == utxos;
    var locked := Add64(acc.lockedStakeable, acc.lockedNotStakeable);
    if locked.None? {
      return Err(());
    }
    var total := Add64(acc.unlocked, locked.value);
    if total.None? {
      return Err(());
    }
    r := Ok(acc.(total := total.value));
  }

  // ---------------------------------------------------------------- order does not matter

  lemma BucketSumPermuted(a: seq<Utxo>, b: seq<Utxo>, now: uint64, k: Bucket)
    requires multiset(a) == multiset(b)
    ensures BucketSum(a, now, k) == BucketSum(b, now, k)
  {
    SumByPermuted(a, b, (u: Utxo) => InBucket(u, now, k));
  }

  // ---------------------------------------------------------------- filtering

  /** The currencies asked for; none means all. */
  predicate Asked(assets: set<ID>, asset: ID) {
    assets == {} || asset in assets
  }

  /** The first entry with its id among those before i that have an asked-for asset. */
  ghost predicate Repeated(utxos: seq<Utxo>, assets: set<ID>, i: nat)
    requires i < |utxos|
  {
    exists k :: 0 <= k < i && Asked(assets, utxos[k].asset) && utxos[k].id == utxos[i].id
  }

  /** Entry i is the first of its id with an asked-for asset. */
  ghost predicate Fresh(utxos: seq<Utxo>, assets: set<ID>, i: nat)
    requires i < |utxos|
  {
    Asked(assets, utxos[i].asset) && !Repeated(utxos, assets, i)
  }

  /** It is kept unless several addresses share it. */
  predicate Sole(out: Output) {
    Addresses(out).Some? && |Addresses(out).value| <= 1
  }

  ghost function Kept(utxos: seq<Utxo>, assets: set<ID>): seq<Utxo> {
    if utxos == [] then []
    else
      var n := |utxos| - 1;
      Kept(utxos[..n], assets) + if Fresh(utxos, assets, n) && Sole(utxos[n].out) then [utxos[n]] else []
  }

  /** Every first entry lists its addresses, and every entry decodes. */
  ghost predicate Filterable(entries: seq<Option<Utxo>>, assets: set<ID>) {
    && (forall i :: 0 <= i < |entries| ==> entries[i].Some?)
    && forall i :: 0 <= i < |entries| && Fresh(Values(entries), assets, i) ==> Addresses(entries[i].value.out).Some?
  }

  ghost function Values(entries: seq<Option<Utxo>>): seq<Utxo>
    requires forall i :: 0 <= i < |entries| ==> entries[i].Some?
  {
    seq(|entries|, i requires 0 <= i < |entries| => entries[i].value)
  }

  /** The ids seen so far, which are those of asked-for assets. */
  ghost function SeenIds(utxos: seq<Utxo>, assets: set<ID>): set<UtxoID> {
    set i | 0 <= i < |utxos| && Asked(assets, utxos[i].asset) :: utxos[i].id
  }

  /** What holds of a decoded prefix. */
  ghost predicate Progress(utxos: seq<Utxo>, assets: set<ID>, seen: set<UtxoID>, kept: seq<Utxo>) {
    && seen == SeenIds(utxos, assets) && kept == Kept(utxos, assets)
    && forall i :: 0 <= i < |utxos| && Fresh(utxos, assets, i) ==> Addresses(utxos[i].out).Some?
  }

  lemma FreshPrefix(utxos: seq<Utxo>, assets: set<ID>, n: nat, i: nat)
    requires i < n <= |utxos|
    ensures Fresh(utxos[..n], assets, i) <==> Fresh(utxos, assets, i)
  {
    if k :| 0 <= k < i && Asked(assets, utxos[k].asset) && utxos[k].id == utxos[i].id {
      assert utxos[..n][k].id == utxos[..n][i].id;
    }
  }

  lemma SeenMeansRepeated(utxos: seq<Utxo>, assets: set<ID>, i: nat)
    requires i < |utxos|
    ensures utxos[i].id in SeenIds(utxos[..i], assets) <==> Repeated(utxos, assets, i)
  {
    var id := utxos[i].id;
    if id in SeenIds(utxos[..i], assets) {
      var k :| 0 <= k < i && Asked(assets, utxos[..i][k].asset) && utxos[..i][k].id == id;
      assert Asked(assets, utxos[k].asset) && utxos[k].id == utxos[i].id;
    }
    if k :| 0 <= k < i && Asked(assets, utxos[k].asset) && utxos[k].id == id {
      assert utxos[..i][k].id == id;
    }
  }

  lemma ProgressStep(utxos: seq<Utxo>, assets: set<ID>, i: nat, seen: set<UtxoID>, kept: seq<Utxo>)
    requires i < |utxos| && Progress(utxos[..i], assets, seen, kept)
    ensures utxos[i].id in seen <==> Repeated(utxos, assets, i)
    ensures var u := utxos[i];
            if !Asked(assets, u.asset) then Progress(utxos[..i + 1], assets, seen, kept)
            else if u.id in seen then Progress(utxos[..i + 1], assets, seen, kept)
            else
              && Fresh(utxos, assets, i)
              && (Addresses(u.out).Some? ==>
                    Progress(utxos[..i + 1], assets, seen + {u.id}, if Sole(u.out) then kept + [u] else kept))
  {
    SeenMeansRepeated(utxos, assets, i);
    var next := utxos[..i + 1];
    assert next[..i] == utxos[..i];
    FreshPrefix(utxos, assets, i + 1, i);
    forall k | 0 <= k < i ensures Fresh(next, assets, k) <==> Fresh(utxos[..i], assets, k) {
      FreshPrefix(utxos, assets, i, k);
      FreshPrefix(utxos, assets, i + 1, k);
    }
    SeenStep(utxos, assets, i);
    hide Fresh, Repeated, Addresses, SeenIds, Asked;
  }

  lemma SeenStep(utxos: seq<Utxo>, assets: set<ID>, i: nat)
    requires i < |utxos|
    ensures SeenIds(utxos[..i + 1], assets)
            == SeenIds(utxos[..i], assets) + if Asked(assets, utxos[i].asset) then {utxos[i].id} else {}
  {
    hide Asked;
    var a, b := utxos[..i + 1], utxos[..i];
    assert forall k :: 0 <= k < i ==> a[k] == b[k];
    assert a[i] == utxos[i];
  }

  predicate AllDecode(entries: seq<Option<Utxo>>) {
    forall i :: 0 <= i < |entries| ==> entries[i].Some?
  }

  /** The first |utxos| entries decode to utxos. */
  ghost predicate Decoded(entries: seq<Option<Utxo>>, utxos: seq<Utxo>) {
    |utxos| <= |entries| && forall k :: 0 <= k < |utxos| ==> entries[k] == Some(utxos[k])
  }

  lemma DecodedStep(entries: seq<Option<Utxo>>, utxos: seq<Utxo>, u: Utxo)
    requires Decoded(entries, utxos) && |utxos| < |entries| && entries[|utxos|] == Some(u)
    ensures Decoded(entries, utxos + [u]) && (utxos + [u])[..|utxos|] == utxos
    ensures (utxos + [u])[..|utxos| + 1] == utxos + [u]
  {
  }

  lemma Started(entries: seq<Option<Utxo>>, assets: set<ID>)
    ensures Decoded(entries, []) && Progress([], assets, {}, [])
  {
  }

  lemma NoAddresses(entries: seq<Option<Utxo>>, assets: set<ID>, utxos: seq<Utxo>, i: nat)
    requires i < |entries| && |utxos| == i + 1 && Decoded(entries, utxos)
    requires Fresh(utxos, assets, i) && Addresses(utxos[i].out).None?
    ensures !Filterable(entries, assets)
  {
    if AllDecode(entries) {
      assert Values(entries)[..i + 1] == utxos;
      FreshPrefix(Values(entries), assets, i + 1, i);
    }
  }

  lemma AllFiltered(entries: seq<Option<Utxo>>, assets: set<ID>, utxos: seq<Utxo>, seen: set<UtxoID>, kept: seq<Utxo>)
    requires |utxos| == |entries| && Decoded(entries, utxos)
    requires Progress(utxos, assets, seen, kept)
    ensures Filterable(entries, assets) && kept == Kept(Values(entries), assets)
  {
    assert Values(entries) == utxos;
    hide Fresh, Kept;
  }

  /** Undecodable bytes and unaddressable first entries are errors; otherwise the first entry of each id with an
      asked-for asset is kept unless it has several addresses. */
  method ParseAndFilterUTXOs(entries: seq<Option<Utxo>>, assets: set<ID>) returns (r: Result<seq<Utxo>, ()>)
    ensures r.Err? <==> !Filterable(entries, assets)
    ensures r.Ok? ==> r.value == Kept(Values(entries), assets)
  {
    var kept: seq<Utxo> := [];
    var utxoIDs: set<UtxoID> := {};
    ghost var utxos: seq<Utxo> := [];
    Started(entries, assets);
    hide Progress, Filterable, Kept, Fresh, Repeated, Addresses, Decoded;
    for i := 0 to |entries|
      invariant |utxos| == i && Decoded(entries, utxos)
      invariant Progress(utxos, assets, utxoIDs, kept)
    {
      if entries[i].None? {
        Undecodable(entries, assets, i);
        return Err(());
      }
      var utxo := entries[i].value;
      DecodedStep(entries, utxos, utxo);
      utxos := utxos + [utxo];
      ProgressStep(utxos, assets, i, utxoIDs, kept);
      if assets != {} && utxo.asset !in assets {
        continue;
      }
      if utxo.id in utxoIDs {
        continue;
      }
      utxoIDs := utxoIDs + {utxo.id};
      var addressable := Addresses(utxo.out);
      if addressable.None? {
        NoAddresses(entries, assets, utxos, i);
        return Err(());
      }
      if |addressable.value| > 1 {
        continue;
      }
      kept := kept + [utxo];
    }
    AllFiltered(entries, assets, utxos, utxoIDs, kept);
    r := Ok(kept);
  }

  lemma Undecodable(entries: seq<Option<Utxo>>, assets: set<ID>, i: nat)
    requires i < |entries| && entries[i].None?
    ensures !Filterable(entries, assets)
  {
  }

  // ---------------------------------------------------------------- duplicates do not matter

  /** Equal ids mean equal UTXOs, as on the chain. */
  ghost predicate Consistent(utxos: seq<Utxo>) {
    forall i, j :: 0 <= i < |utxos| && 0 <= j < |utxos| && utxos[i].id == utxos[j].id ==> utxos[i] == utxos[j]
  }

  lemma {:induction false} KeptMember(utxos: seq<Utxo>, assets: set<ID>, u: Utxo)
    requires Consistent(utxos)
    ensures u in Kept(utxos, assets) <==>
            && u in utxos && (assets == {} || u.asset in assets)
            && Addresses(u.out).Some? && |Addresses(u.out).value| <= 1
  {
    if utxos == [] { return; }
    var n := |utxos| - 1;
    KeptMember(utxos[..n], assets, u);
    hide Asked, Sole;
    if u == utxos[n] && Repeated(utxos, assets, n) {
      var k :| 0 <= k < n && Asked(assets, utxos[k].asset) && utxos[k].id == utxos[n].id;
      assert utxos[..n][k] == u;
    }
  }

  ghost predicate DistinctIds(utxos: seq<Utxo>) {
    forall i, j :: 0 <= i < j < |utxos| ==> utxos[i].id != utxos[j].id
  }

  lemma {:induction false} KeptDistinct(utxos: seq<Utxo>, assets: set<ID>)
    ensures DistinctIds(Kept(utxos, assets))
  {
    if utxos == [] { return; }
    var n := |utxos| - 1;
    var before := Kept(utxos[..n], assets);
    KeptDistinct(utxos[..n], assets);
    SeenMeansRepeated(utxos, assets, n);
    forall i | 0 <= i < |before| ensures before[i].id in SeenIds(utxos[..n], assets) {
      KeptIsSeen(utxos[..n], assets, before[i]);
    }
    hide Asked, Sole, SeenIds, Repeated;
  }

  lemma {:induction false} KeptIsSeen(utxos: seq<Utxo>, assets: set<ID>, u: Utxo)
    requires u in Kept(utxos, assets)
    ensures u.id in SeenIds(utxos, assets) && u in utxos
  {
    var n := |utxos| - 1;
    SeenStep(utxos, assets, n);
    assert utxos[..n + 1] == utxos;
    hide Asked, SeenIds, Sole, Repeated;
    if u in Kept(utxos[..n], assets) { KeptIsSeen(utxos[..n], assets, u); }
  }

  lemma DistinctNoDup(s: seq<Utxo>)
    requires DistinctIds(s)
    ensures forall u :: multiset(s)[u] <= 1
  {
    forall u ensures multiset(s)[u] <= 1 {
      if u in s {
        var i :| 0 <= i < |s| && s[i] == u;
        WithoutOne(s, i);
        assert u !in s[..i] + s[i + 1..];
        assert (multiset(s) - multiset{u})[u] == 0;
      }
    }
  }

  predicate SameId(e: Option<Utxo>, f: Option<Utxo>) {
    e.Some? && f.Some? && e.value.id == f.value.id
  }

  /** Equal ids mean equal UTXOs among the entries that decode. */
  ghost predicate ConsistentEntries(entries: seq<Option<Utxo>>) {
    forall i, j :: 0 <= i < |entries| && 0 <= j < |entries| && SameId(entries[i], entries[j]) ==>
      entries[i] == entries[j]
  }

  /** The filter accepts consistent entries if and only if all of them decode, and those asked for list their
      addresses. */
  lemma FilterableIff(entries: seq<Option<Utxo>>, assets: set<ID>)
    requires ConsistentEntries(entries)
    ensures Filterable(entries, assets) <==>
            forall e :: e in entries ==> e.Some? && (Asked(assets, e.value.asset) ==> Addresses(e.value.out).Some?)
  {
    hide Asked, Addresses;
    if forall i :: 0 <= i < |entries| ==> entries[i].Some? {
      if Filterable(entries, assets) {
        forall e | e in entries && Asked(assets, e.value.asset) ensures Addresses(e.value.out).Some? {
          var i :| 0 <= i < |entries| && entries[i] == e;
          FirstOfIts(entries, assets, i);
        }
      }
    }
  }

  /** The first entry with the id of an asked-for one equals it. */
  lemma {:induction false} FirstOfIts(entries: seq<Option<Utxo>>, assets: set<ID>, i: nat)
    requires ConsistentEntries(entries) && (forall k :: 0 <= k < |entries| ==> entries[k].Some?)
    requires i < |entries| && Asked(assets, entries[i].value.asset)
    ensures exists k :: 0 <= k <= i && Fresh(Values(entries), assets, k) && entries[k] == entries[i]
  {
    hide Asked;
    if Repeated(Values(entries), assets, i) {
      var k :| 0 <= k < i && Asked(assets, Values(entries)[k].asset) && Values(entries)[k].id == Values(entries)[i].id;
      FirstOfIts(entries, assets, k);
    } else {
      assert Fresh(Values(entries), assets, i);
    }
  }

  /** Listed again or in another order, as overlapping pages do, the same entries are accepted or refused together. */
  lemma DuplicatesAcceptedTogether(a: seq<Option<Utxo>>, b: seq<Option<Utxo>>, assets: set<ID>)
    requires ConsistentEntries(a) && ConsistentEntries(b) && forall e :: e in a <==> e in b
    ensures Filterable(a, assets) <==> Filterable(b, assets)
  {
    FilterableIff(a, assets);
    FilterableIff(b, assets);
    hide Filterable, ConsistentEntries, Asked, Addresses;
  }

  /** The same UTXOs listed again or in another order, as overlapping pages do, give the same balances. */
  lemma DuplicatesDoNotMatter(a: seq<Utxo>, b: seq<Utxo>, assets: set<ID>, now: uint64, k: Bucket)
    requires Consistent(a) && Consistent(b) && forall u :: u in a <==> u in b
    ensures multiset(Kept(a, assets)) == multiset(Kept(b, assets))
    ensures BucketSum(Kept(a, assets), now, k) == BucketSum(Kept(b, assets), now, k)
    ensures WholeSum(Kept(a, assets), now) == WholeSum(Kept(b, assets), now)
  {
    var ka, kb := Kept(a, assets), Kept(b, assets);
    KeptDistinct(a, assets);
    KeptDistinct(b, assets);
    DistinctNoDup(ka);
    DistinctNoDup(kb);
    forall u ensures multiset(ka)[u] == multiset(kb)[u] {
      KeptMember(a, assets, u);
      KeptMember(b, assets, u);
      assert (u in multiset(ka) <==> u in ka) && (u in multiset(kb) <==> u in kb);
    }
    hide Kept, Consistent, BucketSum;
    assert multiset(ka) == multiset(kb);
    BucketSumPermuted(ka, kb, now, k);
    BucketSumPermuted(ka, kb, now, Unlocked);
    BucketSumPermuted(ka, kb, now, LockedStakeable);
    BucketSumPermuted(ka, kb, now, LockedNotStakeable);
    WholeIsRecognised(ka, now);
    WholeIsRecognised(kb, now);
    hide WholeSum;
  }

  // ---------------------------------------------------------------- staked outputs

  /** An output that counts as staked: a plain transfer, possibly behind a lock. */
  predicate StakeReads(entry: Option<TransferableOutput>) {
    entry.Some? && (Unlock(entry.value.out)).Transfer?
  }

  function Unlock(out: Output): Output {
    if out.LockOut? then out.inner else out
  }

  predicate AllStakeReads(entries: seq<Option<TransferableOutput>>) {
    forall i :: 0 <= i < |entries| ==> StakeReads(entries[i])
  }

  function StakeOf(entry: Option<TransferableOutput>): nat
    requires StakeReads(entry)
  {
    var out := Unlock(entry.value.out).out;
    if |out.addrs| > 1 then 0 else out.amount
  }

  function StakeSum(entries: seq<Option<TransferableOutput>>): nat
    requires AllStakeReads(entries)
  {
    if entries == [] then 0 else StakeSum(entries[..|entries| - 1]) + StakeOf(entries[|entries| - 1])
  }

  /** One more staked output of the transfer t, plain or behind a lock, adds t's amount unless several own it. */
  lemma StakeGrows(entries: seq<Option<TransferableOutput>>, e: TransferableOutput, t: TransferOutput)
    requires AllStakeReads(entries) && (e.out == Transfer(t) || (e.out.LockOut? && e.out.inner == Transfer(t)))
    ensures AllStakeReads(entries + [Some(e)])
    ensures StakeSum(entries + [Some(e)]) == StakeSum(entries) + if |t.addrs| <= 1 then t.amount else 0
    ensures StakeSum([]) == 0
  {
    var more := entries + [Some(e)];
    assert more[..|entries|] == entries;
    forall i | 0 <= i < |more| ensures StakeReads(more[i]) { assert i < |entries| ==> StakeReads(entries[i]); }
  }

  /** Nothing else can be read. */
  lemma StakeReadsIff(entries: seq<Option<TransferableOutput>>)
    ensures AllStakeReads(entries) <==>
            forall i :: 0 <= i < |entries| ==>
              && entries[i].Some?
              && (entries[i].value.out.Transfer?
                  || (entries[i].value.out.LockOut? && entries[i].value.out.inner.Transfer?))
  {
    forall i | 0 <= i < |entries|
      ensures StakeReads(entries[i]) <==>
              && entries[i].Some?
              && (entries[i].value.out.Transfer?
                  || (entries[i].value.out.LockOut? && entries[i].value.out.inner.Transfer?))
    {
    }
    hide StakeReads;
  }

  /** The stake of single owners, added without an overflow check. */
  method CalculateStakedAmount(entries: seq<Option<TransferableOutput>>) returns (r: Result<uint64, ()>)
    ensures r.Err? <==> !AllStakeReads(entries)
    ensures r.Ok? ==> r.value == StakeSum(entries) % TWO_64
  {
    var staked: uint64 := 0;
    for i := 0 to |entries|
      invariant AllStakeReads(entries[..i]) && staked == StakeSum(entries[..i]) % TWO_64
    {
      assert entries[..i + 1][..i] == entries[..i];
      if entries[i].None? {
        return Err(());
      }
      var out := entries[i].value.out;
      if out.LockOut? {
        out := out.inner;
      }
      if !out.Transfer? {
        assert !StakeReads(entries[i]);
        return Err(());
      }
      assert StakeReads(entries[i]);
      if |out.out.addrs| > 1 {
        continue;
      }
      staked := (staked + out.out.amount) % TWO_64;
    }
    assert entries[..|entries|] == entries;
    r := Ok(staked);
  }

  // ---------------------------------------------------------------- the whole balance

  /** What the reads amount to: an error, or exact buckets with stake and total modulo 2^64. */
  ghost predicate IsBalance(entries: seq<Option<Utxo>>, assets: set<ID>, stake: seq<Option<TransferableOutput>>,
                            now: uint64, r: Result<AccountBalance, ()>) {
    && (r.Ok? <==> Filterable(entries, assets) && AllStakeReads(stake)
                   && WholeSum(Kept(Values(entries), assets), now) < TWO_64)
    && (r.Ok? ==>
          && r.value.staked == StakeSum(stake) % TWO_64
          && r.value.total == (WholeSum(Kept(Values(entries), assets), now) + StakeSum(stake)) % TWO_64
          && r.value.unlocked == FreeSum(Kept(Values(entries), assets), now)
          && r.value.lockedStakeable == OuterLockedSum(Kept(Values(entries), assets), now)
          && r.value.lockedNotStakeable == OwnLockedSum(Kept(Values(entries), assets), now))
  }

  /** fetchBalance after the reads: the staked amount is put in and added to the total, modulo 2^64. */
  method FetchBalance(entries: seq<Option<Utxo>>, assets: set<ID>, stake: seq<Option<TransferableOutput>>, now: uint64)
    returns (r: Result<AccountBalance, ()>)
    ensures IsBalance(entries, assets, stake, now, r)
    ensures r.Ok? ==>
              var sum := WholeSum(Kept(Values(entries), assets), now);
              r.value.staked == StakeSum(stake) && r.value.total == sum + StakeSum(stake)
              <==> sum + StakeSum(stake) < TWO_64
  {
    hide Filterable, Kept, AllStakeReads, StakeSum, WholeSum, FreeSum, OuterLockedSum, OwnLockedSum;
    var utxos := ParseAndFilterUTXOs(entries, assets);
    if utxos.Err? {
      return Err(());
    }
    var balance := GetBalancesWithoutMultisig(utxos.value, now);
    if balance.Err? {
      return Err(());
    }
    var staked := CalculateStakedAmount(stake);
    if staked.Err? {
      return Err(());
    }
    r := Ok(balance.value.(staked := staked.value, total := (balance.value.total + staked.value) % TWO_64));
  }

  /** Two stakes of 2^63 are reported as none at all. */
  lemma StakeWrapsToZero(now: uint64, r: Result<AccountBalance, ()>)
    requires var half := Some(TransferableOutput(0, Transfer(TransferOutput(TWO_63, 0, 1, [1]))));
             IsBalance([], {}, [half, half], now, r)
    ensures r.Ok? && r.value == AccountBalance(0, 0, 0, 0, 0)
  {
    var half := Some(TransferableOutput(0, Transfer(TransferOutput(TWO_63, 0, 1, [1]))));
    var stake := [half, half];
    assert stake[..1] == [half] && [half][..0] == [];
    assert StakeOf(half) == TWO_63 && StakeSum([half]) == TWO_63;
    assert StakeSum(stake) == StakeSum(stake[..1]) + StakeOf(stake[1]);
    NothingKept(now);
    hide IsBalance, StakeSum, Kept, FreeSum, OuterLockedSum, OwnLockedSum;
    WrappedStake(stake, now, r);
  }

  lemma NothingKept(now: uint64)
    ensures Values([]) == [] && Kept([], {}) == []
    ensures FreeSum([], now) == OuterLockedSum([], now) == OwnLockedSum([], now) == 0
  {
  }

  lemma WrappedStake(stake: seq<Option<TransferableOutput>>, now: uint64, r: Result<AccountBalance, ()>)
    requires IsBalance([], {}, stake, now, r) && AllStakeReads(stake) && StakeSum(stake) == TWO_64
    ensures r.Ok? && r.value == AccountBalance(0, 0, 0, 0, 0)
  {
    NothingKept(now);
    hide StakeSum, FreeSum, OuterLockedSum, OwnLockedSum, Kept, AllStakeReads;
  }
}
