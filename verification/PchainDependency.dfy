/** mapper/pchain/tx_dependency.go: which transactions a transaction depends on, and what those created. */
module PchainDependency {
  import opened Prelude
  import opened PchainModel

  // ---------------------------------------------------------------- ids of the dependencies

  function InputTxIDs(ins: seq<TransferableInput>): set<ID> {
    set i | 0 <= i < |ins| :: ins[i].utxo.txID
  }

  ghost predicate StrictlyIncreasing(s: seq<ID>) {
    forall i, j :: 0 <= i < j < |s| ==> s[i] < s[j]
  }

  function Elements(s: seq<ID>): set<ID> {
    set x | x in s
  }

  /** The ids a transaction depends on: those of its base inputs, or the staking transaction it rewards. */
  function DependencyIDs(tx: UnsignedTx): set<ID> {
    match tx.kind
    case AdvanceTime => {}
    case RewardValidator => {tx.rewarded}
    case UnknownKind => {}
    case _ => InputTxIDs(tx.ins)
  }

  /** Stands for the library's utils.Sort on identifiers: inserts into a sorted list. */
  method SortIDs(s: set<ID>) returns (r: seq<ID>)
    ensures StrictlyIncreasing(r) && Elements(r) == s
  {
    r := [];
    var todo := s;
    while todo != {}
      invariant todo <= s
      invariant StrictlyIncreasing(r) && Elements(r) == s - todo
      decreases |todo|
    {
      var x :| x in todo;
      todo := todo - {x};
      r := InsertID(r, x);
    }
  }

  method InsertID(s: seq<ID>, x: ID) returns (r: seq<ID>)
    requires StrictlyIncreasing(s) && x !in s
    ensures StrictlyIncreasing(r) && Elements(r) == Elements(s) + {x}
  {
    var k := 0;
    while k < |s| && s[k] < x
      invariant 0 <= k <= |s|
      invariant forall i :: 0 <= i < k ==> s[i] < x
    {
      k := k + 1;
    }
    r := s[..k] + [x] + s[k..];
    Inserted(s, x, k);
  }

  lemma Inserted(s: seq<ID>, x: ID, k: nat)
    requires k <= |s|
    ensures Elements(s[..k] + [x] + s[k..]) == Elements(s) + {x}
  {
    assert s == s[..k] + s[k..];
    forall y ensures y in s[..k] + [x] + s[k..] <==> y in s || y == x {}
  }

  /** GetTxDependenciesIDs. */
  method GetTxDependenciesIDs(tx: UnsignedTx) returns (r: Result<seq<ID>, ()>)
    ensures r.Err? <==> tx.kind.UnknownKind?
    ensures r.Ok? ==> StrictlyIncreasing(r.value) && Elements(r.value) == DependencyIDs(tx)
  {
    var ins: seq<TransferableInput>;
    match tx.kind {
      case AdvanceTime => return Ok([]);
      case RewardValidator => return Ok([tx.rewarded]);
      case UnknownKind => return Err(());
      case _ => ins := tx.ins;
    }
    var txIDs: set<ID> := {};
    for i := 0 to |ins|
      invariant txIDs == InputTxIDs(ins[..i])
    {
      txIDs := txIDs + {ins[i].utxo.txID};
    }
    assert ins[..|ins|] == ins;
    var unique := SortIDs(txIDs);
    r := Ok(unique);
  }

  // ---------------------------------------------------------------- what a dependency created

  /** The outputs of a transaction that can be spent on the P-chain, in output index order. */
  function SpendableOutputs(tx: UnsignedTx): seq<TransferableOutput> {
    match tx.kind
    case AddValidator => tx.outs + tx.stake
    case AddSubnetValidator => tx.outs
    case AddDelegator => tx.outs + tx.stake
    case CreateChain => tx.outs
    case CreateSubnet => tx.outs
    case ImportAvax => tx.outs
    case ExportAvax => tx.outs
    case AdvanceTime => []
    case RewardValidator => []
    case RemoveSubnetValidator => tx.outs
    case TransformSubnetValidator => tx.outs
    case AddPermissionlessValidator => tx.outs + tx.stake
    case AddPermissionlessDelegator => tx.outs + tx.stake
    case TransferSubnetOwnership => tx.outs
    case Base => tx.outs
    case UnknownKind => []
  }

  type UtxoMap = map<UtxoID, Utxo>

  /** Reward UTXOs under their own ids; of two with the same id the later one counts. */
  function RewardMap(rewards: seq<Utxo>): UtxoMap {
    if rewards == [] then map[]
    else RewardMap(rewards[..|rewards| - 1])[rewards[|rewards| - 1].id := rewards[|rewards| - 1]]
  }

  function OutputUtxo(txID: ID, outs: seq<TransferableOutput>, i: nat): Utxo
    requires i < |outs|
  {
    Utxo(UtxoID(txID, i), outs[i].asset, outs[i].out)
  }

  function OutputMap(txID: ID, outs: seq<TransferableOutput>): UtxoMap {
    if outs == [] then map[]
    else
      var n := |outs| - 1;
      OutputMap(txID, outs[..n])[UtxoID(txID, n) := OutputUtxo(txID, outs, n)]
  }

  /** Every UTXO of a dependency, outputs taking precedence over rewards. */
  function UtxosOf(d: Dependency): UtxoMap {
    RewardMap(d.rewards) + if d.tx.Some? then OutputMap(d.tx.value.id, SpendableOutputs(d.tx.value.unsigned)) else map[]
  }

  /** SingleTxDependency with its lazily filled cache. */
  class SingleTxDependency {
    const tx: Option<Tx>
    const rewardUTXOs: seq<Utxo>
    var utxosMap: Option<UtxoMap>

    constructor (tx: Option<Tx>, rewardUTXOs: seq<Utxo>)
      ensures this.tx == tx && this.rewardUTXOs == rewardUTXOs && utxosMap.None?
    {
      this.tx, this.rewardUTXOs, this.utxosMap := tx, rewardUTXOs, None;
    }

    function Contents(): Dependency {
      Dependency(tx, rewardUTXOs)
    }

    ghost predicate Valid()
      reads this
    {
      utxosMap.Some? ==> utxosMap.value == UtxosOf(Contents())
    }

    /** The first call computes, every later call answers from the cache, and the answer is always the same. */
    method GetUtxos() returns (m: UtxoMap)
      requires Valid()
      modifies this`utxosMap
      ensures Valid() && utxosMap == Some(m)
      ensures m == UtxosOf(Contents())
    {
      if utxosMap.Some? {
        return utxosMap.value;
      }
      m := map[];
      for i := 0 to |rewardUTXOs|
        invariant m == RewardMap(rewardUTXOs[..i])
      {
        assert rewardUTXOs[..i + 1][..i] == rewardUTXOs[..i];
        m := m[rewardUTXOs[i].id := rewardUTXOs[i]];
      }
      assert rewardUTXOs[..|rewardUTXOs|] == rewardUTXOs;
      ghost var rewards := m;
      if tx.Some? {
        var outsToAdd := SpendableOutputs(tx.value.unsigned);
        for i := 0 to |outsToAdd|
          invariant m == rewards + OutputMap(tx.value.id, outsToAdd[..i])
        {
          assert outsToAdd[..i + 1][..i] == outsToAdd[..i];
          var utxoID := UtxoID(tx.value.id, i);
          m := m[utxoID := Utxo(utxoID, outsToAdd[i].asset, outsToAdd[i].out)];
        }
        assert outsToAdd[..|outsToAdd|] == outsToAdd;
      }
      utxosMap := Some(m);
    }
  }

  lemma {:induction false} OutputMapExact(txID: ID, outs: seq<TransferableOutput>, u: UtxoID)
    ensures u in OutputMap(txID, outs) <==> u.txID == txID && u.outputIndex < |outs|
    ensures u in OutputMap(txID, outs) ==> OutputMap(txID, outs)[u] == OutputUtxo(txID, outs, u.outputIndex)
  {
    if outs != [] { OutputMapExact(txID, outs[..|outs| - 1], u); }
  }

  lemma {:induction false} RewardMapExact(rewards: seq<Utxo>, u: UtxoID)
    ensures u in RewardMap(rewards) <==> exists i :: 0 <= i < |rewards| && rewards[i].id == u
    ensures u in RewardMap(rewards) ==> RewardMap(rewards)[u] in rewards && RewardMap(rewards)[u].id == u
  {
    if rewards != [] {
      var n := |rewards| - 1;
      RewardMapExact(rewards[..n], u);
      assert (exists i :: 0 <= i < n && rewards[..n][i].id == u) ==>
             exists i :: 0 <= i < |rewards| && rewards[i].id == u;
      if i :| 0 <= i < |rewards| && rewards[i].id == u {
        assert i == n || rewards[..n][i].id == u;
      }
    }
  }

  /** The keys of UtxosOf: its own outputs by index, then reward UTXOs that no output hides. */
  lemma UtxosOfExact(d: Dependency, u: UtxoID)
    ensures var outs := if d.tx.Some? then SpendableOutputs(d.tx.value.unsigned) else [];
            if d.tx.Some? && u.txID == d.tx.value.id && u.outputIndex < |outs|
            then u in UtxosOf(d) && UtxosOf(d)[u] == OutputUtxo(u.txID, outs, u.outputIndex)
            else (u in UtxosOf(d) <==> exists i :: 0 <= i < |d.rewards| && d.rewards[i].id == u)
                 && (u in UtxosOf(d) ==> UtxosOf(d)[u] in d.rewards && UtxosOf(d)[u].id == u)
  {
    if d.tx.Some? { OutputMapExact(d.tx.value.id, SpendableOutputs(d.tx.value.unsigned), u); }
    RewardMapExact(d.rewards, u);
  }

  // ---------------------------------------------------------------- accounts of the created UTXOs

  type Dependencies = map<ID, Dependency>
  type AccountMap = map<CoinID, Account>

  predicate SingleOwner(out: Output) {
    Addresses(out).Some? && |Addresses(out).value| == 1
  }

  function OwnerOf(out: Output): Account
    requires SingleOwner(out)
  {
    Bech32(PChain, Addresses(out).value[0])
  }

  /** Some dependency holds the UTXO u, and its only owner is a. */
  ghost predicate Referenced(deps: Dependencies, u: UtxoID, a: Account) {
    exists id :: id in deps && ReferencedBy(deps[id], u, a)
  }

  ghost predicate ReferencedBy(d: Dependency, u: UtxoID, a: Account) {
    u in UtxosOf(d) && SingleOwner(UtxosOf(d)[u].out) && a == OwnerOf(UtxosOf(d)[u].out)
  }

  ghost predicate AllAddressable(d: Dependency) {
    forall u :: u in UtxosOf(d) ==> Addresses(UtxosOf(d)[u].out).Some?
  }

  /** Every single-owner UTXO of d has an account in m. */
  ghost predicate Covered(d: Dependency, m: AccountMap) {
    forall u :: u in UtxosOf(d) && SingleOwner(UtxosOf(d)[u].out) ==> Coin(u) in m
  }

  /** Every entry of m is the account of a single-owner UTXO. */
  ghost predicate Sound(deps: Dependencies, m: AccountMap) {
    forall c :: c in m ==> c.Coin? && Referenced(deps, c.utxo, m[c])
  }

  /** The accounts of the single-owner UTXOs of all dependencies, and nothing else. */
  ghost predicate AccountsOf(deps: Dependencies, m: AccountMap) {
    Sound(deps, m) && forall id :: id in deps ==> Covered(deps[id], m)
  }

  function ContentsOf(deps: map<ID, SingleTxDependency>): Dependencies {
    map id | id in deps :: deps[id].Contents()
  }

  ghost predicate AllValid(deps: map<ID, SingleTxDependency>)
    reads deps.Values
  {
    forall id :: id in deps ==> deps[id].Valid()
  }

  /** GetReferencedAccounts; Go visits both maps in an unspecified order. */
  method GetReferencedAccounts(deps: map<ID, SingleTxDependency>) returns (r: Result<AccountMap, ()>)
    requires AllValid(deps)
    modifies deps.Values`utxosMap
    ensures AllValid(deps)
    ensures r.Err? <==> exists id :: id in deps && !AllAddressable(ContentsOf(deps)[id])
    ensures r.Ok? ==> AccountsOf(ContentsOf(deps), r.value)
  {
    var addresses: AccountMap := map[];
    var todo := deps.Keys;
    ghost var contents := ContentsOf(deps);
    while todo != {}
      invariant todo <= deps.Keys && AllValid(deps) && Sound(contents, addresses)
      invariant forall id :: id in deps && id !in todo ==>
                  AllAddressable(contents[id]) && Covered(contents[id], addresses)
      decreases |todo|
    {
      var id :| id in todo;
      todo := todo - {id};
      var utxoMap := deps[id].GetUtxos();
      var added := AddAccounts(contents, id, utxoMap, addresses);
      if added.Err? {
        return Err(());
      }
      forall other | other in deps && other !in todo && other != id
        ensures Covered(contents[other], added.value)
      {
        CoverageKept(contents[other], addresses, added.value);
      }
      addresses := added.value;
    }
    r := Ok(addresses);
  }

  lemma SoundAdded(deps: Dependencies, id: ID, m: AccountMap, u: UtxoID)
    requires id in deps && u in UtxosOf(deps[id]) && SingleOwner(UtxosOf(deps[id])[u].out) && Sound(deps, m)
    ensures Sound(deps, m[Coin(u) := OwnerOf(UtxosOf(deps[id])[u].out)])
  {
    var a := OwnerOf(UtxosOf(deps[id])[u].out);
    hide UtxosOf, Addresses;
    assert ReferencedBy(deps[id], u, a);
  }

  lemma CoverageKept(d: Dependency, m: AccountMap, m': AccountMap)
    requires Covered(d, m) && m.Keys <= m'.Keys
    ensures Covered(d, m')
  {
    forall u | u in UtxosOf(d) && SingleOwner(UtxosOf(d)[u].out) ensures Coin(u) in m' {
      assert Coin(u) in m.Keys;
    }
  }

  lemma UtxosCarryTheirKey(d: Dependency)
    ensures forall u :: u in UtxosOf(d) ==> UtxosOf(d)[u].id == u
  {
    forall u | u in UtxosOf(d) ensures UtxosOf(d)[u].id == u { UtxosOfExact(d, u); }
  }

  /** The inner loop of GetReferencedAccounts. */
  method AddAccounts(ghost deps: Dependencies, ghost id: ID, utxoMap: UtxoMap, before: AccountMap)
    returns (r: Result<AccountMap, ()>)
    requires id in deps && utxoMap == UtxosOf(deps[id]) && Sound(deps, before)
    ensures r.Err? <==> !AllAddressable(deps[id])
    ensures r.Ok? ==> Sound(deps, r.value) && Covered(deps[id], r.value) && before.Keys <= r.value.Keys
  {
    var addresses := before;
    var keys := utxoMap.Keys;
    UtxosCarryTheirKey(deps[id]);
    hide UtxosOf, Sound, Addresses, Referenced;
    while keys != {}
      invariant keys <= utxoMap.Keys && Sound(deps, addresses) && before.Keys <= addresses.Keys
      invariant forall u :: u in utxoMap && u !in keys ==> Addresses(utxoMap[u].out).Some?
      invariant forall u :: u in utxoMap && u !in keys && SingleOwner(utxoMap[u].out) ==> Coin(u) in addresses
      decreases |keys|
    {
      var u :| u in keys;
      keys := keys - {u};
      var utxo := utxoMap[u];
      var addressable := Addresses(utxo.out);
      if addressable.None? {
        return Err(());
      }
      var addrs := addressable.value;
      if |addrs| != 1 {
        continue;
      }
      SoundAdded(deps, id, addresses, u);
      addresses := addresses[Coin(utxo.id) := Bech32(PChain, addrs[0])];
    }
    r := Ok(addresses);
  }
}
