/** Block mode: the coin ids operations carry, against the ids the chain gives the outputs. */
module PchainCoinIds {
  import opened Prelude
  import opened PchainModel
  import opened PchainDependency
  import opened PchainTxOps
  import opened PchainParser
  import opened PchainProperties
  import opened PchainReconciliation

  /** The coin ids single-owner outputs get when numbered from offset. */
  function CoinsFrom(txID: ID, outs: seq<TransferableOutput>, offset: nat): set<CoinID> {
    set i | 0 <= i < |outs| && SingleAt(outs, i) :: Coin(UtxoID(txID, offset + i))
  }

  lemma CoinsFromExact(txID: ID, outs: seq<TransferableOutput>, offset: nat, x: CoinID)
    ensures x in CoinsFrom(txID, outs, offset) <==>
            x.Coin? && x.utxo.txID == txID && SingleAt(outs, x.utxo.outputIndex - offset)
  {
    hide SingleOwner;
    if x in CoinsFrom(txID, outs, offset) {
      var i :| 0 <= i < |outs| && SingleAt(outs, i) && Coin(UtxoID(txID, offset + i)) == x;
    }
    if x.Coin? && x.utxo.txID == txID && SingleAt(outs, x.utxo.outputIndex - offset) {
      var i: nat := x.utxo.outputIndex - offset;
      assert Coin(UtxoID(txID, offset + i)) == x;
    }
  }

  lemma {:induction false} SinglesAreCoins(txID: ID, outs: seq<TransferableOutput>, offset: nat, utxos: seq<Utxo>,
                                           x: CoinID)
    requires |utxos| == |outs|
    requires forall i :: 0 <= i < |outs| ==> utxos[i] == Utxo(UtxoID(txID, offset + i), outs[i].asset, outs[i].out)
    requires forall i :: 0 <= i < |outs| ==> (Reported(utxos[i].out) <==> SingleOwner(outs[i].out))
    ensures x in IDs(Singles(utxos)) <==> x in CoinsFrom(txID, outs, offset)
  {
    hide Reported, SingleOwner, Singles, IDs, CoinsFrom;
    SinglesOf(utxos, x);
    CoinsFromExact(txID, outs, offset, x);
    if x.Coin? && x.utxo.txID == txID && SingleAt(outs, x.utxo.outputIndex - offset) {
      var i: nat := x.utxo.outputIndex - offset;
      assert Reported(utxos[i].out) && Coin(utxos[i].id) == x;
    }
  }

  /** The base and stake outputs of one transaction, each loop numbering as it does. */
  lemma StakeOffset(txID: ID, outs: seq<TransferableOutput>, stake: seq<TransferableOutput>)
    ensures CoinsFrom(txID, outs, 0) + CoinsFrom(txID, stake, Count(outs)) == CoinsFrom(txID, outs + stake, 0)
            <==> AllSingle(outs) || NoneSingle(stake)
  {
    hide CoinsFrom, SingleOwner, Count;
    CountAll(outs);
    var all := outs + stake;
    forall x
      ensures x in CoinsFrom(txID, all, 0) <==> x in CoinsFrom(txID, outs, 0) || x in CoinsFrom(txID, stake, |outs|)
    {
      CoinsFromExact(txID, all, 0, x);
      CoinsFromExact(txID, outs, 0, x);
      CoinsFromExact(txID, stake, |outs|, x);
    }
    if NoneSingle(stake) {
      NoCoins(txID, stake, Count(outs));
      NoCoins(txID, stake, |outs|);
    } else if !AllSingle(outs) {
      var j: nat := LastSingle(stake);
      var x := Coin(UtxoID(txID, |outs| + j));
      CoinsFromExact(txID, all, 0, x);
      CoinsFromExact(txID, outs, 0, x);
      CoinsFromExact(txID, stake, Count(outs), x);
    }
  }

  /** Outputs numbered from the count of reported base outputs have their own numbers under the same condition. */
  lemma OffsetAgrees(txID: ID, outs: seq<TransferableOutput>, more: seq<TransferableOutput>)
    ensures CoinsFrom(txID, more, Count(outs)) == CoinsFrom(txID, more, |outs|) <==> AllSingle(outs) || NoneSingle(more)
  {
    hide CoinsFrom, SingleOwner, Count;
    CountAll(outs);
    if NoneSingle(more) {
      NoCoins(txID, more, Count(outs));
      NoCoins(txID, more, |outs|);
    } else if !AllSingle(outs) {
      var j: nat := LastSingle(more);
      var x := Coin(UtxoID(txID, |outs| + j));
      CoinsFromExact(txID, more, |outs|, x);
      CoinsFromExact(txID, more, Count(outs), x);
    }
  }

  lemma NoCoins(txID: ID, outs: seq<TransferableOutput>, offset: nat)
    requires NoneSingle(outs)
    ensures CoinsFrom(txID, outs, offset) == {}
  {
    hide SingleAt;
  }

  function LastSingle(outs: seq<TransferableOutput>): (j: int)
    requires !NoneSingle(outs)
    ensures SingleAt(outs, j) && forall k :: j < k < |outs| ==> !SingleAt(outs, k)
  {
    var n := |outs| - 1;
    if SingleAt(outs, n) then n
    else
      assert !NoneSingle(outs[..n]) by {
        var i :| 0 <= i < |outs| && SingleAt(outs, i);
        assert SingleAt(outs[..n], i);
      }
      assert forall k :: 0 <= k < n ==> SingleAt(outs[..n], k) == SingleAt(outs, k);
      LastSingle(outs[..n])
  }

  /** One list of operations carries the ids of its single-owner outputs, numbered as the list numbers them. */
  lemma ListCoins(ops: seq<Operation>, c: Context, txID: ID, outs: seq<TransferableOutput>, offset: nat,
                  chain: ChainAlias)
    requires ReportsAll(ops, c, AsUtxos(txID, outs, offset), chain)
    ensures CreatedIDs(ops) == CoinsFrom(txID, outs, offset)
  {
    var utxos := AsUtxos(txID, outs, offset);
    AsUtxosAt(txID, outs, offset);
    hide AsUtxos, Singles, IDs, CoinsFrom, Reported, SingleOwner, CreatesAll;
    CreatesAllIDs(ops, c, Singles(utxos), chain);
    forall x ensures x in IDs(Singles(utxos)) <==> x in CoinsFrom(txID, outs, offset) {
      SinglesAreCoins(txID, outs, offset, utxos, x);
    }
  }

  /** The ids of a transaction's created coins: base outputs from 0, stake and exported outputs from the count of
      reported base outputs. */
  lemma CreatedCoins(c: Context, tx: Tx)
    requires !c.cfg.isConstruction && TxToOps(c, tx).Ok? && !tx.unsigned.kind.RewardValidator?
    ensures var l, u := TxToOps(c, tx).value, tx.unsigned;
            && CreatedIDs(l.outs) == (if NoBase(u.kind) then {} else CoinsFrom(tx.id, u.outs, 0))
            && CreatedIDs(l.stakeOuts) == (if IsStaking(u.kind) then CoinsFrom(tx.id, u.stake, Count(u.outs)) else {})
            && CreatedIDs(l.exportOuts) == (if u.kind.ExportAvax? then CoinsFrom(tx.id, u.exported, Count(u.outs))
                                              else {})
            && CreatedIDs(l.Included()) == CreatedIDs(l.outs) + CreatedIDs(l.stakeOuts)
  {
    BlockOperationsExact(c, tx);
    hide TxToOps, SpendsAll, ReportsAll, ImportsAll, CreatedIDs, CoinsFrom, AsUtxos, Unskipped, Count;
    var l, u, chain := TxToOps(c, tx).value, tx.unsigned, ExportAlias(c, tx);
    SpendsCreateNothing(l.ins, c, Unskipped(c, BaseIns(tx)));
    CreatedIDsConcat(l.ins, l.outs);
    CreatedIDsConcat(l.ins + l.outs, l.stakeOuts);
    if NoBase(u.kind) { NothingListed(l.outs, c, PChain); } else { ListCoins(l.outs, c, tx.id, u.outs, 0, PChain); }
    if IsStaking(u.kind) {
      ListCoins(l.stakeOuts, c, tx.id, u.stake, Count(u.outs), PChain);
    } else {
      NothingListed(l.stakeOuts, c, PChain);
    }
    if u.kind.ExportAvax? {
      ListCoins(l.exportOuts, c, tx.id, u.exported, Count(u.outs), chain);
    } else {
      NothingListed(l.exportOuts, c, chain);
    }
  }

  lemma SpendsCreateNothing(ops: seq<Operation>, c: Context, ins: seq<TransferableInput>)
    requires SpendsAll(ops, c, ins)
    ensures CreatedIDs(ops) == {}
  {
    forall i | 0 <= i < |ops| ensures ops[i].coin == Some(CoinSpent(Coin(ins[i].utxo))) {
      assert Spends(ops[i], c, ins[i]);
    }
  }

  lemma NothingListed(ops: seq<Operation>, c: Context, chain: ChainAlias)
    requires ReportsAll(ops, c, [], chain)
    ensures CreatedIDs(ops) == {}
  {
  }

  /** Block mode: the ids of created coins are the single-owner outputs' own ids, for staking transactions only if
      no stake output is shifted by a base output that got no operation. */
  lemma CoinIdsAgree(c: Context, tx: Tx)
    requires !c.cfg.isConstruction && Parsed(c, tx).Ok? && !tx.unsigned.kind.RewardValidator?
    ensures CreatedIDs(Parsed(c, tx).value.operations) == TrueCoins(tx)
            <==> (IsStaking(tx.unsigned.kind) ==> AllSingle(tx.unsigned.outs) || NoneSingle(tx.unsigned.stake))
  {
    hide *;
    ParsedIncluded(c, tx);
    var l, u := TxToOps(c, tx).value, tx.unsigned;
    CreatedCoins(c, tx);
    TrueCoinsFrom(tx);
    SpendableByKind(u);
    NothingCreated(tx.id);
    StakeOffset(tx.id, u.outs, u.stake);
    ByKind(u.kind);
  }

  /** The coins an export really gives its exported outputs: they are numbered after all its outputs. */
  function ExportedCoins(tx: Tx): set<CoinID> {
    CoinsFrom(tx.id, tx.unsigned.exported, |tx.unsigned.outs|)
  }

  /** Block mode, exports: the ids of exported outputs are their own under the same condition. */
  lemma ExportedCoinIdsAgree(c: Context, tx: Tx)
    requires !c.cfg.isConstruction && Parsed(c, tx).Ok? && tx.unsigned.kind.ExportAvax?
    ensures CreatedIDs(Parsed(c, tx).value.exportedOutputs)
            == CoinsFrom(tx.id, tx.unsigned.exported, Count(tx.unsigned.outs))
    ensures CreatedIDs(Parsed(c, tx).value.exportedOutputs) == ExportedCoins(tx)
            <==> AllSingle(tx.unsigned.outs) || NoneSingle(tx.unsigned.exported)
  {
    ParsedIncluded(c, tx);
    CreatedCoins(c, tx);
    OffsetAgrees(tx.id, tx.unsigned.outs, tx.unsigned.exported);
    hide Parsed, TxToOps, CreatedIDs, CoinsFrom, Count, AllSingle, NoneSingle;
  }

  lemma ParsedIncluded(c: Context, tx: Tx)
    requires Parsed(c, tx).Ok?
    ensures TxToOps(c, tx).Ok? && Parsed(c, tx).value.operations == TxToOps(c, tx).value.Included()
    ensures CreatedIDs(Parsed(c, tx).value.exportedOutputs) == CreatedIDs(TxToOps(c, tx).value.exportOuts)
  {
    hide TxToOps, CreatedIDs;
    var l := TxToOps(c, tx).value;
    NumberingKeepsIDs(l.exportOuts, |l.Included()| + |l.importIns|);
  }

  lemma NumberingKeepsIDs(ops: seq<Operation>, start: int)
    ensures CreatedIDs(WithIdentifiers(ops, start)) == CreatedIDs(ops)
  {
    var numbered := WithIdentifiers(ops, start);
    assert forall i :: 0 <= i < |ops| ==> numbered[i].coin == ops[i].coin;
  }

  lemma ByKind(kind: Kind)
    ensures NoBase(kind) <==> kind.AdvanceTime? || kind.UnknownKind? || kind.RewardValidator?
    ensures IsStaking(kind) || kind.ExportAvax? ==> !NoBase(kind)
  {
  }

  lemma NothingCreated(txID: ID)
    ensures CreatedIDs([]) == {} && CoinsFrom(txID, [], 0) == {}
  {
  }

  lemma TrueCoinsFrom(tx: Tx)
    ensures TrueCoins(tx) == CoinsFrom(tx.id, SpendableOutputs(tx.unsigned), 0)
  {
    hide SpendableOutputs, SingleAt;
  }

  /** A stake output shifted onto a base output: two operations create the same coin. */
  lemma ShiftedStakeCollides(c: Context, tx: Tx, k: nat, j: nat)
    requires !c.cfg.isConstruction && IsStaking(tx.unsigned.kind) && Parsed(c, tx).Ok?
    requires SingleAt(tx.unsigned.outs, k) && SingleAt(tx.unsigned.stake, j) && k == Count(tx.unsigned.outs) + j
    ensures var ops := Parsed(c, tx).value.operations;
            exists p, q :: 0 <= p < q < |ops|
                           && ops[p].coin == ops[q].coin == Some(CoinCreated(Coin(UtxoID(tx.id, k))))
  {
    hide *;
    ParsedIncluded(c, tx);
    var l, u := TxToOps(c, tx).value, tx.unsigned;
    var x := Coin(UtxoID(tx.id, k));
    ByKind(u.kind);
    CreatedCoins(c, tx);
    CoinsFromExact(tx.id, u.outs, 0, x);
    CoinsFromExact(tx.id, u.stake, Count(u.outs), x);
    var p := Creator(l.outs, x);
    var q := Creator(l.stakeOuts, x);
    IncludedParts(l, p, q);
    assert l.Included()[|l.ins| + p].coin == l.Included()[|l.ins| + |l.outs| + q].coin;
  }

  /** An exported output shifted onto a base output: an operation and an exported output create the same coin. */
  lemma ShiftedExportCollides(c: Context, tx: Tx, k: nat, j: nat)
    requires !c.cfg.isConstruction && tx.unsigned.kind.ExportAvax? && Parsed(c, tx).Ok?
    requires SingleAt(tx.unsigned.outs, k) && SingleAt(tx.unsigned.exported, j) && k == Count(tx.unsigned.outs) + j
    ensures var t, coin := Parsed(c, tx).value, Some(CoinCreated(Coin(UtxoID(tx.id, k))));
            exists p, q :: 0 <= p < |t.operations| && 0 <= q < |t.exportedOutputs|
                           && t.operations[p].coin == t.exportedOutputs[q].coin == coin
  {
    hide *;
    ParsedIncluded(c, tx);
    var l, u, t := TxToOps(c, tx).value, tx.unsigned, Parsed(c, tx).value;
    var x := Coin(UtxoID(tx.id, k));
    ByKind(u.kind);
    CreatedCoins(c, tx);
    CoinsFromExact(tx.id, u.outs, 0, x);
    CoinsFromExact(tx.id, u.exported, Count(u.outs), x);
    var p := Creator(t.operations, x);
    var q := Creator(t.exportedOutputs, x);
    assert t.operations[p].coin == t.exportedOutputs[q].coin;
  }

  lemma IncludedParts(l: OpLists, p: nat, q: nat)
    requires p < |l.outs| && q < |l.stakeOuts|
    ensures |l.Included()| == |l.ins| + |l.outs| + |l.stakeOuts|
    ensures l.Included()[|l.ins| + p] == l.outs[p] && l.Included()[|l.ins| + |l.outs| + q] == l.stakeOuts[q]
  {
  }

  lemma Creator(ops: seq<Operation>, x: CoinID) returns (p: nat)
    requires x in CreatedIDs(ops)
    ensures p < |ops| && ops[p].coin == Some(CoinCreated(x))
  {
    p :| 0 <= p < |ops| && ops[p].coin.Some? && ops[p].coin.value.CoinCreated? && ops[p].coin.value.coin == x;
  }

  function Owned(addrs: seq<ShortID>): TransferableOutput {
    TransferableOutput(0, Transfer(TransferOutput(5, 0, 1, addrs)))
  }

  /** A delegation with a two-owner base output: its stake is output 1, and the operation calls it output 0. */
  lemma ShiftedStake(accounts: AccountMap)
    ensures var c := Context(Config(false, map[], 0, map[]), accounts, None);
            var tx := Tx(7, UnsignedTx(AddDelegator, [], [Owned([1, 2])], [Owned([3])], [], [], 0, 0));
            && Parsed(c, tx).Ok?
            && CreatedIDs(Parsed(c, tx).value.operations) == {Coin(UtxoID(7, 0))}
            && TrueCoins(tx) == {Coin(UtxoID(7, 1))}
  {
    var c := Context(Config(false, map[], 0, map[]), accounts, None);
    var tx := Tx(7, UnsignedTx(AddDelegator, [], [Owned([1, 2])], [Owned([3])], [], [], 0, 0));
    ShiftedStakeParses(c, tx);
    hide Parsed;
    forall x ensures x in TrueCoins(tx) <==> x == Coin(UtxoID(7, 1)) {
      if x.Coin? { TrueCoinsExact(tx, x.utxo); }
    }
  }

  lemma ShiftedStakeParses(c: Context, tx: Tx)
    requires c.cfg == Config(false, map[], 0, map[]) && c.deps.None?
    requires tx == Tx(7, UnsignedTx(AddDelegator, [], [Owned([1, 2])], [Owned([3])], [], [], 0, 0))
    ensures Parsed(c, tx).Ok? && CreatedIDs(Parsed(c, tx).value.operations) == {Coin(UtxoID(7, 0))}
  {
    hide OutsToOps;
    BaseIsSkipped(c, AddDelegator);
    assert BaseToOps(c, tx) == Ok(EMPTY);
    var op := StakeIsReported(c);
    assert Parsed(c, tx).value.operations == [op];
    OneCreated(op, Coin(UtxoID(7, 0)));
  }

  lemma OneOutput(c: Context, kind: Kind, txID: ID, out: TransferableOutput, m: MetaType, chain: ChainAlias)
    ensures OutsToOps(c, EMPTY, kind, txID, [out], m, chain)
            == Collected(c.cfg.isConstruction, EMPTY,
                         UtxoOp(c, kind, Utxo(UtxoID(txID, 0), out.asset, out.out), m, chain, 0), m)
  {
    hide UtxoOp, Collected;
    var outs := [out];
    var utxos := AsUtxos(txID, outs, 0);
    UtxosStart(c, EMPTY, kind, utxos, m, chain);
    UtxosStep(c, EMPTY, kind, utxos, m, chain, 0);
    assert utxos[..1] == utxos;
  }

  lemma BaseIsSkipped(c: Context, kind: Kind)
    ensures OutsToOps(c, EMPTY, kind, 7, [Owned([1, 2])], MetaOutput, PChain) == Ok(EMPTY)
  {
    hide OutsToOps;
    OneOutput(c, kind, 7, Owned([1, 2]), MetaOutput, PChain);
  }

  lemma StakeIsReported(c: Context) returns (op: Operation)
    requires !c.cfg.isConstruction && c.cfg.avaxAssetID == 0
    ensures op.coin == Some(CoinCreated(Coin(UtxoID(7, 0))))
    ensures OutsToOps(c, EMPTY, AddDelegator, 7, [Owned([3])], MetaStake, PChain) == Ok(EMPTY.(stakeOuts := [op]))
  {
    hide OutsToOps;
    OneOutput(c, AddDelegator, 7, Owned([3]), MetaStake, PChain);
    op := UtxoOp(c, AddDelegator, Utxo(UtxoID(7, 0), 0, Owned([3]).out), MetaStake, PChain, 0).value.value;
    assert Appended(EMPTY, false, op, MetaStake) == EMPTY.(stakeOuts := [op]);
  }

  /** An export with a two-owner base output: what it exports is output 1, and the list calls it output 0. */
  lemma ShiftedExport(accounts: AccountMap)
    ensures var c := Context(Config(false, map[9 := XChain], 0, map[]), accounts, None);
            var tx := Tx(7, UnsignedTx(ExportAvax, [], [Owned([1, 2])], [], [], [Owned([3])], 9, 0));
            && Parsed(c, tx).Ok?
            && CreatedIDs(Parsed(c, tx).value.exportedOutputs) == {Coin(UtxoID(7, 0))}
            && ExportedCoins(tx) == {Coin(UtxoID(7, 1))}
  {
    var c := Context(Config(false, map[9 := XChain], 0, map[]), accounts, None);
    var tx := Tx(7, UnsignedTx(ExportAvax, [], [Owned([1, 2])], [], [], [Owned([3])], 9, 0));
    ShiftedExportParses(c, tx);
    ExportedCoinIdsAgree(c, tx);
    OneCoin(tx.id, tx.unsigned.exported, 0);
    OneCoin(tx.id, tx.unsigned.exported, 1);
    hide Parsed, CoinsFrom;
    assert tx.unsigned.outs[..0] == [] && Count(tx.unsigned.outs) == 0;
  }

  lemma OneCoin(txID: ID, outs: seq<TransferableOutput>, offset: nat)
    requires |outs| == 1 && SingleAt(outs, 0)
    ensures CoinsFrom(txID, outs, offset) == {Coin(UtxoID(txID, offset))}
  {
    forall x ensures x in CoinsFrom(txID, outs, offset) <==> x == Coin(UtxoID(txID, offset)) {
      CoinsFromExact(txID, outs, offset, x);
    }
  }

  lemma ShiftedExportParses(c: Context, tx: Tx)
    requires c.cfg == Config(false, map[9 := XChain], 0, map[])
    requires tx == Tx(7, UnsignedTx(ExportAvax, [], [Owned([1, 2])], [], [], [Owned([3])], 9, 0))
    ensures Parsed(c, tx).Ok?
  {
    hide OutsToOps;
    BaseIsSkipped(c, ExportAvax);
    assert BaseToOps(c, tx) == Ok(EMPTY);
    OneOutput(c, ExportAvax, 7, Owned([3]), MetaExport, XChain);
  }

  lemma OneCreated(op: Operation, x: CoinID)
    requires op.coin == Some(CoinCreated(x))
    ensures CreatedIDs([op]) == {x}
  {
    var ops := [op];
    assert ops[0].coin.value.coin == x && x in CreatedIDs(ops);
  }
}
