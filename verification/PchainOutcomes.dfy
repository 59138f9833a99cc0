/** When parsing a P-chain transaction succeeds: the errors of mapper/pchain/tx_parser.go, exactly. */
module PchainOutcomes {
  import opened Prelude
  import opened PchainModel
  import opened PchainDependency
  import opened PchainTxOps
  import opened PchainParser

  /** The asset is avax, or, outside construction, one whose description is known. */
  predicate KnownAsset(cfg: Config, asset: ID) {
    asset == cfg.avaxAssetID || (!cfg.isConstruction && asset in cfg.assets)
  }

  predicate ReadableInput(input: Input) {
    input.TransferInput? || (input.LockIn? && input.inner.TransferInput?)
  }

  /** Where dependencies are given, the spent UTXO is among them and lists its addresses. */
  predicate Traceable(c: Context, u: UtxoID) {
    c.deps.Some? ==>
      && u.txID in c.deps.value && u in UtxosOf(c.deps.value[u.txID])
      && Addresses(UtxosOf(c.deps.value[u.txID])[u].out).Some?
  }

  /** It has not exactly one owner, so that its input is passed over. */
  predicate PassedOver(c: Context, u: UtxoID)
    requires Traceable(c, u)
  {
    c.deps.Some? && |Addresses(UtxosOf(c.deps.value[u.txID])[u].out).value| != 1
  }

  predicate InputParses(c: Context, input: TransferableInput, m: MetaType) {
    && ReadableInput(input.input)
    && if !c.cfg.isConstruction && m.MetaImport? then KnownAsset(c.cfg, input.asset)
       else
         && Traceable(c, input.utxo)
         && (PassedOver(c, input.utxo) || (Coin(input.utxo) in c.accounts && KnownAsset(c.cfg, input.asset)))
  }

  /** Outputs are transfers, plain or behind one lock; those of one owner must have a known asset. */
  predicate OutputParses(cfg: Config, out: Output, asset: ID) {
    if out.Transfer? then |out.out.addrs| == 1 ==> KnownAsset(cfg, asset)
    else out.LockOut? && out.inner.Transfer? && (|out.inner.out.addrs| == 1 ==> KnownAsset(cfg, asset))
  }

  predicate AllInputsParse(c: Context, ins: seq<TransferableInput>, m: MetaType) {
    forall i :: 0 <= i < |ins| ==> InputParses(c, ins[i], m)
  }

  predicate AllOutputsParse(cfg: Config, outs: seq<TransferableOutput>) {
    forall i :: 0 <= i < |outs| ==> OutputParses(cfg, outs[i].out, outs[i].asset)
  }

  predicate AllUtxosParse(cfg: Config, utxos: seq<Utxo>) {
    forall i :: 0 <= i < |utxos| ==> OutputParses(cfg, utxos[i].out, utxos[i].asset)
  }

  /** The staking transaction named is known, is one, and its rewards can be read. */
  predicate RewardParses(c: Context, id: ID) {
    && c.deps.Some? && id in c.deps.value
    && c.deps.value[id].tx.Some? && IsStaking(c.deps.value[id].tx.value.unsigned.kind)
    && AllUtxosParse(c.cfg, c.deps.value[id].rewards)
  }

  /** Everything a transaction of its kind needs. */
  predicate TxParses(c: Context, u: UnsignedTx) {
    if u.kind.AdvanceTime? || u.kind.UnknownKind? then true
    else if u.kind.RewardValidator? then RewardParses(c, u.rewarded)
    else
      && AllInputsParse(c, u.ins, MetaInput) && AllOutputsParse(c.cfg, u.outs)
      && (u.kind.ImportAvax? ==> AllInputsParse(c, u.imported, MetaImport))
      && (u.kind.ExportAvax? ==> u.destination in c.cfg.chainIDs && AllOutputsParse(c.cfg, u.exported))
      && (IsStaking(u.kind) ==> AllOutputsParse(c.cfg, u.stake))
  }

  lemma InputOpIff(c: Context, kind: Kind, input: TransferableInput, m: MetaType, index: int)
    ensures InputOp(c, kind, input, m, index).Ok? <==> InputParses(c, input, m)
  {
    hide UtxosOf;
  }

  lemma {:induction false} InsIff(c: Context, l: OpLists, kind: Kind, ins: seq<TransferableInput>, m: MetaType)
    ensures InsToOps(c, l, kind, ins, m).Ok? <==> AllInputsParse(c, ins, m)
  {
    if ins == [] { return; }
    var n := |ins| - 1;
    hide InputOp, InputParses, AllInputsParse, Appended;
    InsIff(c, l, kind, ins[..n], m);
    var before := InsToOps(c, l, kind, ins[..n], m);
    InputOpIff(c, kind, ins[n], m, if before.Ok? then before.value.Len() else 0);
    LastInput(c, ins, n, m);
  }

  lemma {:induction false} LastInput(c: Context, ins: seq<TransferableInput>, n: nat, m: MetaType)
    requires |ins| == n + 1
    ensures AllInputsParse(c, ins, m) <==> AllInputsParse(c, ins[..n], m) && InputParses(c, ins[n], m)
  {
    hide InputParses;
    assert forall i :: 0 <= i < n ==> ins[..n][i] == ins[i];
  }

  lemma UtxoOpIff(c: Context, kind: Kind, utxo: Utxo, m: MetaType, chain: ChainAlias, index: int)
    ensures UtxoOp(c, kind, utxo, m, chain, index).Ok? <==> OutputParses(c.cfg, utxo.out, utxo.asset)
  {
    var t := Unlocked(utxo.out);
    if t.Some? { BuildIff(c, kind, t.value, utxo.asset, utxo.id, m, chain, index); }
    hide BuildOutputOperation, KnownAsset;
  }

  lemma BuildIff(c: Context, kind: Kind, t: TransferOutput, asset: ID, utxo: UtxoID, m: MetaType, chain: ChainAlias,
                 index: int)
    ensures BuildOutputOperation(c, kind, t, asset, utxo, m, chain, index).Ok? <==>
            |t.addrs| > 0 && KnownAsset(c.cfg, asset)
  {
    hide ToInt64;
  }

  lemma {:induction false} UtxosIff(c: Context, l: OpLists, kind: Kind, utxos: seq<Utxo>, m: MetaType,
                                    chain: ChainAlias)
    ensures UtxosToOps(c, l, kind, utxos, m, chain).Ok? <==> AllUtxosParse(c.cfg, utxos)
  {
    if utxos == [] { return; }
    var n := |utxos| - 1;
    hide UtxoOp, OutputParses, AllUtxosParse, Appended;
    UtxosIff(c, l, kind, utxos[..n], m, chain);
    var before := UtxosToOps(c, l, kind, utxos[..n], m, chain);
    UtxoOpIff(c, kind, utxos[n], m, chain, if before.Ok? then before.value.Len() else 0);
    LastUtxo(c.cfg, utxos, n);
  }

  lemma {:induction false} LastUtxo(cfg: Config, utxos: seq<Utxo>, n: nat)
    requires |utxos| == n + 1
    ensures AllUtxosParse(cfg, utxos) <==>
            AllUtxosParse(cfg, utxos[..n]) && OutputParses(cfg, utxos[n].out, utxos[n].asset)
  {
    hide OutputParses;
    assert forall i :: 0 <= i < n ==> utxos[..n][i] == utxos[i];
  }

  lemma OutsIff(c: Context, l: OpLists, kind: Kind, txID: ID, outs: seq<TransferableOutput>, m: MetaType,
                chain: ChainAlias)
    ensures OutsToOps(c, l, kind, txID, outs, m, chain).Ok? <==> AllOutputsParse(c.cfg, outs)
  {
    var utxos := AsUtxos(txID, outs, l.OutputLen());
    OutsAreUtxos(c, l, kind, txID, outs, m, chain);
    UtxosIff(c, l, kind, utxos, m, chain);
    AsUtxosAt(txID, outs, l.OutputLen());
    hide UtxosToOps, OutsToOps, AsUtxos, OutputParses;
    forall i | 0 <= i < |outs|
      ensures OutputParses(c.cfg, utxos[i].out, utxos[i].asset) <==> OutputParses(c.cfg, outs[i].out, outs[i].asset)
    {
    }
  }

  lemma BaseIff(c: Context, tx: Tx)
    ensures BaseToOps(c, tx).Ok? <==> AllInputsParse(c, tx.unsigned.ins, MetaInput)
                                      && AllOutputsParse(c.cfg, tx.unsigned.outs)
  {
    hide InsToOps, OutsToOps, AllInputsParse, AllOutputsParse;
    var u := tx.unsigned;
    InsIff(c, EMPTY, u.kind, u.ins, MetaInput);
    var ins := InsToOps(c, EMPTY, u.kind, u.ins, MetaInput);
    if ins.Ok? { OutsIff(c, ins.value, u.kind, tx.id, u.outs, MetaOutput, PChain); }
  }

  lemma ImportIff(c: Context, tx: Tx)
    ensures ImportToOps(c, tx).Ok? <==>
            && AllInputsParse(c, tx.unsigned.ins, MetaInput) && AllInputsParse(c, tx.unsigned.imported, MetaImport)
            && AllOutputsParse(c.cfg, tx.unsigned.outs)
  {
    hide InsToOps, OutsToOps, AllInputsParse, AllOutputsParse;
    var u := tx.unsigned;
    InsIff(c, EMPTY, ImportAvax, u.ins, MetaInput);
    var ins := InsToOps(c, EMPTY, ImportAvax, u.ins, MetaInput);
    if ins.Err? { return; }
    InsIff(c, ins.value, ImportAvax, u.imported, MetaImport);
    var imported := InsToOps(c, ins.value, ImportAvax, u.imported, MetaImport);
    if imported.Ok? { OutsIff(c, imported.value, ImportAvax, tx.id, u.outs, MetaOutput, PChain); }
  }

  lemma RewardIff(c: Context, tx: Tx)
    ensures RewardToOps(c, tx).Ok? <==> RewardParses(c, tx.unsigned.rewarded)
  {
    hide UtxosToOps, AllUtxosParse, IsStaking;
    if c.deps.Some? && tx.unsigned.rewarded in c.deps.value {
      UtxosIff(c, EMPTY, RewardValidator, c.deps.value[tx.unsigned.rewarded].rewards, MetaReward, PChain);
    }
  }

  /** Parsing succeeds exactly if every input can be read and traced, every asset that is shown is known, every output
      is a transfer, and the chain exported to and the transaction rewarded are known. */
  lemma ParsesIff(c: Context, tx: Tx)
    ensures Parsed(c, tx).Ok? <==> TxParses(c, tx.unsigned)
  {
    hide BaseToOps, ImportToOps, RewardToOps, OutsToOps, AllInputsParse, AllOutputsParse, RewardParses;
    var u := tx.unsigned;
    if u.kind.AdvanceTime? || u.kind.UnknownKind? {
    } else if u.kind.ImportAvax? {
      ImportIff(c, tx);
    } else if u.kind.RewardValidator? {
      RewardIff(c, tx);
    } else {
      BaseIff(c, tx);
      var base := BaseToOps(c, tx);
      if base.Ok? && u.kind.ExportAvax? && u.destination in c.cfg.chainIDs {
        OutsIff(c, base.value, ExportAvax, tx.id, u.exported, MetaExport, c.cfg.chainIDs[u.destination]);
      }
      if base.Ok? && IsStaking(u.kind) { OutsIff(c, base.value, u.kind, tx.id, u.stake, MetaStake, PChain); }
    }
  }
}
