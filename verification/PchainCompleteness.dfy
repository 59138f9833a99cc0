/** The fetched dependencies are enough: parsing in block mode never misses the owner of a spent UTXO. */
module PchainCompleteness {
  import opened Prelude
  import opened PchainModel
  import opened PchainDependency
  import opened PchainTxOps
  import opened PchainParser
  import opened ForkJoin

  /** Errors that say a dependency, or an account taken from it, is missing. */
  predicate SaysMissing(e: ParseError) {
    e.FailedToCheckMultisig? || e.NoMatchingInputAddresses? || e.NoDependencyTxs? || e.NoMatchingRewardOutputs?
  }

  predicate MissesNothing<T>(r: Result<T, ParseError>) {
    r.Err? ==> !SaysMissing(r.error)
  }

  /** The transaction that created the UTXO is among the dependencies and lists its addresses. */
  predicate InputKnown(deps: Dependencies, u: UtxoID) {
    u.txID in deps && u in UtxosOf(deps[u.txID]) && Addresses(UtxosOf(deps[u.txID])[u].out).Some?
  }

  /** With the accounts GetReferencedAccounts collects, an input has an owner exactly when its UTXO is known. */
  lemma OwnerFoundIffKnown(c: Context, u: UtxoID)
    requires c.deps.Some? && AccountsOf(c.deps.value, c.accounts)
    ensures OwnerOfInput(c, u, MetaInput).Ok? <==> InputKnown(c.deps.value, u)
    ensures OwnerOfInput(c, u, MetaInput).Ok? ==>
              (OwnerOfInput(c, u, MetaInput).value.Multisig? <==> !SingleOwner(UtxosOf(c.deps.value[u.txID])[u].out))
  {
    var deps := c.deps.value;
    hide UtxosOf, Sound;
    if InputKnown(deps, u) {
      assert Covered(deps[u.txID], c.accounts);
    }
  }

  lemma InputMissesNothing(c: Context, kind: Kind, input: TransferableInput, m: MetaType, index: int)
    requires !c.cfg.isConstruction && c.deps.Some? && AccountsOf(c.deps.value, c.accounts)
    requires m == MetaImport || (m == MetaInput && InputKnown(c.deps.value, input.utxo))
    ensures MissesNothing(InputOp(c, kind, input, m, index))
  {
    hide AccountsOf, InputKnown, InputMetadata;
    if m == MetaInput {
      OwnerFoundIffKnown(c, input.utxo);
      hide OwnerOfInput;
    }
  }

  lemma {:induction false} InsMissNothing(c: Context, l: OpLists, kind: Kind, ins: seq<TransferableInput>, m: MetaType)
    requires !c.cfg.isConstruction && c.deps.Some? && AccountsOf(c.deps.value, c.accounts)
    requires m == MetaImport || (m == MetaInput && forall i :: 0 <= i < |ins| ==> InputKnown(c.deps.value, ins[i].utxo))
    ensures MissesNothing(InsToOps(c, l, kind, ins, m))
  {
    if ins == [] { return; }
    hide AccountsOf, InputKnown, InputOp, Appended;
    var n := |ins| - 1;
    InsMissNothing(c, l, kind, ins[..n], m);
    var before := InsToOps(c, l, kind, ins[..n], m);
    if before.Ok? { InputMissesNothing(c, kind, ins[n], m, before.value.Len()); }
  }

  lemma UtxoMissesNothing(c: Context, kind: Kind, utxo: Utxo, m: MetaType, chain: ChainAlias, index: int)
    ensures MissesNothing(UtxoOp(c, kind, utxo, m, chain, index))
  {
    hide Unlocked, BuildOutputOperation;
    var t := Unlocked(utxo.out);
    if t.Some? { BuildMissesNothing(c, kind, t.value, utxo.asset, utxo.id, m, chain, index); }
  }

  lemma BuildMissesNothing(c: Context, kind: Kind, t: TransferOutput, asset: ID, utxo: UtxoID, m: MetaType,
                           chain: ChainAlias, index: int)
    ensures MissesNothing(BuildOutputOperation(c, kind, t, asset, utxo, m, chain, index))
  {
    hide ToInt64;
  }

  lemma {:induction false} UtxosMissNothing(c: Context, l: OpLists, kind: Kind, utxos: seq<Utxo>, m: MetaType,
                                            chain: ChainAlias)
    ensures MissesNothing(UtxosToOps(c, l, kind, utxos, m, chain))
  {
    if utxos == [] { return; }
    hide UtxoOp, Appended;
    var n := |utxos| - 1;
    UtxosMissNothing(c, l, kind, utxos[..n], m, chain);
    var before := UtxosToOps(c, l, kind, utxos[..n], m, chain);
    if before.Ok? { UtxoMissesNothing(c, kind, utxos[n], m, chain, before.value.Len()); }
  }

  lemma OutsMissNothing(c: Context, l: OpLists, kind: Kind, txID: ID, outs: seq<TransferableOutput>, m: MetaType,
                        chain: ChainAlias)
    ensures MissesNothing(OutsToOps(c, l, kind, txID, outs, m, chain))
  {
    hide *;
    OutsAreUtxos(c, l, kind, txID, outs, m, chain);
    UtxosMissNothing(c, l, kind, AsUtxos(txID, outs, l.OutputLen()), m, chain);
  }

  /** Base inputs are the ones DependencyIDs asks for; other kinds have none. */
  predicate AllKnown(deps: Dependencies, tx: UnsignedTx) {
    && DependencyIDs(tx) <= deps.Keys
    && (NoneReadsInputs(tx.kind) || forall i :: 0 <= i < |tx.ins| ==> InputKnown(deps, tx.ins[i].utxo))
  }

  lemma BaseMissesNothing(c: Context, tx: Tx)
    requires !c.cfg.isConstruction && c.deps.Some? && AccountsOf(c.deps.value, c.accounts)
    requires forall i :: 0 <= i < |tx.unsigned.ins| ==> InputKnown(c.deps.value, tx.unsigned.ins[i].utxo)
    ensures MissesNothing(BaseToOps(c, tx))
  {
    hide AccountsOf, InputKnown, InsToOps, OutsToOps, SaysMissing;
    var u := tx.unsigned;
    InsMissNothing(c, EMPTY, u.kind, u.ins, MetaInput);
    var ins := InsToOps(c, EMPTY, u.kind, u.ins, MetaInput);
    if ins.Ok? { OutsMissNothing(c, ins.value, u.kind, tx.id, u.outs, MetaOutput, PChain); }
  }

  lemma ImportMissesNothing(c: Context, tx: Tx)
    requires !c.cfg.isConstruction && c.deps.Some? && AccountsOf(c.deps.value, c.accounts)
    requires forall i :: 0 <= i < |tx.unsigned.ins| ==> InputKnown(c.deps.value, tx.unsigned.ins[i].utxo)
    ensures MissesNothing(ImportToOps(c, tx))
  {
    hide AccountsOf, InputKnown, InsToOps, OutsToOps, SaysMissing;
    var u := tx.unsigned;
    InsMissNothing(c, EMPTY, ImportAvax, u.ins, MetaInput);
    var ins := InsToOps(c, EMPTY, ImportAvax, u.ins, MetaInput);
    if ins.Err? { return; }
    InsMissNothing(c, ins.value, ImportAvax, u.imported, MetaImport);
    var imported := InsToOps(c, ins.value, ImportAvax, u.imported, MetaImport);
    if imported.Ok? { OutsMissNothing(c, imported.value, ImportAvax, tx.id, u.outs, MetaOutput, PChain); }
  }

  /** GetTxDependenciesIDs, the fetch and GetReferencedAccounts together give Parse all it looks up, for all kinds. */
  lemma DependenciesSuffice(c: Context, tx: Tx)
    requires !c.cfg.isConstruction && c.deps.Some? && AccountsOf(c.deps.value, c.accounts)
    requires AllKnown(c.deps.value, tx.unsigned)
    ensures MissesNothing(Parsed(c, tx))
  {
    hide AccountsOf, InputKnown, ImportToOps, BaseToOps, OutsToOps, UtxosToOps;
    var u := tx.unsigned;
    if u.kind.AdvanceTime? || u.kind.UnknownKind? {
    } else if u.kind.RewardValidator? {
      UtxosMissNothing(c, EMPTY, RewardValidator, c.deps.value[u.rewarded].rewards, MetaReward, PChain);
    } else if u.kind.ImportAvax? {
      ImportMissesNothing(c, tx);
    } else {
      BaseMissesNothing(c, tx);
      var base := BaseToOps(c, tx);
      if base.Ok? && IsStaking(u.kind) {
        OutsMissNothing(c, base.value, u.kind, tx.id, u.stake, MetaStake, PChain);
      } else if base.Ok? && u.kind.ExportAvax? && u.destination in c.cfg.chainIDs {
        OutsMissNothing(c, base.value, ExportAvax, tx.id, u.exported, MetaExport, c.cfg.chainIDs[u.destination]);
      }
    }
  }

  /** The UTXO was created by the transaction the node holds under its id, and lists its addresses. */
  predicate ExistsOnNode(node: Node, u: UtxoID) {
    var d := Fetch(node, u.txID);
    d.Some? && u in UtxosOf(d.value) && Addresses(UtxosOf(d.value)[u].out).Some?
  }

  /** From the ids of a block through any interleaving of the fetch to Parse: no transaction misses anything. */
  lemma FetchedBlockSuffices(node: Node, txs: seq<Tx>, ids: seq<ID>, run: seq<State>, c: Context, k: nat)
    requires k < |txs| && Elements(ids) == BlockDependencyIDs(seq(|txs|, i requires 0 <= i < |txs| => txs[i].unsigned))
    requires Honest(node) && Run(node, ids, run) && run[|run| - 1].phase == Returned(c.deps) && c.deps.Some?
    requires !c.cfg.isConstruction && AccountsOf(c.deps.value, c.accounts)
    requires NoneReadsInputs(txs[k].unsigned.kind)
             || forall i :: 0 <= i < |txs[k].unsigned.ins| ==> ExistsOnNode(node, txs[k].unsigned.ins[i].utxo)
    ensures MissesNothing(Parsed(c, txs[k]))
  {
    var deps, u := c.deps.value, txs[k].unsigned;
    ResultIsDetermined(node, ids, run);
    hide Run, Honest, AccountsOf, Parsed, UtxosOf, Fetch;
    assert DependencyIDs(u) <= deps.Keys by { NeededIsFetched(txs, k); }
    if !NoneReadsInputs(u.kind) {
      forall i | 0 <= i < |u.ins| ensures InputKnown(deps, u.ins[i].utxo) {
        assert ExistsOnNode(node, u.ins[i].utxo);
        assert u.ins[i].utxo.txID in DependencyIDs(u) by { InputIsDependency(u, i); }
      }
    }
    hide DependencyIDs, InputKnown;
    DependenciesSuffice(c, txs[k]);
  }

  predicate NoneReadsInputs(kind: Kind) {
    kind.AdvanceTime? || kind.RewardValidator? || kind.UnknownKind?
  }

  lemma InputIsDependency(u: UnsignedTx, i: nat)
    requires i < |u.ins| && !NoneReadsInputs(u.kind)
    ensures u.ins[i].utxo.txID in DependencyIDs(u)
  {
    assert u.ins[i].utxo.txID in InputTxIDs(u.ins);
  }

  lemma NeededIsFetched(txs: seq<Tx>, k: nat)
    requires k < |txs|
    ensures DependencyIDs(txs[k].unsigned)
            <= BlockDependencyIDs(seq(|txs|, i requires 0 <= i < |txs| => txs[i].unsigned))
  {
    hide DependencyIDs;
    var unsigned := seq(|txs|, i requires 0 <= i < |txs| => txs[i].unsigned);
    assert unsigned[k] == txs[k].unsigned;
  }
}
