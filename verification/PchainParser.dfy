/** mapper/pchain/tx_parser.go: from a P-chain transaction to Rosetta operations. */
module PchainParser {
  import opened Prelude
  import opened PchainModel
  import opened PchainDependency
  import opened PchainTxOps

  datatype ParseError =
    | UnknownInputType | FailedToCheckMultisig | NoMatchingInputAddresses | UnknownOutputType | NoOutputAddresses
    | UnknownDestinationChain | NoDependencyTxs | NoMatchingRewardOutputs | UnknownRewardSourceTransaction
    | UnsupportedAssetInConstruction | CurrencyLookupFailed

  /** assets holds what GetAssetDescription answers; a missing entry is a failed lookup. */
  datatype Config = Config(isConstruction: bool, chainIDs: map<ID, ChainAlias>, avaxAssetID: ID,
                           assets: map<ID, Currency>)

  /** What parsing depends on: the configuration, the accounts of spent UTXOs, the dependency transactions if given. */
  datatype Context = Context(cfg: Config, accounts: AccountMap, deps: Option<Dependencies>)

  // ---------------------------------------------------------------- specification

  function StatusOf(cfg: Config): Option<bool> {
    if cfg.isConstruction then None else Some(true)
  }

  function BuildAmount(cfg: Config, value: int, asset: ID): Result<Amount, ParseError> {
    if asset == cfg.avaxAssetID then Ok(Amount(value, AtomicAvax))
    else if cfg.isConstruction then Err(UnsupportedAssetInConstruction)
    else if asset !in cfg.assets then Err(CurrencyLookupFailed)
    else Ok(Amount(value, cfg.assets[asset]))
  }

  /** A spent UTXO is multisig unless it has exactly one owner; it must be found in its creating transaction. */
  function IsMultisigUtxo(deps: Dependencies, u: UtxoID): Result<bool, ParseError> {
    if u.txID !in deps || u !in UtxosOf(deps[u.txID]) then Err(FailedToCheckMultisig)
    else
      var addresses := Addresses(UtxosOf(deps[u.txID])[u].out);
      if addresses.None? then Err(FailedToCheckMultisig) else Ok(|addresses.value| != 1)
  }

  /** The metadata read off an input: the locktime of its stakeable lock and its signature indices. */
  function InputMetadata(input: Input, m: MetaType): Option<OpMetadata> {
    match input
    case TransferInput(_, sigIndices) => Some(OpMetadata(m, OmitEmpty(sigIndices), 0, 0))
    case LockIn(locktime, inner) =>
      if inner.TransferInput? then Some(OpMetadata(m, OmitEmpty(inner.sigIndices), locktime, 0)) else None
    case OtherInput(_) => None
  }

  function OmitEmpty(s: seq<uint32>): Option<seq<uint32>> {
    if s == [] then None else Some(s)
  }

  /** The operation for one input; None when the input spends a multisig UTXO. */
  function InputOp(c: Context, kind: Kind, input: TransferableInput, m: MetaType, index: int)
    : Result<Option<Operation>, ParseError>
  {
    var metadata := InputMetadata(input.input, m);
    if metadata.None? then Err(UnknownInputType)
    else
      var owner := OwnerOfInput(c, input.utxo, m);
      if owner.Err? then Err(owner.error)
      else if owner.value.Multisig? then Ok(None)
      else
        var amount := BuildAmount(c.cfg, 0 - InputAmount(input.input), input.asset);
        if amount.Err? then Err(amount.error)
        else
          Ok(Some(Operation(Some(index), kind, StatusOf(c.cfg), owner.value.account, amount.value,
                            Some(CoinSpent(Coin(input.utxo))), metadata.value)))
  }

  /** Who spends an input: several owners or none, one account, or, for imports outside construction, not known. */
  datatype Owner = Multisig | Known(account: Option<Account>)

  function OwnerOfInput(c: Context, utxo: UtxoID, m: MetaType): Result<Owner, ParseError> {
    if !c.cfg.isConstruction && m == MetaImport then Ok(Known(None))
    else
      var multisig := if c.deps.Some? then IsMultisigUtxo(c.deps.value, utxo) else Ok(false);
      if multisig.Err? then Err(multisig.error)
      else if multisig.value then Ok(Multisig)
      else if Coin(utxo) !in c.accounts then Err(NoMatchingInputAddresses)
      else Ok(Known(Some(c.accounts[Coin(utxo)])))
  }

  /** The lists after one round of a loop: an error ends it, a skipped entry leaves them as they are. */
  function Collected(isConstruction: bool, l: OpLists, op: Result<Option<Operation>, ParseError>, m: MetaType)
    : Result<OpLists, ParseError>
  {
    if op.Err? then Err(op.error)
    else if op.value.None? then Ok(l)
    else Ok(Appended(l, isConstruction, op.value.value, m))
  }

  function InsToOps(c: Context, l: OpLists, kind: Kind, ins: seq<TransferableInput>, m: MetaType)
    : Result<OpLists, ParseError>
  {
    if ins == [] then Ok(l)
    else
      var before := InsToOps(c, l, kind, ins[..|ins| - 1], m);
      if before.Err? then before
      else Collected(c.cfg.isConstruction, before.value, InputOp(c, kind, ins[|ins| - 1], m, before.value.Len()), m)
  }

  /** The operation for one created UTXO. Amounts go through int64; coin ids are unknown during construction. */
  function BuildOutputOperation(c: Context, kind: Kind, t: TransferOutput, asset: ID, utxo: UtxoID, m: MetaType,
                                chain: ChainAlias, index: int): Result<Operation, ParseError>
  {
    if |t.addrs| == 0 then Err(NoOutputAddresses)
    else
      var coin := if c.cfg.isConstruction then None else Some(CoinCreated(Coin(utxo)));
      var amount :- BuildAmount(c.cfg, ToInt64(t.amount), asset);
      Ok(Operation(Some(index), kind, StatusOf(c.cfg), Some(Bech32(chain, t.addrs[0])), amount, coin,
                   OpMetadata(m, None, t.locktime, t.threshold)))
  }

  /** Outputs and reward UTXOs are treated alike: skipped unless they have exactly one owner. */
  function UtxoOp(c: Context, kind: Kind, utxo: Utxo, m: MetaType, chain: ChainAlias, index: int)
    : Result<Option<Operation>, ParseError>
  {
    var t := Unlocked(utxo.out);
    if t.None? then Err(UnknownOutputType)
    else if |t.value.addrs| != 1 then Ok(None)
    else
      var op := BuildOutputOperation(c, kind, t.value, utxo.asset, utxo.id, m, chain, index);
      if op.Err? then Err(op.error) else Ok(Some(op.value))
  }

  function UtxosToOps(c: Context, l: OpLists, kind: Kind, utxos: seq<Utxo>, m: MetaType, chain: ChainAlias)
    : Result<OpLists, ParseError>
  {
    if utxos == [] then Ok(l)
    else
      var before := UtxosToOps(c, l, kind, utxos[..|utxos| - 1], m, chain);
      if before.Err? then before
      else
        Collected(c.cfg.isConstruction, before.value,
                  UtxoOp(c, kind, utxos[|utxos| - 1], m, chain, before.value.Len()), m)
  }

  /** The UTXO ids the parser gives to outputs: consecutive from offset. */
  function AsUtxos(txID: ID, outs: seq<TransferableOutput>, offset: nat): seq<Utxo> {
    seq(|outs|, i requires 0 <= i < |outs| => Utxo(UtxoID(txID, offset + i), outs[i].asset, outs[i].out))
  }

  lemma AsUtxosAt(txID: ID, outs: seq<TransferableOutput>, offset: nat)
    ensures |AsUtxos(txID, outs, offset)| == |outs|
    ensures forall i :: 0 <= i < |outs| ==>
              AsUtxos(txID, outs, offset)[i] == Utxo(UtxoID(txID, offset + i), outs[i].asset, outs[i].out)
  {
  }

  /** Outputs are numbered from the count of outputs already collected. */
  function OutsToOps(c: Context, l: OpLists, kind: Kind, txID: ID, outs: seq<TransferableOutput>, m: MetaType,
                     chain: ChainAlias): Result<OpLists, ParseError>
  {
    UtxosToOps(c, l, kind, AsUtxos(txID, outs, l.OutputLen()), m, chain)
  }

  function BaseToOps(c: Context, tx: Tx): Result<OpLists, ParseError> {
    var ins := InsToOps(c, EMPTY, tx.unsigned.kind, tx.unsigned.ins, MetaInput);
    if ins.Err? then ins
    else OutsToOps(c, ins.value, tx.unsigned.kind, tx.id, tx.unsigned.outs, MetaOutput, PChain)
  }

  function ImportToOps(c: Context, tx: Tx): Result<OpLists, ParseError> {
    var ins := InsToOps(c, EMPTY, ImportAvax, tx.unsigned.ins, MetaInput);
    if ins.Err? then ins
    else
      var imported := InsToOps(c, ins.value, ImportAvax, tx.unsigned.imported, MetaImport);
      if imported.Err? then imported
      else OutsToOps(c, imported.value, ImportAvax, tx.id, tx.unsigned.outs, MetaOutput, PChain)
  }

  function ExportToOps(c: Context, tx: Tx): Result<OpLists, ParseError> {
    var base := BaseToOps(c, tx);
    if base.Err? then base
    else if tx.unsigned.destination !in c.cfg.chainIDs then Err(UnknownDestinationChain)
    else
      OutsToOps(c, base.value, ExportAvax, tx.id, tx.unsigned.exported, MetaExport,
                c.cfg.chainIDs[tx.unsigned.destination])
  }

  function StakingToOps(c: Context, tx: Tx): Result<OpLists, ParseError> {
    var base := BaseToOps(c, tx);
    if base.Err? then base
    else OutsToOps(c, base.value, tx.unsigned.kind, tx.id, tx.unsigned.stake, MetaStake, PChain)
  }

  /** Reward UTXOs of the staking transaction; a dependency without a transaction cannot be rewarded. */
  function RewardToOps(c: Context, tx: Tx): Result<OpLists, ParseError> {
    if c.deps.None? then Err(NoDependencyTxs)
    else if tx.unsigned.rewarded !in c.deps.value then Err(NoMatchingRewardOutputs)
    else
      var dep := c.deps.value[tx.unsigned.rewarded];
      var l := UtxosToOps(c, EMPTY, RewardValidator, dep.rewards, MetaReward, PChain);
      if l.Err? then l
      else if dep.tx.None? || !IsStaking(dep.tx.value.unsigned.kind) then Err(UnknownRewardSourceTransaction)
      else l
  }

  /** The lists collected for a transaction. */
  function TxToOps(c: Context, tx: Tx): Result<OpLists, ParseError> {
    match tx.unsigned.kind
    case AdvanceTime => Ok(EMPTY)
    case UnknownKind => Ok(EMPTY)
    case ImportAvax => ImportToOps(c, tx)
    case ExportAvax => ExportToOps(c, tx)
    case RewardValidator => RewardToOps(c, tx)
    case AddValidator => StakingToOps(c, tx)
    case AddDelegator => StakingToOps(c, tx)
    case AddPermissionlessValidator => StakingToOps(c, tx)
    case AddPermissionlessDelegator => StakingToOps(c, tx)
    case AddSubnetValidator => BaseToOps(c, tx)
    case CreateChain => BaseToOps(c, tx)
    case CreateSubnet => BaseToOps(c, tx)
    case RemoveSubnetValidator => BaseToOps(c, tx)
    case TransformSubnetValidator => BaseToOps(c, tx)
    case TransferSubnetOwnership => BaseToOps(c, tx)
    case Base => BaseToOps(c, tx)
  }

  function WithIdentifiers(ops: seq<Operation>, start: int): seq<Operation> {
    seq(|ops|, i requires 0 <= i < |ops| => ops[i].(index := Some(start + i)))
  }

  /** A Rosetta transaction with its two metadata lists. */
  datatype RosettaTx = RosettaTx(hash: ID, kind: Kind, operations: seq<Operation>,
                                 importedInputs: seq<Operation>, exportedOutputs: seq<Operation>)

  function Assembled(tx: Tx, l: OpLists): RosettaTx {
    var operations := l.Included();
    RosettaTx(tx.id, tx.unsigned.kind, operations, WithIdentifiers(l.importIns, |operations|),
              WithIdentifiers(l.exportOuts, |operations| + |l.importIns|))
  }

  function Parsed(c: Context, tx: Tx): Result<RosettaTx, ParseError> {
    var l := TxToOps(c, tx);
    if l.Err? then Err(l.error) else Ok(Assembled(tx, l.value))
  }

  // ---------------------------------------------------------------- the algorithm

  lemma {:induction false} InsErrorStops(c: Context, l: OpLists, kind: Kind, ins: seq<TransferableInput>, m: MetaType,
                                         i: nat)
    requires i <= |ins| && InsToOps(c, l, kind, ins[..i], m).Err?
    ensures InsToOps(c, l, kind, ins, m) == InsToOps(c, l, kind, ins[..i], m)
    decreases |ins|
  {
    if i < |ins| {
      assert ins[..|ins| - 1][..i] == ins[..i];
      InsErrorStops(c, l, kind, ins[..|ins| - 1], m, i);
    } else {
      assert ins[..i] == ins;
    }
  }

  lemma {:induction false} UtxosErrorStops(c: Context, l: OpLists, kind: Kind, utxos: seq<Utxo>, m: MetaType,
                                           chain: ChainAlias, i: nat)
    requires i <= |utxos| && UtxosToOps(c, l, kind, utxos[..i], m, chain).Err?
    ensures UtxosToOps(c, l, kind, utxos, m, chain) == UtxosToOps(c, l, kind, utxos[..i], m, chain)
    decreases |utxos|
  {
    if i < |utxos| {
      assert utxos[..|utxos| - 1][..i] == utxos[..i];
      UtxosErrorStops(c, l, kind, utxos[..|utxos| - 1], m, chain, i);
    } else {
      assert utxos[..i] == utxos;
    }
  }

  lemma InsStart(c: Context, l: OpLists, kind: Kind, ins: seq<TransferableInput>, m: MetaType)
    ensures InsToOps(c, l, kind, ins[..0], m) == Ok(l)
  {
  }

  lemma OutsAreUtxos(c: Context, l: OpLists, kind: Kind, txID: ID, outs: seq<TransferableOutput>, m: MetaType,
                     chain: ChainAlias)
    ensures OutsToOps(c, l, kind, txID, outs, m, chain)
            == UtxosToOps(c, l, kind, AsUtxos(txID, outs, l.OutputLen()), m, chain)
  {
  }

  lemma UtxosStart(c: Context, l: OpLists, kind: Kind, utxos: seq<Utxo>, m: MetaType, chain: ChainAlias)
    ensures UtxosToOps(c, l, kind, utxos[..0], m, chain) == Ok(l)
  {
  }

  lemma InsStep(c: Context, l: OpLists, kind: Kind, ins: seq<TransferableInput>, m: MetaType, i: nat)
    requires i < |ins| && InsToOps(c, l, kind, ins[..i], m).Ok?
    ensures var before := InsToOps(c, l, kind, ins[..i], m).value;
            var op := InputOp(c, kind, ins[i], m, before.Len());
            InsToOps(c, l, kind, ins[..i + 1], m)
            == Collected(c.cfg.isConstruction, before, op, m)
  {
    hide InputOp, Collected;
    assert ins[..i + 1][..i] == ins[..i];
  }

  lemma UtxosStep(c: Context, l: OpLists, kind: Kind, utxos: seq<Utxo>, m: MetaType, chain: ChainAlias, i: nat)
    requires i < |utxos| && UtxosToOps(c, l, kind, utxos[..i], m, chain).Ok?
    ensures var before := UtxosToOps(c, l, kind, utxos[..i], m, chain).value;
            var op := UtxoOp(c, kind, utxos[i], m, chain, before.Len());
            UtxosToOps(c, l, kind, utxos[..i + 1], m, chain)
            == Collected(c.cfg.isConstruction, before, op, m)
  {
    hide UtxoOp, Collected;
    assert utxos[..i + 1][..i] == utxos[..i];
  }

  class TxParser {
    const cfg: Config
    const inputTxAccounts: AccountMap
    const dependencyTxs: Option<map<ID, SingleTxDependency>>

    constructor (cfg: Config, inputTxAccounts: AccountMap, dependencyTxs: Option<map<ID, SingleTxDependency>>)
      ensures this.cfg == cfg && this.inputTxAccounts == inputTxAccounts && this.dependencyTxs == dependencyTxs
    {
      this.cfg, this.inputTxAccounts, this.dependencyTxs := cfg, inputTxAccounts, dependencyTxs;
    }

    /** The dependency objects, whose caches parsing may fill. */
    ghost function Dependents(): set<SingleTxDependency> {
      if dependencyTxs.Some? then dependencyTxs.value.Values else {}
    }

    ghost predicate Valid()
      reads Dependents()
    {
      dependencyTxs.Some? ==> AllValid(dependencyTxs.value)
    }

    function Ctx(): Context {
      Context(cfg, inputTxAccounts, if dependencyTxs.Some? then Some(ContentsOf(dependencyTxs.value)) else None)
    }

    method IsMultisig(utxoid: UtxoID) returns (r: Result<bool, ParseError>)
      requires Valid() && dependencyTxs.Some?
      modifies Dependents()`utxosMap
      ensures Valid()
      ensures r == IsMultisigUtxo(Ctx().deps.value, utxoid)
    {
      if utxoid.txID !in dependencyTxs.value {
        return Err(FailedToCheckMultisig);
      }
      var utxoMap := dependencyTxs.value[utxoid.txID].GetUtxos();
      if utxoid !in utxoMap {
        return Err(FailedToCheckMultisig);
      }
      var addressable := Addresses(utxoMap[utxoid].out);
      if addressable.None? {
        return Err(FailedToCheckMultisig);
      }
      return Ok(|addressable.value| != 1);
    }

    /** Appends the operation of one round, if there is one, or passes its error on. */
    method Collect(ops: TxOps, op: Result<Option<Operation>, ParseError>, metaType: MetaType)
      returns (r: Result<(), ParseError>)
      modifies ops
      ensures Collected(ops.isConstruction, old(ops.Contents()), op, metaType)
              == if r.Ok? then Ok(ops.Contents()) else Err(r.error)
    {
      if op.Err? {
        return Err(op.error);
      }
      if op.value.Some? {
        ops.Append(op.value.value, metaType);
      }
      return Ok(());
    }

    method InsToOperations(inOps: TxOps, kind: Kind, txIns: seq<TransferableInput>, metaType: MetaType)
      returns (r: Result<(), ParseError>)
      requires Valid() && inOps.isConstruction == cfg.isConstruction
      modifies inOps, Dependents()`utxosMap
      ensures Valid()
      ensures InsToOps(Ctx(), old(inOps.Contents()), kind, txIns, metaType)
              == if r.Ok? then Ok(inOps.Contents()) else Err(r.error)
    {
      ghost var before := inOps.Contents();
      var i := 0;
      InsStart(Ctx(), before, kind, txIns, metaType);
      hide InsToOps, InputOp, Collected;
      while i < |txIns|
        invariant 0 <= i <= |txIns| && Valid()
        invariant InsToOps(Ctx(), before, kind, txIns[..i], metaType) == Ok(inOps.Contents())
      {
        InsStep(Ctx(), before, kind, txIns, metaType, i);
        var op := InputOperation(kind, txIns[i], metaType, inOps.Contents().Len());
        r := Collect(inOps, op, metaType);
        i := i + 1;
        if r.Err? {
          InsErrorStops(Ctx(), before, kind, txIns, metaType, i);
          return;
        }
      }
      assert txIns[..i] == txIns;
      return Ok(());
    }

    /** One round of the loop over inputs; None when the input is skipped. */
    method InputOperation(kind: Kind, input: TransferableInput, metaType: MetaType, index: int)
      returns (r: Result<Option<Operation>, ParseError>)
      requires Valid()
      modifies Dependents()`utxosMap
      ensures Valid()
      ensures r == InputOp(Ctx(), kind, input, metaType, index)
    {
      var metadata := InputMetadata(input.input, metaType);
      if metadata.None? {
        return Err(UnknownInputType);
      }
      var owner := InputOwner(input.utxo, metaType);
      if owner.Err? {
        return Err(owner.error);
      }
      if owner.value.Multisig? {
        return Ok(None);
      }
      var bigAmount: int := InputAmount(input.input);
      var amount := BuildAmount(cfg, -bigAmount, input.asset);
      if amount.Err? {
        return Err(amount.error);
      }
      return Ok(Some(Operation(Some(index), kind, StatusOf(cfg), owner.value.account, amount.value,
                               Some(CoinSpent(Coin(input.utxo))), metadata.value)));
    }

    /** The account an input is spent from; UTXOs found to be multisig are skipped. */
    method InputOwner(utxo: UtxoID, metaType: MetaType) returns (r: Result<Owner, ParseError>)
      requires Valid()
      modifies Dependents()`utxosMap
      ensures Valid()
      ensures r == OwnerOfInput(Ctx(), utxo, metaType)
    {
      if !cfg.isConstruction && metaType == MetaImport {
        return Ok(Known(None));
      }
      if dependencyTxs.Some? {
        var multisig := IsMultisig(utxo);
        if multisig.Err? {
          return Err(FailedToCheckMultisig);
        }
        if multisig.value {
          return Ok(Multisig);
        }
      }
      if Coin(utxo) !in inputTxAccounts {
        return Err(NoMatchingInputAddresses);
      }
      return Ok(Known(Some(inputTxAccounts[Coin(utxo)])));
    }

    lemma CtxKeepsCfg()
      ensures Ctx().cfg == cfg
    {
    }

    method OutsToOperations(outOps: TxOps, kind: Kind, txID: ID, txOut: seq<TransferableOutput>, metaType: MetaType,
                            chain: ChainAlias)
      returns (r: Result<(), ParseError>)
      requires outOps.isConstruction == cfg.isConstruction
      modifies outOps
      ensures OutsToOps(Ctx(), old(outOps.Contents()), kind, txID, txOut, metaType, chain)
              == if r.Ok? then Ok(outOps.Contents()) else Err(r.error)
    {
      hide *;
      var outIndexOffset := outOps.Contents().OutputLen();
      ghost var before, c, utxos := outOps.Contents(), Ctx(), AsUtxos(txID, txOut, outIndexOffset);
      CtxKeepsCfg();
      AsUtxosAt(txID, txOut, outIndexOffset);
      UtxosStart(c, before, kind, utxos, metaType, chain);
      OutsAreUtxos(c, before, kind, txID, txOut, metaType, chain);
      var i := 0;
      while i < |txOut|
        invariant 0 <= i <= |txOut|
        invariant UtxosToOps(c, before, kind, utxos[..i], metaType, chain) == Ok(outOps.Contents())
      {
        UtxosStep(c, before, kind, utxos, metaType, chain, i);
        var utxo := Utxo(UtxoID(txID, outIndexOffset + i), txOut[i].asset, txOut[i].out);
        var op := OutputOperation(kind, utxo, metaType, chain, outOps.Contents().Len());
        r := Collect(outOps, op, metaType);
        i := i + 1;
        if r.Err? {
          UtxosErrorStops(c, before, kind, utxos, metaType, chain, i);
          return;
        }
      }
      assert utxos[..i] == utxos;
      return Ok(());
    }

    method UtxosToOperations(outOps: TxOps, kind: Kind, utxos: seq<Utxo>, metaType: MetaType, chain: ChainAlias)
      returns (r: Result<(), ParseError>)
      requires outOps.isConstruction == cfg.isConstruction
      modifies outOps
      ensures UtxosToOps(Ctx(), old(outOps.Contents()), kind, utxos, metaType, chain)
              == if r.Ok? then Ok(outOps.Contents()) else Err(r.error)
    {
      ghost var before := outOps.Contents();
      var i := 0;
      UtxosStart(Ctx(), before, kind, utxos, metaType, chain);
      hide UtxosToOps, UtxoOp, Collected, Ctx;
      while i < |utxos|
        invariant 0 <= i <= |utxos|
        invariant UtxosToOps(Ctx(), before, kind, utxos[..i], metaType, chain) == Ok(outOps.Contents())
      {
        UtxosStep(Ctx(), before, kind, utxos, metaType, chain, i);
        var op := OutputOperation(kind, utxos[i], metaType, chain, outOps.Contents().Len());
        r := Collect(outOps, op, metaType);
        i := i + 1;
        if r.Err? {
          UtxosErrorStops(Ctx(), before, kind, utxos, metaType, chain, i);
          return;
        }
      }
      assert utxos[..i] == utxos;
      return Ok(());
    }

    /** The body shared by both output loops; None when the output is skipped. */
    method OutputOperation(kind: Kind, utxo: Utxo, metaType: MetaType, chain: ChainAlias, index: int)
      returns (r: Result<Option<Operation>, ParseError>)
      ensures r == UtxoOp(Ctx(), kind, utxo, metaType, chain, index)
    {
      hide BuildOutputOperation, Ctx;
      var transferOutput := Unlocked(utxo.out);
      if transferOutput.None? {
        return Err(UnknownOutputType);
      }
      var out := transferOutput.value;
      if |out.addrs| != 1 {
        return Ok(None);
      }
      var op := BuildOutputOperation(Ctx(), kind, out, utxo.asset, utxo.id, metaType, chain, index);
      return if op.Err? then Err(op.error) else Ok(Some(op.value));
    }

    /** A parse function returns the lists of the specification, or its error. */
    ghost predicate Yields(r: Result<TxOps, ParseError>, spec: Result<OpLists, ParseError>)
      reads if r.Ok? then {r.value} else {}
    {
      if r.Ok? then r.value.isConstruction == cfg.isConstruction && spec == Ok(r.value.Contents())
      else spec == Err(r.error)
    }

    method BaseTxToCombinedOperations(tx: Tx) returns (r: Result<TxOps, ParseError>)
      requires Valid()
      modifies Dependents()`utxosMap
      ensures Valid() && (r.Ok? ==> fresh(r.value))
      ensures Yields(r, BaseToOps(Ctx(), tx))
    {
      var ops := new TxOps(cfg.isConstruction);
      var insDone := InsToOperations(ops, tx.unsigned.kind, tx.unsigned.ins, MetaInput);
      if insDone.Err? {
        return Err(insDone.error);
      }
      var outsDone := OutsToOperations(ops, tx.unsigned.kind, tx.id, tx.unsigned.outs, MetaOutput, PChain);
      if outsDone.Err? {
        return Err(outsDone.error);
      }
      return Ok(ops);
    }

    method ParseImportTx(tx: Tx) returns (r: Result<TxOps, ParseError>)
      requires Valid() && tx.unsigned.kind.ImportAvax?
      modifies Dependents()`utxosMap
      ensures Valid() && (r.Ok? ==> fresh(r.value))
      ensures Yields(r, ImportToOps(Ctx(), tx))
    {
      var ops := new TxOps(cfg.isConstruction);
      var ins := InsToOperations(ops, ImportAvax, tx.unsigned.ins, MetaInput);
      if ins.Err? {
        return Err(ins.error);
      }
      var imported := InsToOperations(ops, ImportAvax, tx.unsigned.imported, MetaImport);
      if imported.Err? {
        return Err(imported.error);
      }
      var outs := OutsToOperations(ops, ImportAvax, tx.id, tx.unsigned.outs, MetaOutput, PChain);
      if outs.Err? {
        return Err(outs.error);
      }
      return Ok(ops);
    }

    method ParseExportTx(tx: Tx) returns (r: Result<TxOps, ParseError>)
      requires Valid() && tx.unsigned.kind.ExportAvax?
      modifies Dependents()`utxosMap
      ensures Valid() && (r.Ok? ==> fresh(r.value))
      ensures Yields(r, ExportToOps(Ctx(), tx))
    {
      r := BaseTxToCombinedOperations(tx);
      if r.Err? {
        return;
      }
      if tx.unsigned.destination !in cfg.chainIDs {
        return Err(UnknownDestinationChain);
      }
      var outs := OutsToOperations(r.value, ExportAvax, tx.id, tx.unsigned.exported, MetaExport,
                                   cfg.chainIDs[tx.unsigned.destination]);
      if outs.Err? {
        return Err(outs.error);
      }
    }

    /** parseAddValidatorTx, parseAddDelegatorTx and their permissionless versions. */
    method ParseStakingTx(tx: Tx) returns (r: Result<TxOps, ParseError>)
      requires Valid() && IsStaking(tx.unsigned.kind)
      modifies Dependents()`utxosMap
      ensures Valid() && (r.Ok? ==> fresh(r.value))
      ensures Yields(r, StakingToOps(Ctx(), tx))
    {
      r := BaseTxToCombinedOperations(tx);
      if r.Err? {
        return;
      }
      var stake := OutsToOperations(r.value, tx.unsigned.kind, tx.id, tx.unsigned.stake, MetaStake, PChain);
      if stake.Err? {
        return Err(stake.error);
      }
    }

    method ParseRewardValidatorTx(tx: Tx) returns (r: Result<TxOps, ParseError>)
      requires Valid() && tx.unsigned.kind.RewardValidator?
      modifies Dependents()`utxosMap
      ensures Valid() && (r.Ok? ==> fresh(r.value))
      ensures Yields(r, RewardToOps(Ctx(), tx))
    {
      if dependencyTxs.None? {
        return Err(NoDependencyTxs);
      }
      if tx.unsigned.rewarded !in dependencyTxs.value {
        return Err(NoMatchingRewardOutputs);
      }
      var dep := dependencyTxs.value[tx.unsigned.rewarded];
      var ops := new TxOps(cfg.isConstruction);
      var rewards := UtxosToOperations(ops, RewardValidator, dep.rewardUTXOs, MetaReward, PChain);
      if rewards.Err? {
        return Err(rewards.error);
      }
      if dep.tx.None? || !IsStaking(dep.tx.value.unsigned.kind) {
        return Err(UnknownRewardSourceTransaction);
      }
      return Ok(ops);
    }

    /** The kind's own parse function; kinds without operations get empty lists. */
    method ParseOperations(tx: Tx) returns (r: Result<TxOps, ParseError>)
      requires Valid()
      modifies Dependents()`utxosMap
      ensures Valid() && (r.Ok? ==> fresh(r.value))
      ensures Yields(r, TxToOps(Ctx(), tx))
    {
      hide Yields, Ctx, ImportToOps, ExportToOps, RewardToOps, StakingToOps, BaseToOps;
      var kind := tx.unsigned.kind;
      if kind.AdvanceTime? || kind.UnknownKind? {
        var ops := new TxOps(cfg.isConstruction);
        r := Ok(ops);
        EmptyYield(r);
      } else if kind.ImportAvax? {
        r := ParseImportTx(tx);
      } else if kind.ExportAvax? {
        r := ParseExportTx(tx);
      } else if kind.RewardValidator? {
        r := ParseRewardValidatorTx(tx);
      } else if IsStaking(kind) {
        r := ParseStakingTx(tx);
      } else {
        r := BaseTxToCombinedOperations(tx);
      }
    }

    lemma EmptyYield(r: Result<TxOps, ParseError>)
      requires r.Ok? && r.value.isConstruction == cfg.isConstruction && r.value.Contents() == EMPTY
      ensures Yields(r, Ok(EMPTY))
    {
    }

    /** Parse: the included operations, then identifiers for the two metadata lists. */
    method Parse(tx: Tx) returns (r: Result<RosettaTx, ParseError>)
      requires Valid()
      modifies Dependents()`utxosMap
      ensures Valid()
      ensures r == Parsed(Ctx(), tx)
    {
      hide TxToOps, Ctx;
      var ops := ParseOperations(tx);
      if ops.Err? {
        return Err(ops.error);
      }
      var operations := ops.value.IncludedOperations();
      var idx := |operations|;
      var importedInputs := AddOperationIdentifiers(ops.value.importIns, idx);
      idx := idx + |importedInputs|;
      var exportedOutputs := AddOperationIdentifiers(ops.value.exportOuts, idx);
      return Ok(RosettaTx(tx.id, tx.unsigned.kind, operations, importedInputs, exportedOutputs));
    }

    method AddOperationIdentifiers(operations: seq<Operation>, startIdx: int) returns (result: seq<Operation>)
      ensures result == WithIdentifiers(operations, startIdx)
    {
      result := [];
      for idx := 0 to |operations|
        invariant result == WithIdentifiers(operations, startIdx)[..idx]
      {
        result := result + [operations[idx].(index := Some(startIdx + idx))];
      }
    }
  }
}
