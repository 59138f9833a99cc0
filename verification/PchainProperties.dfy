/** What the operations of P-chain transactions promise: numbering, coin identifiers, complete dependencies. */
module PchainProperties {
  import opened Prelude
  import opened PchainModel
  import opened PchainDependency
  import opened PchainTxOps
  import opened PchainParser

  // ---------------------------------------------------------------- dense identifiers

  ghost predicate NumberedFrom(ops: seq<Operation>, start: int) {
    forall i :: 0 <= i < |ops| ==> ops[i].index == Some(start + i)
  }

  /** Appending under this metadata type puts an operation after all included ones, or leaves them alone. */
  predicate InOrder(l: OpLists, construction: bool, m: MetaType) {
    match m
    case MetaInput => l.outs == [] && l.stakeOuts == []
    case MetaImport => construction ==> l.outs == [] && l.stakeOuts == []
    case MetaOutput => l.stakeOuts == []
    case MetaExport => construction ==> l.stakeOuts == []
    case _ => true
  }

  /** What a loop over inputs leaves untouched. */
  predicate SameOutputs(l: OpLists, r: OpLists) {
    r.outs == l.outs && r.stakeOuts == l.stakeOuts && r.exportOuts == l.exportOuts
  }

  lemma AppendInOrder(l: OpLists, construction: bool, op: Operation, m: MetaType)
    requires NumberedFrom(l.Included(), 0) && InOrder(l, construction, m) && op.index == Some(l.Len())
    ensures NumberedFrom(Appended(l, construction, op, m).Included(), 0)
    ensures InOrder(Appended(l, construction, op, m), construction, m)
  {
    var r := Appended(l, construction, op, m);
    assert r.Included() == l.Included() || r.Included() == l.Included() + [op];
  }

  lemma {:induction false} InsInOrder(c: Context, l: OpLists, kind: Kind, ins: seq<TransferableInput>, m: MetaType)
    requires m.MetaInput? || m.MetaImport?
    requires NumberedFrom(l.Included(), 0) && InOrder(l, c.cfg.isConstruction, m)
    requires InsToOps(c, l, kind, ins, m).Ok?
    ensures var r := InsToOps(c, l, kind, ins, m).value;
            NumberedFrom(r.Included(), 0) && InOrder(r, c.cfg.isConstruction, m) && SameOutputs(l, r)
  {
    if ins == [] { return; }
    hide InputOp, Appended, NumberedFrom, InOrder;
    var n := |ins| - 1;
    InsInOrder(c, l, kind, ins[..n], m);
    var before := InsToOps(c, l, kind, ins[..n], m).value;
    var op := InputOp(c, kind, ins[n], m, before.Len());
    if op.value.Some? {
      AppendInOrder(before, c.cfg.isConstruction, op.value.value, m);
    }
  }

  lemma {:induction false} UtxosInOrder(c: Context, l: OpLists, kind: Kind, utxos: seq<Utxo>, m: MetaType,
                                        chain: ChainAlias)
    requires NumberedFrom(l.Included(), 0) && InOrder(l, c.cfg.isConstruction, m)
    requires UtxosToOps(c, l, kind, utxos, m, chain).Ok?
    ensures var r := UtxosToOps(c, l, kind, utxos, m, chain).value;
            NumberedFrom(r.Included(), 0) && InOrder(r, c.cfg.isConstruction, m)
  {
    if utxos == [] { return; }
    hide UtxoOp, Appended, NumberedFrom, InOrder;
    var n := |utxos| - 1;
    UtxosInOrder(c, l, kind, utxos[..n], m, chain);
    var before := UtxosToOps(c, l, kind, utxos[..n], m, chain).value;
    var op := UtxoOp(c, kind, utxos[n], m, chain, before.Len());
    if op.value.Some? {
      AppendInOrder(before, c.cfg.isConstruction, op.value.value, m);
    }
  }

  lemma BaseInOrder(c: Context, tx: Tx)
    requires BaseToOps(c, tx).Ok?
    ensures NumberedFrom(BaseToOps(c, tx).value.Included(), 0) && BaseToOps(c, tx).value.stakeOuts == []
  {
    hide InsToOps, UtxosToOps, AsUtxos;
    var u := tx.unsigned;
    InsInOrder(c, EMPTY, u.kind, u.ins, MetaInput);
    var l := InsToOps(c, EMPTY, u.kind, u.ins, MetaInput).value;
    UtxosInOrder(c, l, u.kind, AsUtxos(tx.id, u.outs, l.OutputLen()), MetaOutput, PChain);
  }

  lemma ListsInOrder(c: Context, tx: Tx)
    requires TxToOps(c, tx).Ok?
    ensures NumberedFrom(TxToOps(c, tx).value.Included(), 0)
  {
    hide InsToOps, UtxosToOps, AsUtxos, BaseToOps;
    var u := tx.unsigned;
    if u.kind.AdvanceTime? || u.kind.UnknownKind? {
    } else if u.kind.ImportAvax? {
      InsInOrder(c, EMPTY, ImportAvax, u.ins, MetaInput);
      var l1 := InsToOps(c, EMPTY, ImportAvax, u.ins, MetaInput).value;
      InsInOrder(c, l1, ImportAvax, u.imported, MetaImport);
      var l2 := InsToOps(c, l1, ImportAvax, u.imported, MetaImport).value;
      UtxosInOrder(c, l2, ImportAvax, AsUtxos(tx.id, u.outs, l2.OutputLen()), MetaOutput, PChain);
    } else if u.kind.RewardValidator? {
      UtxosInOrder(c, EMPTY, RewardValidator, c.deps.value[u.rewarded].rewards, MetaReward, PChain);
    } else {
      BaseInOrder(c, tx);
      var l := BaseToOps(c, tx).value;
      if u.kind.ExportAvax? {
        UtxosInOrder(c, l, ExportAvax, AsUtxos(tx.id, u.exported, l.OutputLen()), MetaExport,
                     c.cfg.chainIDs[u.destination]);
      } else if IsStaking(u.kind) {
        UtxosInOrder(c, l, u.kind, AsUtxos(tx.id, u.stake, l.OutputLen()), MetaStake, PChain);
      }
    }
  }

  /** Operation i has identifier i, and imported inputs, then exported outputs, carry on without a gap. */
  lemma ParseIdentifiersDense(c: Context, tx: Tx)
    requires Parsed(c, tx).Ok?
    ensures var t := Parsed(c, tx).value;
            NumberedFrom(t.operations + t.importedInputs + t.exportedOutputs, 0)
  {
    hide TxToOps;
    ListsInOrder(c, tx);
  }

  // ---------------------------------------------------------------- created coins

  /** The outputs for which operations are created. */
  predicate Reported(out: Output) {
    Unlocked(out).Some? && |Unlocked(out).value.addrs| == 1
  }

  function Singles(utxos: seq<Utxo>): seq<Utxo> {
    if utxos == [] then []
    else Singles(utxos[..|utxos| - 1]) + if Reported(utxos[|utxos| - 1].out) then [utxos[|utxos| - 1]] else []
  }

  /** The currency that stands for an asset. */
  predicate CurrencyOf(cfg: Config, asset: ID, currency: Currency) {
    if asset == cfg.avaxAssetID then currency == AtomicAvax else asset in cfg.assets && currency == cfg.assets[asset]
  }

  /** The output is the transfer t, plain or behind one lock. */
  predicate IsTransfer(out: Output, t: TransferOutput) {
    out == Transfer(t) || (out.LockOut? && out.inner == Transfer(t))
  }

  /** op shows the transfer t: its amount through int64, its only owner, its locktime and its threshold. */
  predicate ShowsTransfer(op: Operation, cfg: Config, t: TransferOutput, asset: ID, chain: ChainAlias) {
    && SameBits(op.amount.value, t.amount) && CurrencyOf(cfg, asset, op.amount.currency)
    && |t.addrs| == 1 && op.account == Some(Bech32(chain, t.addrs[0]))
    && op.status == Some(true) && op.metadata.locktime == t.locktime && op.metadata.threshold == t.threshold
  }

  /** op reports the creation of utxo on the given chain, outside construction. */
  ghost predicate Creates(op: Operation, c: Context, utxo: Utxo, chain: ChainAlias) {
    && Reported(utxo.out)
    && op.coin == Some(CoinCreated(Coin(utxo.id)))
    && IsTransfer(utxo.out, Unlocked(utxo.out).value)
    && ShowsTransfer(op, c.cfg, Unlocked(utxo.out).value, utxo.asset, chain)
  }

  ghost predicate CreatesAll(ops: seq<Operation>, c: Context, utxos: seq<Utxo>, chain: ChainAlias) {
    |ops| == |utxos| && forall i :: 0 <= i < |ops| ==> Creates(ops[i], c, utxos[i], chain)
  }

  /** The list a metadata type appends to outside construction. */
  function Target(l: OpLists, m: MetaType): seq<Operation> {
    match m
    case MetaImport => l.importIns
    case MetaExport => l.exportOuts
    case MetaStake => l.stakeOuts
    case MetaReward => l.stakeOuts
    case MetaOutput => l.outs
    case MetaInput => l.ins
    case MetaOther(_) => []
  }

  /** The lists other than the one m appends to are the same in l and r. */
  predicate OthersSame(l: OpLists, r: OpLists, m: MetaType) {
    && (m.MetaInput? || r.ins == l.ins)
    && (m.MetaOutput? || r.outs == l.outs)
    && (m.MetaStake? || m.MetaReward? || r.stakeOuts == l.stakeOuts)
    && (m.MetaImport? || r.importIns == l.importIns)
    && (m.MetaExport? || r.exportOuts == l.exportOuts)
  }

  lemma UtxoOpCreates(c: Context, kind: Kind, utxo: Utxo, m: MetaType, chain: ChainAlias, index: int)
    requires !c.cfg.isConstruction && UtxoOp(c, kind, utxo, m, chain, index).Ok?
    ensures Unlocked(utxo.out).Some?
    ensures var op := UtxoOp(c, kind, utxo, m, chain, index).value;
            (op.Some? <==> Reported(utxo.out)) && (op.Some? ==> Creates(op.value, c, utxo, chain))
  {
    if Reported(utxo.out) { ToInt64KeepsBits(Unlocked(utxo.out).value.amount); }
    hide ToInt64, SameBits;
  }

  lemma CreatesIgnoresIndex(op: Operation, c: Context, utxo: Utxo, chain: ChainAlias)
    requires Creates(op, c, utxo, chain)
    ensures Creates(op.(index := None), c, utxo, chain)
  {
  }

  lemma AppendTarget(l: OpLists, op: Operation, m: MetaType)
    requires !m.MetaOther?
    ensures var r := Appended(l, false, op, m);
            && OthersSame(l, r, m)
            && (Target(r, m) == Target(l, m) + [op] || Target(r, m) == Target(l, m) + [op.(index := None)])
  {
  }

  /** l grew into r by one operation per utxo, all appended to the list that m names. */
  ghost predicate Grew(l: OpLists, r: OpLists, m: MetaType, c: Context, utxos: seq<Utxo>, chain: ChainAlias) {
    && OthersSame(l, r, m)
    && Target(l, m) <= Target(r, m)
    && CreatesAll(Target(r, m)[|Target(l, m)|..], c, utxos, chain)
  }

  lemma GrowByOne(l: OpLists, r: OpLists, m: MetaType, c: Context, utxos: seq<Utxo>, chain: ChainAlias, op: Operation,
                  utxo: Utxo)
    requires !m.MetaOther? && Grew(l, r, m, c, utxos, chain) && Creates(op, c, utxo, chain)
    ensures Grew(l, Appended(r, false, op, m), m, c, utxos + [utxo], chain)
  {
    hide Creates, Appended;
    AppendTarget(r, op, m);
    CreatesIgnoresIndex(op, c, utxo, chain);
  }

  /** A loop over outputs appends exactly one operation per single-owner output, in order, to one list. */
  lemma {:induction false} UtxosCreate(c: Context, l: OpLists, kind: Kind, utxos: seq<Utxo>, m: MetaType,
                                       chain: ChainAlias)
    requires !c.cfg.isConstruction && !m.MetaOther?
    requires UtxosToOps(c, l, kind, utxos, m, chain).Ok?
    ensures Grew(l, UtxosToOps(c, l, kind, utxos, m, chain).value, m, c, Singles(utxos), chain)
  {
    if utxos == [] { return; }
    var n := |utxos| - 1;
    var before := UtxosToOps(c, l, kind, utxos[..n], m, chain).value;
    var op := UtxoOp(c, kind, utxos[n], m, chain, before.Len());
    UtxosCreate(c, l, kind, utxos[..n], m, chain);
    UtxoOpCreates(c, kind, utxos[n], m, chain, before.Len());
    hide UtxoOp, Creates, Reported, Unlocked, Appended, Grew;
    if op.value.Some? { GrowByOne(l, before, m, c, Singles(utxos[..n]), chain, op.value.value, utxos[n]); }
  }

  lemma UtxoOpTransfer(c: Context, kind: Kind, utxo: Utxo, m: MetaType, chain: ChainAlias, index: int)
    requires UtxoOp(c, kind, utxo, m, chain, index).Ok?
    ensures Reported(utxo.out) <==> SingleOwner(utxo.out)
  {
    hide BuildOutputOperation;
    assert Unlocked(utxo.out).Some?;
    UnlockedOwners(utxo.out);
  }

  lemma UnlockedOwners(out: Output)
    requires Unlocked(out).Some?
    ensures Addresses(out) == Some(Unlocked(out).value.addrs)
  {
    if out.LockOut? { assert Addresses(out.inner) == Some(out.inner.out.addrs); }
  }

  lemma {:induction false} ReportedAreSingleOwner(c: Context, l: OpLists, kind: Kind, utxos: seq<Utxo>, m: MetaType,
                                                  chain: ChainAlias, i: nat)
    requires UtxosToOps(c, l, kind, utxos, m, chain).Ok? && i < |utxos|
    ensures Reported(utxos[i].out) <==> SingleOwner(utxos[i].out)
    decreases |utxos|
  {
    hide UtxoOp, Reported, SingleOwner;
    var n := |utxos| - 1;
    var before := UtxosToOps(c, l, kind, utxos[..n], m, chain).value;
    if i == n {
      UtxoOpTransfer(c, kind, utxos[n], m, chain, before.Len());
    } else {
      ReportedAreSingleOwner(c, l, kind, utxos[..n], m, chain, i);
    }
  }

  /** The ids of the coins a list of operations reports as created. */
  function CreatedIDs(ops: seq<Operation>): set<CoinID> {
    set i | 0 <= i < |ops| && ops[i].coin.Some? && ops[i].coin.value.CoinCreated? :: ops[i].coin.value.coin
  }

  function IDs(utxos: seq<Utxo>): set<CoinID> {
    set i | 0 <= i < |utxos| :: Coin(utxos[i].id)
  }

  lemma CreatesAllIDs(ops: seq<Operation>, c: Context, utxos: seq<Utxo>, chain: ChainAlias)
    requires CreatesAll(ops, c, utxos, chain)
    ensures CreatedIDs(ops) == IDs(utxos)
  {
    forall i | 0 <= i < |ops| ensures ops[i].coin == Some(CoinCreated(Coin(utxos[i].id))) {
      assert Creates(ops[i], c, utxos[i], chain);
    }
    assert forall i :: 0 <= i < |ops| ==> ops[i].coin.value.coin == Coin(utxos[i].id);
  }

  lemma CreatedIDsConcat(a: seq<Operation>, b: seq<Operation>)
    ensures CreatedIDs(a + b) == CreatedIDs(a) + CreatedIDs(b)
  {
    var ab := a + b;
    forall x | x in CreatedIDs(b) ensures x in CreatedIDs(ab) {
      var i :| 0 <= i < |b| && b[i].coin.Some? && b[i].coin.value.CoinCreated? && b[i].coin.value.coin == x;
      assert ab[|a| + i] == b[i];
    }
    forall x | x in CreatedIDs(a) ensures x in CreatedIDs(ab) {
      var i :| 0 <= i < |a| && a[i].coin.Some? && a[i].coin.value.CoinCreated? && a[i].coin.value.coin == x;
      assert ab[i] == a[i];
    }
    forall x | x in CreatedIDs(ab) ensures x in CreatedIDs(a) + CreatedIDs(b) {
      var i :| 0 <= i < |ab| && ab[i].coin.Some? && ab[i].coin.value.CoinCreated? && ab[i].coin.value.coin == x;
      if i < |a| { assert a[i] == ab[i]; } else { assert b[i - |a|] == ab[i]; }
    }
  }

  /** Output i of outs has exactly one owner. */
  predicate SingleAt(outs: seq<TransferableOutput>, i: int) {
    0 <= i < |outs| && SingleOwner(outs[i].out)
  }

  /** The coin ids the outputs really get on the chain, of those with exactly one owner. */
  function TrueCoins(tx: Tx): set<CoinID> {
    set i | 0 <= i < |SpendableOutputs(tx.unsigned)| && SingleAt(SpendableOutputs(tx.unsigned), i) ::
      Coin(UtxoID(tx.id, i))
  }

  lemma TrueCoinsExact(tx: Tx, u: UtxoID)
    ensures Coin(u) in TrueCoins(tx) <==> u.txID == tx.id && SingleAt(SpendableOutputs(tx.unsigned), u.outputIndex)
  {
    hide SpendableOutputs, SingleOwner;
    var outs := SpendableOutputs(tx.unsigned);
    if Coin(u) in TrueCoins(tx) {
      var i :| 0 <= i < |outs| && SingleAt(outs, i) && Coin(UtxoID(tx.id, i)) == Coin(u);
    }
  }

  /** They are the single-owner keys of GetUtxos for the transaction. */
  lemma TrueCoinsAreSingleOwnerUtxos(tx: Tx, u: UtxoID)
    ensures Coin(u) in TrueCoins(tx) <==>
            var m := UtxosOf(Dependency(Some(tx), [])); u in m && SingleOwner(m[u].out)
  {
    UtxosOfExact(Dependency(Some(tx), []), u);
    TrueCoinsExact(tx, u);
    hide UtxosOf, SpendableOutputs, TrueCoins, SingleOwner;
  }

  function Count(outs: seq<TransferableOutput>): nat {
    if outs == [] then 0
    else Count(outs[..|outs| - 1]) + if SingleOwner(outs[|outs| - 1].out) then 1 else 0
  }

  predicate AllSingle(outs: seq<TransferableOutput>) {
    forall i :: 0 <= i < |outs| ==> SingleAt(outs, i)
  }

  predicate NoneSingle(outs: seq<TransferableOutput>) {
    forall i :: 0 <= i < |outs| ==> !SingleAt(outs, i)
  }

  lemma AllSingleStep(outs: seq<TransferableOutput>)
    requires outs != []
    ensures var n := |outs| - 1; AllSingle(outs) <==> AllSingle(outs[..n]) && SingleOwner(outs[n].out)
  {
    hide SingleOwner;
    var n := |outs| - 1;
    forall i | 0 <= i < n ensures SingleAt(outs[..n], i) <==> SingleAt(outs, i) {
      assert outs[..n][i] == outs[i];
    }
    if AllSingle(outs) { assert SingleAt(outs, n); }
    if AllSingle(outs[..n]) && SingleOwner(outs[n].out) {
      forall i | 0 <= i < |outs| ensures SingleAt(outs, i) { assert i == n || SingleAt(outs[..n], i); }
    }
  }

  lemma {:induction false} CountAll(outs: seq<TransferableOutput>)
    ensures Count(outs) <= |outs|
    ensures Count(outs) == |outs| <==> AllSingle(outs)
  {
    if outs == [] { return; }
    AllSingleStep(outs);
    hide AllSingle, SingleOwner;
    CountAll(outs[..|outs| - 1]);
  }

  lemma {:induction false} SinglesOf(utxos: seq<Utxo>, x: CoinID)
    ensures x in IDs(Singles(utxos)) <==>
            exists i :: 0 <= i < |utxos| && Reported(utxos[i].out) && Coin(utxos[i].id) == x
  {
    if utxos != [] {
      var n := |utxos| - 1;
      var before, all := Singles(utxos[..n]), Singles(utxos);
      SinglesOf(utxos[..n], x);
      if x in IDs(before) {
        var k :| 0 <= k < |before| && Coin(before[k].id) == x;
        assert all[k] == before[k];
      }
      if x in IDs(all) {
        var k :| 0 <= k < |all| && Coin(all[k].id) == x;
        if k < |before| { assert before[k] == all[k]; }
      }
      if i :| 0 <= i < |utxos| && Reported(utxos[i].out) && Coin(utxos[i].id) == x {
        if i < n { assert utxos[..n][i] == utxos[i]; } else { assert all[|before|] == utxos[n]; }
      }
    }
  }

  // ---------------------------------------------------------------- spent coins

  /** Inputs that spend a UTXO with several owners, or none, get no operation. */
  predicate Skipped(c: Context, utxo: UtxoID) {
    c.deps.Some? && IsMultisigUtxo(c.deps.value, utxo) == Ok(true)
  }

  function Unskipped(c: Context, ins: seq<TransferableInput>): seq<TransferableInput> {
    if ins == [] then []
    else Unskipped(c, ins[..|ins| - 1]) + if Skipped(c, ins[|ins| - 1].utxo) then [] else [ins[|ins| - 1]]
  }

  /** op takes away the amount of a transfer input, and shows its signature indices and the locktime given. */
  predicate ShowsInput(op: Operation, input: Input, locktime: uint64) {
    && input.TransferInput? && op.amount.value == 0 - input.amount
    && op.metadata.sigIndices == (if input.sigIndices == [] then None else Some(input.sigIndices))
    && op.metadata.locktime == locktime
  }

  /** op shows an input that is a transfer, plain or behind one lock. */
  predicate ShowsSpent(op: Operation, cfg: Config, input: TransferableInput) {
    && op.status == Some(true) && op.coin == Some(CoinSpent(Coin(input.utxo)))
    && CurrencyOf(cfg, input.asset, op.amount.currency)
    && if input.input.LockIn? then ShowsInput(op, input.input.inner, input.input.locktime)
       else ShowsInput(op, input.input, 0)
  }

  /** op reports that input is spent by the account its UTXO belongs to. */
  ghost predicate Spends(op: Operation, c: Context, input: TransferableInput) {
    && ShowsSpent(op, c.cfg, input)
    && Coin(input.utxo) in c.accounts
    && op.account == Some(c.accounts[Coin(input.utxo)])
  }

  ghost predicate SpendsAll(ops: seq<Operation>, c: Context, ins: seq<TransferableInput>) {
    |ops| == |ins| && forall i :: 0 <= i < |ops| ==> Spends(ops[i], c, ins[i])
  }

  /** Outside construction an operation for an input, of whatever list, shows that input. */
  lemma InputOpShows(c: Context, kind: Kind, input: TransferableInput, m: MetaType, index: int)
    requires !c.cfg.isConstruction
    requires InputOp(c, kind, input, m, index).Ok? && InputOp(c, kind, input, m, index).value.Some?
    ensures ShowsSpent(InputOp(c, kind, input, m, index).value.value, c.cfg, input)
  {
    hide OwnerOfInput;
    if input.input.LockIn? {
      assert InputAmount(input.input.inner) == input.input.inner.amount;
    }
  }

  lemma InputOpSpends(c: Context, kind: Kind, input: TransferableInput, index: int)
    requires !c.cfg.isConstruction && InputOp(c, kind, input, MetaInput, index).Ok?
    ensures var op := InputOp(c, kind, input, MetaInput, index).value;
            (op.None? <==> Skipped(c, input.utxo)) && (op.Some? ==> Spends(op.value, c, input))
    ensures c.deps.Some? ==> IsMultisigUtxo(c.deps.value, input.utxo).Ok?
  {
    if InputOp(c, kind, input, MetaInput, index).value.Some? { InputOpShows(c, kind, input, MetaInput, index); }
    hide IsMultisigUtxo, BuildAmount, InputMetadata, ShowsSpent;
  }

  /** A loop over base inputs appends exactly one operation per unskipped input, in order. */
  lemma {:induction false} InsSpend(c: Context, l: OpLists, kind: Kind, ins: seq<TransferableInput>)
    requires !c.cfg.isConstruction && InsToOps(c, l, kind, ins, MetaInput).Ok?
    ensures var r := InsToOps(c, l, kind, ins, MetaInput).value;
            OthersSame(l, r, MetaInput) && l.ins <= r.ins && SpendsAll(r.ins[|l.ins|..], c, Unskipped(c, ins))
  {
    if ins == [] { return; }
    var n := |ins| - 1;
    var before := InsToOps(c, l, kind, ins[..n], MetaInput).value;
    InsSpend(c, l, kind, ins[..n]);
    InputOpSpends(c, kind, ins[n], before.Len());
    hide InputOp, Spends, Skipped;
  }

  // ---------------------------------------------------------------- operation and metadata types

  /** Every operation has the transaction's type and the list's metadata type. */
  predicate Typed(ops: seq<Operation>, kind: Kind, m: MetaType) {
    forall i :: 0 <= i < |ops| ==> ops[i].kind == kind && ops[i].metadata.kind == m
  }

  lemma AppendTyped(l: OpLists, op: Operation, kind: Kind, m: MetaType)
    requires !m.MetaOther? && Typed(Target(l, m), kind, m) && op.kind == kind && op.metadata.kind == m
    ensures Typed(Target(Appended(l, false, op, m), m), kind, m) && OthersSame(l, Appended(l, false, op, m), m)
  {
    AppendTarget(l, op, m);
    hide Appended, Target, OthersSame;
  }

  lemma InputOpTyped(c: Context, kind: Kind, input: TransferableInput, m: MetaType, index: int)
    requires InputOp(c, kind, input, m, index).Ok? && InputOp(c, kind, input, m, index).value.Some?
    ensures var op := InputOp(c, kind, input, m, index).value.value; op.kind == kind && op.metadata.kind == m
  {
    hide OwnerOfInput, BuildAmount;
  }

  lemma {:induction false} InsTyped(c: Context, l: OpLists, kind: Kind, ins: seq<TransferableInput>, m: MetaType)
    requires !c.cfg.isConstruction && !m.MetaOther? && InsToOps(c, l, kind, ins, m).Ok? && Typed(Target(l, m), kind, m)
    ensures var r := InsToOps(c, l, kind, ins, m).value; Typed(Target(r, m), kind, m) && OthersSame(l, r, m)
  {
    if ins == [] { return; }
    var n := |ins| - 1;
    InsTyped(c, l, kind, ins[..n], m);
    var before := InsToOps(c, l, kind, ins[..n], m).value;
    var op := InputOp(c, kind, ins[n], m, before.Len());
    hide InputOp, Typed, Target, Appended;
    if op.value.Some? {
      InputOpTyped(c, kind, ins[n], m, before.Len());
      AppendTyped(before, op.value.value, kind, m);
    }
  }

  lemma UtxoOpTyped(c: Context, kind: Kind, utxo: Utxo, m: MetaType, chain: ChainAlias, index: int)
    requires UtxoOp(c, kind, utxo, m, chain, index).Ok? && UtxoOp(c, kind, utxo, m, chain, index).value.Some?
    ensures var op := UtxoOp(c, kind, utxo, m, chain, index).value.value; op.kind == kind && op.metadata.kind == m
  {
    hide BuildAmount, ToInt64;
  }

  lemma {:induction false} UtxosTyped(c: Context, l: OpLists, kind: Kind, utxos: seq<Utxo>, m: MetaType,
                                      chain: ChainAlias)
    requires !c.cfg.isConstruction && !m.MetaOther? && UtxosToOps(c, l, kind, utxos, m, chain).Ok?
    requires Typed(Target(l, m), kind, m)
    ensures var r := UtxosToOps(c, l, kind, utxos, m, chain).value; Typed(Target(r, m), kind, m) && OthersSame(l, r, m)
  {
    if utxos == [] { return; }
    var n := |utxos| - 1;
    UtxosTyped(c, l, kind, utxos[..n], m, chain);
    var before := UtxosToOps(c, l, kind, utxos[..n], m, chain).value;
    var op := UtxoOp(c, kind, utxos[n], m, chain, before.Len());
    hide UtxoOp, Typed, Target, Appended;
    if op.value.Some? {
      UtxoOpTyped(c, kind, utxos[n], m, chain, before.Len());
      AppendTyped(before, op.value.value, kind, m);
    }
  }

  lemma OutsTyped(c: Context, l: OpLists, kind: Kind, txID: ID, outs: seq<TransferableOutput>, m: MetaType,
                  chain: ChainAlias)
    requires !c.cfg.isConstruction && !m.MetaOther? && OutsToOps(c, l, kind, txID, outs, m, chain).Ok?
    requires Typed(Target(l, m), kind, m)
    ensures var r := OutsToOps(c, l, kind, txID, outs, m, chain).value;
            Typed(Target(r, m), kind, m) && OthersSame(l, r, m)
  {
    hide *;
    OutsAreUtxos(c, l, kind, txID, outs, m, chain);
    UtxosTyped(c, l, kind, AsUtxos(txID, outs, l.OutputLen()), m, chain);
  }

  /** The lists of a parsed transaction, each with its own metadata type. */
  predicate AllTyped(l: OpLists, kind: Kind) {
    && Typed(l.ins, kind, MetaInput) && Typed(l.outs, kind, MetaOutput)
    && Typed(l.stakeOuts, kind, if kind.RewardValidator? then MetaReward else MetaStake)
    && Typed(l.importIns, kind, MetaImport) && Typed(l.exportOuts, kind, MetaExport)
  }

  lemma BaseTyped(c: Context, tx: Tx)
    requires !c.cfg.isConstruction && BaseToOps(c, tx).Ok?
    ensures AllTyped(BaseToOps(c, tx).value, tx.unsigned.kind)
    ensures BaseToOps(c, tx).value.stakeOuts == []
  {
    hide InsToOps, OutsToOps;
    var u := tx.unsigned;
    InsTyped(c, EMPTY, u.kind, u.ins, MetaInput);
    OutsTyped(c, InsToOps(c, EMPTY, u.kind, u.ins, MetaInput).value, u.kind, tx.id, u.outs, MetaOutput, PChain);
  }

  lemma ImportTyped(c: Context, tx: Tx)
    requires !c.cfg.isConstruction && ImportToOps(c, tx).Ok?
    ensures AllTyped(ImportToOps(c, tx).value, ImportAvax)
  {
    hide InsToOps, OutsToOps;
    var u := tx.unsigned;
    InsTyped(c, EMPTY, ImportAvax, u.ins, MetaInput);
    var i := InsToOps(c, EMPTY, ImportAvax, u.ins, MetaInput).value;
    InsTyped(c, i, ImportAvax, u.imported, MetaImport);
    var j := InsToOps(c, i, ImportAvax, u.imported, MetaImport).value;
    OutsTyped(c, j, ImportAvax, tx.id, u.outs, MetaOutput, PChain);
  }

  /** Block mode: every operation has the transaction's type, and its list's metadata type. */
  lemma BlockOperationsTyped(c: Context, tx: Tx)
    requires !c.cfg.isConstruction && TxToOps(c, tx).Ok?
    ensures AllTyped(TxToOps(c, tx).value, tx.unsigned.kind)
  {
    hide BaseToOps, ImportToOps, OutsToOps, UtxosToOps, Typed;
    var u := tx.unsigned;
    assert forall m :: Typed([], u.kind, m) by { NoneTyped(u.kind); }
    if u.kind.AdvanceTime? || u.kind.UnknownKind? {
    } else if u.kind.ImportAvax? {
      ImportTyped(c, tx);
    } else if u.kind.RewardValidator? {
      UtxosTyped(c, EMPTY, RewardValidator, c.deps.value[u.rewarded].rewards, MetaReward, PChain);
    } else {
      BaseTyped(c, tx);
      var l := BaseToOps(c, tx).value;
      if u.kind.ExportAvax? {
        OutsTyped(c, l, ExportAvax, tx.id, u.exported, MetaExport, c.cfg.chainIDs[u.destination]);
      } else if IsStaking(u.kind) {
        OutsTyped(c, l, u.kind, tx.id, u.stake, MetaStake, PChain);
      }
    }
  }

  lemma NoneTyped(kind: Kind)
    ensures forall m :: Typed([], kind, m)
  {
  }

  // ---------------------------------------------------------------- loops over the two kinds of lists

  lemma GrewMeans(l: OpLists, r: OpLists, m: MetaType, c: Context, utxos: seq<Utxo>, chain: ChainAlias)
    requires Grew(l, r, m, c, utxos, chain)
    ensures OthersSame(l, r, m) && Target(l, m) <= Target(r, m) && |Target(r, m)| == |Target(l, m)| + |utxos|
    ensures CreatesAll(Target(r, m)[|Target(l, m)|..], c, utxos, chain)
  {
    hide Creates, OthersSame, Target;
  }

  lemma {:induction false} SinglesCount(outs: seq<TransferableOutput>, utxos: seq<Utxo>)
    requires |utxos| == |outs|
    requires forall i :: 0 <= i < |outs| ==> (Reported(utxos[i].out) <==> SingleOwner(outs[i].out))
    ensures |Singles(utxos)| == Count(outs)
  {
    hide Reported, SingleOwner;
    if outs != [] { SinglesCount(outs[..|outs| - 1], utxos[..|outs| - 1]); }
  }

  /** A loop over outputs reports as many as have a single owner. */
  lemma LoopCount(c: Context, l: OpLists, kind: Kind, txID: ID, outs: seq<TransferableOutput>, m: MetaType,
                  chain: ChainAlias)
    requires !c.cfg.isConstruction && !m.MetaOther? && OutsToOps(c, l, kind, txID, outs, m, chain).Ok?
    ensures |Target(OutsToOps(c, l, kind, txID, outs, m, chain).value, m)| == |Target(l, m)| + Count(outs)
  {
    hide *;
    var utxos := AsUtxos(txID, outs, l.OutputLen());
    OutsAreUtxos(c, l, kind, txID, outs, m, chain);
    var r := UtxosToOps(c, l, kind, utxos, m, chain).value;
    UtxosCreate(c, l, kind, utxos, m, chain);
    GrewMeans(l, r, m, c, Singles(utxos), chain);
    AsUtxosAt(txID, outs, l.OutputLen());
    forall i | 0 <= i < |outs| ensures Reported(utxos[i].out) <==> SingleOwner(outs[i].out) {
      ReportedAreSingleOwner(c, l, kind, utxos, m, chain, i);
    }
    SinglesCount(outs, utxos);
  }

  /** op reports that input is spent on another chain, whose accounts are not known here. */
  ghost predicate Imports(op: Operation, c: Context, input: TransferableInput) {
    ShowsSpent(op, c.cfg, input) && op.account == None
  }

  ghost predicate ImportsAll(ops: seq<Operation>, c: Context, ins: seq<TransferableInput>) {
    |ops| == |ins| && forall i :: 0 <= i < |ops| ==> Imports(ops[i], c, ins[i])
  }

  lemma InputOpImports(c: Context, kind: Kind, input: TransferableInput, index: int)
    requires !c.cfg.isConstruction && InputOp(c, kind, input, MetaImport, index).Ok?
    ensures var op := InputOp(c, kind, input, MetaImport, index).value;
            op.Some? && Imports(op.value.(index := None), c, input)
  {
    var op := InputOp(c, kind, input, MetaImport, index).value;
    if op.Some? {
      InputOpShows(c, kind, input, MetaImport, index);
      assert ShowsSpent(op.value.(index := None), c.cfg, input);
    }
    hide BuildAmount, InputMetadata, ShowsSpent;
  }

  /** Outside construction imported inputs are kept apart: one operation each, in order. */
  lemma {:induction false} InsImport(c: Context, l: OpLists, imported: seq<TransferableInput>)
    requires !c.cfg.isConstruction && InsToOps(c, l, ImportAvax, imported, MetaImport).Ok?
    ensures var r := InsToOps(c, l, ImportAvax, imported, MetaImport).value;
            && OthersSame(l, r, MetaImport) && l.importIns <= r.importIns
            && ImportsAll(r.importIns[|l.importIns|..], c, imported)
  {
    if imported == [] { return; }
    var n := |imported| - 1;
    var before := InsToOps(c, l, ImportAvax, imported[..n], MetaImport).value;
    InsImport(c, l, imported[..n]);
    InputOpImports(c, ImportAvax, imported[n], before.Len());
    hide InputOp, Imports;
  }

  lemma SpendableByKind(u: UnsignedTx)
    ensures IsStaking(u.kind) ==> SpendableOutputs(u) == u.outs + u.stake
    ensures u.kind.AdvanceTime? || u.kind.UnknownKind? || u.kind.RewardValidator? ==> SpendableOutputs(u) == []
    ensures !IsStaking(u.kind) && !u.kind.AdvanceTime? && !u.kind.UnknownKind? && !u.kind.RewardValidator? ==>
              SpendableOutputs(u) == u.outs
  {
  }
}
