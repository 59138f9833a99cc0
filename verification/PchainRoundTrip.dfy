/** Building a P-chain transaction from operations and parsing it gives the operations back. */
module PchainRoundTrip {
  import opened Prelude
  import opened PchainModel
  import opened PchainDependency
  import opened PchainTxOps
  import opened PchainParser
  import opened PchainBuilder

  // ---------------------------------------------------------------- what parsing returns for one entry

  /** Operations are compared without identifiers, metadata with its defaults filled in. */
  function Erased(op: Operation): Operation {
    op.(index := None, metadata := ParseOpMetadata(op.metadata))
  }

  function AccountAt(accounts: AccountMap, u: UtxoID): Option<Account> {
    if Coin(u) in accounts then Some(accounts[Coin(u)]) else None
  }

  function FromInput(accounts: AccountMap, kind: Kind, m: MetaType, input: TransferableInput): Operation {
    var sigs := if input.input.TransferInput? then OmitEmpty(input.input.sigIndices) else None;
    Operation(None, kind, None, AccountAt(accounts, input.utxo), Amount(0 - InputAmount(input.input), AtomicAvax),
              Some(CoinSpent(Coin(input.utxo))), ParseOpMetadata(OpMetadata(m, sigs, 0, 0)))
  }

  function FromOutput(kind: Kind, m: MetaType, chain: ChainAlias, out: TransferableOutput): Operation {
    var t := if Plain(out) then out.out.out else TransferOutput(0, 0, 0, [0]);
    Operation(None, kind, None, Some(Bech32(chain, t.addrs[0])), Amount(ToInt64(t.amount), AtomicAvax), None,
              ParseOpMetadata(OpMetadata(m, None, t.locktime, t.threshold)))
  }

  function ErasedAll(ops: seq<Operation>): seq<Operation> {
    seq(|ops|, i requires 0 <= i < |ops| => Erased(ops[i]))
  }

  function InputImages(accounts: AccountMap, kind: Kind, m: MetaType, ins: seq<TransferableInput>): seq<Operation> {
    seq(|ins|, i requires 0 <= i < |ins| => FromInput(accounts, kind, m, ins[i]))
  }

  function OutputImages(kind: Kind, m: MetaType, chain: ChainAlias, outs: seq<TransferableOutput>): seq<Operation> {
    seq(|outs|, i requires 0 <= i < |outs| => FromOutput(kind, m, chain, outs[i]))
  }

  /** Construction mode, with the accounts of the spent coins. */
  predicate Constructs(c: Context) {
    c.cfg.isConstruction && c.deps.None?
  }

  predicate InputReads(c: Context, input: TransferableInput) {
    input.input.TransferInput? && input.asset == c.cfg.avaxAssetID && Coin(input.utxo) in c.accounts
  }

  // ---------------------------------------------------------------- what parsing returns for a list

  predicate AllRead(c: Context, ins: seq<TransferableInput>) {
    forall i :: 0 <= i < |ins| ==> InputReads(c, ins[i])
  }

  predicate AllAvax(c: Context, outs: seq<TransferableOutput>) {
    forall i :: 0 <= i < |outs| ==> Plain(outs[i]) && outs[i].asset == c.cfg.avaxAssetID
  }

  lemma ErasedSnoc(ops: seq<Operation>, op: Operation)
    ensures ErasedAll(ops + [op]) == ErasedAll(ops) + [Erased(op)]
  {
    hide Erased;
  }

  lemma {:induction false} InsReadBack(c: Context, l: OpLists, kind: Kind, ins: seq<TransferableInput>, m: MetaType)
    requires Constructs(c) && AllRead(c, ins) && (m.MetaInput? || m.MetaImport?)
    ensures var r := InsToOps(c, l, kind, ins, m);
            && r.Ok? && r.value == l.(ins := r.value.ins)
            && ErasedAll(r.value.ins)
               == ErasedAll(l.ins) + InputImages(c.accounts, kind, m, ins)
  {
    if ins == [] { return; }
    var n := |ins| - 1;
    InsReadBack(c, l, kind, ins[..n], m);
    var before := InsToOps(c, l, kind, ins[..n], m).value;
    var op := InputOp(c, kind, ins[n], m, before.Len());
    hide InputOp, InputReads, FromInput, Erased;
    assert InputImages(c.accounts, kind, m, ins)
        == InputImages(c.accounts, kind, m, ins[..n]) + [FromInput(c.accounts, kind, m, ins[n])];
    ErasedSnoc(before.ins, op.value.value);
  }

  /** Where outputs go during construction. */
  function OutTarget(l: OpLists, m: MetaType): seq<Operation> {
    if m.MetaStake? then l.stakeOuts else l.outs
  }

  predicate OnlyTarget(l: OpLists, r: OpLists, m: MetaType) {
    if m.MetaStake? then r == l.(stakeOuts := r.stakeOuts) else r == l.(outs := r.outs)
  }

  lemma {:induction false} UtxosReadBack(c: Context, l: OpLists, kind: Kind, utxos: seq<Utxo>,
                                         outs: seq<TransferableOutput>, m: MetaType, chain: ChainAlias)
    requires Constructs(c) && AllAvax(c, outs) && (m.MetaOutput? || m.MetaStake? || m.MetaExport?)
    requires |utxos| == |outs|
    requires forall i :: 0 <= i < |outs| ==> utxos[i].out == outs[i].out && utxos[i].asset == outs[i].asset
    ensures var r := UtxosToOps(c, l, kind, utxos, m, chain);
            && r.Ok? && OnlyTarget(l, r.value, m)
            && ErasedAll(OutTarget(r.value, m))
               == ErasedAll(OutTarget(l, m)) + OutputImages(kind, m, chain, outs)
  {
    if outs == [] { return; }
    var n := |outs| - 1;
    UtxosReadBack(c, l, kind, utxos[..n], outs[..n], m, chain);
    var before := UtxosToOps(c, l, kind, utxos[..n], m, chain).value;
    var op := UtxoOp(c, kind, utxos[n], m, chain, before.Len());
    hide UtxoOp, FromOutput, Erased, Plain;
    ImagesSnoc(kind, m, chain, outs, n);
    ErasedSnoc(OutTarget(before, m), op.value.value);
    hide ErasedAll, OutputImages;
  }

  lemma ImagesSnoc(kind: Kind, m: MetaType, chain: ChainAlias, outs: seq<TransferableOutput>, n: nat)
    requires |outs| == n + 1
    ensures OutputImages(kind, m, chain, outs)
            == OutputImages(kind, m, chain, outs[..n]) + [FromOutput(kind, m, chain, outs[n])]
  {
    hide FromOutput;
  }

  lemma OutsReadBack(c: Context, l: OpLists, kind: Kind, txID: ID, outs: seq<TransferableOutput>, m: MetaType,
                     chain: ChainAlias)
    requires Constructs(c) && AllAvax(c, outs) && (m.MetaOutput? || m.MetaStake? || m.MetaExport?)
    ensures var r := OutsToOps(c, l, kind, txID, outs, m, chain);
            && r.Ok? && OnlyTarget(l, r.value, m)
            && ErasedAll(OutTarget(r.value, m))
               == ErasedAll(OutTarget(l, m)) + OutputImages(kind, m, chain, outs)
  {
    hide *;
    OutsAreUtxos(c, l, kind, txID, outs, m, chain);
    AsUtxosAt(txID, outs, l.OutputLen());
    UtxosReadBack(c, l, kind, AsUtxos(txID, outs, l.OutputLen()), outs, m, chain);
  }

  // ---------------------------------------------------------------- parsing a transaction of a buildable kind

  /** The parsed operations in order: each list of the transaction read entry by entry. */
  function ReadBack(c: Context, u: UnsignedTx): seq<Operation> {
    var ins := InputImages(c.accounts, u.kind, MetaInput, u.ins);
    var outs := OutputImages(u.kind, MetaOutput, PChain, u.outs);
    if u.kind.ImportAvax? then ins + InputImages(c.accounts, u.kind, MetaImport, u.imported) + outs
    else if u.kind.ExportAvax? && u.destination in c.cfg.chainIDs then
      ins + outs + OutputImages(u.kind, MetaExport, c.cfg.chainIDs[u.destination], u.exported)
    else ins + outs + OutputImages(u.kind, MetaStake, PChain, u.stake)
  }

  /** The entries of the transaction can be read back. */
  predicate Readable(c: Context, u: UnsignedTx) {
    && Buildable(u.kind) && AllRead(c, u.ins) && AllAvax(c, u.outs)
    && (u.kind.ImportAvax? ==> AllRead(c, u.imported))
    && (u.kind.ExportAvax? ==> AllAvax(c, u.exported) && u.destination in c.cfg.chainIDs)
    && (IsStaking(u.kind) ==> AllAvax(c, u.stake))
  }

  lemma ErasedConcat(a: seq<Operation>, b: seq<Operation>)
    ensures ErasedAll(a + b) == ErasedAll(a) + ErasedAll(b)
  {
    hide Erased;
  }

  lemma BaseReadBack(c: Context, tx: Tx)
    requires Constructs(c) && AllRead(c, tx.unsigned.ins) && AllAvax(c, tx.unsigned.outs)
    ensures var u, r := tx.unsigned, BaseToOps(c, tx);
            && r.Ok? && r.value == EMPTY.(ins := r.value.ins, outs := r.value.outs)
            && ErasedAll(r.value.ins) == InputImages(c.accounts, u.kind, MetaInput, u.ins)
            && ErasedAll(r.value.outs) == OutputImages(u.kind, MetaOutput, PChain, u.outs)
  {
    hide InsToOps, OutsToOps, InputImages, OutputImages, AllRead, AllAvax;
    var u := tx.unsigned;
    InsReadBack(c, EMPTY, u.kind, u.ins, MetaInput);
    var l := InsToOps(c, EMPTY, u.kind, u.ins, MetaInput).value;
    OutsReadBack(c, l, u.kind, tx.id, u.outs, MetaOutput, PChain);
    NothingErased();
  }

  lemma NothingErased()
    ensures ErasedAll([]) == []
    ensures forall s: seq<Operation> :: ErasedAll([]) + s == s
  {
  }

  lemma ImportReadBack(c: Context, tx: Tx)
    requires Constructs(c) && tx.unsigned.kind.ImportAvax? && Readable(c, tx.unsigned)
    ensures var r := ImportToOps(c, tx); r.Ok? && ErasedAll(r.value.Included()) == ReadBack(c, tx.unsigned)
  {
    hide InsToOps, OutsToOps, InputImages, OutputImages, AllRead, AllAvax, ErasedAll;
    var u := tx.unsigned;
    InsReadBack(c, EMPTY, ImportAvax, u.ins, MetaInput);
    var l := InsToOps(c, EMPTY, ImportAvax, u.ins, MetaInput).value;
    InsReadBack(c, l, ImportAvax, u.imported, MetaImport);
    var l' := InsToOps(c, l, ImportAvax, u.imported, MetaImport).value;
    OutsReadBack(c, l', ImportAvax, tx.id, u.outs, MetaOutput, PChain);
    NothingErased();
    var r := ImportToOps(c, tx).value;
    ErasedConcat(r.ins, r.outs);
    assert r.Included() == r.ins + r.outs;
  }

  lemma ExportReadBack(c: Context, tx: Tx)
    requires Constructs(c) && tx.unsigned.kind.ExportAvax? && Readable(c, tx.unsigned)
    ensures var r := ExportToOps(c, tx); r.Ok? && ErasedAll(r.value.Included()) == ReadBack(c, tx.unsigned)
  {
    hide BaseToOps, OutsToOps, InputImages, OutputImages, AllRead, AllAvax, ErasedAll;
    var u := tx.unsigned;
    BaseReadBack(c, tx);
    var l := BaseToOps(c, tx).value;
    OutsReadBack(c, l, ExportAvax, tx.id, u.exported, MetaExport, c.cfg.chainIDs[u.destination]);
    var r := ExportToOps(c, tx).value;
    ErasedConcat(r.ins, r.outs);
    assert r.Included() == r.ins + r.outs;
  }

  lemma StakingReadBack(c: Context, tx: Tx)
    requires Constructs(c) && IsStaking(tx.unsigned.kind) && Readable(c, tx.unsigned)
    ensures var r := StakingToOps(c, tx); r.Ok? && ErasedAll(r.value.Included()) == ReadBack(c, tx.unsigned)
  {
    hide BaseToOps, OutsToOps, InputImages, OutputImages, AllRead, AllAvax, ErasedAll;
    var u := tx.unsigned;
    BaseReadBack(c, tx);
    var l := BaseToOps(c, tx).value;
    OutsReadBack(c, l, u.kind, tx.id, u.stake, MetaStake, PChain);
    NothingErased();
    var r := StakingToOps(c, tx).value;
    ErasedConcat(r.ins, r.outs);
    ErasedConcat(r.ins + r.outs, r.stakeOuts);
  }

  /** Construction mode reads every entry of the transaction back, in the transaction's own order. */
  lemma ParseReadsBack(c: Context, tx: Tx)
    requires Constructs(c) && Readable(c, tx.unsigned)
    ensures Parsed(c, tx).Ok? && ErasedAll(Parsed(c, tx).value.operations) == ReadBack(c, tx.unsigned)
  {
    hide ImportToOps, ExportToOps, StakingToOps, ReadBack, ErasedAll;
    var kind := tx.unsigned.kind;
    if kind.ImportAvax? {
      ImportReadBack(c, tx);
    } else if kind.ExportAvax? {
      ExportReadBack(c, tx);
    } else {
      StakingReadBack(c, tx);
    }
  }

  // ---------------------------------------------------------------- building, then parsing

  /** The operation that comes back for op; chain is the destination of exports. */
  function Image(c: Context, kind: Kind, chain: ChainAlias, op: Operation): Operation {
    var avax, m := c.cfg.avaxAssetID, op.metadata.kind;
    if InputBuilds(op) then FromInput(c.accounts, kind, m, InputOf(avax, op))
    else if OutputBuilds(op) then FromOutput(kind, m, if m.MetaExport? then chain else PChain, OutputOf(avax, op))
    else op
  }

  function Images(c: Context, kind: Kind, chain: ChainAlias, ops: seq<Operation>): seq<Operation> {
    seq(|ops|, i requires 0 <= i < |ops| => Image(c, kind, chain, ops[i]))
  }

  lemma ImagesConcat(c: Context, kind: Kind, chain: ChainAlias, a: seq<Operation>, b: seq<Operation>)
    ensures Images(c, kind, chain, a + b) == Images(c, kind, chain, a) + Images(c, kind, chain, b)
  {
    hide Image;
  }

  lemma InputImagesPermuted(accounts: AccountMap, kind: Kind, m: MetaType, a: seq<TransferableInput>,
                            b: seq<TransferableInput>)
    requires multiset(a) == multiset(b)
    ensures multiset(InputImages(accounts, kind, m, a)) == multiset(InputImages(accounts, kind, m, b))
  {
    hide FromInput;
    PermutedImages((x: TransferableInput) => FromInput(accounts, kind, m, x), a, b,
                   InputImages(accounts, kind, m, a), InputImages(accounts, kind, m, b));
  }

  lemma OutputImagesPermuted(kind: Kind, m: MetaType, to: ChainAlias, a: seq<TransferableOutput>,
                             b: seq<TransferableOutput>)
    requires multiset(a) == multiset(b)
    ensures multiset(OutputImages(kind, m, to, a)) == multiset(OutputImages(kind, m, to, b))
  {
    hide FromOutput;
    PermutedImages((x: TransferableOutput) => FromOutput(kind, m, to, x), a, b,
                   OutputImages(kind, m, to, a), OutputImages(kind, m, to, b));
  }

  lemma InputsReadAsImages(c: Context, kind: Kind, chain: ChainAlias, ops: seq<Operation>, m: MetaType)
    requires AllInputsBuild(ops) && forall i :: 0 <= i < |ops| ==> ops[i].metadata.kind == m
    ensures InputImages(c.accounts, kind, m, InputsOf(c.cfg.avaxAssetID, ops)) == Images(c, kind, chain, ops)
  {
    hide FromInput, InputOf, InputBuilds;
  }

  lemma OutputsReadAsImages(c: Context, kind: Kind, chain: ChainAlias, ops: seq<Operation>, m: MetaType)
    requires AllOutputsBuild(ops) && forall i :: 0 <= i < |ops| ==> ops[i].metadata.kind == m
    ensures OutputImages(kind, m, if m.MetaExport? then chain else PChain, OutputsOf(c.cfg.avaxAssetID, ops))
            == Images(c, kind, chain, ops)
  {
    hide FromOutput, OutputOf;
    forall i | 0 <= i < |ops| ensures !InputBuilds(ops[i]) {
      assert OutputBuilds(ops[i]);
    }
    hide OutputBuilds, InputBuilds;
  }

  lemma ArrangedInputs(c: Context, kind: Kind, chain: ChainAlias, ins: seq<TransferableInput>, ops: seq<Operation>,
                       m: MetaType)
    requires AllInputsBuild(ops) && ArrangesInputs(ins, c.cfg.avaxAssetID, ops, m)
    ensures multiset(InputImages(c.accounts, kind, m, ins)) == multiset(Images(c, kind, chain, OfType(ops, m)))
  {
    hide InputImages, Images, InputsOf, OfType, AllInputsBuild;
    OfTypeBuilds(ops, m);
    InputImagesPermuted(c.accounts, kind, m, ins, InputsOf(c.cfg.avaxAssetID, OfType(ops, m)));
    InputsReadAsImages(c, kind, chain, OfType(ops, m), m);
  }

  lemma ArrangedOutputs(c: Context, kind: Kind, chain: ChainAlias, outs: seq<TransferableOutput>, ops: seq<Operation>,
                        m: MetaType)
    requires AllOutputsBuild(ops) && ArrangesOutputs(outs, c.cfg.avaxAssetID, ops, m)
    ensures multiset(OutputImages(kind, m, if m.MetaExport? then chain else PChain, outs))
            == multiset(Images(c, kind, chain, OfType(ops, m)))
  {
    hide OutputImages, Images, OutputsOf, OfType, AllOutputsBuild;
    OfTypeBuilds(ops, m);
    OutputImagesPermuted(kind, m, if m.MetaExport? then chain else PChain, outs,
                         OutputsOf(c.cfg.avaxAssetID, OfType(ops, m)));
    OutputsReadAsImages(c, kind, chain, OfType(ops, m), m);
  }

  predicate AcceptsInput(kind: Kind, m: MetaType) {
    m.MetaInput? || (kind.ImportAvax? && m.MetaImport?)
  }

  predicate AcceptsOutput(kind: Kind, m: MetaType) {
    m.MetaOutput? || (kind.ExportAvax? && m.MetaExport?) || (IsStaking(kind) && m.MetaStake?)
  }

  /** What the transaction keeps of the inputs; the rest is dropped without an error. */
  function KeptInputs(kind: Kind, ops: seq<Operation>): seq<Operation> {
    OfType(ops, MetaInput) + if kind.ImportAvax? then OfType(ops, MetaImport) else []
  }

  function KeptOutputs(kind: Kind, ops: seq<Operation>): seq<Operation> {
    OfType(ops, MetaOutput)
    + if kind.ExportAvax? then OfType(ops, MetaExport) else if IsStaking(kind) then OfType(ops, MetaStake) else []
  }

  /** All kinds: the parsed operations are the images of the kept operations, rearranged. */
  lemma BuildThenRead(c: Context, kind: Kind, chain: ChainAlias, ins: seq<Operation>, outs: seq<Operation>,
                      md: Metadata, u: UnsignedTx)
    requires AllInputsBuild(ins) && AllOutputsBuild(outs) && Buildable(kind)
    requires BuiltFrom(u, kind, ins, outs, md, c.cfg.avaxAssetID)
    requires kind.ExportAvax? ==> u.destination in c.cfg.chainIDs && c.cfg.chainIDs[u.destination] == chain
    ensures multiset(ReadBack(c, u))
            == multiset(Images(c, kind, chain, KeptInputs(kind, ins)))
               + multiset(Images(c, kind, chain, KeptOutputs(kind, outs)))
  {
    hide AllInputsBuild, AllOutputsBuild, ArrangesInputs, ArrangesOutputs, InputImages, OutputImages, Images, OfType;
    ArrangedInputs(c, kind, chain, u.ins, ins, MetaInput);
    ArrangedOutputs(c, kind, chain, u.outs, outs, MetaOutput);
    if kind.ImportAvax? {
      ArrangedInputs(c, kind, chain, u.imported, ins, MetaImport);
      ImagesConcat(c, kind, chain, OfType(ins, MetaInput), OfType(ins, MetaImport));
    } else if kind.ExportAvax? {
      ArrangedOutputs(c, kind, chain, u.exported, outs, MetaExport);
      ImagesConcat(c, kind, chain, OfType(outs, MetaOutput), OfType(outs, MetaExport));
    } else {
      ArrangedOutputs(c, kind, chain, u.stake, outs, MetaStake);
      ImagesConcat(c, kind, chain, OfType(outs, MetaOutput), OfType(outs, MetaStake));
    }
    assert KeptInputs(kind, ins)
        == if kind.ImportAvax? then OfType(ins, MetaInput) + OfType(ins, MetaImport) else OfType(ins, MetaInput);
    assert !kind.ImportAvax? || KeptOutputs(kind, outs) == OfType(outs, MetaOutput);
  }

  // ---------------------------------------------------------------- when nothing is lost

  /** What the matching contract says of one debit and one credit of an operation type. */
  predicate MatchedInput(kind: Kind, op: Operation) {
    op.kind == kind && op.account.Some? && op.amount.value < 0 && op.coin.Some? && op.coin.value.CoinSpent?
  }

  predicate MatchedOutput(kind: Kind, op: Operation) {
    op.kind == kind && op.account.Some? && op.amount.value > 0
  }

  predicate InputFieldsKept(op: Operation) {
    && op.status.None? && op.amount.currency == AtomicAvax && 0 - op.amount.value < TWO_64
    && op.metadata.locktime == 0 && op.metadata.threshold <= 1 && op.metadata.sigIndices != Some([])
  }

  predicate OutputShapeKept(chain: ChainAlias, op: Operation) {
    && op.status.None? && op.amount.currency == AtomicAvax && op.coin.None?
    && op.account.Some? && op.account.value.Bech32?
    && op.account.value.chain == (if op.metadata.kind.MetaExport? then chain else PChain)
    && (op.metadata.sigIndices.None? || op.metadata.sigIndices == Some([0]))
  }

  predicate Small(op: Operation) {
    op.amount.value < TWO_63
  }

  lemma SmallLow64(x: int)
    ensures 0 <= x < TWO_64 ==> Low64(x) == x
    ensures x < 0 ==> (Low64(x) == 0 - x <==> 0 - x < TWO_64)
    ensures x > 0 ==> ToInt64(Low64(x)) <= x && (ToInt64(Low64(x)) == x <==> x < TWO_63)
  {
  }

  lemma InputImageIs(c: Context, kind: Kind, chain: ChainAlias, op: Operation)
    requires MatchedInput(kind, op) && InputBuilds(op)
    requires AccountAt(c.accounts, op.coin.value.coin.utxo) == op.account
    ensures Image(c, kind, chain, op).coin == op.coin
    ensures Image(c, kind, chain, op) == Erased(op) <==> InputFieldsKept(op)
  {
    SmallLow64(op.amount.value);
    hide Low64;
  }

  lemma OutputImageIs(c: Context, kind: Kind, chain: ChainAlias, op: Operation)
    requires MatchedOutput(kind, op) && OutputBuilds(op)
    ensures var i := Image(c, kind, chain, op);
            && i.coin.None?
            && i.amount == Amount(ToInt64(Low64(op.amount.value)), AtomicAvax)
            && i.(amount := Amount(1, AtomicAvax))
               == Operation(None, kind, None,
                            Some(Bech32(if op.metadata.kind.MetaExport? then chain else PChain,
                                        op.account.value.owner)),
                            Amount(1, AtomicAvax), None,
                            OpMetadata(op.metadata.kind, Some([0]), op.metadata.locktime,
                                       ParseOpMetadata(op.metadata).threshold))
  {
    hide ToInt64, Low64;
  }

  // ---------------------------------------------------------------- dropped operations

  predicate AllAccepted(ops: seq<Operation>, a: MetaType, b: MetaType) {
    forall i :: 0 <= i < |ops| ==> ops[i].metadata.kind == a || ops[i].metadata.kind == b
  }

  lemma AllAcceptedStep(ops: seq<Operation>, a: MetaType, b: MetaType)
    requires ops != []
    ensures var n := |ops| - 1;
            AllAccepted(ops, a, b)
            <==> AllAccepted(ops[..n], a, b) && (ops[n].metadata.kind == a || ops[n].metadata.kind == b)
  {
  }

  lemma {:induction false} OfTypesCount(ops: seq<Operation>, a: MetaType, b: MetaType)
    requires a != b
    ensures |OfType(ops, a)| + |OfType(ops, b)| <= |ops|
    ensures |OfType(ops, a)| + |OfType(ops, b)| == |ops| <==> AllAccepted(ops, a, b)
  {
    if ops == [] { return; }
    AllAcceptedStep(ops, a, b);
    hide AllAccepted;
    OfTypesCount(ops[..|ops| - 1], a, b);
  }

  lemma {:induction false} OfTypesSplit(ops: seq<Operation>, a: MetaType, b: MetaType)
    requires a != b && AllAccepted(ops, a, b)
    ensures multiset(OfType(ops, a) + OfType(ops, b)) == multiset(ops)
  {
    if ops == [] { return; }
    AllAcceptedStep(ops, a, b);
    var n := |ops| - 1;
    OfTypeLast(ops, a);
    OfTypeLast(ops, b);
    hide AllAccepted, OfType;
    OfTypesSplit(ops[..n], a, b);
    Inserted(OfType(ops[..n], a), OfType(ops[..n], b), ops[n]);
    assert ops == ops[..n] + [ops[n]];
    assert OfType(ops[..n], a) + [] == OfType(ops[..n], a) && OfType(ops[..n], b) + [] == OfType(ops[..n], b);
  }

  lemma OfTypeLast(ops: seq<Operation>, a: MetaType)
    requires ops != []
    ensures var n := |ops| - 1;
            OfType(ops, a) == OfType(ops[..n], a) + if ops[n].metadata.kind == a then [ops[n]] else []
  {
  }

  lemma Inserted<T>(x: seq<T>, y: seq<T>, e: T)
    ensures multiset(x + [e] + y) == multiset(x + y) + multiset{e} == multiset(x + (y + [e]))
  {
    assert x + (y + [e]) == x + y + [e];
  }

  lemma {:induction false} OfTypeSplit(ops: seq<Operation>, a: MetaType)
    ensures |OfType(ops, a)| <= |ops|
    ensures |OfType(ops, a)| == |ops| <==> AllAccepted(ops, a, a)
    ensures AllAccepted(ops, a, a) ==> OfType(ops, a) == ops
  {
    if ops == [] { return; }
    AllAcceptedStep(ops, a, a);
    hide AllAccepted;
    var n := |ops| - 1;
    OfTypeSplit(ops[..n], a);
    assert ops == ops[..n] + [ops[n]];
  }

  predicate InputsAccepted(kind: Kind, ops: seq<Operation>) {
    forall i :: 0 <= i < |ops| ==> AcceptsInput(kind, ops[i].metadata.kind)
  }

  predicate OutputsAccepted(kind: Kind, ops: seq<Operation>) {
    forall i :: 0 <= i < |ops| ==> AcceptsOutput(kind, ops[i].metadata.kind)
  }

  lemma KeptInputsAll(kind: Kind, ops: seq<Operation>)
    ensures |KeptInputs(kind, ops)| <= |ops|
    ensures |KeptInputs(kind, ops)| == |ops| <==> InputsAccepted(kind, ops)
    ensures InputsAccepted(kind, ops) ==> multiset(KeptInputs(kind, ops)) == multiset(ops)
  {
    hide OfType;
    OfTypeSplit(ops, MetaInput);
    OfTypesCount(ops, MetaInput, MetaImport);
    if kind.ImportAvax? && AllAccepted(ops, MetaInput, MetaImport) { OfTypesSplit(ops, MetaInput, MetaImport); }
    assert InputsAccepted(kind, ops) <==>
           if kind.ImportAvax? then AllAccepted(ops, MetaInput, MetaImport) else AllAccepted(ops, MetaInput, MetaInput);
    assert OfType(ops, MetaInput) + [] == OfType(ops, MetaInput);
  }

  lemma KeptOutputsAll(kind: Kind, ops: seq<Operation>)
    requires Buildable(kind)
    ensures |KeptOutputs(kind, ops)| <= |ops|
    ensures |KeptOutputs(kind, ops)| == |ops| <==> OutputsAccepted(kind, ops)
    ensures OutputsAccepted(kind, ops) ==> multiset(KeptOutputs(kind, ops)) == multiset(ops)
  {
    hide OfType;
    OfTypeSplit(ops, MetaOutput);
    OfTypesCount(ops, MetaOutput, MetaExport);
    OfTypesCount(ops, MetaOutput, MetaStake);
    if kind.ExportAvax? && AllAccepted(ops, MetaOutput, MetaExport) { OfTypesSplit(ops, MetaOutput, MetaExport); }
    if IsStaking(kind) && AllAccepted(ops, MetaOutput, MetaStake) { OfTypesSplit(ops, MetaOutput, MetaStake); }
    assert OutputsAccepted(kind, ops) <==>
           if kind.ExportAvax? then AllAccepted(ops, MetaOutput, MetaExport)
           else if IsStaking(kind) then AllAccepted(ops, MetaOutput, MetaStake)
           else AllAccepted(ops, MetaOutput, MetaOutput);
    assert OfType(ops, MetaOutput) + [] == OfType(ops, MetaOutput);
  }

  // ---------------------------------------------------------------- amounts add up

  function SumAmounts(ops: seq<Operation>): int {
    if ops == [] then 0 else SumAmounts(ops[..|ops| - 1]) + ops[|ops| - 1].amount.value
  }

  lemma {:induction false} SumAmountsConcat(a: seq<Operation>, b: seq<Operation>)
    ensures SumAmounts(a + b) == SumAmounts(a) + SumAmounts(b)
    decreases |b|
  {
    if b == [] {
      assert a + b == a;
    } else {
      assert (a + b)[..|a + b| - 1] == a + b[..|b| - 1];
      SumAmountsConcat(a, b[..|b| - 1]);
    }
  }

  lemma SumAmountsWithout(b: seq<Operation>, k: nat)
    requires k < |b|
    ensures SumAmounts(b) == SumAmounts(b[..k] + b[k + 1..]) + b[k].amount.value
  {
    var one := [b[k]];
    assert SumAmounts(one) == b[k].amount.value by { assert one[..0] == []; }
    hide SumAmounts;
    assert b == (b[..k] + one) + b[k + 1..];
    SumAmountsConcat(b[..k] + one, b[k + 1..]);
    SumAmountsConcat(b[..k], b[k + 1..]);
    SumAmountsConcat(b[..k], one);
  }

  lemma {:induction false} SumAmountsPermuted(a: seq<Operation>, b: seq<Operation>)
    requires multiset(a) == multiset(b)
    ensures SumAmounts(a) == SumAmounts(b)
  {
    if a == [] {
      assert |multiset(b)| == 0;
      return;
    }
    hide SumAmounts;
    var n := |a| - 1;
    var k := Partner(a, b);
    SumAmountsPermuted(a[..n], b[..k] + b[k + 1..]);
    SumAmountsWithout(b, k);
    SumAmountsWithout(a, n);
    assert a[..n] + a[n + 1..] == a[..n];
  }

  predicate AllSmall(ops: seq<Operation>) {
    forall i :: 0 <= i < |ops| ==> Small(ops[i])
  }

  predicate OutputsMatched(kind: Kind, ops: seq<Operation>) {
    forall i :: 0 <= i < |ops| ==> MatchedOutput(kind, ops[i])
  }

  lemma LastAmounts(c: Context, kind: Kind, chain: ChainAlias, ops: seq<Operation>)
    requires ops != [] && MatchedOutput(kind, ops[|ops| - 1]) && OutputBuilds(ops[|ops| - 1])
    ensures var n := |ops| - 1;
            var x, y := Image(c, kind, chain, ops[n]).amount.value, ops[n].amount.value;
            && SumAmounts(Images(c, kind, chain, ops)) == SumAmounts(Images(c, kind, chain, ops[..n])) + x
            && SumAmounts(ErasedAll(ops)) == SumAmounts(ErasedAll(ops[..n])) + y
            && x <= y && (x == y <==> Small(ops[n]))
  {
    var n := |ops| - 1;
    OutputImageIs(c, kind, chain, ops[n]);
    SmallLow64(ops[n].amount.value);
    hide Image, ToInt64, Low64, MatchedOutput, OutputBuilds;
    assert Images(c, kind, chain, ops)[..n] == Images(c, kind, chain, ops[..n]);
    assert ErasedAll(ops)[..n] == ErasedAll(ops[..n]);
  }

  /** Images of credits never add up to more, and to less if an amount wraps around. */
  lemma {:induction false} ImagesLoseAmounts(c: Context, kind: Kind, chain: ChainAlias, ops: seq<Operation>)
    requires OutputsMatched(kind, ops) && AllOutputsBuild(ops)
    ensures SumAmounts(Images(c, kind, chain, ops)) <= SumAmounts(ErasedAll(ops))
    ensures SumAmounts(Images(c, kind, chain, ops)) == SumAmounts(ErasedAll(ops)) ==> AllSmall(ops)
  {
    if ops == [] { return; }
    var n := |ops| - 1;
    ImagesLoseAmounts(c, kind, chain, ops[..n]);
    assert MatchedOutput(kind, ops[n]) && OutputBuilds(ops[n]);
    LastAmounts(c, kind, chain, ops);
    hide SumAmounts, Image, Erased, MatchedOutput, OutputBuilds;
    assert AllSmall(ops[..n]) && Small(ops[n]) ==> AllSmall(ops);
  }

  // ---------------------------------------------------------------- the round trip

  predicate InputsMatched(kind: Kind, ops: seq<Operation>) {
    forall i :: 0 <= i < |ops| ==> MatchedInput(kind, ops[i])
  }

  /** Every debit spends another coin, and its account is known for that coin. */
  ghost predicate AccountsKnown(accounts: AccountMap, ins: seq<Operation>)
    requires AllInputsBuild(ins)
  {
    && (forall i :: 0 <= i < |ins| ==> AccountAt(accounts, ins[i].coin.value.coin.utxo) == ins[i].account)
    && forall i, j :: 0 <= i < j < |ins| ==> ins[i].coin.value.coin != ins[j].coin.value.coin
  }

  predicate InputsKept(kind: Kind, ops: seq<Operation>) {
    forall i :: 0 <= i < |ops| ==> AcceptsInput(kind, ops[i].metadata.kind) && InputFieldsKept(ops[i])
  }

  predicate OutputsKept(kind: Kind, chain: ChainAlias, ops: seq<Operation>) {
    forall i :: 0 <= i < |ops| ==>
      AcceptsOutput(kind, ops[i].metadata.kind) && OutputShapeKept(chain, ops[i]) && Small(ops[i])
  }

  lemma ImagesPermuted(c: Context, kind: Kind, chain: ChainAlias, a: seq<Operation>, b: seq<Operation>)
    requires multiset(a) == multiset(b)
    ensures multiset(Images(c, kind, chain, a)) == multiset(Images(c, kind, chain, b))
  {
    hide Image;
    PermutedImages((op: Operation) => Image(c, kind, chain, op), a, b, Images(c, kind, chain, a),
                   Images(c, kind, chain, b));
  }

  lemma InputsSame(c: Context, kind: Kind, chain: ChainAlias, ins: seq<Operation>)
    requires InputsMatched(kind, ins) && AllInputsBuild(ins) && AccountsKnown(c.accounts, ins)
    requires forall i :: 0 <= i < |ins| ==> InputFieldsKept(ins[i])
    ensures Images(c, kind, chain, ins) == ErasedAll(ins)
  {
    forall i | 0 <= i < |ins| ensures Image(c, kind, chain, ins[i]) == Erased(ins[i]) {
      assert MatchedInput(kind, ins[i]) && InputBuilds(ins[i]);
      InputImageIs(c, kind, chain, ins[i]);
    }
    hide Image, Erased;
  }

  lemma OutputsSame(c: Context, kind: Kind, chain: ChainAlias, outs: seq<Operation>)
    requires OutputsMatched(kind, outs) && AllOutputsBuild(outs)
    requires forall i :: 0 <= i < |outs| ==> OutputShapeKept(chain, outs[i]) && Small(outs[i])
    ensures Images(c, kind, chain, outs) == ErasedAll(outs)
  {
    forall i | 0 <= i < |outs| ensures Image(c, kind, chain, outs[i]) == Erased(outs[i]) {
      assert MatchedOutput(kind, outs[i]) && OutputBuilds(outs[i]);
    }
    hide Image, Erased;
  }

  /** An image that reappears among the given debits is that debit's own: coins are distinct. */
  lemma InputRecognised(c: Context, kind: Kind, chain: ChainAlias, ins: seq<Operation>, outs: seq<Operation>, i: nat)
    requires InputsMatched(kind, ins) && AllInputsBuild(ins) && AccountsKnown(c.accounts, ins)
    requires OutputsMatched(kind, outs) && AllOutputsBuild(outs)
    requires i < |ins| && Erased(ins[i]) in Images(c, kind, chain, ins) + Images(c, kind, chain, outs)
    ensures InputFieldsKept(ins[i])
  {
    var all := Images(c, kind, chain, ins) + Images(c, kind, chain, outs);
    var j :| 0 <= j < |all| && all[j] == Erased(ins[i]);
    assert MatchedInput(kind, ins[i]) && InputBuilds(ins[i]);
    if j < |ins| {
      assert MatchedInput(kind, ins[j]) && InputBuilds(ins[j]);
      InputImageIs(c, kind, chain, ins[j]);
    }
    hide Image;
  }

  lemma OutputRecognised(c: Context, kind: Kind, chain: ChainAlias, outs: seq<Operation>, i: nat)
    requires OutputsMatched(kind, outs) && AllOutputsBuild(outs)
    requires i < |outs| && Erased(outs[i]) in Images(c, kind, chain, outs)
    ensures OutputShapeKept(chain, outs[i])
  {
    var j :| 0 <= j < |outs| && Images(c, kind, chain, outs)[j] == Erased(outs[i]);
    assert MatchedOutput(kind, outs[i]) && OutputBuilds(outs[i]);
    assert MatchedOutput(kind, outs[j]) && OutputBuilds(outs[j]);
  }

  /** If the images are the given operations rearranged, every operation was kept as it is. */
  lemma NothingLostIfSame(c: Context, kind: Kind, chain: ChainAlias, ins: seq<Operation>, outs: seq<Operation>)
    requires InputsMatched(kind, ins) && AllInputsBuild(ins) && AccountsKnown(c.accounts, ins)
    requires OutputsMatched(kind, outs) && AllOutputsBuild(outs)
    requires multiset(Images(c, kind, chain, ins)) + multiset(Images(c, kind, chain, outs))
             == multiset(ErasedAll(ins)) + multiset(ErasedAll(outs))
    ensures forall i :: 0 <= i < |ins| ==> InputFieldsKept(ins[i])
    ensures forall i :: 0 <= i < |outs| ==> OutputShapeKept(chain, outs[i])
    ensures AllSmall(outs)
  {
    hide InputsMatched, AllInputsBuild, AccountsKnown, OutputsMatched, AllOutputsBuild, Image, Erased, InputFieldsKept,
         OutputShapeKept, AllSmall;
    var all := Images(c, kind, chain, ins) + Images(c, kind, chain, outs);
    assert multiset(all) == multiset(ErasedAll(ins)) + multiset(ErasedAll(outs));
    forall i | 0 <= i < |ins| ensures InputFieldsKept(ins[i]) {
      assert ErasedAll(ins)[i] == Erased(ins[i]);
      assert Erased(ins[i]) in multiset(all);
      InputRecognised(c, kind, chain, ins, outs, i);
    }
    InputsSame(c, kind, chain, ins);
    Cancel(multiset(Images(c, kind, chain, ins)), multiset(Images(c, kind, chain, outs)), multiset(ErasedAll(outs)));
    forall i | 0 <= i < |outs| ensures OutputShapeKept(chain, outs[i]) {
      assert ErasedAll(outs)[i] == Erased(outs[i]);
      assert Erased(outs[i]) in multiset(ErasedAll(outs));
      assert Erased(outs[i]) in multiset(Images(c, kind, chain, outs));
      OutputRecognised(c, kind, chain, outs, i);
    }
    SumAmountsPermuted(Images(c, kind, chain, outs), ErasedAll(outs));
    ImagesLoseAmounts(c, kind, chain, outs);
  }

  lemma Cancel<T>(x: multiset<T>, y: multiset<T>, z: multiset<T>)
    requires x + y == x + z
    ensures y == z
  {
    forall e ensures y[e] == z[e] {
      assert (x + y)[e] == (x + z)[e];
    }
  }

  lemma ArrangedAreRead(c: Context, kind: Kind, ins: seq<TransferableInput>, ops: seq<Operation>, m: MetaType)
    requires InputsMatched(kind, ops) && AllInputsBuild(ops) && AccountsKnown(c.accounts, ops)
    requires ArrangesInputs(ins, c.cfg.avaxAssetID, ops, m)
    ensures AllRead(c, ins)
  {
    OfTypeBuilds(ops, m);
    var chosen := OfType(ops, m);
    var built := InputsOf(c.cfg.avaxAssetID, chosen);
    hide OfType, ParseOpMetadata, Low64;
    forall i | 0 <= i < |ins| ensures InputReads(c, ins[i]) {
      assert ins[i] in multiset(ins);
      assert ins[i] in multiset(built);
      var k :| 0 <= k < |built| && built[k] == ins[i];
      var j :| 0 <= j < |ops| && ops[j] == chosen[k];
      assert MatchedInput(kind, ops[j]) && InputBuilds(ops[j]);
    }
  }

  lemma BuiltAvax(c: Context, ops: seq<Operation>)
    requires AllOutputsBuild(ops)
    ensures AllAvax(c, OutputsOf(c.cfg.avaxAssetID, ops))
  {
    hide Low64, ParseOpMetadata;
  }

  lemma AllAvaxPermuted(c: Context, a: seq<TransferableOutput>, b: seq<TransferableOutput>)
    requires multiset(a) == multiset(b) && AllAvax(c, b)
    ensures AllAvax(c, a)
  {
    hide Plain;
    forall i | 0 <= i < |a| ensures Plain(a[i]) && a[i].asset == c.cfg.avaxAssetID {
      assert a[i] in multiset(a);
      assert a[i] in multiset(b);
    }
  }

  lemma ArrangedAreAvax(c: Context, outs: seq<TransferableOutput>, ops: seq<Operation>, m: MetaType)
    requires AllOutputsBuild(ops) && ArrangesOutputs(outs, c.cfg.avaxAssetID, ops, m)
    ensures AllAvax(c, outs)
  {
    hide OfType, OutputsOf, AllAvax, AllOutputsBuild;
    OfTypeBuilds(ops, m);
    BuiltAvax(c, OfType(ops, m));
    AllAvaxPermuted(c, outs, OutputsOf(c.cfg.avaxAssetID, OfType(ops, m)));
  }

  lemma BuiltIsReadable(c: Context, kind: Kind, ins: seq<Operation>, outs: seq<Operation>, md: Metadata, u: UnsignedTx)
    requires Buildable(kind) && InputsMatched(kind, ins) && AllInputsBuild(ins) && AccountsKnown(c.accounts, ins)
    requires AllOutputsBuild(outs) && BuiltFrom(u, kind, ins, outs, md, c.cfg.avaxAssetID)
    requires kind.ExportAvax? ==> u.destination in c.cfg.chainIDs
    ensures Readable(c, u)
  {
    hide InputsMatched, AllInputsBuild, AllOutputsBuild, AccountsKnown, ArrangesInputs, ArrangesOutputs, AllRead,
         AllAvax;
    ArrangedAreRead(c, kind, u.ins, ins, MetaInput);
    ArrangedAreAvax(c, u.outs, outs, MetaOutput);
    if kind.ImportAvax? { ArrangedAreRead(c, kind, u.imported, ins, MetaImport); }
    if kind.ExportAvax? { ArrangedAreAvax(c, u.exported, outs, MetaExport); }
    if IsStaking(kind) { ArrangedAreAvax(c, u.stake, outs, MetaStake); }
  }

  /** Same size means that nothing was dropped. */
  lemma SameMeansAccepted(c: Context, kind: Kind, chain: ChainAlias, ins: seq<Operation>, outs: seq<Operation>)
    requires Buildable(kind)
    requires multiset(Images(c, kind, chain, KeptInputs(kind, ins)))
             + multiset(Images(c, kind, chain, KeptOutputs(kind, outs)))
             == multiset(ErasedAll(ins)) + multiset(ErasedAll(outs))
    ensures InputsAccepted(kind, ins) && OutputsAccepted(kind, outs)
  {
    hide KeptInputs, KeptOutputs, InputsAccepted, OutputsAccepted, Images, Erased;
    var a, b := Images(c, kind, chain, KeptInputs(kind, ins)), Images(c, kind, chain, KeptOutputs(kind, outs));
    KeptInputsAll(kind, ins);
    KeptOutputsAll(kind, outs);
    ImagesSize(c, kind, chain, KeptInputs(kind, ins));
    ImagesSize(c, kind, chain, KeptOutputs(kind, outs));
    assert |multiset(a) + multiset(b)| == |multiset(a)| + |multiset(b)|;
    assert |multiset(ErasedAll(ins)) + multiset(ErasedAll(outs))| == |ins| + |outs|;
  }

  lemma ImagesSize(c: Context, kind: Kind, chain: ChainAlias, ops: seq<Operation>)
    ensures |Images(c, kind, chain, ops)| == |ops|
  {
  }

  lemma ReadBackSame(c: Context, kind: Kind, chain: ChainAlias, ins: seq<Operation>, outs: seq<Operation>,
                     read: seq<Operation>)
    requires Buildable(kind)
    requires InputsMatched(kind, ins) && AllInputsBuild(ins) && AccountsKnown(c.accounts, ins)
    requires OutputsMatched(kind, outs) && AllOutputsBuild(outs)
    requires multiset(read)
             == multiset(Images(c, kind, chain, KeptInputs(kind, ins)))
                + multiset(Images(c, kind, chain, KeptOutputs(kind, outs)))
    ensures multiset(read) == multiset(ErasedAll(ins)) + multiset(ErasedAll(outs))
            <==> InputsKept(kind, ins) && OutputsKept(kind, chain, outs)
  {
    hide InputsMatched, AllInputsBuild, AccountsKnown, OutputsMatched, AllOutputsBuild, KeptInputs, KeptOutputs,
         Images, ErasedAll, AcceptsInput, AcceptsOutput, InputFieldsKept, OutputShapeKept, Small;
    var same := multiset(read) == multiset(ErasedAll(ins)) + multiset(ErasedAll(outs));
    var kept := InputsKept(kind, ins) && OutputsKept(kind, chain, outs);
    if same { SameMeansAccepted(c, kind, chain, ins, outs); }
    if same || kept {
      assert InputsAccepted(kind, ins) && OutputsAccepted(kind, outs);
      KeptInputsAll(kind, ins);
      KeptOutputsAll(kind, outs);
      ImagesPermuted(c, kind, chain, KeptInputs(kind, ins), ins);
      ImagesPermuted(c, kind, chain, KeptOutputs(kind, outs), outs);
    }
    if same { NothingLostIfSame(c, kind, chain, ins, outs); }
    if kept {
      InputsSame(c, kind, chain, ins);
      OutputsSame(c, kind, chain, outs);
    }
  }

  /** Build, then parse: the operations come back, rearranged and with defaults filled in, exactly if every type is
      accepted by the kind, every field is one the transaction can carry, debits are below 2^64 and credits below
      2^63. */
  lemma RoundTrip(c: Context, kind: Kind, chain: ChainAlias, ins: seq<Operation>, outs: seq<Operation>, md: Metadata,
                  tx: Tx)
    requires Constructs(c) && Buildable(kind)
    requires InputsMatched(kind, ins) && AllInputsBuild(ins) && AccountsKnown(c.accounts, ins)
    requires OutputsMatched(kind, outs) && AllOutputsBuild(outs)
    requires BuiltFrom(tx.unsigned, kind, ins, outs, md, c.cfg.avaxAssetID)
    requires kind.ExportAvax? ==>
             tx.unsigned.destination in c.cfg.chainIDs && c.cfg.chainIDs[tx.unsigned.destination] == chain
    ensures Parsed(c, tx).Ok?
    ensures multiset(ErasedAll(Parsed(c, tx).value.operations)) == multiset(ErasedAll(ins + outs))
            <==> InputsKept(kind, ins) && OutputsKept(kind, chain, outs)
  {
    hide *;
    BuiltIsReadable(c, kind, ins, outs, md, tx.unsigned);
    ParseReadsBack(c, tx);
    BuildThenRead(c, kind, chain, ins, outs, md, tx.unsigned);
    ErasedConcat(ins, outs);
    ReadBackSame(c, kind, chain, ins, outs, ReadBack(c, tx.unsigned));
  }
}
