/** mapper/transaction.go, crossChainTransaction: operations and fee of C-chain import and export transactions. */
module CrossChain {
  import opened Prelude

  type ID = nat
  type Address = nat

  const X2C_RATE: int := 1_000_000_000

  datatype ImportedInput = ImportedInput(asset: ID, amount: uint64)
  datatype EvmTransfer = EvmTransfer(address: Address, asset: ID, amount: uint64)
  datatype ExportedOutput = ExportedOutput(asset: ID, amount: uint64, owners: seq<Address>)

  /** outs is None for a nil slice. */
  datatype AtomicTx =
    | Import(imported: seq<ImportedInput>, outputs: seq<EvmTransfer>)
    | Export(id: ID, destination: ID, inputs: seq<EvmTransfer>, outs: Option<seq<ExportedOutput>>)
    | Unsupported

  datatype Account = Hex(address: Address) | Bech32(alias: string, hrp: string, owner: Address) | NoAddress

  /** Amounts of operations are in units of 10^-18 avax, those of exported outputs in units of 10^-9. */
  datatype Op = Op(index: int, kind: OpKind, account: Account, amount: int)
  datatype OpKind = OpImport | OpExport
  datatype ExportedOp = ExportedOp(index: Option<int>, account: Account, amount: uint64, coin: UtxoID)
  datatype UtxoID = UtxoID(tx: ID, index: nat)

  datatype Error = UnsupportedTransaction | UnrecognizedNetwork

  /** metadata: the exported outputs, when that key is set, and the fee in units of 10^-9 avax. */
  datatype Mapped = Mapped(ops: seq<Op>, exported: Option<seq<ExportedOp>>, fee: int)

  /** Fixed inputs: the avax asset, the first identifier, the known chains, and the bech32 prefix of the network
      if it is recognised. */
  datatype Context = Context(avax: ID, rawIdx: int, aliases: map<ID, string>, hrp: Option<string>)

  // ---------------------------------------------------------------- what the amounts add up to

  function AvaxSum(ts: seq<EvmTransfer>, avax: ID): nat {
    if ts == [] then 0
    else AvaxSum(ts[..|ts| - 1], avax) + if ts[|ts| - 1].asset == avax then ts[|ts| - 1].amount else 0
  }

  function AvaxImported(ins: seq<ImportedInput>, avax: ID): nat {
    if ins == [] then 0
    else AvaxImported(ins[..|ins| - 1], avax) + if ins[|ins| - 1].asset == avax then ins[|ins| - 1].amount else 0
  }

  function OtherImported(ins: seq<ImportedInput>, avax: ID): nat {
    if ins == [] then 0
    else OtherImported(ins[..|ins| - 1], avax) + if ins[|ins| - 1].asset == avax then 0 else ins[|ins| - 1].amount
  }

  /** The number of inputs whose amount does not fit int64. */
  function Oversized(ins: seq<ImportedInput>): nat {
    if ins == [] then 0 else Oversized(ins[..|ins| - 1]) + if ins[|ins| - 1].amount < TWO_63 then 0 else 1
  }

  function ExportedSum(outs: seq<ExportedOutput>): nat {
    if outs == [] then 0 else ExportedSum(outs[..|outs| - 1]) + outs[|outs| - 1].amount
  }

  function AvaxExported(outs: seq<ExportedOutput>, avax: ID): nat {
    if outs == [] then 0
    else AvaxExported(outs[..|outs| - 1], avax) + if outs[|outs| - 1].asset == avax then outs[|outs| - 1].amount else 0
  }

  function OtherExported(outs: seq<ExportedOutput>, avax: ID): nat {
    if outs == [] then 0
    else OtherExported(outs[..|outs| - 1], avax) + if outs[|outs| - 1].asset == avax then 0 else outs[|outs| - 1].amount
  }

  function AvaxOnly(ts: seq<EvmTransfer>, avax: ID): seq<EvmTransfer> {
    if ts == [] then []
    else AvaxOnly(ts[..|ts| - 1], avax) + if ts[|ts| - 1].asset == avax then [ts[|ts| - 1]] else []
  }

  /** The operations: one per avax transfer, in order, numbered from start, sign times the amount at 18 decimals. */
  ghost predicate OpsFor(ops: seq<Op>, ts: seq<EvmTransfer>, avax: ID, kind: OpKind, sign: int, start: int) {
    && |ops| == |AvaxOnly(ts, avax)|
    && forall i :: 0 <= i < |ops| ==>
         ops[i] == Op(start + i, kind, Hex(AvaxOnly(ts, avax)[i].address),
                      sign * AvaxOnly(ts, avax)[i].amount * X2C_RATE)
  }

  function OwnerAccount(out: ExportedOutput, alias: string, hrp: string): Account {
    if |out.owners| > 0 then Bech32(alias, hrp, out.owners[0]) else NoAddress
  }

  /** One coin per exported output, not yet numbered. */
  function Listing(outs: seq<ExportedOutput>, tx: ID, alias: string, hrp: string): seq<ExportedOp> {
    seq(|outs|, i requires 0 <= i < |outs| =>
      ExportedOp(None, OwnerAccount(outs[i], alias, hrp), outs[i].amount, UtxoID(tx, i)))
  }

  function Repeat<T>(s: seq<T>, k: nat): seq<T> {
    if k == 0 then [] else Repeat(s, k - 1) + s
  }

  function Numbered(s: seq<ExportedOp>, start: int): seq<ExportedOp> {
    seq(|s|, i requires 0 <= i < |s| => s[i].(index := Some(start + i)))
  }

  /** The list of exported outputs is only built when the destination is known and the slice is not nil. */
  predicate ListsOutputs(tx: AtomicTx, c: Context)
    requires tx.Export?
  {
    tx.outs.Some? && tx.destination in c.aliases
  }

  function AliasOf(tx: AtomicTx, c: Context): string
    requires tx.Export? && ListsOutputs(tx, c)
  {
    c.aliases[tx.destination]
  }

  // ---------------------------------------------------------------- the algorithm

  method CrossChainTransaction(tx: AtomicTx, c: Context) returns (r: Result<Mapped, Error>)
    ensures r.Err? <==> tx.Unsupported? || (tx.Export? && ListsOutputs(tx, c) && AvaxOnly(tx.inputs, c.avax) != []
                                            && c.hrp.None?)
    ensures tx.Import? ==> ImportResult(tx, c, r)
    ensures tx.Export? && r.Ok? ==> ExportResult(tx, c, r.value)
  {
    match tx {
      case Import(imported, outputs) => r := MapImport(tx, c);
      case Export(id, destination, inputs, outs) => r := MapExport(tx, c);
      case Unsupported => r := Err(UnsupportedTransaction);
    }
  }

  ghost predicate ImportResult(tx: AtomicTx, c: Context, r: Result<Mapped, Error>)
    requires tx.Import?
  {
    && r.Ok? && r.value.exported.None?
    && OpsFor(r.value.ops, tx.outputs, c.avax, OpImport, 1, c.rawIdx)
    && r.value.fee == SignedSum(tx.imported) - AvaxSum(tx.outputs, c.avax)
  }

  ghost predicate ExportResult(tx: AtomicTx, c: Context, m: Mapped)
    requires tx.Export?
  {
    var k := |AvaxOnly(tx.inputs, c.avax)|;
    && OpsFor(m.ops, tx.inputs, c.avax, OpExport, -1, c.rawIdx)
    && (if ListsOutputs(tx, c) && k > 0 then
          && c.hrp.Some?
          && m.exported == Some(Numbered(Repeat(Listing(tx.outs.value, tx.id, AliasOf(tx, c), c.hrp.value), k),
                                         c.rawIdx + k))
          && m.fee == AvaxSum(tx.inputs, c.avax) - k * ExportedSum(tx.outs.value)
        else
          m.exported.None? && m.fee == AvaxSum(tx.inputs, c.avax))
  }

  /** The sum the code forms over imported inputs of any asset, each amount converted to int64. */
  function SignedSum(ins: seq<ImportedInput>): int {
    if ins == [] then 0 else SignedSum(ins[..|ins| - 1]) + ToInt64(ins[|ins| - 1].amount)
  }

  method MapImport(tx: AtomicTx, c: Context) returns (r: Result<Mapped, Error>)
    requires tx.Import?
    ensures ImportResult(tx, c, r)
  {
    var totalInput, totalOutput := 0, 0;
    for i := 0 to |tx.imported|
      invariant totalInput == SignedSum(tx.imported[..i])
    {
      assert tx.imported[..i + 1][..i] == tx.imported[..i];
      totalInput := totalInput + ToInt64(tx.imported[i].amount);
    }
    assert tx.imported[..|tx.imported|] == tx.imported;
    var ops, idx := [], c.rawIdx;
    for i := 0 to |tx.outputs|
      invariant totalOutput == AvaxSum(tx.outputs[..i], c.avax)
      invariant idx == c.rawIdx + |ops|
      invariant OpsFor(ops, tx.outputs[..i], c.avax, OpImport, 1, c.rawIdx)
    {
      assert tx.outputs[..i + 1][..i] == tx.outputs[..i];
      var out := tx.outputs[i];
      if out.asset != c.avax {
        continue;
      }
      totalOutput := totalOutput + out.amount;
      ops := ops + [Op(idx, OpImport, Hex(out.address), out.amount * X2C_RATE)];
      idx := idx + 1;
    }
    assert tx.outputs[..|tx.outputs|] == tx.outputs;
    r := Ok(Mapped(ops, None, totalInput - totalOutput));
  }

  /** What MapExport has collected from the first n inputs. */
  ghost predicate ExportProgress(tx: AtomicTx, c: Context, n: nat, ops: seq<Op>, exported: Option<seq<ExportedOp>>,
                                 totalInput: int, totalOutput: int)
    requires tx.Export? && n <= |tx.inputs|
  {
    && totalInput == AvaxSum(tx.inputs[..n], c.avax)
    && OpsFor(ops, tx.inputs[..n], c.avax, OpExport, -1, c.rawIdx)
    && ExportedSoFar(tx, c, |ops|, exported, totalOutput)
  }

  /** The outputs, listed once per avax input seen. */
  ghost predicate ExportedSoFar(tx: AtomicTx, c: Context, k: nat, exported: Option<seq<ExportedOp>>, totalOutput: int)
    requires tx.Export?
  {
    if ListsOutputs(tx, c) && k > 0 then
      && c.hrp.Some?
      && exported == Some(Repeat(Listing(tx.outs.value, tx.id, AliasOf(tx, c), c.hrp.value), k))
      && totalOutput == k * ExportedSum(tx.outs.value)
    else exported.None? && totalOutput == 0
  }

  lemma ListedAgain(tx: AtomicTx, c: Context, k: nat, exported: Option<seq<ExportedOp>>, totalOutput: int)
    requires tx.Export? && ListsOutputs(tx, c) && c.hrp.Some? && ExportedSoFar(tx, c, k, exported, totalOutput)
    ensures var listing := Listing(tx.outs.value, tx.id, AliasOf(tx, c), c.hrp.value);
            var before := if exported.Some? then exported.value else [];
            ExportedSoFar(tx, c, k + 1, Some(before + listing), totalOutput + ExportedSum(tx.outs.value))
  {
    OneMoreTime(k, ExportedSum(tx.outs.value));
    hide Listing, ExportedSum;
  }

  lemma OneMoreOp(ops: seq<Op>, tx: AtomicTx, c: Context, n: nat)
    requires tx.Export? && n < |tx.inputs| && tx.inputs[n].asset == c.avax
    requires OpsFor(ops, tx.inputs[..n], c.avax, OpExport, -1, c.rawIdx)
    ensures OpsFor(ops + [ExportOp(tx.inputs[n], c.rawIdx + |ops|)], tx.inputs[..n + 1], c.avax, OpExport, -1, c.rawIdx)
  {
    AvaxPrefix(tx.inputs, n, c.avax);
    hide AvaxOnly;
  }

  lemma ExportStart(tx: AtomicTx, c: Context)
    requires tx.Export?
    ensures ExportProgress(tx, c, 0, [], None, 0, 0)
  {
  }

  lemma AvaxPrefix(ts: seq<EvmTransfer>, n: nat, avax: ID)
    requires n < |ts|
    ensures AvaxSum(ts[..n + 1], avax) == AvaxSum(ts[..n], avax) + if ts[n].asset == avax then ts[n].amount else 0
    ensures AvaxOnly(ts[..n + 1], avax) == AvaxOnly(ts[..n], avax) + if ts[n].asset == avax then [ts[n]] else []
  {
    assert ts[..n + 1][..n] == ts[..n];
  }

  lemma ExportSkip(tx: AtomicTx, c: Context, n: nat, ops: seq<Op>, exported: Option<seq<ExportedOp>>,
                   totalInput: int, totalOutput: int)
    requires tx.Export? && n < |tx.inputs| && tx.inputs[n].asset != c.avax
    requires ExportProgress(tx, c, n, ops, exported, totalInput, totalOutput)
    ensures ExportProgress(tx, c, n + 1, ops, exported, totalInput, totalOutput)
  {
    AvaxPrefix(tx.inputs, n, c.avax);
    hide AvaxSum, AvaxOnly, Repeat, Listing;
  }

  lemma ExportRound(tx: AtomicTx, c: Context, n: nat, ops: seq<Op>, exported: Option<seq<ExportedOp>>,
                    totalInput: int, totalOutput: int)
    requires tx.Export? && n < |tx.inputs| && tx.inputs[n].asset == c.avax && (ListsOutputs(tx, c) ==> c.hrp.Some?)
    requires ExportProgress(tx, c, n, ops, exported, totalInput, totalOutput)
    ensures var lists := ListsOutputs(tx, c);
            var listing := if lists then Listing(tx.outs.value, tx.id, AliasOf(tx, c), c.hrp.value) else [];
            var before := if exported.Some? then exported.value else [];
            ExportProgress(tx, c, n + 1, ops + [ExportOp(tx.inputs[n], c.rawIdx + |ops|)],
                           if lists then Some(before + listing) else exported,
                           totalInput + tx.inputs[n].amount,
                           totalOutput + if lists then ExportedSum(tx.outs.value) else 0)
  {
    AvaxPrefix(tx.inputs, n, c.avax);
    OneMoreOp(ops, tx, c, n);
    if ListsOutputs(tx, c) {
      ListedAgain(tx, c, |ops|, exported, totalOutput);
    } else {
      assert ExportedSoFar(tx, c, |ops| + 1, exported, totalOutput);
    }
    hide AvaxSum, AvaxOnly, Listing, ExportedSum, OpsFor, ExportedSoFar, ListsOutputs, ExportOp;
  }

  function ExportOp(input: EvmTransfer, index: int): Op {
    Op(index, OpExport, Hex(input.address), input.amount * -X2C_RATE)
  }

  lemma OneMoreTime(k: nat, x: nat)
    ensures (k + 1) * x == k * x + x
  {
  }

  lemma ExportDone(tx: AtomicTx, c: Context, ops: seq<Op>, exported: Option<seq<ExportedOp>>, totalInput: int,
                   totalOutput: int)
    requires tx.Export? && ExportProgress(tx, c, |tx.inputs|, ops, exported, totalInput, totalOutput)
    ensures var numbered := if exported.Some? then Some(Numbered(exported.value, c.rawIdx + |ops|)) else None;
            ExportResult(tx, c, Mapped(ops, numbered, totalInput - totalOutput))
  {
    assert tx.inputs[..|tx.inputs|] == tx.inputs;
    hide AvaxSum, AvaxOnly, Repeat, Listing, ExportedSum;
  }

  lemma ExportFails(tx: AtomicTx, c: Context, n: nat)
    requires tx.Export? && n < |tx.inputs| && tx.inputs[n].asset == c.avax
    ensures AvaxOnly(tx.inputs, c.avax) != []
  {
    AvaxPrefix(tx.inputs, n, c.avax);
    AvaxOnlyGrows(tx.inputs, n + 1, c.avax);
  }

  lemma ExportNeedsNetwork(tx: AtomicTx, c: Context, ops: seq<Op>, exported: Option<seq<ExportedOp>>,
                           totalInput: int, totalOutput: int)
    requires tx.Export? && ExportProgress(tx, c, |tx.inputs|, ops, exported, totalInput, totalOutput)
    ensures ListsOutputs(tx, c) && AvaxOnly(tx.inputs, c.avax) != [] ==> c.hrp.Some?
  {
    assert tx.inputs[..|tx.inputs|] == tx.inputs;
    hide AvaxSum, AvaxOnly, Repeat, Listing, ExportedSum;
  }

  method MapExport(tx: AtomicTx, c: Context) returns (r: Result<Mapped, Error>)
    requires tx.Export?
    ensures r.Err? <==> ListsOutputs(tx, c) && AvaxOnly(tx.inputs, c.avax) != [] && c.hrp.None?
    ensures r.Ok? ==> ExportResult(tx, c, r.value)
  {
    var totalInput, totalOutput := 0, 0;
    var ops, idx := [], c.rawIdx;
    var exported: Option<seq<ExportedOp>> := None;
    ExportStart(tx, c);
    hide ExportProgress, ExportResult, AvaxOnly, Listing, ExportedSum, Numbered;
    for i := 0 to |tx.inputs|
      invariant idx == c.rawIdx + |ops|
      invariant ExportProgress(tx, c, i, ops, exported, totalInput, totalOutput)
    {
      var input := tx.inputs[i];
      if input.asset != c.avax {
        ExportSkip(tx, c, i, ops, exported, totalInput, totalOutput);
        continue;
      }
      ghost var before, listed := ops, exported;
      ghost var sumIn, sumOut := totalInput, totalOutput;
      totalInput := totalInput + input.amount;
      ops := ops + [Op(idx, OpExport, Hex(input.address), input.amount * -X2C_RATE)];
      idx := idx + 1;
      if tx.outs.Some? && tx.destination in c.aliases {
        var created := CreateExportedOuts(c.hrp, c.aliases[tx.destination], tx.id, tx.outs.value);
        if created.Err? {
          ExportFails(tx, c, i);
          return Err(created.error);
        }
        exported := Some((if exported.Some? then exported.value else []) + created.value.0);
        totalOutput := totalOutput + created.value.1;
      }
      ExportRound(tx, c, i, before, listed, sumIn, sumOut);
    }
    ExportNeedsNetwork(tx, c, ops, exported, totalInput, totalOutput);
    ExportDone(tx, c, ops, exported, totalInput, totalOutput);
    if exported.Some? {
      var numbered := Renumber(exported.value, idx);
      exported := Some(numbered);
    }
    r := Ok(Mapped(ops, exported, totalInput - totalOutput));
  }

  lemma {:induction false} AvaxOnlyGrows(ts: seq<EvmTransfer>, i: nat, avax: ID)
    requires i <= |ts|
    ensures |AvaxOnly(ts[..i], avax)| <= |AvaxOnly(ts, avax)|
    decreases |ts|
  {
    if i < |ts| {
      AvaxOnlyGrows(ts[..|ts| - 1], i, avax);
      assert ts[..|ts| - 1][..i] == ts[..i];
    } else {
      assert ts[..i] == ts;
    }
  }

  /** The deferred numbering of exported outputs. */
  method Renumber(s: seq<ExportedOp>, idx: int) returns (r: seq<ExportedOp>)
    ensures r == Numbered(s, idx)
  {
    r := [];
    for i := 0 to |s|
      invariant r == Numbered(s, idx)[..i]
    {
      r := r + [s[i].(index := Some(idx + i))];
    }
  }

  method CreateExportedOuts(network: Option<string>, alias: string, txID: ID, outs: seq<ExportedOutput>)
    returns (r: Result<(seq<ExportedOp>, int), Error>)
    ensures r.Err? <==> network.None?
    ensures r.Ok? ==> r.value == (Listing(outs, txID, alias, network.value), ExportedSum(outs))
  {
    if network.None? {
      return Err(UnrecognizedNetwork);
    }
    var hrp := network.value;
    var operations: seq<ExportedOp> := [];
    var totalAmount := 0;
    for outIndex := 0 to |outs|
      invariant operations == Listing(outs, txID, alias, hrp)[..outIndex]
      invariant totalAmount == ExportedSum(outs[..outIndex])
    {
      assert outs[..outIndex + 1][..outIndex] == outs[..outIndex];
      var out := outs[outIndex];
      var account := if |out.owners| > 0 then Bech32(alias, hrp, out.owners[0]) else NoAddress;
      totalAmount := totalAmount + out.amount;
      operations := operations + [ExportedOp(None, account, out.amount, UtxoID(txID, outIndex))];
    }
    assert outs[..|outs|] == outs;
    assert operations == Listing(outs, txID, alias, hrp);
    r := Ok((operations, totalAmount));
  }

  // ---------------------------------------------------------------- properties

  /** Operation amounts add up to the avax moved, at 18 decimals and with the direction's sign. */
  function OpsSum(ops: seq<Op>): int {
    if ops == [] then 0 else OpsSum(ops[..|ops| - 1]) + ops[|ops| - 1].amount
  }

  lemma {:induction false} OpsSumIsAvaxSum(ops: seq<Op>, ts: seq<EvmTransfer>, avax: ID, kind: OpKind, sign: int,
                                           start: int)
    requires OpsFor(ops, ts, avax, kind, sign, start)
    ensures OpsSum(ops) == sign * AvaxSum(ts, avax) * X2C_RATE
    decreases |ts|
  {
    if ts != [] {
      var n, last := |ts| - 1, ts[|ts| - 1];
      if last.asset == avax {
        var m := |ops| - 1;
        OpsSumIsAvaxSum(ops[..m], ts[..n], avax, kind, sign, start);
        assert sign * (AvaxSum(ts[..n], avax) + last.amount) * X2C_RATE
               == sign * AvaxSum(ts[..n], avax) * X2C_RATE + sign * last.amount * X2C_RATE;
      } else {
        OpsSumIsAvaxSum(ops, ts[..n], avax, kind, sign, start);
      }
    }
  }

  lemma {:induction false} SignedSumExact(ins: seq<ImportedInput>, avax: ID)
    ensures SignedSum(ins) == AvaxImported(ins, avax) + OtherImported(ins, avax) - TWO_64 * Oversized(ins)
  {
    if ins != [] { SignedSumExact(ins[..|ins| - 1], avax); }
  }

  lemma {:induction false} NoneOversized(ins: seq<ImportedInput>)
    requires forall i :: 0 <= i < |ins| ==> ins[i].amount < TWO_63
    ensures Oversized(ins) == 0
  {
    if ins != [] { NoneOversized(ins[..|ins| - 1]); }
  }

  lemma {:induction false} OtherImportedZeroIff(ins: seq<ImportedInput>, avax: ID)
    ensures OtherImported(ins, avax) == 0 <==> forall i :: 0 <= i < |ins| && ins[i].asset != avax ==> ins[i].amount == 0
  {
    if ins != [] {
      var n := |ins| - 1;
      OtherImportedZeroIff(ins[..n], avax);
      assert (forall i :: 0 <= i < |ins| && ins[i].asset != avax ==> ins[i].amount == 0) ==>
             forall i :: 0 <= i < n && ins[..n][i].asset != avax ==> ins[..n][i].amount == 0;
    }
  }

  /** The fee of every import, against the avax that really entered and left. */
  lemma ImportFeeError(tx: AtomicTx, c: Context, m: Mapped)
    requires tx.Import? && ImportResult(tx, c, Ok(m))
    ensures m.fee == AvaxImported(tx.imported, c.avax) - AvaxSum(tx.outputs, c.avax)
                     + OtherImported(tx.imported, c.avax) - TWO_64 * Oversized(tx.imported)
    ensures OpsSum(m.ops) == AvaxSum(tx.outputs, c.avax) * X2C_RATE
  {
    SignedSumExact(tx.imported, c.avax);
    OpsSumIsAvaxSum(m.ops, tx.outputs, c.avax, OpImport, 1, c.rawIdx);
  }

  /** Every import: the fee is right exactly if other assets and wrapped amounts cancel, and for amounts that fit
      int64 exactly if nothing of another asset is imported. */
  lemma ImportFeeCorrectIff(tx: AtomicTx, c: Context, m: Mapped)
    requires tx.Import? && ImportResult(tx, c, Ok(m))
    ensures m.fee == AvaxImported(tx.imported, c.avax) - AvaxSum(tx.outputs, c.avax) <==>
            OtherImported(tx.imported, c.avax) == TWO_64 * Oversized(tx.imported)
    ensures (forall i :: 0 <= i < |tx.imported| ==> tx.imported[i].amount < TWO_63) ==>
              (OtherImported(tx.imported, c.avax) == TWO_64 * Oversized(tx.imported) <==>
               forall i :: 0 <= i < |tx.imported| && tx.imported[i].asset != c.avax ==> tx.imported[i].amount == 0)
  {
    ImportFeeError(tx, c, m);
    if forall i :: 0 <= i < |tx.imported| ==> tx.imported[i].amount < TWO_63 { NoneOversized(tx.imported); }
    OtherImportedZeroIff(tx.imported, c.avax);
    hide AvaxImported, AvaxSum, OtherImported, Oversized, ImportResult;
  }

  lemma {:induction false} ExportedSumExact(outs: seq<ExportedOutput>, avax: ID)
    ensures ExportedSum(outs) == AvaxExported(outs, avax) + OtherExported(outs, avax)
  {
    if outs != [] { ExportedSumExact(outs[..|outs| - 1], avax); }
  }

  lemma ProductEqualsPartIff(k: nat, part: nat, rest: nat)
    requires k > 0
    ensures k * (part + rest) == part <==> part + rest == 0 || (k == 1 && rest == 0)
  {
    var n := part + rest;
    assert k * n == n + (k - 1) * n;
    if k > 1 && n > 0 { assert (k - 1) * n > 0; }
  }

  /** What the transaction exports, nothing for a nil slice. */
  function OutsOf(tx: AtomicTx): seq<ExportedOutput>
    requires tx.Export?
  {
    if tx.outs.Some? then tx.outs.value else []
  }

  /** Every export: the fee is the avax that entered minus the avax exported exactly if the outputs are listed and
      nothing of value is exported or one avax input exports only avax, or they are not listed and hold no avax.
      Outputs of all assets are subtracted, once per avax input, and none to an unknown chain. */
  lemma ExportFeeCorrectIff(tx: AtomicTx, c: Context, m: Mapped)
    requires tx.Export? && ExportResult(tx, c, m)
    ensures OpsSum(m.ops) == 0 - AvaxSum(tx.inputs, c.avax) * X2C_RATE
    ensures var outs, k := OutsOf(tx), |AvaxOnly(tx.inputs, c.avax)|;
            m.fee == AvaxSum(tx.inputs, c.avax) - AvaxExported(outs, c.avax) <==>
            if ListsOutputs(tx, c) && k > 0 then ExportedSum(outs) == 0 || (k == 1 && OtherExported(outs, c.avax) == 0)
            else AvaxExported(outs, c.avax) == 0
  {
    OpsSumIsAvaxSum(m.ops, tx.inputs, c.avax, OpExport, -1, c.rawIdx);
    var outs, k := OutsOf(tx), |AvaxOnly(tx.inputs, c.avax)|;
    ExportedSumExact(outs, c.avax);
    if ListsOutputs(tx, c) && k > 0 {
      ProductEqualsPartIff(k, AvaxExported(outs, c.avax), OtherExported(outs, c.avax));
    }
  }

  // ---------------------------------------------------------------- exports and imports whose fee is wrong

  /** The avax asset is 0, and chain 9 is known. */
  const HERE: Context := Context(0, 0, map[9 := "X"], Some("avax"))

  /** One avax input and a second asset: the asset is subtracted from the avax. */
  lemma MixedExportFee(m: Mapped)
    requires ExportResult(Export(7, 9, [EvmTransfer(1, 0, 10), EvmTransfer(1, 3, 4)],
                                 Some([ExportedOutput(0, 9, [2]), ExportedOutput(3, 4, [2])])), HERE, m)
    ensures m.fee == -3
  {
    var inputs := [EvmTransfer(1, 0, 10), EvmTransfer(1, 3, 4)];
    var outs := [ExportedOutput(0, 9, [2]), ExportedOutput(3, 4, [2])];
    assert inputs[..1] == [inputs[0]] && inputs[..1][..0] == [] && outs[..1] == [outs[0]] && outs[..1][..0] == [];
    assert ExportedSum(outs[..1]) == 9;
    assert AvaxSum(inputs[..1], 0) == 10 && |AvaxOnly(inputs[..1], 0)| == 1;
  }

  /** Two avax inputs of 5 and one output of 9: the fee is not 1 but minus 8, and the one coin is listed twice. */
  lemma TwoInputExport(m: Mapped)
    requires ExportResult(Export(7, 9, [EvmTransfer(1, 0, 5), EvmTransfer(2, 0, 5)],
                                 Some([ExportedOutput(0, 9, [2])])), HERE, m)
    ensures m.fee == -8
    ensures m.exported.Some? && |m.exported.value| == 2
            && m.exported.value[0].coin == m.exported.value[1].coin == UtxoID(7, 0)
  {
    var inputs := [EvmTransfer(1, 0, 5), EvmTransfer(2, 0, 5)];
    var outs := [ExportedOutput(0, 9, [2])];
    assert inputs[..1] == [inputs[0]] && inputs[..1][..0] == [] && outs[..0] == [];
    assert AvaxSum(inputs[..1], 0) == 5 && |AvaxOnly(inputs[..1], 0)| == 1;
    assert ExportedSum(outs) == 9;
    var list := Listing(outs, 7, "X", "avax");
    assert Repeat(list, 1) == Repeat(list, 0) + list == list;
    assert Repeat(list, 2) == list + list;
  }

  /** To a chain without an alias nothing is subtracted. */
  lemma UnknownDestinationExport(m: Mapped)
    requires ExportResult(Export(7, 8, [EvmTransfer(1, 0, 10)], Some([ExportedOutput(0, 9, [2])])), HERE, m)
    ensures m.fee == 10 && m.exported.None?
  {
    var inputs := [EvmTransfer(1, 0, 10)];
    assert inputs[..0] == [];
  }

  /** One avax unit and 4 of another asset imported, 1 unit paid out: a fee of 4 where none was paid. */
  lemma MixedImportFee(m: Mapped)
    requires ImportResult(Import([ImportedInput(0, 1), ImportedInput(3, 4)], [EvmTransfer(1, 0, 1)]), HERE, Ok(m))
    ensures m.fee == 4
  {
    var ins, outs := [ImportedInput(0, 1), ImportedInput(3, 4)], [EvmTransfer(1, 0, 1)];
    assert ins[..1] == [ins[0]] && ins[..1][..0] == [] && outs[..0] == [];
    assert SignedSum(ins[..1]) == 1;
  }

  /** An imported amount of 2^63, all of it paid out, shows a fee of minus 2^64. */
  lemma OversizedImportFee(m: Mapped)
    requires ImportResult(Import([ImportedInput(0, 0x8000_0000_0000_0000)], [EvmTransfer(1, 0, 0x8000_0000_0000_0000)]),
                          HERE, Ok(m))
    ensures m.fee == 0 - TWO_64
  {
    var ins, outs := [ImportedInput(0, 0x8000_0000_0000_0000)], [EvmTransfer(1, 0, 0x8000_0000_0000_0000)];
    assert ins[..0] == [] && outs[..0] == [];
  }

  ghost predicate CoinsDistinct(s: seq<ExportedOp>) {
    forall i, j :: 0 <= i < j < |s| ==> s[i].coin != s[j].coin
  }

  lemma {:induction false} RepeatLength<T>(s: seq<T>, k: nat)
    ensures |Repeat(s, k)| == k * |s|
  {
    if k > 0 { RepeatLength(s, k - 1); }
  }

  /** With several avax inputs the same coin is reported as created several times. */
  lemma ExportedCoinsDistinctIff(tx: AtomicTx, c: Context, m: Mapped)
    requires tx.Export? && ExportResult(tx, c, m) && ListsOutputs(tx, c) && AvaxOnly(tx.inputs, c.avax) != []
    ensures CoinsDistinct(m.exported.value) <==> |AvaxOnly(tx.inputs, c.avax)| == 1 || tx.outs.value == []
  {
    var k := |AvaxOnly(tx.inputs, c.avax)|;
    var list := Listing(tx.outs.value, tx.id, AliasOf(tx, c), c.hrp.value);
    if k > 1 && tx.outs.value != [] {
      var n := |list|;
      RepeatLength(list, k - 2);
      var e := m.exported.value;
      var p := (k - 2) * n;
      assert Repeat(list, k) == Repeat(list, k - 2) + list + list;
      assert e[p].coin == list[0].coin == e[p + n].coin;
    } else if k == 1 {
      assert Repeat(list, 1) == Repeat(list, 0) + list == list;
    } else {
      RepeatLength(list, k);
    }
  }

  /** With one avax input everything is reported once, and identifiers run on from operations to exported outputs. */
  lemma SingleInputExport(tx: AtomicTx, c: Context, m: Mapped)
    requires tx.Export? && ExportResult(tx, c, m) && |AvaxOnly(tx.inputs, c.avax)| == 1
    requires tx.outs.Some? && tx.destination in c.aliases
    ensures |m.ops| == 1 && m.ops[0].index == c.rawIdx
    ensures m.exported.Some? && |m.exported.value| == |tx.outs.value| && c.hrp.Some?
    ensures forall i :: 0 <= i < |tx.outs.value| ==>
              m.exported.value[i] == ExportedOp(Some(c.rawIdx + |m.ops| + i),
                                                if tx.outs.value[i].owners == [] then NoAddress
                                                else Bech32(c.aliases[tx.destination], c.hrp.value,
                                                            tx.outs.value[i].owners[0]),
                                                tx.outs.value[i].amount, UtxoID(tx.id, i))
  {
    assert AliasOf(tx, c) == c.aliases[tx.destination];
    hide Repeat, AvaxOnly, Listing, Numbered, OpsFor, ExportResult, AliasOf;
    ListedOnce(tx, c, m);
    NumberedListing(tx.outs.value, tx.id, AliasOf(tx, c), c.hrp.value, c.rawIdx + 1);
  }

  lemma ListedOnce(tx: AtomicTx, c: Context, m: Mapped)
    requires tx.Export? && ExportResult(tx, c, m) && ListsOutputs(tx, c) && |AvaxOnly(tx.inputs, c.avax)| == 1
    ensures |m.ops| == 1 && m.ops[0].index == c.rawIdx && c.hrp.Some?
    ensures m.exported == Some(Numbered(Listing(tx.outs.value, tx.id, AliasOf(tx, c), c.hrp.value), c.rawIdx + 1))
  {
    RepeatOnce(Listing(tx.outs.value, tx.id, AliasOf(tx, c), c.hrp.value));
    FirstOp(tx, c, m);
    hide Repeat, AvaxOnly, Listing, Numbered, AvaxSum, ExportedSum, OpsFor, AliasOf;
  }

  lemma FirstOp(tx: AtomicTx, c: Context, m: Mapped)
    requires tx.Export? && OpsFor(m.ops, tx.inputs, c.avax, OpExport, -1, c.rawIdx)
    ensures |m.ops| == |AvaxOnly(tx.inputs, c.avax)| && (m.ops != [] ==> m.ops[0].index == c.rawIdx)
  {
    hide AvaxOnly;
  }

  lemma NumberedListing(outs: seq<ExportedOutput>, tx: ID, alias: string, hrp: string, start: int)
    ensures var list := Numbered(Listing(outs, tx, alias, hrp), start);
            && |list| == |outs|
            && forall i :: 0 <= i < |outs| ==>
                 list[i] == ExportedOp(Some(start + i),
                                       if outs[i].owners == [] then NoAddress
                                       else Bech32(alias, hrp, outs[i].owners[0]),
                                       outs[i].amount, UtxoID(tx, i))
  {
  }

  lemma {:induction false} RepeatAt<T>(s: seq<T>, k: nat, r: nat, i: nat)
    requires r < k && i < |s|
    ensures 0 <= r * |s| + i < |Repeat(s, k)| && Repeat(s, k)[r * |s| + i] == s[i]
    decreases k
  {
    RepeatLength(s, k - 1);
    if r < k - 1 { RepeatAt(s, k - 1, r, i); }
  }

  lemma NumberedAt(s: seq<ExportedOp>, start: int, p: nat)
    requires p < |s|
    ensures |Numbered(s, start)| == |s| && Numbered(s, start)[p] == s[p].(index := Some(start + p))
  {
  }

  /** In every listing, of which there is one per avax input, output i of the transaction is shown with its own coin,
      first owner and amount, numbered on from the operations. */
  lemma ExportedIsShown(tx: AtomicTx, c: Context, m: Mapped, r: nat, i: nat)
    requires tx.Export? && ExportResult(tx, c, m) && tx.outs.Some? && tx.destination in c.aliases
    requires r < |AvaxOnly(tx.inputs, c.avax)| && i < |tx.outs.value|
    ensures m.exported.Some? && |m.exported.value| == |m.ops| * |tx.outs.value| && c.hrp.Some?
    ensures var n, out := r * |tx.outs.value| + i, tx.outs.value[i];
            && 0 <= n < |m.exported.value|
            && m.exported.value[n] == ExportedOp(Some(c.rawIdx + |m.ops| + n),
                                                 if out.owners == [] then NoAddress
                                                 else Bech32(c.aliases[tx.destination], c.hrp.value, out.owners[0]),
                                                 out.amount, UtxoID(tx.id, i))
  {
    FirstOp(tx, c, m);
    var k, list := |AvaxOnly(tx.inputs, c.avax)|, Listing(tx.outs.value, tx.id, AliasOf(tx, c), c.hrp.value);
    hide AvaxOnly, OpsFor, Numbered, Repeat, ExportedSum, AvaxSum;
    RepeatLength(list, k);
    RepeatAt(list, k, r, i);
    NumberedAt(Repeat(list, k), c.rawIdx + k, r * |list| + i);
  }

  /** Every avax entry of a transaction is shown, after those before it, at 10^9 units per unit. */
  lemma TransferIsShown(ops: seq<Op>, ts: seq<EvmTransfer>, avax: ID, kind: OpKind, sign: int, start: int, i: nat)
    requires OpsFor(ops, ts, avax, kind, sign, start) && i < |ts| && ts[i].asset == avax
    ensures var n := |AvaxOnly(ts[..i], avax)|;
            n < |ops| && ops[n] == Op(start + n, kind, Hex(ts[i].address), sign * ts[i].amount * 1_000_000_000)
  {
    AvaxPrefix(ts, i, avax);
    AvaxOnlyPrefix(ts, i + 1, avax);
    hide AvaxOnly;
  }

  lemma {:induction false} AvaxOnlyPrefix(ts: seq<EvmTransfer>, i: nat, avax: ID)
    requires i <= |ts|
    ensures AvaxOnly(ts[..i], avax) <= AvaxOnly(ts, avax)
    decreases |ts|
  {
    if i < |ts| {
      assert ts[..|ts| - 1][..i] == ts[..i];
      AvaxOnlyPrefix(ts[..|ts| - 1], i, avax);
    } else {
      assert ts[..i] == ts;
    }
  }

  lemma RepeatOnce(list: seq<ExportedOp>)
    ensures Repeat(list, 1) == list
  {
    assert Repeat(list, 1) == Repeat(list, 0) + list;
  }
}
