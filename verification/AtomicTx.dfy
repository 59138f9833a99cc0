/** mapper/cchainatomictx: building and parsing C-chain imports and exports. */
module AtomicTx {
  import opened Prelude
  import opened PchainModel
  import opened PchainBuilder

  // ---------------------------------------------------------------- entities

  type EvmAddress = nat

  /** An account string: a hex address in canonical form, a bech32 address, or any other text. */
  datatype Text = Hex(address: EvmAddress) | Bech(chain: ChainAlias, owner: ShortID) | OtherText(text: string)

  datatype Direction = Import | Export

  datatype Op = Op(index: Option<nat>, related: seq<nat>, direction: Direction, status: Option<bool>, account: Text,
                   amount: Amount, coin: Option<CoinChange>)

  datatype EvmInput = EvmInput(address: EvmAddress, amount: uint64, asset: ID, nonce: uint64)

  datatype EvmOutput = EvmOutput(address: EvmAddress, amount: uint64, asset: ID)

  datatype Tx =
    | ExportTx(destination: ID, ins: seq<EvmInput>, exported: seq<TransferableOutput>)
    | ImportTx(source: ID, imported: seq<TransferableInput>, outs: seq<EvmOutput>)

  datatype Metadata = Metadata(nonce: uint64, source: Option<ID>, destination: Option<ID>)

  /** common.HexToAddress: total, and exact on canonical hex. */
  type HexReader = h: Text -> EvmAddress | forall a :: h(Hex(a)) == a
    witness (t: Text) => if t.Hex? then t.address else 0

  datatype BuildError = MissingCoinIdentifier | InvalidUtxoID | InvalidAddress

  datatype ParseError = UnknownDestinationChain | NoMatchingInputAddresses

  // ---------------------------------------------------------------- one operation

  predicate HasCoin(op: Op) {
    op.coin.Some? && op.coin.value.coin.Coin?
  }

  function InputOf(op: Op, avax: ID): TransferableInput
    requires HasCoin(op)
  {
    TransferableInput(op.coin.value.coin.utxo, avax, TransferInput(Low64(op.amount.value), [0]))
  }

  function EvmInputOf(op: Op, avax: ID, nonce: uint64, hex: HexReader): EvmInput {
    EvmInput(hex(op.account), Low64(op.amount.value), avax, nonce)
  }

  function EvmOutputOf(op: Op, avax: ID, hex: HexReader): EvmOutput {
    EvmOutput(hex(op.account), Low64(op.amount.value), avax)
  }

  function OutputOf(op: Op, avax: ID): TransferableOutput
    requires op.account.Bech?
  {
    TransferableOutput(avax, Transfer(TransferOutput(Low64(op.amount.value), 0, 1, [op.account.owner])))
  }

  // ---------------------------------------------------------------- lists, before sorting

  predicate AllHaveCoins(ops: seq<Op>) {
    forall i :: 0 <= i < |ops| ==> HasCoin(ops[i])
  }

  predicate AllBech(ops: seq<Op>) {
    forall i :: 0 <= i < |ops| ==> ops[i].account.Bech?
  }

  function InputsOf(ops: seq<Op>, avax: ID): seq<TransferableInput>
    requires AllHaveCoins(ops)
  {
    seq(|ops|, i requires 0 <= i < |ops| => InputOf(ops[i], avax))
  }

  function EvmInputsOf(ops: seq<Op>, avax: ID, nonce: uint64, hex: HexReader): seq<EvmInput> {
    seq(|ops|, i requires 0 <= i < |ops| => EvmInputOf(ops[i], avax, nonce, hex))
  }

  function EvmOutputsOf(ops: seq<Op>, avax: ID, hex: HexReader): seq<EvmOutput> {
    seq(|ops|, i requires 0 <= i < |ops| => EvmOutputOf(ops[i], avax, hex))
  }

  function OutputsOf(ops: seq<Op>, avax: ID): seq<TransferableOutput>
    requires AllBech(ops)
  {
    seq(|ops|, i requires 0 <= i < |ops| => OutputOf(ops[i], avax))
  }

  function Accounts(ops: seq<Op>): seq<Text> {
    seq(|ops|, i requires 0 <= i < |ops| => ops[i].account)
  }

  // ---------------------------------------------------------------- sorting EVM inputs and outputs

  /** All entries have the one asset AVAX, so entries order by address. */
  function InputAddress(x: EvmInput): EvmAddress {
    x.address
  }

  function OutputAddress(x: EvmOutput): EvmAddress {
    x.address
  }

  // ---------------------------------------------------------------- building

  method BuildIns(ops: seq<Op>, md: Metadata, avax: ID, hex: HexReader) returns (ins: seq<EvmInput>, signers: seq<Text>)
    ensures SortedBy(ins, InputAddress) && multiset(ins) == multiset(EvmInputsOf(ops, avax, md.nonce, hex))
    ensures signers == Accounts(ops)
  {
    var unsorted: seq<EvmInput> := [];
    signers := [];
    for i := 0 to |ops|
      invariant unsorted == EvmInputsOf(ops, avax, md.nonce, hex)[..i] && signers == Accounts(ops)[..i]
    {
      unsorted := unsorted + [EvmInput(hex(ops[i].account), Low64(ops[i].amount.value), avax, md.nonce)];
      signers := signers + [ops[i].account];
    }
    assert unsorted == EvmInputsOf(ops, avax, md.nonce, hex);
    ins := SortBy(unsorted, InputAddress);
  }

  method BuildImportedInputs(ops: seq<Op>, avax: ID)
    returns (r: Result<(seq<TransferableInput>, seq<Text>), BuildError>)
    ensures r.Err? <==> !AllHaveCoins(ops)
    ensures r.Err? ==> exists i :: 0 <= i < |ops| && AllHaveCoins(ops[..i]) && !HasCoin(ops[i])
                                   && r.error == if ops[i].coin.None? then MissingCoinIdentifier else InvalidUtxoID
    ensures r.Ok? ==> InputsSorted(r.value.0) && multiset(r.value.0) == multiset(InputsOf(ops, avax))
                      && r.value.1 == Accounts(ops)
  {
    var unsorted: seq<TransferableInput> := [];
    var signers: seq<Text> := [];
    for i := 0 to |ops|
      invariant AllHaveCoins(ops[..i]) && unsorted == InputsOf(ops[..i], avax) && signers == Accounts(ops)[..i]
    {
      var op := ops[i];
      if op.coin.None? {
        return Err(MissingCoinIdentifier);
      }
      if op.coin.value.coin.Malformed? {
        return Err(InvalidUtxoID);
      }
      unsorted := unsorted + [TransferableInput(op.coin.value.coin.utxo, avax,
                                                TransferInput(Low64(op.amount.value), [0]))];
      signers := signers + [op.account];
    }
    assert ops[..|ops|] == ops;
    var ins := SortInputs(unsorted);
    r := Ok((ins, signers));
  }

  method BuildOuts(ops: seq<Op>, avax: ID, hex: HexReader) returns (outs: seq<EvmOutput>)
    ensures SortedBy(outs, OutputAddress) && multiset(outs) == multiset(EvmOutputsOf(ops, avax, hex))
  {
    var unsorted: seq<EvmOutput> := [];
    for i := 0 to |ops|
      invariant unsorted == EvmOutputsOf(ops, avax, hex)[..i]
    {
      unsorted := unsorted + [EvmOutput(hex(ops[i].account), Low64(ops[i].amount.value), avax)];
    }
    assert unsorted == EvmOutputsOf(ops, avax, hex);
    outs := SortBy(unsorted, OutputAddress);
  }

  method BuildExportedOutputs(ops: seq<Op>, avax: ID) returns (r: Result<seq<TransferableOutput>, BuildError>)
    ensures r == Err(InvalidAddress) <==> !AllBech(ops)
    ensures r.Ok? <==> AllBech(ops)
    ensures r.Ok? ==> OutputsSorted(r.value) && multiset(r.value) == multiset(OutputsOf(ops, avax))
  {
    var unsorted: seq<TransferableOutput> := [];
    for i := 0 to |ops|
      invariant AllBech(ops[..i]) && unsorted == OutputsOf(ops[..i], avax)
    {
      if !ops[i].account.Bech? {
        return Err(InvalidAddress);
      }
      var out := TransferOutput(Low64(ops[i].amount.value), 0, 1, [ops[i].account.owner]);
      unsorted := unsorted + [TransferableOutput(avax, Transfer(out))];
    }
    assert ops[..|ops|] == ops;
    assert AllPlain(unsorted);
    var outs := SortOutputs(unsorted);
    r := Ok(outs);
  }

  /** The transaction is built from the debits ins and the credits outs, every list sorted. */
  ghost predicate BuiltFrom(tx: Tx, direction: Direction, ins: seq<Op>, outs: seq<Op>, md: Metadata, avax: ID,
                            hex: HexReader) {
    match direction
    case Export =>
      && AllBech(outs) && tx.ExportTx? && md.destination == Some(tx.destination)
      && SortedBy(tx.ins, InputAddress) && multiset(tx.ins) == multiset(EvmInputsOf(ins, avax, md.nonce, hex))
      && OutputsSorted(tx.exported) && multiset(tx.exported) == multiset(OutputsOf(outs, avax))
    case Import =>
      && AllHaveCoins(ins) && tx.ImportTx? && md.source == Some(tx.source)
      && InputsSorted(tx.imported) && multiset(tx.imported) == multiset(InputsOf(ins, avax))
      && SortedBy(tx.outs, OutputAddress) && multiset(tx.outs) == multiset(EvmOutputsOf(outs, avax, hex))
  }

  /** The metadata must name the other chain, which the code takes for granted. */
  method BuildTx(direction: Direction, ins: seq<Op>, outs: seq<Op>, md: Metadata, avax: ID, hex: HexReader)
    returns (r: Result<(Tx, seq<Text>), BuildError>)
    requires if direction.Export? then md.destination.Some? else md.source.Some?
    ensures r.Ok? <==> if direction.Export? then AllBech(outs) else AllHaveCoins(ins)
    ensures r.Ok? ==> BuiltFrom(r.value.0, direction, ins, outs, md, avax, hex) && r.value.1 == Accounts(ins)
  {
    hide SortedBy, InputsSorted, OutputsSorted, EvmInputsOf, EvmOutputsOf, InputsOf, OutputsOf,
         AllBech, AllHaveCoins;
    if direction.Export? {
      var evmIns, signers := BuildIns(ins, md, avax, hex);
      var exported := BuildExportedOutputs(outs, avax);
      if exported.Err? {
        return Err(exported.error);
      }
      r := Ok((ExportTx(md.destination.value, evmIns, exported.value), signers));
    } else {
      var imported := BuildImportedInputs(ins, avax);
      if imported.Err? {
        return Err(imported.error);
      }
      var evmOuts := BuildOuts(outs, avax, hex);
      r := Ok((ImportTx(md.source.value, imported.value.0, evmOuts), imported.value.1));
    }
  }

  // ---------------------------------------------------------------- parsing

  type AccountMap = map<CoinID, Text>

  datatype Parser = Parser(chainIDs: map<ID, ChainAlias>, inputTxAccounts: AccountMap)

  function Avax(value: int): Amount {
    Amount(value, AtomicAvax)
  }

  function Related(n: nat): seq<nat> {
    seq(n, i => i)
  }

  lemma NoneRelated()
    ensures Related(0) == []
  {
  }

  /** The parsed form of one entry, without its identifiers. */
  function FromEvmInput(x: EvmInput): Op {
    Op(None, [], Export, None, Hex(x.address), Avax(0 - x.amount), None)
  }

  function FromImported(accounts: AccountMap, x: TransferableInput): Op {
    var coin := Coin(x.utxo);
    Op(None, [], Import, None, if coin in accounts then accounts[coin] else OtherText(""),
       Avax(0 - InputAmount(x.input)),
       Some(CoinSpent(coin)))
  }

  function FromEvmOutput(x: EvmOutput): Op {
    Op(None, [], Import, None, Hex(x.address), Avax(x.amount), None)
  }

  /** The first address of an exported output; an output without addresses gets an empty account. */
  function FromExported(alias: ChainAlias, x: TransferableOutput): Op {
    var account := if x.out.Transfer? && |x.out.out.addrs| > 0 then Bech(alias, x.out.out.addrs[0]) else OtherText("");
    Op(None, [], Export, None, account, Avax(OutputAmount(x.out)), None)
  }

  /** Operations numbered from start, all related to the operations before relatedTo. */
  function Numbered(ops: seq<Op>, start: nat, relatedTo: nat): seq<Op> {
    seq(|ops|, i requires 0 <= i < |ops| => ops[i].(index := Some(start + i), related := Related(relatedTo)))
  }

  function ImportedOps(accounts: AccountMap, ins: seq<TransferableInput>): seq<Op> {
    seq(|ins|, i requires 0 <= i < |ins| => FromImported(accounts, ins[i]))
  }

  function EvmInOps(ins: seq<EvmInput>): seq<Op> {
    seq(|ins|, i requires 0 <= i < |ins| => FromEvmInput(ins[i]))
  }

  function EvmOutOps(outs: seq<EvmOutput>): seq<Op> {
    seq(|outs|, i requires 0 <= i < |outs| => FromEvmOutput(outs[i]))
  }

  function ExportedOps(alias: ChainAlias, outs: seq<TransferableOutput>): seq<Op> {
    seq(|outs|, i requires 0 <= i < |outs| => FromExported(alias, outs[i]))
  }

  predicate AccountsGiven(accounts: AccountMap, ins: seq<TransferableInput>) {
    forall i :: 0 <= i < |ins| ==> Coin(ins[i].utxo) in accounts
  }

  method BuildRelatedOperations(idx: nat) returns (identifiers: seq<nat>)
    ensures identifiers == Related(idx)
  {
    identifiers := [];
    for i := 0 to idx
      invariant identifiers == Related(i)
    {
      identifiers := identifiers + [i];
    }
  }

  method InsToOperations(startIdx: nat, ins: seq<EvmInput>) returns (operations: seq<Op>)
    ensures operations == Numbered(EvmInOps(ins), startIdx, 0)
  {
    var idx := startIdx;
    ghost var all := Numbered(EvmInOps(ins), startIdx, 0);
    operations := [];
    NoneRelated();
    for i := 0 to |ins|
      invariant idx == startIdx + i
      invariant operations == all[..i]
    {
      assert all[..i + 1] == all[..i] + [all[i]];
      operations := operations + [Op(Some(idx), [], Export, None, Hex(ins[i].address), Avax(0 - ins[i].amount), None)];
      idx := idx + 1;
    }
  }

  method ImportedInToOperations(parser: Parser, startIdx: nat, ins: seq<TransferableInput>)
    returns (r: Result<seq<Op>, ParseError>)
    ensures r == if AccountsGiven(parser.inputTxAccounts, ins)
                 then Ok(Numbered(ImportedOps(parser.inputTxAccounts, ins), startIdx, 0))
                 else Err(NoMatchingInputAddresses)
  {
    var idx := startIdx;
    ghost var all := Numbered(ImportedOps(parser.inputTxAccounts, ins), startIdx, 0);
    var operations: seq<Op> := [];
    NoneRelated();
    for i := 0 to |ins|
      invariant idx == startIdx + i && AccountsGiven(parser.inputTxAccounts, ins[..i])
      invariant operations == all[..i]
    {
      var coin := Coin(ins[i].utxo);
      if coin !in parser.inputTxAccounts {
        return Err(NoMatchingInputAddresses);
      }
      assert all[..i + 1] == all[..i] + [all[i]];
      operations := operations + [Op(Some(idx), [], Import, None, parser.inputTxAccounts[coin],
                                     Avax(0 - InputAmount(ins[i].input)), Some(CoinSpent(coin)))];
      idx := idx + 1;
    }
    assert ins[..|ins|] == ins && all[..|ins|] == all;
    r := Ok(operations);
  }

  method OutsToOperations(startIdx: nat, outs: seq<EvmOutput>) returns (operations: seq<Op>)
    ensures operations == Numbered(EvmOutOps(outs), startIdx, startIdx)
  {
    var idx := startIdx;
    ghost var all := Numbered(EvmOutOps(outs), startIdx, startIdx);
    operations := [];
    for i := 0 to |outs|
      invariant idx == startIdx + i
      invariant operations == all[..i]
    {
      var related := BuildRelatedOperations(startIdx);
      assert all[..i + 1] == all[..i] + [all[i]];
      operations := operations + [Op(Some(idx), related, Import, None, Hex(outs[i].address), Avax(outs[i].amount),
                                     None)];
      idx := idx + 1;
    }
  }

  /** The code asserts that exported outputs are plain transfers. */
  method ExportedOutputsToOperations(startIdx: nat, alias: ChainAlias, outs: seq<TransferableOutput>)
    returns (operations: seq<Op>)
    requires forall i :: 0 <= i < |outs| ==> outs[i].out.Transfer?
    ensures operations == Numbered(ExportedOps(alias, outs), startIdx, startIdx)
  {
    var idx := startIdx;
    ghost var all := Numbered(ExportedOps(alias, outs), startIdx, startIdx);
    operations := [];
    for i := 0 to |outs|
      invariant idx == startIdx + i
      invariant operations == all[..i]
    {
      var account := OtherText("");
      var transferOutput := outs[i].out.out;
      if |transferOutput.addrs| > 0 {
        account := Bech(alias, transferOutput.addrs[0]);
      }
      var related := BuildRelatedOperations(startIdx);
      assert all[..i + 1] == all[..i] + [all[i]];
      operations := operations + [Op(Some(idx), related, Export, None, account, Avax(OutputAmount(outs[i].out)), None)];
      idx := idx + 1;
    }
  }

  /** The operations of a transaction: debits numbered from 0, then credits related to all debits. */
  function Parsed(parser: Parser, tx: Tx): Result<seq<Op>, ParseError> {
    match tx
    case ExportTx(destination, ins, exported) =>
      if destination !in parser.chainIDs then Err(UnknownDestinationChain)
      else
        Ok(Numbered(EvmInOps(ins), 0, 0)
           + Numbered(ExportedOps(parser.chainIDs[destination], exported), |ins|, |ins|))
    case ImportTx(_, imported, outs) =>
      if !AccountsGiven(parser.inputTxAccounts, imported) then Err(NoMatchingInputAddresses)
      else
        Ok(Numbered(ImportedOps(parser.inputTxAccounts, imported), 0, 0)
           + Numbered(EvmOutOps(outs), |imported|, |imported|))
  }

  method Parse(parser: Parser, tx: Tx) returns (r: Result<seq<Op>, ParseError>)
    requires tx.ExportTx? ==> forall i :: 0 <= i < |tx.exported| ==> tx.exported[i].out.Transfer?
    ensures r == Parsed(parser, tx)
  {
    hide FromEvmInput, FromExported, FromImported, FromEvmOutput, AccountsGiven;
    if tx.ExportTx? {
      var ins := InsToOperations(0, tx.ins);
      if tx.destination !in parser.chainIDs {
        return Err(UnknownDestinationChain);
      }
      var outs := ExportedOutputsToOperations(|ins|, parser.chainIDs[tx.destination], tx.exported);
      r := Ok(ins + outs);
    } else {
      var ins := ImportedInToOperations(parser, 0, tx.imported);
      if ins.Err? {
        return Err(ins.error);
      }
      var outs := OutsToOperations(|ins.value|, tx.outs);
      r := Ok(ins.value + outs);
    }
  }

  // ---------------------------------------------------------------- identifiers

  /** Operation i has identifier i, and is related to smaller ones only. */
  lemma AtomicIdentifiersDense(parser: Parser, tx: Tx, i: nat)
    requires Parsed(parser, tx).Ok? && i < |Parsed(parser, tx).value|
    ensures var op := Parsed(parser, tx).value[i];
            op.index == Some(i) && forall k :: 0 <= k < |op.related| ==> op.related[k] < i
    ensures var ops := Parsed(parser, tx).value;
            ops[i].related != [] ==> forall k :: 0 <= k < |ops| ==> (k in ops[i].related <==> ops[k].related == [])
  {
    var ops := Parsed(parser, tx).value;
    var n := if tx.ExportTx? then |tx.ins| else |tx.imported|;
    hide FromEvmInput, FromExported, FromImported, FromEvmOutput, AccountsGiven;
    assert forall k :: 0 <= k < |ops| ==> ops[k].related == if k < n then Related(0) else Related(n);
    assert forall k :: 0 <= k < n ==> k in Related(n) by {
      forall k | 0 <= k < n ensures k in Related(n) { assert Related(n)[k] == k; }
    }
  }

  // ---------------------------------------------------------------- build, then parse

  /** Operations are compared without their identifiers. */
  function Erased(op: Op): Op {
    op.(index := None, related := [])
  }

  /** What comes back for a debit and for a credit; alias is the destination of an export. */
  function DebitImage(direction: Direction, parser: Parser, avax: ID, nonce: uint64, hex: HexReader, op: Op): Op {
    if direction.Export? then FromEvmInput(EvmInputOf(op, avax, nonce, hex))
    else if HasCoin(op) then FromImported(parser.inputTxAccounts, InputOf(op, avax))
    else op
  }

  function CreditImage(direction: Direction, alias: ChainAlias, avax: ID, hex: HexReader, op: Op): Op {
    if direction.Import? then FromEvmOutput(EvmOutputOf(op, avax, hex))
    else if op.account.Bech? then FromExported(alias, OutputOf(op, avax))
    else op
  }

  function DebitImages(direction: Direction, parser: Parser, avax: ID, nonce: uint64, hex: HexReader,
                       ops: seq<Op>): seq<Op> {
    seq(|ops|, i requires 0 <= i < |ops| => DebitImage(direction, parser, avax, nonce, hex, ops[i]))
  }

  function CreditImages(direction: Direction, alias: ChainAlias, avax: ID, hex: HexReader, ops: seq<Op>): seq<Op> {
    seq(|ops|, i requires 0 <= i < |ops| => CreditImage(direction, alias, avax, hex, ops[i]))
  }

  predicate Bare(ops: seq<Op>) {
    forall i :: 0 <= i < |ops| ==> ops[i].index.None? && ops[i].related == []
  }

  lemma ErasedNumbered(ops: seq<Op>, start: nat, relatedTo: nat)
    requires Bare(ops)
    ensures ErasedAll(Numbered(ops, start, relatedTo)) == ops
  {
  }

  lemma ImagesAreBare(parser: Parser, alias: ChainAlias, ins: seq<EvmInput>, exported: seq<TransferableOutput>,
                      imported: seq<TransferableInput>, outs: seq<EvmOutput>)
    ensures Bare(EvmInOps(ins)) && Bare(ExportedOps(alias, exported))
    ensures Bare(ImportedOps(parser.inputTxAccounts, imported)) && Bare(EvmOutOps(outs))
  {
  }

  function ErasedAll(ops: seq<Op>): seq<Op> {
    seq(|ops|, i requires 0 <= i < |ops| => Erased(ops[i]))
  }

  lemma ErasedConcat(a: seq<Op>, b: seq<Op>)
    ensures ErasedAll(a + b) == ErasedAll(a) + ErasedAll(b)
  {
    hide Erased;
  }

  /** The parsed operations without identifiers. */
  lemma ParsedErased(parser: Parser, tx: Tx)
    requires Parsed(parser, tx).Ok?
    ensures ErasedAll(Parsed(parser, tx).value)
            == match tx
               case ExportTx(destination, ins, exported) =>
                 EvmInOps(ins) + ExportedOps(parser.chainIDs[destination], exported)
               case ImportTx(_, imported, outs) =>
                 ImportedOps(parser.inputTxAccounts, imported) + EvmOutOps(outs)
  {
    if tx.ExportTx? {
      var a, b := EvmInOps(tx.ins), ExportedOps(parser.chainIDs[tx.destination], tx.exported);
      ImagesAreBare(parser, parser.chainIDs[tx.destination], tx.ins, tx.exported, [], []);
      ErasedNumbered(a, 0, 0);
      ErasedNumbered(b, |a|, |a|);
      hide ErasedAll, Numbered, ExportedOps;
      ErasedConcat(Numbered(a, 0, 0), Numbered(b, |a|, |a|));
    } else {
      var a, b := ImportedOps(parser.inputTxAccounts, tx.imported), EvmOutOps(tx.outs);
      ImagesAreBare(parser, PChain, [], [], tx.imported, tx.outs);
      ErasedNumbered(a, 0, 0);
      ErasedNumbered(b, |a|, |a|);
      hide ErasedAll, Numbered, EvmOutOps;
      ErasedConcat(Numbered(a, 0, 0), Numbered(b, |a|, |a|));
    }
  }

  lemma DebitsReadBack(direction: Direction, parser: Parser, tx: Tx, ins: seq<Op>, outs: seq<Op>, md: Metadata,
                       avax: ID, hex: HexReader)
    requires BuiltFrom(tx, direction, ins, outs, md, avax, hex)
    ensures var images := DebitImages(direction, parser, avax, md.nonce, hex, ins);
            if direction.Export? then multiset(EvmInOps(tx.ins)) == multiset(images)
            else multiset(ImportedOps(parser.inputTxAccounts, tx.imported)) == multiset(images)
  {
    hide FromEvmInput, FromImported, SortedBy, InputsSorted, OutputsSorted;
    var images := DebitImages(direction, parser, avax, md.nonce, hex, ins);
    if direction.Export? {
      PermutedImages((x: EvmInput) => FromEvmInput(x), tx.ins, EvmInputsOf(ins, avax, md.nonce, hex), EvmInOps(tx.ins),
                     images);
    } else {
      PermutedImages((x: TransferableInput) => FromImported(parser.inputTxAccounts, x), tx.imported,
                     InputsOf(ins, avax), ImportedOps(parser.inputTxAccounts, tx.imported), images);
    }
  }

  lemma CreditsReadBack(direction: Direction, alias: ChainAlias, tx: Tx, ins: seq<Op>, outs: seq<Op>, md: Metadata,
                        avax: ID, hex: HexReader)
    requires BuiltFrom(tx, direction, ins, outs, md, avax, hex)
    ensures var images := CreditImages(direction, alias, avax, hex, outs);
            if direction.Export? then multiset(ExportedOps(alias, tx.exported)) == multiset(images)
            else multiset(EvmOutOps(tx.outs)) == multiset(images)
  {
    hide FromEvmOutput, FromExported, SortedBy, InputsSorted, OutputsSorted;
    var images := CreditImages(direction, alias, avax, hex, outs);
    if direction.Export? {
      PermutedImages((x: TransferableOutput) => FromExported(alias, x), tx.exported, OutputsOf(outs, avax),
                     ExportedOps(alias, tx.exported), images);
    } else {
      PermutedImages((x: EvmOutput) => FromEvmOutput(x), tx.outs, EvmOutputsOf(outs, avax, hex), EvmOutOps(tx.outs),
                     images);
    }
  }

  // ---------------------------------------------------------------- when nothing is lost

  function Magnitude(op: Op): nat {
    Abs(op.amount.value)
  }

  function AbsSum(ops: seq<Op>): nat {
    SumBy(ops, Magnitude)
  }

  /** An image has the operation's amount modulo 2^64. */
  predicate Wraps(image: Op, op: Op) {
    Abs(image.amount.value) == Abs(op.amount.value) % TWO_64
  }

  predicate AllWrap(images: seq<Op>, ops: seq<Op>) {
    |images| == |ops| && forall i :: 0 <= i < |ops| ==> Wraps(images[i], ops[i])
  }

  predicate Fits(op: Op) {
    Abs(op.amount.value) < TWO_64
  }

  predicate AllFit(ops: seq<Op>) {
    forall i :: 0 <= i < |ops| ==> Fits(ops[i])
  }

  lemma {:induction false} WrappingLoses(images: seq<Op>, ops: seq<Op>)
    requires AllWrap(images, ops)
    ensures AbsSum(images) <= AbsSum(ops)
    ensures AbsSum(images) == AbsSum(ops) ==> AllFit(ops)
  {
    if ops == [] { return; }
    var n := |ops| - 1;
    WrappingLoses(images[..n], ops[..n]);
    assert Wraps(images[n], ops[n]);
    assert AllFit(ops[..n]) && Fits(ops[n]) ==> AllFit(ops);
  }

  /** The matching contract: debits are negative, credits positive; debits of an import spend a coin whose account is
      the one the parser is given. */
  predicate DebitMatched(direction: Direction, parser: Parser, op: Op) {
    && op.direction == direction && op.amount.value < 0
    && (direction.Import? ==> HasCoin(op) && op.coin.value.CoinSpent? && op.coin.value.coin in parser.inputTxAccounts
                              && parser.inputTxAccounts[op.coin.value.coin] == op.account)
  }

  predicate CreditMatched(direction: Direction, op: Op) {
    op.direction == direction && op.amount.value > 0
  }

  predicate PlainFields(op: Op) {
    op.status.None? && op.amount.currency == AtomicAvax
  }

  predicate DebitShape(direction: Direction, op: Op) {
    PlainFields(op) && (direction.Export? ==> op.account.Hex? && op.coin.None?)
  }

  predicate CreditShape(direction: Direction, alias: ChainAlias, op: Op) {
    && PlainFields(op) && op.coin.None?
    && if direction.Import? then op.account.Hex? else op.account.Bech? && op.account.chain == alias
  }

  predicate DebitsKept(direction: Direction, ops: seq<Op>) {
    forall i :: 0 <= i < |ops| ==> DebitShape(direction, ops[i]) && Fits(ops[i])
  }

  predicate CreditsKept(direction: Direction, alias: ChainAlias, ops: seq<Op>) {
    forall i :: 0 <= i < |ops| ==> CreditShape(direction, alias, ops[i]) && Fits(ops[i])
  }

  predicate DebitsMatched(direction: Direction, parser: Parser, ops: seq<Op>) {
    forall i :: 0 <= i < |ops| ==> DebitMatched(direction, parser, ops[i])
  }

  predicate CreditsMatched(direction: Direction, ops: seq<Op>) {
    forall i :: 0 <= i < |ops| ==> CreditMatched(direction, ops[i])
  }

  lemma DebitImagesAre(direction: Direction, parser: Parser, avax: ID, nonce: uint64, hex: HexReader, ops: seq<Op>)
    requires DebitsMatched(direction, parser, ops)
    ensures var images := DebitImages(direction, parser, avax, nonce, hex, ops);
            && AllWrap(images, ops)
            && (forall i :: 0 <= i < |ops| ==> images[i].amount.value <= 0 && DebitShape(direction, images[i]))
            && (DebitsKept(direction, ops) ==> images == ErasedAll(ops))
  {
    var images := DebitImages(direction, parser, avax, nonce, hex, ops);
    forall i | 0 <= i < |ops|
      ensures images[i].amount.value <= 0 && Wraps(images[i], ops[i]) && DebitShape(direction, images[i])
      ensures images[i] == Erased(ops[i]) <==> DebitShape(direction, ops[i]) && Fits(ops[i])
    {
    }
    hide DebitImage, Erased, DebitShape, Fits, Wraps;
  }

  lemma CreditImagesAre(direction: Direction, alias: ChainAlias, avax: ID, hex: HexReader, ops: seq<Op>)
    requires CreditsMatched(direction, ops) && (direction.Export? ==> AllBech(ops))
    ensures var images := CreditImages(direction, alias, avax, hex, ops);
            && AllWrap(images, ops)
            && (forall i :: 0 <= i < |ops| ==> images[i].amount.value >= 0 && CreditShape(direction, alias, images[i]))
            && (CreditsKept(direction, alias, ops) ==> images == ErasedAll(ops))
  {
    var images := CreditImages(direction, alias, avax, hex, ops);
    forall i | 0 <= i < |ops|
      ensures images[i].amount.value >= 0 && Wraps(images[i], ops[i]) && CreditShape(direction, alias, images[i])
      ensures images[i] == Erased(ops[i]) <==> CreditShape(direction, alias, ops[i]) && Fits(ops[i])
    {
    }
    hide CreditImage, Erased, CreditShape, Fits, Wraps;
  }

  lemma ErasedShape(direction: Direction, alias: ChainAlias, op: Op)
    ensures Erased(op).amount == op.amount
    ensures DebitShape(direction, Erased(op)) <==> DebitShape(direction, op)
    ensures CreditShape(direction, alias, Erased(op)) <==> CreditShape(direction, alias, op)
  {
  }

  lemma ErasedSum(ops: seq<Op>)
    ensures AbsSum(ErasedAll(ops)) == AbsSum(ops)
  {
    if ops != [] {
      assert ErasedAll(ops)[..|ops| - 1] == ErasedAll(ops[..|ops| - 1]);
      ErasedSum(ops[..|ops| - 1]);
    }
  }

  /** Images of debits and credits that are the given operations rearranged: each operation kept its shape and its
      amount. */
  lemma SameMeansKept(direction: Direction, alias: ChainAlias, ins: seq<Op>, outs: seq<Op>, debits: seq<Op>,
                      credits: seq<Op>)
    requires AllWrap(debits, ins) && AllWrap(credits, outs)
    requires forall i :: 0 <= i < |ins| ==> ins[i].amount.value < 0
    requires forall i :: 0 <= i < |outs| ==> outs[i].amount.value > 0
    requires forall i :: 0 <= i < |debits| ==> debits[i].amount.value <= 0 && DebitShape(direction, debits[i])
    requires forall i :: 0 <= i < |credits| ==>
               credits[i].amount.value >= 0 && CreditShape(direction, alias, credits[i])
    requires multiset(debits) + multiset(credits) == multiset(ErasedAll(ins)) + multiset(ErasedAll(outs))
    ensures DebitsKept(direction, ins) && CreditsKept(direction, alias, outs)
  {
    AllFitIfSame(ins, outs, debits, credits);
    hide Erased, ErasedAll, DebitShape, CreditShape, Fits, AbsSum, AllWrap;
    forall i | 0 <= i < |ins| ensures DebitShape(direction, ins[i]) && Fits(ins[i]) {
      ErasedShape(direction, alias, ins[i]);
      ImageOf(ins, outs, debits, credits, ins[i]);
    }
    forall i | 0 <= i < |outs| ensures CreditShape(direction, alias, outs[i]) && Fits(outs[i]) {
      ErasedShape(direction, alias, outs[i]);
      ImageOf(ins, outs, debits, credits, outs[i]);
    }
  }

  /** The erased form of each operation given is among the images. */
  lemma ImageOf(ins: seq<Op>, outs: seq<Op>, debits: seq<Op>, credits: seq<Op>, op: Op)
    requires multiset(debits) + multiset(credits) == multiset(ErasedAll(ins)) + multiset(ErasedAll(outs))
    requires op in ins || op in outs
    ensures Erased(op) in debits || Erased(op) in credits
  {
    hide Erased;
    if op in ins {
      var i :| 0 <= i < |ins| && ins[i] == op;
      assert ErasedAll(ins)[i] == Erased(op);
    } else {
      var i :| 0 <= i < |outs| && outs[i] == op;
      assert ErasedAll(outs)[i] == Erased(op);
    }
    hide ErasedAll;
    assert Erased(op) in multiset(ErasedAll(ins)) + multiset(ErasedAll(outs));
    assert Erased(op) in multiset(debits) + multiset(credits);
  }

  lemma AllFitIfSame(ins: seq<Op>, outs: seq<Op>, debits: seq<Op>, credits: seq<Op>)
    requires AllWrap(debits, ins) && AllWrap(credits, outs)
    requires multiset(debits) + multiset(credits) == multiset(ErasedAll(ins)) + multiset(ErasedAll(outs))
    ensures AllFit(ins) && AllFit(outs)
  {
    hide SumBy, AllWrap, ErasedAll;
    assert multiset(debits + credits) == multiset(ErasedAll(ins) + ErasedAll(outs));
    SumByPermuted(debits + credits, ErasedAll(ins) + ErasedAll(outs), Magnitude);
    SumByConcat(debits, credits, Magnitude);
    SumByConcat(ErasedAll(ins), ErasedAll(outs), Magnitude);
    ErasedSum(ins);
    ErasedSum(outs);
    WrappingLoses(debits, ins);
    WrappingLoses(credits, outs);
  }

  /** Build, then parse: the same operations, rearranged, exactly if they have the shape the transaction can carry and
      every amount is below 2^64. */
  lemma AtomicRoundTrip(direction: Direction, alias: ChainAlias, parser: Parser, tx: Tx, ins: seq<Op>, outs: seq<Op>,
                        md: Metadata, avax: ID, hex: HexReader)
    requires DebitsMatched(direction, parser, ins) && CreditsMatched(direction, outs)
    requires BuiltFrom(tx, direction, ins, outs, md, avax, hex)
    requires direction.Export? ==> tx.destination in parser.chainIDs && parser.chainIDs[tx.destination] == alias
    ensures Parsed(parser, tx).Ok?
    ensures multiset(ErasedAll(Parsed(parser, tx).value)) == multiset(ErasedAll(ins + outs))
            <==> DebitsKept(direction, ins) && CreditsKept(direction, alias, outs)
  {
    if direction.Import? { BuiltHasAccounts(parser, tx, ins, md, avax); }
    assert Parsed(parser, tx).Ok?;
    ParsedErased(parser, tx);
    DebitsReadBack(direction, parser, tx, ins, outs, md, avax, hex);
    CreditsReadBack(direction, alias, tx, ins, outs, md, avax, hex);
    DebitImagesAre(direction, parser, avax, md.nonce, hex, ins);
    CreditImagesAre(direction, alias, avax, hex, outs);
    ErasedConcat(ins, outs);
    var debits := DebitImages(direction, parser, avax, md.nonce, hex, ins);
    var credits := CreditImages(direction, alias, avax, hex, outs);
    hide DebitShape, CreditShape, DebitImages, CreditImages, ErasedAll, Parsed, AllWrap;
    var same := multiset(debits) + multiset(credits) == multiset(ErasedAll(ins)) + multiset(ErasedAll(outs));
    assert multiset(ErasedAll(Parsed(parser, tx).value)) == multiset(debits) + multiset(credits);
    if same { SameMeansKept(direction, alias, ins, outs, debits, credits); }
  }

  lemma BuiltHasAccounts(parser: Parser, tx: Tx, ins: seq<Op>, md: Metadata, avax: ID)
    requires DebitsMatched(Import, parser, ins) && AllHaveCoins(ins) && tx.ImportTx?
    requires multiset(tx.imported) == multiset(InputsOf(ins, avax))
    ensures AccountsGiven(parser.inputTxAccounts, tx.imported)
  {
    forall i | 0 <= i < |tx.imported| ensures Coin(tx.imported[i].utxo) in parser.inputTxAccounts {
      assert tx.imported[i] in multiset(tx.imported);
      assert tx.imported[i] in multiset(InputsOf(ins, avax));
      var k :| 0 <= k < |ins| && InputsOf(ins, avax)[k] == tx.imported[i];
      assert DebitMatched(Import, parser, ins[k]);
    }
  }

  // ---------------------------------------------------------------- what operations do not show

  /** An EVM input spends avax at the nonce given. */
  predicate PlainEvmInput(x: EvmInput, avax: ID, nonce: uint64) {
    x.asset == avax && x.nonce == nonce
  }

  /** An exported output is one address's, unlocked, with a threshold of one. */
  predicate PlainExported(x: TransferableOutput, avax: ID) {
    x.asset == avax && x.out.Transfer? && x.out.out.locktime == 0 && x.out.out.threshold == 1 && |x.out.out.addrs| == 1
  }

  /** An imported input is signed once, by the first owner. */
  predicate PlainImported(x: TransferableInput, avax: ID) {
    x.asset == avax && x.input.TransferInput? && x.input.sigIndices == [0]
  }

  lemma ByAddress(tx: Tx)
    ensures tx.ExportTx? && SortedBy(tx.ins, InputAddress) ==>
              forall i, j :: 0 <= i < j < |tx.ins| ==> tx.ins[i].address <= tx.ins[j].address
    ensures tx.ImportTx? && SortedBy(tx.outs, OutputAddress) ==>
              forall i, j :: 0 <= i < j < |tx.outs| ==> tx.outs[i].address <= tx.outs[j].address
  {
    if tx.ExportTx? && SortedBy(tx.ins, InputAddress) {
      forall i, j | 0 <= i < j < |tx.ins| ensures tx.ins[i].address <= tx.ins[j].address {
        assert InputAddress(tx.ins[i]) <= InputAddress(tx.ins[j]);
      }
    }
    if tx.ImportTx? && SortedBy(tx.outs, OutputAddress) {
      forall i, j | 0 <= i < j < |tx.outs| ensures tx.outs[i].address <= tx.outs[j].address {
        assert OutputAddress(tx.outs[i]) <= OutputAddress(tx.outs[j]);
      }
    }
  }

  /** The fields of a built transaction that its operations do not show. */
  lemma BuiltFields(tx: Tx, direction: Direction, ins: seq<Op>, outs: seq<Op>, md: Metadata, avax: ID, hex: HexReader)
    requires BuiltFrom(tx, direction, ins, outs, md, avax, hex)
    ensures tx.ExportTx? <==> direction.Export?
    ensures tx.ExportTx? ==>
              && (forall i :: 0 <= i < |tx.ins| ==> PlainEvmInput(tx.ins[i], avax, md.nonce))
              && (forall i :: 0 <= i < |tx.exported| ==> PlainExported(tx.exported[i], avax))
              && (forall i, j :: 0 <= i < j < |tx.ins| ==> tx.ins[i].address <= tx.ins[j].address)
    ensures tx.ImportTx? ==>
              && (forall i :: 0 <= i < |tx.imported| ==> PlainImported(tx.imported[i], avax))
              && (forall i :: 0 <= i < |tx.outs| ==> tx.outs[i].asset == avax)
              && (forall i, j :: 0 <= i < j < |tx.outs| ==> tx.outs[i].address <= tx.outs[j].address)
  {
    hide Low64, InputsSorted, OutputsSorted;
    ByAddress(tx);
    hide SortedBy;
    if direction.Export? {
      HoldsRearranged((x: EvmInput) => PlainEvmInput(x, avax, md.nonce), tx.ins, EvmInputsOf(ins, avax, md.nonce, hex));
      HoldsRearranged((x: TransferableOutput) => PlainExported(x, avax), tx.exported, OutputsOf(outs, avax));
    } else {
      HoldsRearranged((x: TransferableInput) => PlainImported(x, avax), tx.imported, InputsOf(ins, avax));
      HoldsRearranged((x: EvmOutput) => x.asset == avax, tx.outs, EvmOutputsOf(outs, avax, hex));
    }
  }
}
