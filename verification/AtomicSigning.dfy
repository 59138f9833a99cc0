/** Who signs a built C-chain import or export, and which input each signature ends up on
    (service/backend/cchainatomictx/construction.go, service/backend/common). */
module AtomicSigning {
  import opened Prelude
  import opened PchainModel
  import PchainBuilder
  import PchainSigning
  import opened Credentials
  import opened AtomicTx

  // ---------------------------------------------------------------- credentials

  /** getTxCreds: imports get one credential per input, exports a single one. */
  method CombineTx(tx: AtomicTx.Tx, signatures: seq<Signature>) returns (r: Result<seq<Credential>, SignError>)
    ensures tx.ImportTx? ==>
              (r.Ok? <==>
               TransferInputs(tx.imported) && SigCount(tx.imported) == |signatures| && RightLength(signatures))
    ensures tx.ImportTx? && r.Ok? ==> Partitions(r.value, tx.imported, signatures)
    ensures tx.ExportTx? ==> (r.Ok? <==> |signatures| >= 1 && |signatures[0]| == 65)
    ensures tx.ExportTx? && r.Ok? ==> r.value == [[signatures[0]]]
  {
    hide TransferInputs, SigCount, RightLength, Partitions;
    if tx.ImportTx? {
      r := BuildCredentialList(tx.imported, signatures);
    } else {
      r := BuildSingletonCredentialList(signatures);
    }
  }

  lemma {:induction false} SingletonsCount(ins: seq<TransferableInput>)
    requires PchainSigning.Singletons(ins)
    ensures TransferInputs(ins) && SigCount(ins) == |ins|
  {
    if ins == [] { return; }
    assert PchainSigning.Singletons(ins[..|ins| - 1]);
    SingletonsCount(ins[..|ins| - 1]);
  }

  lemma ImportedSingletons(tx: AtomicTx.Tx, ins: seq<Op>, avax: ID)
    requires AllHaveCoins(ins) && tx.ImportTx? && multiset(tx.imported) == multiset(InputsOf(ins, avax))
    ensures PchainSigning.Singletons(tx.imported) && |tx.imported| == |ins|
  {
    hide Low64;
    assert |multiset(tx.imported)| == |multiset(InputsOf(ins, avax))|;
    forall i | 0 <= i < |tx.imported|
      ensures tx.imported[i].input.TransferInput? && |tx.imported[i].input.sigIndices| == 1
    {
      assert tx.imported[i] in multiset(tx.imported);
      assert tx.imported[i] in multiset(InputsOf(ins, avax));
    }
  }

  /** The transaction is an import of these debits. */
  ghost predicate Imports(tx: AtomicTx.Tx, ins: seq<Op>, avax: ID) {
    && AllHaveCoins(ins) && tx.ImportTx?
    && PchainBuilder.InputsSorted(tx.imported) && multiset(tx.imported) == multiset(InputsOf(ins, avax))
  }

  lemma BuiltImports(tx: AtomicTx.Tx, ins: seq<Op>, outs: seq<Op>, md: AtomicTx.Metadata, avax: ID, hex: HexReader)
    requires AtomicTx.BuiltFrom(tx, Import, ins, outs, md, avax, hex)
    ensures Imports(tx, ins, avax)
  {
    hide InputsOf, EvmOutputsOf, AllHaveCoins;
  }

  /** An import can be combined exactly with one well-formed signature per debit, and then credential i is
      signature i. */
  lemma ImportCombines(tx: AtomicTx.Tx, ins: seq<Op>, avax: ID, creds: seq<Credential>, signatures: seq<Signature>)
    requires Imports(tx, ins, avax)
    ensures TransferInputs(tx.imported)
    ensures SigCount(tx.imported) == |signatures| <==> |signatures| == |ins|
    ensures Partitions(creds, tx.imported, signatures) ==>
              |creds| == |signatures| == |ins| && forall i :: 0 <= i < |ins| ==> creds[i] == [signatures[i]]
  {
    hide TransferInputs, SigCount, PchainSigning.Singletons, PchainBuilder.InputsSorted, InputsOf, AllHaveCoins;
    ImportedSingletons(tx, ins, avax);
    SingletonsCount(tx.imported);
    if Partitions(creds, tx.imported, signatures) {
      PchainSigning.SingletonCredentials(creds, tx.imported, signatures);
    }
  }

  // ---------------------------------------------------------------- imports: payloads and inputs

  /** The account a coin is known under. */
  function AccountAt(accounts: AtomicTx.AccountMap, u: UtxoID): Option<Text> {
    if Coin(u) in accounts then Some(accounts[Coin(u)]) else None
  }

  /** Every debit spends another coin, which is known under the debit's account. */
  ghost predicate Known(accounts: AtomicTx.AccountMap, ins: seq<Op>)
    requires AllHaveCoins(ins)
  {
    && (forall i :: 0 <= i < |ins| ==> AccountAt(accounts, ins[i].coin.value.coin.utxo) == Some(ins[i].account))
    && forall i, j :: 0 <= i < j < |ins| ==> ins[i].coin.value.coin != ins[j].coin.value.coin
  }

  function Utxos(ins: seq<Op>): seq<UtxoID>
    requires AllHaveCoins(ins)
  {
    seq(|ins|, i requires 0 <= i < |ins| => ins[i].coin.value.coin.utxo)
  }

  /** Payload i, for the i-th signer the builder returned, is for the account that owns input i. */
  predicate RightSigners(accounts: AtomicTx.AccountMap, txIns: seq<TransferableInput>, signers: seq<Text>) {
    |txIns| == |signers| && forall i :: 0 <= i < |signers| ==> AccountAt(accounts, txIns[i].utxo) == Some(signers[i])
  }

  ghost predicate AccountsDistinct(ins: seq<Op>) {
    forall i, j :: 0 <= i < j < |ins| ==> ins[i].account != ins[j].account
  }

  lemma ImportedUtxos(tx: AtomicTx.Tx, ins: seq<Op>, avax: ID)
    requires Imports(tx, ins, avax)
    ensures multiset(PchainSigning.UtxosOfInputs(tx.imported)) == multiset(Utxos(ins))
    ensures PchainSigning.UtxosSorted(PchainSigning.UtxosOfInputs(tx.imported)) && |tx.imported| == |ins|
  {
    hide Low64;
    var f := (x: TransferableInput) => x.utxo;
    var built := InputsOf(ins, avax);
    MapPermuted(f, tx.imported, built);
    assert Map(f, tx.imported) == PchainSigning.UtxosOfInputs(tx.imported);
    assert Map(f, built) == Utxos(ins);
    assert |multiset(tx.imported)| == |multiset(built)|;
  }

  lemma InOrderIsRight(accounts: AtomicTx.AccountMap, ins: seq<Op>, txIns: seq<TransferableInput>)
    requires AllHaveCoins(ins) && Known(accounts, ins) && PchainSigning.UtxosSorted(Utxos(ins)) && |txIns| == |ins|
    requires multiset(PchainSigning.UtxosOfInputs(txIns)) == multiset(Utxos(ins))
    requires PchainSigning.UtxosSorted(PchainSigning.UtxosOfInputs(txIns))
    ensures RightSigners(accounts, txIns, Accounts(ins))
  {
    var sorted, given := PchainSigning.UtxosOfInputs(txIns), Utxos(ins);
    PchainSigning.SortedUnique(sorted, given);
    hide AccountAt, PchainSigning.UtxosSorted;
    forall i | 0 <= i < |ins| ensures AccountAt(accounts, txIns[i].utxo) == Some(ins[i].account) {
      assert sorted[i] == given[i];
    }
  }

  lemma RightIsInOrder(accounts: AtomicTx.AccountMap, ins: seq<Op>, txIns: seq<TransferableInput>)
    requires AllHaveCoins(ins) && Known(accounts, ins) && |txIns| == |ins|
    requires multiset(PchainSigning.UtxosOfInputs(txIns)) == multiset(Utxos(ins))
    requires PchainSigning.UtxosSorted(PchainSigning.UtxosOfInputs(txIns))
    requires AccountsDistinct(ins) && RightSigners(accounts, txIns, Accounts(ins))
    ensures PchainSigning.UtxosSorted(Utxos(ins))
  {
    var sorted, given := PchainSigning.UtxosOfInputs(txIns), Utxos(ins);
    hide AccountAt, PchainSigning.UtxosSorted;
    forall i | 0 <= i < |ins| ensures sorted[i] == given[i] {
      assert sorted[i] in multiset(sorted);
      assert sorted[i] in multiset(given);
      var k :| 0 <= k < |given| && given[k] == sorted[i];
      assert AccountAt(accounts, txIns[i].utxo) == Some(ins[k].account);
    }
    assert sorted == given;
  }

  /** Imported inputs are sorted by coin, payloads are not: signatures land on their owners' inputs if the debits were
      given in coin order, and with different owners only then. */
  lemma ImportSignaturesFollowOrder(accounts: AtomicTx.AccountMap, tx: AtomicTx.Tx, ins: seq<Op>, avax: ID)
    requires Imports(tx, ins, avax) && Known(accounts, ins)
    ensures PchainSigning.UtxosSorted(Utxos(ins)) ==> RightSigners(accounts, tx.imported, Accounts(ins))
    ensures AccountsDistinct(ins) ==>
              (RightSigners(accounts, tx.imported, Accounts(ins)) <==> PchainSigning.UtxosSorted(Utxos(ins)))
  {
    ImportedUtxos(tx, ins, avax);
    hide PchainSigning.UtxosSorted, Known, AccountsDistinct, RightSigners, PchainBuilder.InputsSorted, InputsOf, Utxos;
    if PchainSigning.UtxosSorted(Utxos(ins)) { InOrderIsRight(accounts, ins, tx.imported); }
    if AccountsDistinct(ins) && RightSigners(accounts, tx.imported, Accounts(ins)) {
      RightIsInOrder(accounts, ins, tx.imported);
    }
  }

  // ---------------------------------------------------------------- the signers parsing reports

  function CoinOf(op: Op): Option<CoinID> {
    if op.coin.Some? then Some(op.coin.value.coin) else None
  }

  /** The signers collected when the payloads are built, in operation order. */
  function SignersOf(ins: seq<Op>): seq<Signer<Text>> {
    seq(|ins|, i requires 0 <= i < |ins| => Signer(CoinOf(ins[i]), ins[i].account))
  }

  /** The signer that parsing a signed transaction reports for a debit. */
  function Reported(ins: seq<Op>, op: Op): Option<Text> {
    var m := SignerMapOf(SignersOf(ins));
    if CoinOf(op) in m then Some(m[CoinOf(op)]) else None
  }

  /** For an imported input the reported signer is the account of the debit that spends it. */
  lemma ImportReports(accounts: AtomicTx.AccountMap, tx: AtomicTx.Tx, ins: seq<Op>, avax: ID, i: nat)
    requires Imports(tx, ins, avax) && Known(accounts, ins) && i < |tx.imported|
    ensures AccountAt(accounts, tx.imported[i].utxo).Some?
    ensures Reported(ins, FromImported(accounts, tx.imported[i])) == AccountAt(accounts, tx.imported[i].utxo)
  {
    assert tx.imported[i] in multiset(tx.imported);
    assert tx.imported[i] in multiset(InputsOf(ins, avax));
    var k :| 0 <= k < |ins| && InputsOf(ins, avax)[k] == tx.imported[i];
    assert HasCoin(ins[k]);
    DistinctSigners(accounts, ins);
    SignerFound(SignersOf(ins), k);
    hide SignerMapOf, Low64;
  }

  lemma DistinctSigners(accounts: AtomicTx.AccountMap, ins: seq<Op>)
    requires AllHaveCoins(ins) && Known(accounts, ins)
    ensures DistinctCoins(SignersOf(ins))
  {
    forall i, j | 0 <= i < j < |ins| ensures CoinOf(ins[i]) != CoinOf(ins[j]) {
      assert HasCoin(ins[i]) && HasCoin(ins[j]);
    }
  }

  // ---------------------------------------------------------------- exports

  /** Export debits name no coins. */
  predicate NoCoins(ins: seq<Op>) {
    forall i :: 0 <= i < |ins| ==> ins[i].coin.None?
  }

  /** An export of n debits asks for n payloads and has n inputs, but only one credential: they match exactly for
      one debit. */
  lemma ExportSignedIff(tx: AtomicTx.Tx, ins: seq<Op>, outs: seq<Op>, md: AtomicTx.Metadata, avax: ID, hex: HexReader,
                        creds: seq<Credential>, signatures: seq<Signature>)
    requires AtomicTx.BuiltFrom(tx, Export, ins, outs, md, avax, hex) && |signatures| == |ins| > 0
    requires creds == [[signatures[0]]]
    ensures |tx.ins| == |ins|
    ensures |creds| == |tx.ins| <==> |ins| == 1
    ensures creds == seq(|signatures|, i requires 0 <= i < |signatures| => [signatures[i]]) <==> |ins| == 1
  {
    hide EvmInputOf, SortedBy, OutputsOf, AllBech;
    assert |multiset(tx.ins)| == |multiset(EvmInputsOf(ins, avax, md.nonce, hex))|;
    var all := seq(|signatures|, i requires 0 <= i < |signatures| => [signatures[i]]);
    assert |all| == |signatures|;
  }

  /** Parsing a signed export reports the account of the last debit as the signer of every input. */
  lemma ExportReports(ins: seq<Op>, x: EvmInput)
    requires NoCoins(ins) && ins != []
    ensures Reported(ins, FromEvmInput(x)) == Some(ins[|ins| - 1].account)
  {
    var signers := SignersOf(ins);
    assert signers[|signers| - 1] == Signer(None, ins[|ins| - 1].account);
  }

  /** Every input's reported signer is its own address. */
  ghost predicate ReportsOwners(tx: AtomicTx.Tx, ins: seq<Op>)
    requires tx.ExportTx?
  {
    forall i :: 0 <= i < |tx.ins| ==> Reported(ins, FromEvmInput(tx.ins[i])) == Some(Hex(tx.ins[i].address))
  }

  /** Which is right exactly if all debits are of one account. */
  lemma ExportReportsIff(tx: AtomicTx.Tx, ins: seq<Op>, outs: seq<Op>, md: AtomicTx.Metadata, avax: ID, hex: HexReader)
    requires AtomicTx.BuiltFrom(tx, Export, ins, outs, md, avax, hex) && NoCoins(ins) && ins != []
    requires forall i :: 0 <= i < |ins| ==> ins[i].account.Hex?
    ensures ReportsOwners(tx, ins) <==> forall i :: 0 <= i < |ins| ==> ins[i].account == ins[|ins| - 1].account
  {
    var built := EvmInputsOf(ins, avax, md.nonce, hex);
    hide SortedBy, OutputsOf, AllBech, SignersOf, SignerMapOf, Reported, Low64;
    forall x: EvmInput ensures Reported(ins, FromEvmInput(x)) == Some(ins[|ins| - 1].account) { ExportReports(ins, x); }
    hide FromEvmInput;
    forall i | 0 <= i < |ins| ensures built[i] in tx.ins && Hex(built[i].address) == ins[i].account {
      assert built[i] in multiset(built);
      assert built[i] in multiset(tx.ins);
    }
    forall i | 0 <= i < |tx.ins| ensures tx.ins[i] in built {
      assert tx.ins[i] in multiset(tx.ins);
      assert tx.ins[i] in multiset(built);
    }
  }

  // ---------------------------------------------------------------- inputs on which it goes wrong

  function Debit(direction: Direction, account: Text, coin: Option<CoinChange>, amount: nat): Op {
    Op(None, [], direction, None, account, Avax(0 - amount), coin)
  }

  /** Bob's coin 7 before Alice's coin 5. */
  function OutOfOrder(alice: Text, bob: Text): seq<Op> {
    [Debit(Import, bob, Some(CoinSpent(Coin(UtxoID(7, 0)))), 4),
     Debit(Import, alice, Some(CoinSpent(Coin(UtxoID(5, 0)))), 3)]
  }

  /** The first payload is for Bob, and its signature becomes the credential of Alice's input. */
  lemma SwappedImport(tx: AtomicTx.Tx, alice: Text, bob: Text, avax: ID)
    requires Imports(tx, OutOfOrder(alice, bob), avax) && alice != bob
    ensures |tx.imported| == 2 && tx.imported[0].utxo == UtxoID(5, 0)
    ensures !RightSigners(map[Coin(UtxoID(7, 0)) := bob, Coin(UtxoID(5, 0)) := alice], tx.imported,
                          Accounts(OutOfOrder(alice, bob)))
  {
    var ins := OutOfOrder(alice, bob);
    ImportedUtxos(tx, ins, avax);
    var sorted := PchainSigning.UtxosOfInputs(tx.imported);
    assert Utxos(ins) == [UtxoID(7, 0), UtxoID(5, 0)];
    assert multiset([UtxoID(5, 0), UtxoID(7, 0)]) == multiset([UtxoID(7, 0), UtxoID(5, 0)]);
    PchainSigning.SortedUnique(sorted, [UtxoID(5, 0), UtxoID(7, 0)]);
    assert sorted[0] == UtxoID(5, 0);
  }

  /** An export from addresses 1 and 2: two inputs, one credential, and address 2 is reported as the signer of both. */
  lemma TwoDebitExport(tx: AtomicTx.Tx, outs: seq<Op>, md: AtomicTx.Metadata, avax: ID, hex: HexReader,
                       creds: seq<Credential>, signatures: seq<Signature>)
    requires |signatures| == 2 && creds == [[signatures[0]]]
    requires AtomicTx.BuiltFrom(tx, Export, [Debit(Export, Hex(1), None, 5), Debit(Export, Hex(2), None, 6)], outs, md,
                                avax, hex)
    ensures |tx.ins| == 2 && |creds| == 1
    ensures !ReportsOwners(tx, [Debit(Export, Hex(1), None, 5), Debit(Export, Hex(2), None, 6)])
  {
    var ins := [Debit(Export, Hex(1), None, 5), Debit(Export, Hex(2), None, 6)];
    hide AtomicTx.BuiltFrom, ReportsOwners;
    ExportSignedIff(tx, ins, outs, md, avax, hex, creds, signatures);
    ExportReportsIff(tx, ins, outs, md, avax, hex);
    assert ins[0].account != ins[1].account;
  }
}
