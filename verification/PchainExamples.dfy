/** Concrete P-chain constructions that do not turn out as asked for: each is an input on which a promise of the
    construction endpoints fails. */
module PchainExamples {
  import opened Prelude
  import opened PchainModel
  import opened PchainParser
  import opened PchainBuilder
  import opened PchainRoundTrip
  import opened Credentials
  import opened PchainSigning

  const FIRST := UtxoID(5, 0)
  const SECOND := UtxoID(7, 0)
  const ALICE := Bech32(PChain, 1)
  const BOB := Bech32(PChain, 2)

  function Debit(kind: Kind, m: MetaType, utxo: UtxoID, owner: Account, amount: nat): Operation {
    Operation(None, kind, None, Some(owner), Amount(0 - amount, AtomicAvax), Some(CoinSpent(Coin(utxo))),
              OpMetadata(m, Some([0]), 0, 1))
  }

  function Credit(kind: Kind, m: MetaType, owner: Account, amount: int): Operation {
    Operation(None, kind, None, Some(owner), Amount(amount, AtomicAvax), None, OpMetadata(m, Some([0]), 0, 1))
  }

  /** A parser that knows whose the two coins are. */
  function Parser(): Context {
    Context(Config(true, map[], 0, map[]), map[Coin(FIRST) := ALICE, Coin(SECOND) := BOB], None)
  }

  const FromXChain := Metadata(Some(1), None, None)

  lemma OfTypeOne(op: Operation, m: MetaType)
    ensures OfType([op], m) == if op.metadata.kind == m then [op] else []
  {
    assert [op][..0] == [] && OfType([], m) == [];
  }

  /** One debit that the parser can read back. */
  predicate Known(c: Context, debit: Operation) {
    && MatchedInput(ImportAvax, debit) && InputBuilds(debit) && debit.metadata.kind.MetaImport?
    && AccountAt(c.accounts, debit.coin.value.coin.utxo) == debit.account
  }

  predicate Creditable(credit: Operation) {
    MatchedOutput(ImportAvax, credit) && OutputBuilds(credit)
  }

  lemma KeptOne(debit: Operation, credit: Operation)
    requires debit.metadata.kind.MetaImport?
    ensures KeptInputs(ImportAvax, [debit]) == [debit]
    ensures KeptOutputs(ImportAvax, [credit]) == if credit.metadata.kind.MetaOutput? then [credit] else []
  {
    OfTypeOne(debit, MetaInput);
    OfTypeOne(debit, MetaImport);
    OfTypeOne(credit, MetaOutput);
  }

  lemma ImagesOne(c: Context, debit: Operation, credit: Operation)
    ensures Images(c, ImportAvax, XChain, [debit]) == [Image(c, ImportAvax, XChain, debit)]
    ensures Images(c, ImportAvax, XChain, [credit]) == [Image(c, ImportAvax, XChain, credit)]
    ensures Images(c, ImportAvax, XChain, []) == []
  {
    hide Image;
  }

  lemma OneReadable(c: Context, tx: Tx, debit: Operation, credit: Operation)
    requires Constructs(c) && Known(c, debit) && Creditable(credit)
    requires BuiltFrom(tx.unsigned, ImportAvax, [debit], [credit], FromXChain, c.cfg.avaxAssetID)
    ensures Readable(c, tx.unsigned) && tx.unsigned.kind == ImportAvax
  {
    assert AccountsKnown(c.accounts, [debit]) && InputsMatched(ImportAvax, [debit]);
    hide Readable, MatchedInput, MatchedOutput, InputBuilds, OutputBuilds, ArrangesInputs, ArrangesOutputs;
    BuiltIsReadable(c, ImportAvax, [debit], [credit], FromXChain, tx.unsigned);
  }

  /** An import of one debit and one credit reads back as the debit, and the credit if its type is MetaOutput. */
  lemma ImportOfOne(c: Context, tx: Tx, debit: Operation, credit: Operation)
    requires Constructs(c) && Known(c, debit) && Creditable(credit)
    requires BuiltFrom(tx.unsigned, ImportAvax, [debit], [credit], FromXChain, c.cfg.avaxAssetID)
    ensures Parsed(c, tx).Ok?
    ensures multiset(ErasedAll(Parsed(c, tx).value.operations))
            == multiset{Image(c, ImportAvax, XChain, debit)}
               + if credit.metadata.kind.MetaOutput? then multiset{Image(c, ImportAvax, XChain, credit)} else multiset{}
  {
    OneReadable(c, tx, debit, credit);
    KeptOne(debit, credit);
    ImagesOne(c, debit, credit);
    hide *;
    ParseReadsBack(c, tx);
    BuildThenRead(c, ImportAvax, XChain, [debit], [credit], FromXChain, tx.unsigned);
  }

  lemma DebitImage(m: MetaType, amount: nat)
    requires 0 < amount < TWO_64 && m.MetaImport?
    ensures var debit := Debit(ImportAvax, m, FIRST, ALICE, amount);
            Known(Parser(), debit) && Image(Parser(), ImportAvax, XChain, debit) == debit
  {
  }

  /** An import of 2^63 builds, and parsing shows its credit as another debit. */
  lemma LargeCreditComesBackNegative(tx: Tx)
    requires BuiltFrom(tx.unsigned, ImportAvax, [Debit(ImportAvax, MetaImport, FIRST, ALICE, TWO_63)],
                       [Credit(ImportAvax, MetaOutput, BOB, TWO_63)], FromXChain, 0)
    ensures Builds(ImportAvax, [Debit(ImportAvax, MetaImport, FIRST, ALICE, TWO_63)],
                   [Credit(ImportAvax, MetaOutput, BOB, TWO_63)], FromXChain, 0)
    ensures Parsed(Parser(), tx).Ok?
    ensures multiset(ErasedAll(Parsed(Parser(), tx).value.operations))
            == multiset{Debit(ImportAvax, MetaImport, FIRST, ALICE, TWO_63),
                        Credit(ImportAvax, MetaOutput, BOB, 0 - TWO_63)}
  {
    var debit := Debit(ImportAvax, MetaImport, FIRST, ALICE, TWO_63);
    var credit := Credit(ImportAvax, MetaOutput, BOB, TWO_63);
    DebitImage(MetaImport, TWO_63);
    assert Creditable(credit);
    assert Image(Parser(), ImportAvax, XChain, credit) == Credit(ImportAvax, MetaOutput, BOB, 0 - TWO_63);
    assert InputBuilds(debit);
    hide BuiltFrom, Parsed, ErasedAll, Known, StakeSum, Creditable, Image, Debit;
    ImportOfOne(Parser(), tx, debit, credit);
  }

  /** A credit meant for export is dropped from an import: the transaction builds, and spends the coin for nothing. */
  lemma ExportInImportIsDropped(tx: Tx)
    requires BuiltFrom(tx.unsigned, ImportAvax, [Debit(ImportAvax, MetaImport, FIRST, ALICE, 10)],
                       [Credit(ImportAvax, MetaExport, BOB, 9)], FromXChain, 0)
    ensures Builds(ImportAvax, [Debit(ImportAvax, MetaImport, FIRST, ALICE, 10)],
                   [Credit(ImportAvax, MetaExport, BOB, 9)], FromXChain, 0)
    ensures Parsed(Parser(), tx).Ok?
    ensures multiset(ErasedAll(Parsed(Parser(), tx).value.operations))
            == multiset{Debit(ImportAvax, MetaImport, FIRST, ALICE, 10)}
  {
    var debit, credit := Debit(ImportAvax, MetaImport, FIRST, ALICE, 10), Credit(ImportAvax, MetaExport, BOB, 9);
    DebitImage(MetaImport, 10);
    assert Creditable(credit);
    assert InputBuilds(debit);
    hide BuiltFrom, Parsed, ErasedAll, Known, StakeSum, Creditable, Image, Debit;
    ImportOfOne(Parser(), tx, debit, credit);
  }

  /** An import of one coin of the chain itself: its signature finds no input, so no signed transaction comes about. */
  lemma BaseInputCannotBeSigned(u: UnsignedTx, signature: Signature)
    requires BuiltFrom(u, ImportAvax, [Debit(ImportAvax, MetaInput, FIRST, ALICE, 10)], [], FromXChain, 0)
    ensures Builds(ImportAvax, [Debit(ImportAvax, MetaInput, FIRST, ALICE, 10)], [], FromXChain, 0)
    ensures GetTxInputs(u).Ok? && TransferInputs(GetTxInputs(u).value)
    ensures SigCount(GetTxInputs(u).value) != |[signature]|
  {
    var debit := Debit(ImportAvax, MetaInput, FIRST, ALICE, 10);
    assert OneSignature([debit]);
    hide BuiltFrom, SigCount, GetTxInputs, OneSignature;
    ImportCombinesIff([debit], [], FromXChain, 0, u, [signature]);
    assert [debit][0].metadata.kind.MetaInput?;
  }

  function OutOfOrder(kind: Kind): seq<Operation> {
    [Debit(kind, MetaInput, SECOND, BOB, 4), Debit(kind, MetaInput, FIRST, ALICE, 3)]
  }

  /** Two debits out of coin order: the first signature, Bob's, ends up on Alice's coin. */
  lemma SwappedSignatures(kind: Kind, txIns: seq<TransferableInput>)
    requires ArrangesInputs(txIns, 0, OutOfOrder(kind), MetaInput)
    ensures |txIns| == 2 && txIns[0].utxo == FIRST && txIns[1].utxo == SECOND
    ensures !RightSigners(Parser().accounts, txIns, Accounts(OutOfOrder(kind)))
  {
    ArrangedUtxos(0, OutOfOrder(kind), MetaInput, txIns);
    TwoSorted(UtxosOfInputs(txIns), Utxos(OutOfOrder(kind)));
  }

  lemma TwoSorted(sorted: seq<UtxoID>, given: seq<UtxoID>)
    requires UtxosSorted(sorted) && multiset(sorted) == multiset(given) && given == [SECOND, FIRST]
    ensures sorted == [FIRST, SECOND]
  {
    assert multiset([FIRST, SECOND]) == multiset(given);
    SortedUnique(sorted, [FIRST, SECOND]);
  }
}
