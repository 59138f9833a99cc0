/** Who signs a built P-chain transaction, and which input each signature ends up on. */
module PchainSigning {
  import opened Prelude
  import opened PchainModel
  import opened PchainDependency
  import opened PchainParser
  import opened PchainBuilder
  import opened PchainRoundTrip
  import opened Credentials

  // ---------------------------------------------------------------- accounts for the parser

  /** The accounts the parser looks coins up in. */
  function ParserAccounts(m: SignerMap<Account>): AccountMap {
    map k | k in m && k.Some? :: k.value := m[k]
  }

  ghost predicate CoinsDistinct(ins: seq<Operation>) {
    forall i, j :: 0 <= i < j < |ins| ==> CoinOf(ins[i]) != CoinOf(ins[j])
  }

  /** The signers collected when the transaction is built are what parsing needs: each coin's own account. */
  lemma SignersGiveAccounts(kind: Kind, ops: seq<Operation>, ins: seq<Operation>)
    requires HaveAccounts(ops) && Debits(ops) == ins && InputsMatched(kind, ins) && AllInputsBuild(ins)
    requires CoinsDistinct(ins)
    ensures AccountsKnown(ParserAccounts(SignerMapOf(SignersOf(ops))), ins)
  {
    DebitsHaveAccounts(ops);
    var signers := SignersOf(ops);
    var accounts := ParserAccounts(SignerMapOf(signers));
    hide Debits, SignerMapOf;
    assert DistinctCoins(signers);
    forall i | 0 <= i < |ins| ensures AccountAt(accounts, ins[i].coin.value.coin.utxo) == ins[i].account {
      assert MatchedInput(kind, ins[i]) && InputBuilds(ins[i]);
      SignerFound(signers, i);
    }
    forall i, j | 0 <= i < j < |ins| ensures ins[i].coin.value.coin != ins[j].coin.value.coin {
      assert InputBuilds(ins[i]) && InputBuilds(ins[j]);
    }
  }

  // ---------------------------------------------------------------- the inputs that get credentials

  /** getTxInputs, which CombineTx builds credentials for. */
  function GetTxInputs(u: UnsignedTx): Result<seq<TransferableInput>, ()> {
    match u.kind
    case ImportAvax => Ok(u.imported)
    case AdvanceTime => Ok([])
    case RewardValidator => Ok([])
    case RemoveSubnetValidator => Err(())
    case UnknownKind => Err(())
    case _ => Ok(u.ins)
  }

  /** Imports sign their imported inputs, two kinds have nothing to sign, two are refused, and all others sign their
      base inputs. */
  lemma SignedInputs(u: UnsignedTx)
    ensures GetTxInputs(u).Err? <==> u.kind in {RemoveSubnetValidator, UnknownKind}
    ensures u.kind in {AdvanceTime, RewardValidator} ==> GetTxInputs(u).value == []
    ensures u.kind.ImportAvax? ==> GetTxInputs(u).value == u.imported
    ensures u.kind !in {RemoveSubnetValidator, UnknownKind, AdvanceTime, RewardValidator, ImportAvax} ==>
              GetTxInputs(u).value == u.ins
  {
  }

  predicate OneSignature(ops: seq<Operation>) {
    forall i :: 0 <= i < |ops| ==> ops[i].metadata.sigIndices.None? || |ops[i].metadata.sigIndices.value| == 1
  }

  /** Inputs that each want one signature. */
  predicate Singletons(ins: seq<TransferableInput>) {
    forall i :: 0 <= i < |ins| ==> ins[i].input.TransferInput? && |ins[i].input.sigIndices| == 1
  }

  lemma {:induction false} SingletonCredentials(creds: seq<Credential>, ins: seq<TransferableInput>,
                                                signatures: seq<Signature>)
    requires Singletons(ins) && TransferInputs(ins) && Partitions(creds, ins, signatures)
    ensures |signatures| == |ins| && forall i :: 0 <= i < |ins| ==> creds[i] == [signatures[i]]
  {
    if ins == [] { return; }
    var n := |ins| - 1;
    assert Flatten(creds) == Flatten(creds[..n]) + creds[n];
    var last := creds[n];
    assert |last| == 1;
    SingletonCredentials(creds[..n], ins[..n], Flatten(creds[..n]));
  }

  lemma BuiltSingletons(avax: ID, ops: seq<Operation>, m: MetaType, ins: seq<TransferableInput>)
    requires AllInputsBuild(ops) && OneSignature(ops) && ArrangesInputs(ins, avax, ops, m)
    ensures Singletons(ins) && |ins| == |OfType(ops, m)|
  {
    OfTypeBuilds(ops, m);
    var chosen := OfType(ops, m);
    var built := InputsOf(avax, chosen);
    hide OfType, Low64;
    assert |multiset(ins)| == |multiset(built)|;
    forall i | 0 <= i < |ins| ensures ins[i].input.TransferInput? && |ins[i].input.sigIndices| == 1 {
      assert ins[i] in multiset(ins);
      assert ins[i] in multiset(built);
      var k :| 0 <= k < |built| && built[k] == ins[i];
      var j :| 0 <= j < |ops| && ops[j] == chosen[k];
    }
  }

  /** How many signatures the input built from this debit asks for. */
  function Wants(op: Operation): nat {
    if op.metadata.sigIndices.None? then 1 else |op.metadata.sigIndices.value|
  }

  /** How many the inputs that get credentials ask for, all together. */
  function Wanted(ops: seq<Operation>, m: MetaType): nat {
    SumBy(ops, (op: Operation) => if op.metadata.kind == m then Wants(op) else 0)
  }

  function InputWants(x: TransferableInput): nat {
    if x.input.TransferInput? then |x.input.sigIndices| else 0
  }

  lemma {:induction false} CountIsSum(ins: seq<TransferableInput>)
    requires TransferInputs(ins)
    ensures SigCount(ins) == SumBy(ins, InputWants)
  {
    if ins != [] { CountIsSum(ins[..|ins| - 1]); }
  }

  lemma InputOfWants(avax: ID, op: Operation)
    requires InputBuilds(op)
    ensures InputOf(avax, op).input.TransferInput? && InputWants(InputOf(avax, op)) == Wants(op)
  {
  }

  lemma WantedStep(ops: seq<Operation>, n: nat, m: MetaType)
    requires |ops| == n + 1
    ensures Wanted(ops, m) == Wanted(ops[..n], m) + if ops[n].metadata.kind == m then Wants(ops[n]) else 0
  {
  }

  lemma {:induction false} WantedIsSum(avax: ID, ops: seq<Operation>, m: MetaType)
    requires AllInputsBuild(ops)
    ensures AllInputsBuild(OfType(ops, m)) && Wanted(ops, m) == SumBy(InputsOf(avax, OfType(ops, m)), InputWants)
  {
    OfTypeBuilds(ops, m);
    if ops == [] { return; }
    hide OfType, InputsOf, InputOf, InputWants, Wants, InputBuilds, Wanted, SumBy;
    var n := |ops| - 1;
    WantedIsSum(avax, ops[..n], m);
    assert ops[..n + 1] == ops;
    WantedStep(ops, n, m);
    InputAppended(avax, ops, n, m);
    InputOfWants(avax, ops[n]);
    SumBySnoc(InputsOf(avax, OfType(ops[..n], m)), InputOf(avax, ops[n]), InputWants);
    if ops[n].metadata.kind != m {
      var before := InputsOf(avax, OfType(ops[..n], m));
      assert before + [] == before;
    }
  }

  lemma ArrangedWanted(avax: ID, ops: seq<Operation>, m: MetaType, txIns: seq<TransferableInput>)
    requires AllInputsBuild(ops) && ArrangesInputs(txIns, avax, ops, m)
    ensures TransferInputs(txIns) && SigCount(txIns) == Wanted(ops, m)
  {
    OfTypeBuilds(ops, m);
    var built := InputsOf(avax, OfType(ops, m));
    BuiltTransfers(avax, OfType(ops, m));
    hide OfType, SigCount, Wanted, InputOf, InputBuilds;
    forall i | 0 <= i < |txIns| ensures txIns[i].input.TransferInput? {
      assert txIns[i] in multiset(txIns);
      assert txIns[i] in multiset(built);
    }
    CountIsSum(txIns);
    SumByPermuted(txIns, built, InputWants);
    WantedIsSum(avax, ops, m);
  }

  lemma BuiltTransfers(avax: ID, ops: seq<Operation>)
    requires AllInputsBuild(ops)
    ensures TransferInputs(InputsOf(avax, ops))
  {
    forall i | 0 <= i < |ops| ensures InputsOf(avax, ops)[i].input.TransferInput? { InputOfWants(avax, ops[i]); }
  }

  /** With one payload per debit, a built transaction of any kind can be combined exactly if the inputs that get
      credentials ask for as many signatures as there are debits. */
  lemma CombinesIff(kind: Kind, ins: seq<Operation>, outs: seq<Operation>, md: Metadata, avax: ID, u: UnsignedTx,
                    signatures: seq<Signature>)
    requires Buildable(kind) && AllInputsBuild(ins) && AllOutputsBuild(outs)
    requires BuiltFrom(u, kind, ins, outs, md, avax) && |signatures| == |ins|
    ensures GetTxInputs(u).Ok? && TransferInputs(GetTxInputs(u).value)
    ensures SigCount(GetTxInputs(u).value) == |signatures| <==> Wanted(ins, SignedType(kind)) == |ins|
  {
    hide ArrangesInputs, ArrangesOutputs, AllInputsBuild, AllOutputsBuild, TransferInputs, Wanted;
    ArrangedWanted(avax, ins, SignedType(kind), if kind.ImportAvax? then u.imported else u.ins);
  }

  lemma {:induction false} OneEach(ops: seq<Operation>, m: MetaType)
    requires OneSignature(ops)
    ensures Wanted(ops, m) == |OfType(ops, m)|
  {
    if ops == [] { return; }
    var n := |ops| - 1;
    assert OneSignature(ops[..n]) && Wants(ops[n]) == 1;
    OneEach(ops[..n], m);
    hide OneSignature, Wants;
  }

  /** An import with one signature per debit can be combined exactly if it spends imported coins only: the signatures
      of base inputs have no place. */
  lemma ImportCombinesIff(ins: seq<Operation>, outs: seq<Operation>, md: Metadata, avax: ID, u: UnsignedTx,
                          signatures: seq<Signature>)
    requires AllInputsBuild(ins) && AllOutputsBuild(outs) && OneSignature(ins)
    requires BuiltFrom(u, ImportAvax, ins, outs, md, avax) && |signatures| == |ins|
    ensures GetTxInputs(u).Ok? && TransferInputs(GetTxInputs(u).value)
    ensures SigCount(GetTxInputs(u).value) == |signatures| <==>
            forall i :: 0 <= i < |ins| ==> ins[i].metadata.kind.MetaImport?
  {
    hide BuiltFrom, AllInputsBuild, AllOutputsBuild, OfType, Wanted, SigCount, TransferInputs, GetTxInputs;
    CombinesIff(ImportAvax, ins, outs, md, avax, u, signatures);
    OneEach(ins, MetaImport);
    OfTypeSplit(ins, MetaImport);
  }

  // ---------------------------------------------------------------- order of payloads and order of inputs

  predicate CoinLe(a: Operation, b: Operation)
    requires InputBuilds(a) && InputBuilds(b)
  {
    UtxoLe(a.coin.value.coin.utxo, b.coin.value.coin.utxo)
  }

  /** The debits come in the order in which the transaction sorts its inputs. */
  ghost predicate InUtxoOrder(ins: seq<Operation>)
    requires AllInputsBuild(ins)
  {
    forall i, j :: 0 <= i < j < |ins| ==> CoinLe(ins[i], ins[j])
  }

  predicate AllOf(ops: seq<Operation>, m: MetaType) {
    forall i :: 0 <= i < |ops| ==> ops[i].metadata.kind == m
  }

  /** Payload i, for the i-th signer the builder returned, is for the account that owns input i. */
  predicate RightSigners(accounts: AccountMap, txIns: seq<TransferableInput>, signers: Signers) {
    |txIns| == |signers| && forall i :: 0 <= i < |signers| ==> AccountAt(accounts, txIns[i].utxo) == signers[i]
  }

  ghost predicate AccountsDistinct(ins: seq<Operation>) {
    forall i, j :: 0 <= i < j < |ins| ==> ins[i].account != ins[j].account
  }

  /** The coins of the operations, by position. */
  function Utxos(ins: seq<Operation>): seq<UtxoID>
    requires AllInputsBuild(ins)
  {
    seq(|ins|, i requires 0 <= i < |ins| => ins[i].coin.value.coin.utxo)
  }

  function UtxosOfInputs(ins: seq<TransferableInput>): seq<UtxoID> {
    seq(|ins|, i requires 0 <= i < |ins| => ins[i].utxo)
  }

  ghost predicate UtxosSorted(s: seq<UtxoID>) {
    forall i, j :: 0 <= i < j < |s| ==> UtxoLe(s[i], s[j])
  }

  /** Two sorted arrangements of the same ids are the same. */
  lemma {:induction false} SortedUnique(a: seq<UtxoID>, b: seq<UtxoID>)
    requires UtxosSorted(a) && UtxosSorted(b) && multiset(a) == multiset(b)
    ensures a == b
  {
    if a == [] {
      assert |multiset(b)| == 0;
      return;
    }
    var n := |a| - 1;
    assert |multiset(a)| == |multiset(b)|;
    assert a[n] in multiset(a) && b[n] in multiset(b);
    assert a[n] in b && b[n] in a;
    assert a[n] == b[n];
    WithoutOne(a, n);
    WithoutOne(b, n);
    assert a[..n] + a[n + 1..] == a[..n] && b[..n] + b[n + 1..] == b[..n];
    SortedUnique(a[..n], b[..n]);
    assert a == a[..n] + [a[n]] && b == b[..n] + [b[n]];
  }

  lemma ArrangedUtxos(avax: ID, ops: seq<Operation>, m: MetaType, txIns: seq<TransferableInput>)
    requires AllInputsBuild(ops) && AllOf(ops, m) && ArrangesInputs(txIns, avax, ops, m)
    ensures multiset(UtxosOfInputs(txIns)) == multiset(Utxos(ops)) && UtxosSorted(UtxosOfInputs(txIns))
    ensures |txIns| == |ops|
  {
    OfTypeSplit(ops, m);
    OfTypeBuilds(ops, m);
    hide OfType, ParseOpMetadata, Low64;
    var f := (x: TransferableInput) => x.utxo;
    var built := InputsOf(avax, ops);
    MapPermuted(f, txIns, built);
    assert Map(f, txIns) == UtxosOfInputs(txIns);
    assert Map(f, built) == Utxos(ops);
    assert |multiset(txIns)| == |multiset(built)|;
  }

  lemma InOrderIsRight(c: Context, ins: seq<Operation>, txIns: seq<TransferableInput>)
    requires AllInputsBuild(ins) && AccountsKnown(c.accounts, ins) && InUtxoOrder(ins) && |txIns| == |ins|
    requires multiset(UtxosOfInputs(txIns)) == multiset(Utxos(ins)) && UtxosSorted(UtxosOfInputs(txIns))
    ensures RightSigners(c.accounts, txIns, Accounts(ins))
  {
    var sorted, given := UtxosOfInputs(txIns), Utxos(ins);
    forall i, j | 0 <= i < j < |given| ensures UtxoLe(given[i], given[j]) { assert CoinLe(ins[i], ins[j]); }
    SortedUnique(sorted, given);
    hide InputBuilds, UtxoLe, AccountAt;
    forall i | 0 <= i < |ins| ensures AccountAt(c.accounts, txIns[i].utxo) == ins[i].account {
      assert sorted[i] == given[i];
    }
  }

  lemma RightIsInOrder(c: Context, ins: seq<Operation>, txIns: seq<TransferableInput>)
    requires AllInputsBuild(ins) && AccountsKnown(c.accounts, ins) && |txIns| == |ins|
    requires multiset(UtxosOfInputs(txIns)) == multiset(Utxos(ins)) && UtxosSorted(UtxosOfInputs(txIns))
    requires AccountsDistinct(ins) && RightSigners(c.accounts, txIns, Accounts(ins))
    ensures InUtxoOrder(ins)
  {
    var sorted, given := UtxosOfInputs(txIns), Utxos(ins);
    hide InputBuilds, UtxoLe, AccountAt;
    forall i | 0 <= i < |ins| ensures sorted[i] == given[i] {
      assert sorted[i] in multiset(sorted);
      assert sorted[i] in multiset(given);
      var k :| 0 <= k < |given| && given[k] == sorted[i];
      assert ins[k].account == AccountAt(c.accounts, txIns[i].utxo) == ins[i].account;
    }
    forall i, j | 0 <= i < j < |ins| ensures CoinLe(ins[i], ins[j]) {
      assert UtxoLe(sorted[i], sorted[j]);
    }
  }

  /** Inputs are sorted by coin, payloads are not: signatures land on their owners' inputs if the debits were given in
      coin order, and with different owners only then. */
  lemma SignaturesFollowOrder(c: Context, ins: seq<Operation>, m: MetaType, txIns: seq<TransferableInput>)
    requires AllInputsBuild(ins) && AccountsKnown(c.accounts, ins) && AllOf(ins, m)
    requires ArrangesInputs(txIns, c.cfg.avaxAssetID, ins, m)
    ensures InUtxoOrder(ins) ==> RightSigners(c.accounts, txIns, Accounts(ins))
    ensures AccountsDistinct(ins) ==> (RightSigners(c.accounts, txIns, Accounts(ins)) <==> InUtxoOrder(ins))
  {
    hide *;
    ArrangedUtxos(c.cfg.avaxAssetID, ins, m, txIns);
    if InUtxoOrder(ins) { InOrderIsRight(c, ins, txIns); }
    if AccountsDistinct(ins) && RightSigners(c.accounts, txIns, Accounts(ins)) { RightIsInOrder(c, ins, txIns); }
  }

  // ---------------------------------------------------------------- the signers parsing reports

  lemma {:induction false} DebitsPrefix(ops: seq<Operation>, k: nat)
    requires k <= |ops| && forall i :: 0 <= i < |ops| ==> (ops[i].amount.value < 0 <==> i < k)
    ensures Debits(ops) == ops[..k]
    decreases |ops|
  {
    if ops == [] { return; }
    var n := |ops| - 1;
    if k <= n {
      DebitsPrefix(ops[..n], k);
      assert ops[..n][..k] == ops[..k];
    } else {
      DebitsPrefix(ops[..n], n);
      assert ops[..n][..n] == ops[..n] && ops == ops[..n] + [ops[n]];
    }
  }

  /** The inputs of a transaction come from debits below 2^64, and its outputs from credits below 2^63. */
  predicate InputsPositive(txIns: seq<TransferableInput>) {
    forall i :: 0 <= i < |txIns| ==> InputAmount(txIns[i].input) > 0
  }

  predicate CreditImages(ops: seq<Operation>) {
    forall i :: 0 <= i < |ops| ==> ops[i].amount.value >= 0
  }

  /** The operations read back: those of the inputs, then credits. */
  predicate Reads(ops: seq<Operation>, accounts: AccountMap, kind: Kind, m: MetaType, txIns: seq<TransferableInput>) {
    && |txIns| <= |ops|
    && ErasedAll(ops)[..|txIns|] == InputImages(accounts, kind, m, txIns)
    && CreditImages(ErasedAll(ops)[|txIns|..])
  }

  lemma ReadsDebits(ops: seq<Operation>, accounts: AccountMap, kind: Kind, m: MetaType, txIns: seq<TransferableInput>)
    requires Reads(ops, accounts, kind, m, txIns) && InputsPositive(txIns)
    ensures |Debits(ops)| == |txIns|
    ensures forall i :: 0 <= i < |txIns| ==> CoinOf(Debits(ops)[i]) == Some(Coin(txIns[i].utxo))
  {
    var k := |txIns|;
    hide ParseOpMetadata, Debits;
    forall i | 0 <= i < |ops| ensures ops[i].amount.value < 0 <==> i < k {
      assert ops[i].amount == ErasedAll(ops)[i].amount;
      if i < k {
        assert ErasedAll(ops)[..k][i] == FromInput(accounts, kind, m, txIns[i]);
        assert InputAmount(txIns[i].input) > 0;
      } else {
        assert ErasedAll(ops)[k..][i - k].amount.value >= 0;
      }
    }
    DebitsPrefix(ops, k);
    forall i | 0 <= i < k ensures CoinOf(ops[i]) == Some(Coin(txIns[i].utxo)) {
      assert ErasedAll(ops)[..k][i] == FromInput(accounts, kind, m, txIns[i]);
    }
  }

  /** Parsing the signed transaction reports, for input i, the account that owns input i. */
  lemma ReportedSigners(m: SignerMap<Account>, kind: Kind, meta: MetaType, ops: seq<Operation>,
                        txIns: seq<TransferableInput>)
    requires Reads(ops, ParserAccounts(m), kind, meta, txIns) && InputsPositive(txIns)
    requires forall i :: 0 <= i < |txIns| ==> Coin(txIns[i].utxo) in ParserAccounts(m)
    ensures AllSigned(m, ops) && |AccountsIn(m, ops)| == |txIns|
    ensures forall i :: 0 <= i < |txIns| ==> AccountAt(ParserAccounts(m), txIns[i].utxo) == Some(AccountsIn(m, ops)[i])
  {
    ReadsDebits(ops, ParserAccounts(m), kind, meta, txIns);
    hide Reads, Debits;
    forall i | 0 <= i < |txIns| ensures CoinOf(Debits(ops)[i]) in m {
      assert Coin(txIns[i].utxo) in ParserAccounts(m);
    }
    SignedDebits(m, ops);
  }

  lemma {:induction false} SignedDebits(m: SignerMap<Account>, ops: seq<Operation>)
    requires forall i :: 0 <= i < |Debits(ops)| ==> CoinOf(Debits(ops)[i]) in m
    ensures AllSigned(m, ops)
  {
    if ops == [] { return; }
    var n := |ops| - 1;
    forall i | 0 <= i < |Debits(ops[..n])| ensures CoinOf(Debits(ops[..n])[i]) in m {
      assert Debits(ops)[i] == Debits(ops[..n])[i];
    }
    SignedDebits(m, ops[..n]);
    if ops[n].amount.value < 0 { assert Debits(ops)[|Debits(ops)| - 1] == ops[n]; }
  }

  lemma BuiltPositive(avax: ID, kind: Kind, ops: seq<Operation>, m: MetaType, txIns: seq<TransferableInput>)
    requires AllInputsBuild(ops) && InputsMatched(kind, ops) && InputsKept(kind, ops)
    requires ArrangesInputs(txIns, avax, ops, m)
    ensures InputsPositive(txIns)
  {
    OfTypeBuilds(ops, m);
    var chosen := OfType(ops, m);
    var built := InputsOf(avax, chosen);
    hide OfType, Low64, ParseOpMetadata, InputBuilds;
    forall i | 0 <= i < |txIns| ensures InputAmount(txIns[i].input) > 0 {
      assert txIns[i] in multiset(txIns);
      assert txIns[i] in multiset(built);
      var k :| 0 <= k < |built| && built[k] == txIns[i];
      var j :| 0 <= j < |ops| && ops[j] == chosen[k];
      assert InputFieldsKept(ops[j]) && MatchedInput(kind, ops[j]);
      SmallLow64(ops[j].amount.value);
    }
  }

  lemma BuiltCredits(avax: ID, kind: Kind, chain: ChainAlias, ops: seq<Operation>, m: MetaType, to: ChainAlias,
                     outs: seq<TransferableOutput>)
    requires AllOutputsBuild(ops) && OutputsMatched(kind, ops) && OutputsKept(kind, chain, ops)
    requires ArrangesOutputs(outs, avax, ops, m)
    ensures CreditImages(OutputImages(kind, m, to, outs))
  {
    OfTypeBuilds(ops, m);
    ChosenCredits(avax, kind, chain, ops, m, to);
    var built := OutputsOf(avax, OfType(ops, m));
    hide OfType, OutputOf, FromOutput, OutputBuilds, OutputsMatched, OutputsKept, OutputsSorted;
    HoldsRearranged((out: TransferableOutput) => FromOutput(kind, m, to, out).amount.value >= 0, outs, built);
  }

  lemma ChosenCredits(avax: ID, kind: Kind, chain: ChainAlias, ops: seq<Operation>, m: MetaType, to: ChainAlias)
    requires AllOutputsBuild(ops) && OutputsMatched(kind, ops) && OutputsKept(kind, chain, ops)
    ensures AllOutputsBuild(OfType(ops, m))
    ensures forall k :: 0 <= k < |OfType(ops, m)| ==>
              FromOutput(kind, m, to, OutputOf(avax, OfType(ops, m)[k])).amount.value >= 0
  {
    OfTypeBuilds(ops, m);
    var chosen := OfType(ops, m);
    hide OfType, OutputOf, FromOutput, MatchedOutput, Small, AcceptsOutput, OutputShapeKept;
    forall k | 0 <= k < |chosen| ensures FromOutput(kind, m, to, OutputOf(avax, chosen[k])).amount.value >= 0 {
      var j :| 0 <= j < |ops| && ops[j] == chosen[k];
      BuiltCredit(avax, kind, ops[j], m, to);
    }
  }

  lemma BuiltCredit(avax: ID, kind: Kind, op: Operation, m: MetaType, to: ChainAlias)
    requires OutputBuilds(op) && MatchedOutput(kind, op) && Small(op)
    ensures FromOutput(kind, m, to, OutputOf(avax, op)).amount.value >= 0
  {
    SmallLow64(op.amount.value);
    hide Low64;
  }

  lemma CreditsConcat(a: seq<Operation>, b: seq<Operation>)
    requires CreditImages(a) && CreditImages(b)
    ensures CreditImages(a + b)
  {
  }

  /** The metadata type of inputs that get credentials. */
  function SignedType(kind: Kind): MetaType {
    if kind.ImportAvax? then MetaImport else MetaInput
  }

  lemma BuiltReads(c: Context, kind: Kind, chain: ChainAlias, ins: seq<Operation>, outs: seq<Operation>, md: Metadata,
                   tx: Tx)
    requires Constructs(c) && Buildable(kind) && AllOf(ins, SignedType(kind))
    requires InputsMatched(kind, ins) && AllInputsBuild(ins) && AccountsKnown(c.accounts, ins)
    requires OutputsMatched(kind, outs) && AllOutputsBuild(outs) && OutputsKept(kind, chain, outs)
    requires BuiltFrom(tx.unsigned, kind, ins, outs, md, c.cfg.avaxAssetID)
    requires kind.ExportAvax? ==> tx.unsigned.destination in c.cfg.chainIDs
    ensures Parsed(c, tx).Ok? && GetTxInputs(tx.unsigned).Ok?
    ensures Reads(Parsed(c, tx).value.operations, c.accounts, kind, SignedType(kind), GetTxInputs(tx.unsigned).value)
  {
    hide Parsed, Readable, InputImages, OutputImages, ArrangesInputs, ArrangesOutputs, AllInputsBuild, AllOutputsBuild,
         InputsMatched, AccountsKnown, OutputsMatched, OutputsKept, ErasedAll, CreditImages, AllOf;
    var u, avax := tx.unsigned, c.cfg.avaxAssetID;
    BuiltIsReadable(c, kind, ins, outs, md, u);
    ParseReadsBack(c, tx);
    var ops := Parsed(c, tx).value.operations;
    ErasedLength(ops);
    BuiltCredits(avax, kind, chain, outs, MetaOutput, PChain, u.outs);
    var outImages := OutputImages(kind, MetaOutput, PChain, u.outs);
    ImagesLength(c.accounts, kind, MetaInput, u.ins);
    if kind.ImportAvax? {
      ImagesLength(c.accounts, kind, MetaImport, u.imported);
      NoBaseInputs(avax, ins, u.ins);
      assert ReadBack(c, u)[..|u.imported|] == InputImages(c.accounts, kind, MetaImport, u.imported);
      assert ReadBack(c, u)[|u.imported|..] == outImages;
    } else {
      var m := if kind.ExportAvax? then MetaExport else MetaStake;
      var to := if kind.ExportAvax? then c.cfg.chainIDs[u.destination] else PChain;
      var more := OutputImages(kind, m, to, if kind.ExportAvax? then u.exported else u.stake);
      BuiltCredits(avax, kind, chain, outs, m, to, if kind.ExportAvax? then u.exported else u.stake);
      CreditsConcat(outImages, more);
      assert ReadBack(c, u)[..|u.ins|] == InputImages(c.accounts, kind, MetaInput, u.ins);
      assert ReadBack(c, u)[|u.ins|..] == outImages + more;
    }
  }

  lemma ErasedLength(ops: seq<Operation>)
    ensures |ErasedAll(ops)| == |ops|
  {
  }

  lemma ImagesLength(accounts: AccountMap, kind: Kind, m: MetaType, ins: seq<TransferableInput>)
    ensures |InputImages(accounts, kind, m, ins)| == |ins|
  {
  }

  lemma NoBaseInputs(avax: ID, ops: seq<Operation>, txIns: seq<TransferableInput>)
    requires AllInputsBuild(ops) && AllOf(ops, MetaImport) && ArrangesInputs(txIns, avax, ops, MetaInput)
    ensures txIns == []
  {
    OfTypesCount(ops, MetaInput, MetaImport);
    OfTypeSplit(ops, MetaImport);
    OfTypeBuilds(ops, MetaInput);
    hide OfType;
    assert OfType(ops, MetaInput) == [];
    assert |multiset(txIns)| == |multiset(InputsOf(avax, OfType(ops, MetaInput)))|;
  }

  /** One kind of inputs, one signature each: the signatures are handed out one per input in order, and parsing reports
      the owner of input i as signer i, who is the one asked for payload i if the debits were given in coin order. */
  lemma CredentialsBelong(c: Context, m: SignerMap<Account>, kind: Kind, chain: ChainAlias, ins: seq<Operation>,
                          outs: seq<Operation>, md: Metadata, tx: Tx, creds: seq<Credential>,
                          signatures: seq<Signature>)
    requires Constructs(c) && c.accounts == ParserAccounts(m) && Buildable(kind) && AllOf(ins, SignedType(kind))
    requires InputsMatched(kind, ins) && AllInputsBuild(ins) && AccountsKnown(c.accounts, ins) && OneSignature(ins)
    requires OutputsMatched(kind, outs) && AllOutputsBuild(outs)
    requires InputsKept(kind, ins) && OutputsKept(kind, chain, outs)
    requires BuiltFrom(tx.unsigned, kind, ins, outs, md, c.cfg.avaxAssetID)
    requires kind.ExportAvax? ==> tx.unsigned.destination in c.cfg.chainIDs
    requires var t := GetTxInputs(tx.unsigned);
             t.Ok? && TransferInputs(t.value) && Partitions(creds, t.value, signatures)
    ensures Parsed(c, tx).Ok? && AllSigned(m, Parsed(c, tx).value.operations)
    ensures var txIns, reported := GetTxInputs(tx.unsigned).value, AccountsIn(m, Parsed(c, tx).value.operations);
            && |creds| == |signatures| == |txIns| == |reported| == |ins|
            && forall i :: 0 <= i < |ins| ==>
                 creds[i] == [signatures[i]] && AccountAt(c.accounts, txIns[i].utxo) == Some(reported[i])
                 && i < |Accounts(ins)| && (InUtxoOrder(ins) ==> Accounts(ins)[i] == Some(reported[i]))
  {
    SignedArranged(kind, ins, outs, md, c.cfg.avaxAssetID, tx.unsigned);
    hide *;
    BuiltReads(c, kind, chain, ins, outs, md, tx);
    ReadCredentials(c, m, kind, ins, Parsed(c, tx).value.operations, GetTxInputs(tx.unsigned).value, creds, signatures);
  }

  lemma SignedArranged(kind: Kind, ins: seq<Operation>, outs: seq<Operation>, md: Metadata, avax: ID, u: UnsignedTx)
    requires AllInputsBuild(ins) && AllOutputsBuild(outs) && BuiltFrom(u, kind, ins, outs, md, avax) && Buildable(kind)
    ensures GetTxInputs(u).Ok? && ArrangesInputs(GetTxInputs(u).value, avax, ins, SignedType(kind))
  {
    hide ArrangesInputs, ArrangesOutputs, AllInputsBuild, AllOutputsBuild;
  }

  lemma ReadCredentials(c: Context, m: SignerMap<Account>, kind: Kind, ins: seq<Operation>, ops: seq<Operation>,
                        txIns: seq<TransferableInput>, creds: seq<Credential>, signatures: seq<Signature>)
    requires c.accounts == ParserAccounts(m) && AllOf(ins, SignedType(kind)) && InputsMatched(kind, ins)
    requires AllInputsBuild(ins) && AccountsKnown(c.accounts, ins) && OneSignature(ins) && InputsKept(kind, ins)
    requires ArrangesInputs(txIns, c.cfg.avaxAssetID, ins, SignedType(kind))
    requires Reads(ops, c.accounts, kind, SignedType(kind), txIns)
    requires TransferInputs(txIns) && Partitions(creds, txIns, signatures)
    ensures AllSigned(m, ops) && |creds| == |signatures| == |txIns| == |AccountsIn(m, ops)| == |ins|
    ensures forall i :: 0 <= i < |ins| ==>
              creds[i] == [signatures[i]] && AccountAt(c.accounts, txIns[i].utxo) == Some(AccountsIn(m, ops)[i])
              && i < |Accounts(ins)| && (InUtxoOrder(ins) ==> Accounts(ins)[i] == Some(AccountsIn(m, ops)[i]))
  {
    hide *;
    var meta, avax := SignedType(kind), c.cfg.avaxAssetID;
    BuiltPositive(avax, kind, ins, meta, txIns);
    ArrangedUtxos(avax, ins, meta, txIns);
    BuiltSingletons(avax, ins, meta, txIns);
    ArrangedAreRead(c, kind, txIns, ins, meta);
    CoinsKnown(c, txIns);
    ReportedSigners(m, kind, meta, ops, txIns);
    SingletonCredentials(creds, txIns, signatures);
    OnePerInput(creds, txIns, signatures);
    AskedInOrder(ins);
    if InUtxoOrder(ins) {
      InOrderIsRight(c, ins, txIns);
      RightMeans(c.accounts, txIns, ins);
    }
  }

  lemma CoinsKnown(c: Context, txIns: seq<TransferableInput>)
    requires AllRead(c, txIns)
    ensures forall i :: 0 <= i < |txIns| ==> Coin(txIns[i].utxo) in c.accounts
  {
  }

  lemma OnePerInput(creds: seq<Credential>, ins: seq<TransferableInput>, signatures: seq<Signature>)
    requires TransferInputs(ins) && Partitions(creds, ins, signatures)
    ensures |creds| == |ins|
  {
  }

  lemma AskedInOrder(ins: seq<Operation>)
    ensures |Accounts(ins)| == |ins|
  {
  }

  lemma RightMeans(accounts: AccountMap, txIns: seq<TransferableInput>, ins: seq<Operation>)
    requires RightSigners(accounts, txIns, Accounts(ins))
    ensures |txIns| == |Accounts(ins)| == |ins|
    ensures forall i :: 0 <= i < |ins| ==> AccountAt(accounts, txIns[i].utxo) == Accounts(ins)[i]
  {
  }
}
