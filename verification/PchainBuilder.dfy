/** mapper/pchain/tx_builder.go: from matched operations to an unsigned P-chain transaction. */
module PchainBuilder {
  import opened Prelude
  import opened PchainModel

  // ---------------------------------------------------------------- single operations

  /** Defaults: a threshold of one, and a single signer with index zero. */
  function ParseOpMetadata(m: OpMetadata): OpMetadata {
    m.(threshold := if m.threshold == 0 then 1 else m.threshold,
       sigIndices := if m.sigIndices.None? then Some([0]) else m.sigIndices)
  }

  function InputOf(avax: ID, op: Operation): TransferableInput
    requires op.coin.Some? && op.coin.value.coin.Coin?
  {
    TransferableInput(op.coin.value.coin.utxo, avax,
                      TransferInput(Low64(op.amount.value), ParseOpMetadata(op.metadata).sigIndices.value))
  }

  function OutputOf(avax: ID, op: Operation): TransferableOutput
    requires op.account.Some? && op.account.value.Bech32?
  {
    var m := ParseOpMetadata(op.metadata);
    TransferableOutput(avax, Transfer(TransferOutput(Low64(op.amount.value), m.locktime, m.threshold,
                                                     [op.account.value.owner])))
  }

  predicate InputBuilds(op: Operation) {
    op.coin.Some? && op.coin.value.coin.Coin? && (op.metadata.kind.MetaInput? || op.metadata.kind.MetaImport?)
  }

  predicate OutputBuilds(op: Operation) {
    && op.account.Some? && op.account.value.Bech32?
    && (op.metadata.kind.MetaOutput? || op.metadata.kind.MetaStake? || op.metadata.kind.MetaExport?)
  }

  predicate AllInputsBuild(ops: seq<Operation>) {
    forall i :: 0 <= i < |ops| ==> InputBuilds(ops[i])
  }

  predicate AllOutputsBuild(ops: seq<Operation>) {
    forall i :: 0 <= i < |ops| ==> OutputBuilds(ops[i])
  }

  // ---------------------------------------------------------------- the lists, before sorting

  /** The operations with the given metadata type, in order. */
  function OfType(ops: seq<Operation>, m: MetaType): seq<Operation> {
    if ops == [] then []
    else OfType(ops[..|ops| - 1], m) + if ops[|ops| - 1].metadata.kind == m then [ops[|ops| - 1]] else []
  }

  function InputsOf(avax: ID, ops: seq<Operation>): seq<TransferableInput>
    requires AllInputsBuild(ops)
  {
    seq(|ops|, i requires 0 <= i < |ops| => InputOf(avax, ops[i]))
  }

  function OutputsOf(avax: ID, ops: seq<Operation>): seq<TransferableOutput>
    requires AllOutputsBuild(ops)
  {
    seq(|ops|, i requires 0 <= i < |ops| => OutputOf(avax, ops[i]))
  }

  lemma {:induction false} OfTypeBuilds(ops: seq<Operation>, m: MetaType)
    ensures AllInputsBuild(ops) ==> AllInputsBuild(OfType(ops, m))
    ensures AllOutputsBuild(ops) ==> AllOutputsBuild(OfType(ops, m))
    ensures forall i :: 0 <= i < |OfType(ops, m)| ==> OfType(ops, m)[i] in ops && OfType(ops, m)[i].metadata.kind == m
  {
    hide InputBuilds, OutputBuilds;
    if ops != [] { OfTypeBuilds(ops[..|ops| - 1], m); }
  }

  // ---------------------------------------------------------------- the orders the library sorts by

  predicate UtxoLe(a: UtxoID, b: UtxoID) {
    a.txID < b.txID || (a.txID == b.txID && a.outputIndex <= b.outputIndex)
  }

  ghost predicate InputsSorted(s: seq<TransferableInput>) {
    forall i, j :: 0 <= i < j < |s| ==> UtxoLe(s[i].utxo, s[j].utxo)
  }

  /** Outputs of one asset order by their bytes: amount, locktime, threshold, address. */
  predicate TransferLe(a: TransferOutput, b: TransferOutput)
    requires |a.addrs| == |b.addrs| == 1
  {
    a.amount < b.amount || (a.amount == b.amount &&
    (a.locktime < b.locktime || (a.locktime == b.locktime &&
    (a.threshold < b.threshold || (a.threshold == b.threshold && a.addrs[0] <= b.addrs[0])))))
  }

  /** The encoded fields read as one big-endian number: amount, locktime, threshold, address. */
  function Key(t: TransferOutput): nat
    requires |t.addrs| == 1
  {
    ((t.amount * 0x1_0000_0000_0000_0000 + t.locktime) * 0x1_0000_0000 + t.threshold)
    * 0x1_0000_0000_0000_0000_0000_0000_0000_0000_0000_0000 + t.addrs[0]
  }

  lemma LastDigit(a: nat, b: nat, x: nat, y: nat, m: nat)
    requires x < m && y < m
    ensures a * m + x <= b * m + y <==> a < b || (a == b && x <= y)
    ensures a * m + x == b * m + y <==> a == b && x == y
  {
    if a < b { NextMultiple(a, b, m); }
    if b < a { NextMultiple(b, a, m); }
  }

  lemma {:induction false} NextMultiple(a: nat, b: nat, m: nat)
    requires a < b
    ensures a * m + m <= b * m
    decreases b
  {
    if a + 1 < b { NextMultiple(a, b - 1, m); }
    assert b * m == (b - 1) * m + m;
  }

  /** Transfers are sorted as their encodings are. */
  lemma SortedByEncoding(a: TransferOutput, b: TransferOutput)
    requires |a.addrs| == |b.addrs| == 1
    requires a.addrs[0] < 0x1_0000_0000_0000_0000_0000_0000_0000_0000_0000_0000
    requires b.addrs[0] < 0x1_0000_0000_0000_0000_0000_0000_0000_0000_0000_0000
    ensures TransferLe(a, b) <==> Key(a) <= Key(b)
  {
    var a1, b1 := a.amount * 0x1_0000_0000_0000_0000 + a.locktime, b.amount * 0x1_0000_0000_0000_0000 + b.locktime;
    var a2, b2 := a1 * 0x1_0000_0000 + a.threshold, b1 * 0x1_0000_0000 + b.threshold;
    LastDigit(a.amount, b.amount, a.locktime, b.locktime, 0x1_0000_0000_0000_0000);
    LastDigit(a1, b1, a.threshold, b.threshold, 0x1_0000_0000);
    LastDigit(a2, b2, a.addrs[0], b.addrs[0], 0x1_0000_0000_0000_0000_0000_0000_0000_0000_0000_0000);
  }

  predicate Plain(out: TransferableOutput) {
    out.out.Transfer? && |out.out.out.addrs| == 1
  }

  predicate OutputLe(a: TransferableOutput, b: TransferableOutput) {
    Plain(a) && Plain(b) && TransferLe(a.out.out, b.out.out)
  }

  predicate AllPlain(s: seq<TransferableOutput>) {
    forall i :: 0 <= i < |s| ==> Plain(s[i])
  }

  ghost predicate OutputsSorted(s: seq<TransferableOutput>) {
    forall i, j :: 0 <= i < j < |s| ==> OutputLe(s[i], s[j])
  }

  /** Stands for utils.Sort: some sorted permutation. */
  method SortInputs(s: seq<TransferableInput>) returns (r: seq<TransferableInput>)
    ensures InputsSorted(r) && multiset(r) == multiset(s)
  {
    r := [];
    for i := 0 to |s|
      invariant InputsSorted(r) && multiset(r) == multiset(s[..i])
    {
      var k := 0;
      while k < |r| && UtxoLe(r[k].utxo, s[i].utxo)
        invariant 0 <= k <= |r| && forall j :: 0 <= j < k ==> UtxoLe(r[j].utxo, s[i].utxo)
      {
        k := k + 1;
      }
      Split(r, k, s[i], s, i);
      r := r[..k] + [s[i]] + r[k..];
    }
    assert s[..|s|] == s;
  }

  lemma OutputLeOrder(a: TransferableOutput, b: TransferableOutput, c: TransferableOutput)
    requires Plain(a) && Plain(b)
    ensures OutputLe(a, b) || OutputLe(b, a)
    ensures OutputLe(a, b) && OutputLe(b, c) ==> OutputLe(a, c)
  {
  }

  lemma InsertSorted(r: seq<TransferableOutput>, k: nat, x: TransferableOutput)
    requires k <= |r| && OutputsSorted(r) && AllPlain(r) && Plain(x)
    requires (forall j :: 0 <= j < k ==> OutputLe(r[j], x)) && (k < |r| ==> OutputLe(x, r[k]))
    ensures OutputsSorted(r[..k] + [x] + r[k..]) && AllPlain(r[..k] + [x] + r[k..])
  {
    hide OutputLe, Plain;
    forall j | k < j < |r| ensures OutputLe(x, r[j]) {
      OutputLeOrder(x, r[k], r[j]);
    }
  }

  /** Stands for avax.SortTransferableOutputs. */
  method SortOutputs(s: seq<TransferableOutput>) returns (r: seq<TransferableOutput>)
    requires AllPlain(s)
    ensures OutputsSorted(r) && multiset(r) == multiset(s)
  {
    r := [];
    hide OutputLe, Plain;
    for i := 0 to |s|
      invariant OutputsSorted(r) && AllPlain(r) && multiset(r) == multiset(s[..i])
    {
      var k := 0;
      while k < |r| && OutputLe(r[k], s[i])
        invariant 0 <= k <= |r| && forall j :: 0 <= j < k ==> OutputLe(r[j], s[i])
      {
        k := k + 1;
      }
      if k < |r| { OutputLeOrder(r[k], s[i], s[i]); }
      InsertSorted(r, k, s[i]);
      Split(r, k, s[i], s, i);
      r := r[..k] + [s[i]] + r[k..];
    }
    assert s[..|s|] == s;
  }

  // ---------------------------------------------------------------- building

  type Signers = seq<Option<Account>>

  datatype Inputs = Inputs(ins: seq<TransferableInput>, imported: seq<TransferableInput>, signers: Signers)

  datatype Outputs = Outputs(outs: seq<TransferableOutput>, stake: seq<TransferableOutput>,
                             exported: seq<TransferableOutput>)

  function Accounts(ops: seq<Operation>): Signers {
    seq(|ops|, i requires 0 <= i < |ops| => ops[i].account)
  }

  /** in is a sorted arrangement of the inputs built from the operations of one type. */
  ghost predicate ArrangesInputs(ins: seq<TransferableInput>, avax: ID, ops: seq<Operation>, m: MetaType)
    requires AllInputsBuild(ops)
  {
    OfTypeBuilds(ops, m);
    InputsSorted(ins) && multiset(ins) == multiset(InputsOf(avax, OfType(ops, m)))
  }

  ghost predicate ArrangesOutputs(outs: seq<TransferableOutput>, avax: ID, ops: seq<Operation>, m: MetaType)
    requires AllOutputsBuild(ops)
  {
    OfTypeBuilds(ops, m);
    OutputsSorted(outs) && multiset(outs) == multiset(OutputsOf(avax, OfType(ops, m)))
  }

  lemma InputAppended(avax: ID, ops: seq<Operation>, i: nat, m: MetaType)
    requires i < |ops| && AllInputsBuild(ops[..i]) && InputBuilds(ops[i])
    ensures AllInputsBuild(ops[..i + 1]) && AllInputsBuild(OfType(ops[..i], m))
    ensures AllInputsBuild(OfType(ops[..i + 1], m))
    ensures InputsOf(avax, OfType(ops[..i + 1], m))
            == InputsOf(avax, OfType(ops[..i], m)) + if ops[i].metadata.kind == m then [InputOf(avax, ops[i])] else []
  {
    hide InputBuilds, InputOf;
    OfTypeBuilds(ops[..i], m);
    assert ops[..i + 1][..i] == ops[..i];
    assert AllInputsBuild(ops[..i + 1]);
    OfTypeBuilds(ops[..i + 1], m);
  }

  lemma OutputAppended(avax: ID, ops: seq<Operation>, i: nat, m: MetaType)
    requires i < |ops| && AllOutputsBuild(ops[..i]) && OutputBuilds(ops[i])
    ensures AllOutputsBuild(ops[..i + 1]) && AllOutputsBuild(OfType(ops[..i], m))
    ensures AllOutputsBuild(OfType(ops[..i + 1], m))
    ensures OutputsOf(avax, OfType(ops[..i + 1], m))
            == OutputsOf(avax, OfType(ops[..i], m)) + if ops[i].metadata.kind == m then [OutputOf(avax, ops[i])] else []
  {
    hide OutputBuilds, OutputOf;
    OfTypeBuilds(ops[..i], m);
    assert ops[..i + 1][..i] == ops[..i];
    assert AllOutputsBuild(ops[..i + 1]);
    OfTypeBuilds(ops[..i + 1], m);
  }

  /** What the loop has collected from a prefix of the operations. */
  ghost predicate CollectedInputs(avax: ID, ops: seq<Operation>, ins: seq<TransferableInput>,
                                  imported: seq<TransferableInput>) {
    && AllInputsBuild(ops) && AllInputsBuild(OfType(ops, MetaInput)) && AllInputsBuild(OfType(ops, MetaImport))
    && ins == InputsOf(avax, OfType(ops, MetaInput)) && imported == InputsOf(avax, OfType(ops, MetaImport))
  }

  lemma CollectedInputsStep(avax: ID, ops: seq<Operation>, i: nat, ins: seq<TransferableInput>,
                            imported: seq<TransferableInput>)
    requires i < |ops| && CollectedInputs(avax, ops[..i], ins, imported) && InputBuilds(ops[i])
    ensures var input := [InputOf(avax, ops[i])];
            CollectedInputs(avax, ops[..i + 1], if ops[i].metadata.kind.MetaInput? then ins + input else ins,
                            if ops[i].metadata.kind.MetaImport? then imported + input else imported)
  {
    hide AllInputsBuild, InputsOf, OfType, InputOf;
    InputAppended(avax, ops, i, MetaInput);
    InputAppended(avax, ops, i, MetaImport);
  }

  lemma CollectedInputsDone(avax: ID, ops: seq<Operation>, ins: seq<TransferableInput>,
                            imported: seq<TransferableInput>, r: Inputs)
    requires CollectedInputs(avax, ops, ins, imported)
    requires InputsSorted(r.ins) && InputsSorted(r.imported)
    requires multiset(r.ins) == multiset(ins) && multiset(r.imported) == multiset(imported)
    ensures AllInputsBuild(ops) && ArrangesInputs(r.ins, avax, ops, MetaInput)
    ensures ArrangesInputs(r.imported, avax, ops, MetaImport)
  {
    hide InputsSorted, OfType, InputBuilds;
  }

  lemma NoInputsYet(avax: ID, ops: seq<Operation>)
    ensures CollectedInputs(avax, ops[..0], [], [])
  {
  }

  lemma UnbuiltInput(ops: seq<Operation>, i: nat)
    requires i < |ops| && !InputBuilds(ops[i])
    ensures !AllInputsBuild(ops)
  {
  }

  method BuildInputs(ops: seq<Operation>, avax: ID) returns (r: Result<Inputs, ()>)
    requires forall i :: 0 <= i < |ops| ==> ops[i].coin.Some?
    ensures r.Err? <==> !AllInputsBuild(ops)
    ensures r.Ok? ==> r.value.signers == Accounts(ops)
                      && ArrangesInputs(r.value.ins, avax, ops, MetaInput)
                      && ArrangesInputs(r.value.imported, avax, ops, MetaImport)
  {
    var ins: seq<TransferableInput>, imported: seq<TransferableInput>, signers: Signers := [], [], [];
    NoInputsYet(avax, ops);
    hide CollectedInputs, ArrangesInputs, AllInputsBuild, InputsSorted, ParseOpMetadata;
    for i := 0 to |ops|
      invariant CollectedInputs(avax, ops[..i], ins, imported)
      invariant signers == Accounts(ops)[..i]
    {
      var op := ops[i];
      var coin := op.coin.value.coin;
      if coin.Malformed? {
        UnbuiltInput(ops, i);
        return Err(());
      }
      var opMetadata := ParseOpMetadata(op.metadata);
      KindKept(op.metadata);
      var input := TransferableInput(coin.utxo, avax,
                                     TransferInput(Low64(op.amount.value), opMetadata.sigIndices.value));
      if opMetadata.kind.MetaImport? {
        CollectedInputsStep(avax, ops, i, ins, imported);
        imported := imported + [input];
      } else if opMetadata.kind.MetaInput? {
        CollectedInputsStep(avax, ops, i, ins, imported);
        ins := ins + [input];
      } else {
        UnbuiltInput(ops, i);
        return Err(());
      }
      signers := signers + [op.account];
    }
    assert ops[..|ops|] == ops;
    var sortedIns := SortInputs(ins);
    var sortedImported := SortInputs(imported);
    r := Ok(Inputs(sortedIns, sortedImported, signers));
    CollectedInputsDone(avax, ops, ins, imported, r.value);
  }

  lemma KindKept(m: OpMetadata)
    ensures ParseOpMetadata(m).kind == m.kind && ParseOpMetadata(m).sigIndices.Some?
  {
  }

  ghost predicate CollectedOutputs(avax: ID, ops: seq<Operation>, o: Outputs) {
    && AllOutputsBuild(ops)
    && AllOutputsBuild(OfType(ops, MetaOutput)) && AllOutputsBuild(OfType(ops, MetaStake))
    && AllOutputsBuild(OfType(ops, MetaExport))
    && o.outs == OutputsOf(avax, OfType(ops, MetaOutput))
    && o.stake == OutputsOf(avax, OfType(ops, MetaStake))
    && o.exported == OutputsOf(avax, OfType(ops, MetaExport))
  }

  /** Puts an output on the list its metadata type names. */
  function Placed(o: Outputs, out: TransferableOutput, m: MetaType): Outputs {
    match m
    case MetaOutput => o.(outs := o.outs + [out])
    case MetaStake => o.(stake := o.stake + [out])
    case MetaExport => o.(exported := o.exported + [out])
    case _ => o
  }

  lemma CollectedOutputsStep(avax: ID, ops: seq<Operation>, i: nat, o: Outputs)
    requires i < |ops| && CollectedOutputs(avax, ops[..i], o) && OutputBuilds(ops[i])
    ensures CollectedOutputs(avax, ops[..i + 1], Placed(o, OutputOf(avax, ops[i]), ops[i].metadata.kind))
  {
    hide AllOutputsBuild, OutputsOf, OfType, OutputOf;
    OutputAppended(avax, ops, i, MetaOutput);
    OutputAppended(avax, ops, i, MetaStake);
    OutputAppended(avax, ops, i, MetaExport);
  }

  lemma NoOutputsYet(avax: ID, ops: seq<Operation>)
    ensures CollectedOutputs(avax, ops[..0], Outputs([], [], []))
  {
  }

  lemma UnbuiltOutput(ops: seq<Operation>, i: nat)
    requires i < |ops| && !OutputBuilds(ops[i])
    ensures !AllOutputsBuild(ops)
  {
  }

  lemma {:induction false} BuiltArePlain(avax: ID, ops: seq<Operation>)
    requires AllOutputsBuild(ops)
    ensures AllPlain(OutputsOf(avax, ops))
  {
    hide Low64;
  }

  lemma CollectedOutputsPlain(avax: ID, ops: seq<Operation>, o: Outputs)
    requires CollectedOutputs(avax, ops, o)
    ensures AllPlain(o.outs) && AllPlain(o.stake) && AllPlain(o.exported)
  {
    hide AllPlain, OutputsOf, AllOutputsBuild;
    BuiltArePlain(avax, OfType(ops, MetaOutput));
    BuiltArePlain(avax, OfType(ops, MetaStake));
    BuiltArePlain(avax, OfType(ops, MetaExport));
  }

  ghost predicate Arranges(o: Outputs, avax: ID, ops: seq<Operation>)
    requires AllOutputsBuild(ops)
  {
    && ArrangesOutputs(o.outs, avax, ops, MetaOutput)
    && ArrangesOutputs(o.stake, avax, ops, MetaStake)
    && ArrangesOutputs(o.exported, avax, ops, MetaExport)
  }

  lemma CollectedOutputsDone(avax: ID, ops: seq<Operation>, o: Outputs, r: Outputs)
    requires CollectedOutputs(avax, ops, o)
    requires OutputsSorted(r.outs) && OutputsSorted(r.stake) && OutputsSorted(r.exported)
    requires multiset(r.outs) == multiset(o.outs) && multiset(r.stake) == multiset(o.stake)
             && multiset(r.exported) == multiset(o.exported)
    ensures AllOutputsBuild(ops) && Arranges(r, avax, ops)
  {
    hide OutputsSorted, OfType, OutputBuilds;
  }

  method BuildOutputs(ops: seq<Operation>, avax: ID) returns (r: Result<Outputs, ()>)
    requires forall i :: 0 <= i < |ops| ==> ops[i].account.Some?
    ensures r.Err? <==> !AllOutputsBuild(ops)
    ensures r.Ok? ==> Arranges(r.value, avax, ops)
  {
    var o := Outputs([], [], []);
    NoOutputsYet(avax, ops);
    hide CollectedOutputs, Arranges, AllOutputsBuild, OutputsSorted, ParseOpMetadata, AllPlain;
    for i := 0 to |ops|
      invariant CollectedOutputs(avax, ops[..i], o)
    {
      var op := ops[i];
      var opMetadata := ParseOpMetadata(op.metadata);
      KindKept(op.metadata);
      var account := op.account.value;
      var kind := opMetadata.kind;
      if account.BadAddress? || !(kind.MetaOutput? || kind.MetaStake? || kind.MetaExport?) {
        UnbuiltOutput(ops, i);
        return Err(());
      }
      var out := TransferableOutput(avax, Transfer(TransferOutput(Low64(op.amount.value), opMetadata.locktime,
                                                                  opMetadata.threshold, [account.owner])));
      CollectedOutputsStep(avax, ops, i, o);
      o := Placed(o, out, kind);
    }
    assert ops[..|ops|] == ops;
    CollectedOutputsPlain(avax, ops, o);
    var outs := SortOutputs(o.outs);
    var stake := SortOutputs(o.stake);
    var exported := SortOutputs(o.exported);
    r := Ok(Outputs(outs, stake, exported));
    CollectedOutputsDone(avax, ops, o, r.value);
  }

  function AmountOf(out: TransferableOutput): nat {
    OutputAmount(out.out)
  }

  function SumOf(outs: seq<TransferableOutput>): nat {
    SumBy(outs, AmountOf)
  }

  /** The staked weight: the exact sum, or an error if it does not fit. */
  method SumOutputAmounts(stakeOutputs: seq<TransferableOutput>) returns (r: Result<uint64, ()>)
    ensures r == if SumOf(stakeOutputs) < TWO_64 then Ok(SumOf(stakeOutputs)) else Err(())
  {
    var sum: uint64 := 0;
    for i := 0 to |stakeOutputs|
      invariant sum == SumOf(stakeOutputs[..i])
    {
      assert stakeOutputs[..i + 1][..i] == stakeOutputs[..i];
      var outAmount := OutputAmount(stakeOutputs[i].out);
      SumByPrefix(stakeOutputs, i + 1, AmountOf);
      if outAmount > TWO_64 - 1 - sum {
        return Err(());
      }
      sum := sum + outAmount;
    }
    assert stakeOutputs[..|stakeOutputs|] == stakeOutputs;
    r := Ok(sum);
  }

  // ---------------------------------------------------------------- payload metadata

  /** nodeID and subnet are None where the text does not decode; proofValid is the verdict on the BLS keys. */
  datatype StakingMetadata = StakingMetadata(
    nodeID: Option<ID>, subnet: Option<ID>, proofValid: bool, rewardAddresses: seq<Account>,
    delegatorAddresses: seq<Account>, start: uint64, end: uint64, shares: uint32, locktime: uint64, threshold: uint32)

  datatype Metadata = Metadata(source: Option<ID>, destination: Option<ID>, staking: Option<StakingMetadata>)

  datatype Owners = Owners(locktime: uint64, threshold: uint32, addrs: seq<ShortID>)

  /** What only staking transactions carry. */
  datatype Staking = Staking(nodeID: ID, subnet: Option<ID>, start: uint64, end: uint64, weight: uint64, shares: uint32,
                             rewards: Owners, delegatorRewards: Owners)

  datatype BuiltTx = BuiltTx(unsigned: UnsignedTx, source: Option<ID>, staking: Option<Staking>, signers: Signers)

  predicate AddressesParse(addrs: seq<Account>) {
    forall i :: 0 <= i < |addrs| ==> addrs[i].Bech32?
  }

  function IdsOf(addrs: seq<Account>): seq<ShortID>
    requires AddressesParse(addrs)
  {
    seq(|addrs|, i requires 0 <= i < |addrs| => addrs[i].owner)
  }

  /** The owners are all given addresses, sorted, as avalanchego demands. */
  ghost predicate OwnersOf(o: Owners, addrs: seq<Account>, md: StakingMetadata) {
    && AddressesParse(addrs)
    && o.locktime == md.locktime && o.threshold == md.threshold
    && (forall i, j :: 0 <= i < j < |o.addrs| ==> o.addrs[i] <= o.addrs[j])
    && multiset(o.addrs) == multiset(IdsOf(addrs))
  }

  function Value(a: ShortID): nat {
    a
  }

  method BuildOutputOwner(addrs: seq<Account>, md: StakingMetadata) returns (r: Result<Owners, ()>)
    ensures r.Err? <==> !AddressesParse(addrs)
    ensures r.Ok? ==> OwnersOf(r.value, addrs, md)
  {
    var rewardAddrs: seq<ShortID> := [];
    for i := 0 to |addrs|
      invariant AddressesParse(addrs[..i]) && rewardAddrs == IdsOf(addrs[..i])
    {
      if addrs[i].BadAddress? {
        return Err(());
      }
      rewardAddrs := rewardAddrs + [addrs[i].owner];
    }
    assert addrs[..|addrs|] == addrs;
    var sorted := SortBy(rewardAddrs, Value);
    assert forall i, j :: 0 <= i < j < |sorted| ==> Value(sorted[i]) <= Value(sorted[j]);
    r := Ok(Owners(md.locktime, md.threshold, sorted));
  }

  // ---------------------------------------------------------------- the kinds

  predicate Buildable(kind: Kind) {
    kind.ImportAvax? || kind.ExportAvax? || IsStaking(kind)
  }

  /** What the two matches hold, by the matching contract: inputs spend coins, all operations have accounts. */
  predicate Matched(ins: seq<Operation>, outs: seq<Operation>) {
    && (forall i :: 0 <= i < |ins| ==> ins[i].coin.Some? && ins[i].account.Some?)
    && (forall i :: 0 <= i < |outs| ==> outs[i].account.Some?)
  }

  function StakeSum(avax: ID, outs: seq<Operation>): nat
    requires AllOutputsBuild(outs)
  {
    OfTypeBuilds(outs, MetaStake);
    SumOf(OutputsOf(avax, OfType(outs, MetaStake)))
  }

  /** One more credit adds its amount to the weight, through 64 bits, exactly if its type is MetaStake. */
  lemma WeightGrows(avax: ID, outs: seq<Operation>, op: Operation)
    requires AllOutputsBuild(outs) && OutputBuilds(op) && op.amount.value > 0
    ensures AllOutputsBuild(outs + [op])
    ensures StakeSum(avax, outs + [op])
            == StakeSum(avax, outs)
               + if op.metadata.kind.MetaStake? then op.amount.value % 0x1_0000_0000_0000_0000 else 0
    ensures StakeSum(avax, []) == 0
  {
    var more := outs + [op];
    assert more[..|outs|] == outs;
    assert AllOutputsBuild(more);
    OfTypeBuilds(outs, MetaStake);
    OfTypeBuilds(more, MetaStake);
    var before := OutputsOf(avax, OfType(outs, MetaStake));
    if op.metadata.kind.MetaStake? {
      assert OutputsOf(avax, OfType(more, MetaStake)) == before + [OutputOf(avax, op)];
      SumBySnoc(before, OutputOf(avax, op), AmountOf);
      assert AmountOf(OutputOf(avax, op)) == op.amount.value % 0x1_0000_0000_0000_0000;
    } else {
      assert OfType(more, MetaStake) == OfType(outs, MetaStake);
    }
    assert OutputsOf(avax, OfType([], MetaStake)) == [];
  }

  /** Sorted owners are the owners of the addresses given, neither more nor fewer. */
  lemma OwnersAreListed(o: Owners, addrs: seq<Account>, md: StakingMetadata, x: ShortID)
    requires OwnersOf(o, addrs, md)
    ensures |o.addrs| == |addrs|
    ensures x in o.addrs <==> exists i :: 0 <= i < |addrs| && addrs[i].Bech32? && addrs[i].owner == x
  {
    var ids := IdsOf(addrs);
    assert |multiset(o.addrs)| == |multiset(ids)|;
    assert x in o.addrs <==> x in multiset(o.addrs);
    assert x in multiset(ids) <==> x in ids;
    if i :| 0 <= i < |addrs| && addrs[i].Bech32? && addrs[i].owner == x { assert ids[i] == x; }
    if x in ids {
      var i :| 0 <= i < |ids| && ids[i] == x;
      assert addrs[i].Bech32? && addrs[i].owner == x;
    }
  }

  /** The staking metadata is acceptable for the kind. */
  predicate StakingFits(kind: Kind, md: StakingMetadata) {
    && md.nodeID.Some? && AddressesParse(md.rewardAddresses)
    && (kind.AddPermissionlessValidator? || kind.AddPermissionlessDelegator? ==> md.subnet.Some?)
    && (kind.AddPermissionlessValidator? ==> md.proofValid && AddressesParse(md.delegatorAddresses))
  }

  /** Building succeeds exactly under these conditions. */
  predicate Builds(kind: Kind, ins: seq<Operation>, outs: seq<Operation>, md: Metadata, avax: ID) {
    && Buildable(kind) && AllInputsBuild(ins) && AllOutputsBuild(outs)
    && (kind.ExportAvax? ==> md.destination.Some?)
    && (IsStaking(kind) ==> md.staking.Some? && StakingFits(kind, md.staking.value) && StakeSum(avax, outs) < TWO_64)
  }

  /** The transaction holds the operations' inputs and outputs, each list sorted; a kind drops the lists it lacks. */
  ghost predicate BuiltFrom(u: UnsignedTx, kind: Kind, ins: seq<Operation>, outs: seq<Operation>, md: Metadata,
                            avax: ID)
    requires AllInputsBuild(ins) && AllOutputsBuild(outs)
  {
    && u.kind == kind
    && ArrangesInputs(u.ins, avax, ins, MetaInput)
    && ArrangesOutputs(u.outs, avax, outs, MetaOutput)
    && (kind.ImportAvax? ==> ArrangesInputs(u.imported, avax, ins, MetaImport))
    && (kind.ExportAvax? ==>
          ArrangesOutputs(u.exported, avax, outs, MetaExport) && md.destination == Some(u.destination))
    && (IsStaking(kind) ==> ArrangesOutputs(u.stake, avax, outs, MetaStake))
  }

  /** The staking part: the weight is the exact sum of the stake operations' amounts. */
  ghost predicate StakingFrom(s: Staking, kind: Kind, outs: seq<Operation>, md: StakingMetadata, avax: ID)
    requires AllOutputsBuild(outs)
  {
    && Some(s.nodeID) == md.nodeID && s.start == md.start && s.end == md.end && s.shares == md.shares
    && s.weight == StakeSum(avax, outs)
    && OwnersOf(s.rewards, md.rewardAddresses, md)
    && (if kind.AddPermissionlessValidator? && md.delegatorAddresses != [] then
          OwnersOf(s.delegatorRewards, md.delegatorAddresses, md)
        else s.delegatorRewards == s.rewards)
    && (kind.AddPermissionlessValidator? || kind.AddPermissionlessDelegator? ==> s.subnet == md.subnet)
  }

  method BuildImportTx(ins: seq<Operation>, outs: seq<Operation>, md: Metadata, avax: ID)
    returns (r: Result<BuiltTx, ()>)
    requires Matched(ins, outs) && md.source.Some?
    ensures r.Err? <==> !Builds(ImportAvax, ins, outs, md, avax)
    ensures r.Ok? ==> BuiltFrom(r.value.unsigned, ImportAvax, ins, outs, md, avax)
                      && r.value.source == md.source && r.value.signers == Accounts(ins)
  {
    hide ArrangesInputs, ArrangesOutputs, AllInputsBuild, AllOutputsBuild;
    var i := BuildInputs(ins, avax);
    if i.Err? {
      return Err(());
    }
    var o := BuildOutputs(outs, avax);
    if o.Err? {
      return Err(());
    }
    var unsigned := UnsignedTx(ImportAvax, i.value.ins, o.value.outs, [], i.value.imported, [], 0, 0);
    r := Ok(BuiltTx(unsigned, md.source, None, i.value.signers));
  }

  method BuildExportTx(ins: seq<Operation>, outs: seq<Operation>, md: Metadata, avax: ID)
    returns (r: Result<BuiltTx, ()>)
    requires Matched(ins, outs)
    ensures r.Err? <==> !Builds(ExportAvax, ins, outs, md, avax)
    ensures r.Ok? ==> BuiltFrom(r.value.unsigned, ExportAvax, ins, outs, md, avax) && r.value.signers == Accounts(ins)
  {
    hide ArrangesInputs, ArrangesOutputs, AllInputsBuild, AllOutputsBuild;
    if md.destination.None? {
      return Err(());
    }
    var i := BuildInputs(ins, avax);
    if i.Err? {
      return Err(());
    }
    var o := BuildOutputs(outs, avax);
    if o.Err? {
      return Err(());
    }
    var unsigned := UnsignedTx(ExportAvax, i.value.ins, o.value.outs, [], [], o.value.exported, md.destination.value,
                               0);
    r := Ok(BuiltTx(unsigned, None, None, i.value.signers));
  }

  /** The owners of both kinds of rewards. */
  method BuildRewardOwners(kind: Kind, md: StakingMetadata) returns (r: Result<(Owners, Owners), ()>)
    ensures r.Err? <==> !(AddressesParse(md.rewardAddresses)
                          && (kind.AddPermissionlessValidator? ==> AddressesParse(md.delegatorAddresses)))
    ensures r.Ok? ==>
              OwnersOf(r.value.0, md.rewardAddresses, md)
              && (if kind.AddPermissionlessValidator? && md.delegatorAddresses != [] then
                    OwnersOf(r.value.1, md.delegatorAddresses, md)
                  else r.value.1 == r.value.0)
  {
    hide OwnersOf;
    var rewards := BuildOutputOwner(md.rewardAddresses, md);
    if rewards.Err? {
      return Err(());
    }
    if !kind.AddPermissionlessValidator? || |md.delegatorAddresses| == 0 {
      return Ok((rewards.value, rewards.value));
    }
    var delegator := BuildOutputOwner(md.delegatorAddresses, md);
    if delegator.Err? {
      return Err(());
    }
    return Ok((rewards.value, delegator.value));
  }

  /** buildAddValidatorTx, buildAddDelegatorTx and their permissionless versions. */
  method BuildStakingTx(kind: Kind, ins: seq<Operation>, outs: seq<Operation>, md: Metadata, avax: ID)
    returns (r: Result<BuiltTx, ()>)
    requires Matched(ins, outs) && IsStaking(kind)
    ensures r.Err? <==> !Builds(kind, ins, outs, md, avax)
    ensures r.Ok? ==> BuiltFrom(r.value.unsigned, kind, ins, outs, md, avax) && r.value.signers == Accounts(ins)
                      && r.value.staking.Some? && StakingFrom(r.value.staking.value, kind, outs, md.staking.value, avax)
  {
    hide ArrangesInputs, ArrangesOutputs, AllInputsBuild, AllOutputsBuild, StakeSum, OwnersOf, AddressesParse, Accounts;
    if md.staking.None? {
      return Err(());
    }
    var staking := md.staking.value;
    if staking.nodeID.None? {
      return Err(());
    }
    if (kind.AddPermissionlessValidator? || kind.AddPermissionlessDelegator?) && staking.subnet.None? {
      return Err(());
    }
    if kind.AddPermissionlessValidator? && !staking.proofValid {
      return Err(());
    }
    var owners := BuildRewardOwners(kind, staking);
    if owners.Err? {
      return Err(());
    }
    var i := BuildInputs(ins, avax);
    if i.Err? {
      return Err(());
    }
    var o := BuildOutputs(outs, avax);
    if o.Err? {
      return Err(());
    }
    var weight := SumOutputAmounts(o.value.stake);
    SortedStakeSum(avax, outs, o.value.stake);
    if weight.Err? {
      return Err(());
    }
    var unsigned := UnsignedTx(kind, i.value.ins, o.value.outs, o.value.stake, [], [], 0, 0);
    r := Ok(BuiltTx(unsigned, None, Some(Staking(staking.nodeID.value, staking.subnet, staking.start, staking.end,
                                                 weight.value, staking.shares, owners.value.0, owners.value.1)),
                    i.value.signers));
  }

  lemma SortedStakeSum(avax: ID, outs: seq<Operation>, stake: seq<TransferableOutput>)
    requires AllOutputsBuild(outs) && ArrangesOutputs(stake, avax, outs, MetaStake)
    ensures SumOf(stake) == StakeSum(avax, outs)
  {
    OfTypeBuilds(outs, MetaStake);
    SumByPermuted(stake, OutputsOf(avax, OfType(outs, MetaStake)), AmountOf);
  }

  /** BuildTx dispatches on the operation type; other types are refused. */
  method BuildTx(kind: Kind, ins: seq<Operation>, outs: seq<Operation>, md: Metadata, avax: ID)
    returns (r: Result<BuiltTx, ()>)
    requires Matched(ins, outs) && (kind.ImportAvax? ==> md.source.Some?)
    ensures r.Err? <==> !Builds(kind, ins, outs, md, avax)
    ensures r.Ok? ==> BuiltFrom(r.value.unsigned, kind, ins, outs, md, avax) && r.value.signers == Accounts(ins)
    ensures r.Ok? && kind.ImportAvax? ==> r.value.source == md.source
    ensures r.Ok? && IsStaking(kind) ==>
              r.value.staking.Some? && StakingFrom(r.value.staking.value, kind, outs, md.staking.value, avax)
  {
    hide BuiltFrom, Builds, Matched, StakingFrom;
    if kind.ImportAvax? {
      r := BuildImportTx(ins, outs, md, avax);
    } else if kind.ExportAvax? {
      r := BuildExportTx(ins, outs, md, avax);
    } else if IsStaking(kind) {
      r := BuildStakingTx(kind, ins, outs, md, avax);
    } else {
      r := Err(());
      NotBuildable(kind, ins, outs, md, avax);
    }
  }

  lemma NotBuildable(kind: Kind, ins: seq<Operation>, outs: seq<Operation>, md: Metadata, avax: ID)
    requires !Buildable(kind)
    ensures !Builds(kind, ins, outs, md, avax)
  {
  }
}
