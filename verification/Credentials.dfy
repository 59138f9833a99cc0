/** service/backend/common/construction.go and types.go: who signs what, and how signatures become credentials. */
module Credentials {
  import opened Prelude
  import opened PchainModel

  // ---------------------------------------------------------------- signers

  /** A missing coin identifier is the empty string, here None. */
  datatype Signer<A> = Signer(coin: Option<CoinID>, account: A)

  function CoinOf(op: Operation): Option<CoinID> {
    if op.coin.Some? then Some(op.coin.value.coin) else None
  }

  function Debits(ops: seq<Operation>): seq<Operation> {
    if ops == [] then []
    else Debits(ops[..|ops| - 1]) + if ops[|ops| - 1].amount.value < 0 then [ops[|ops| - 1]] else []
  }

  predicate HaveAccounts(ops: seq<Operation>) {
    forall i :: 0 <= i < |ops| && ops[i].amount.value < 0 ==> ops[i].account.Some?
  }

  lemma {:induction false} DebitsHaveAccounts(ops: seq<Operation>)
    ensures forall i :: 0 <= i < |Debits(ops)| ==> Debits(ops)[i] in ops && Debits(ops)[i].amount.value < 0
    ensures HaveAccounts(ops) ==> forall i :: 0 <= i < |Debits(ops)| ==> Debits(ops)[i].account.Some?
  {
    if ops != [] { DebitsHaveAccounts(ops[..|ops| - 1]); }
  }

  function SignerOf(op: Operation): Signer<Account>
    requires op.account.Some?
  {
    Signer(CoinOf(op), op.account.value)
  }

  function SignersOf(ops: seq<Operation>): seq<Signer<Account>>
    requires HaveAccounts(ops)
  {
    DebitsHaveAccounts(ops);
    seq(|Debits(ops)|, i requires 0 <= i < |Debits(ops)| => SignerOf(Debits(ops)[i]))
  }

  /** The loop of BuildPayloads that collects the signers of all debits, in order. */
  method CollectSigners(ops: seq<Operation>) returns (signers: seq<Signer<Account>>)
    requires HaveAccounts(ops)
    ensures signers == SignersOf(ops)
  {
    signers := [];
    for i := 0 to |ops|
      invariant HaveAccounts(ops[..i]) && signers == SignersOf(ops[..i])
    {
      assert ops[..i + 1][..i] == ops[..i];
      if ops[i].amount.value >= 0 {
        continue;
      }
      DebitsHaveAccounts(ops[..i]);
      DebitsHaveAccounts(ops[..i + 1]);
      signers := signers + [Signer(CoinOf(ops[i]), ops[i].account.value)];
    }
    assert ops[..|ops|] == ops;
  }

  type SignerMap<A> = map<Option<CoinID>, A>

  /** Of two signers for one coin the later one counts. */
  function SignerMapOf<A>(signers: seq<Signer<A>>): SignerMap<A> {
    if signers == [] then map[]
    else
      var s := signers[|signers| - 1];
      SignerMapOf(signers[..|signers| - 1])[s.coin := s.account]
  }

  /** getInputAddresses, and the first loop of GetAccountIdentifiers. */
  method GetInputAddresses<A>(signers: seq<Signer<A>>) returns (addresses: SignerMap<A>)
    ensures addresses == SignerMapOf(signers)
  {
    addresses := map[];
    for i := 0 to |signers|
      invariant addresses == SignerMapOf(signers[..i])
    {
      assert signers[..i + 1][..i] == signers[..i];
      addresses := addresses[signers[i].coin := signers[i].account];
    }
    assert signers[..|signers|] == signers;
  }

  ghost predicate DistinctCoins<A>(signers: seq<Signer<A>>) {
    forall i, j :: 0 <= i < j < |signers| ==> signers[i].coin != signers[j].coin
  }

  lemma {:induction false} SignerFound<A>(signers: seq<Signer<A>>, i: nat)
    requires i < |signers| && DistinctCoins(signers)
    ensures signers[i].coin in SignerMapOf(signers) && SignerMapOf(signers)[signers[i].coin] == signers[i].account
    decreases |signers|
  {
    var n := |signers| - 1;
    if i < n { SignerFound(signers[..n], i); }
  }

  predicate AllSigned(m: SignerMap<Account>, ops: seq<Operation>) {
    forall i :: 0 <= i < |ops| && ops[i].amount.value < 0 ==> CoinOf(ops[i]) in m
  }

  lemma {:induction false} DebitsSigned(m: SignerMap<Account>, ops: seq<Operation>)
    ensures AllSigned(m, ops) ==> forall i :: 0 <= i < |Debits(ops)| ==> CoinOf(Debits(ops)[i]) in m
  {
    if ops != [] { DebitsSigned(m, ops[..|ops| - 1]); }
  }

  function AccountsIn(m: SignerMap<Account>, ops: seq<Operation>): seq<Account>
    requires AllSigned(m, ops)
  {
    DebitsSigned(m, ops);
    seq(|Debits(ops)|, i requires 0 <= i < |Debits(ops)| => m[CoinOf(Debits(ops)[i])])
  }

  /** The signing account of every debit, in the order of the operations given. */
  method GetAccountIdentifiers(accountSigners: seq<Signer<Account>>, operations: seq<Operation>)
    returns (r: Result<seq<Account>, ()>)
    ensures r.Err? <==> !AllSigned(SignerMapOf(accountSigners), operations)
    ensures r.Ok? ==> r.value == AccountsIn(SignerMapOf(accountSigners), operations)
  {
    var m := GetInputAddresses(accountSigners);
    var signers: seq<Account> := [];
    hide SignerMapOf;
    for i := 0 to |operations|
      invariant AllSigned(m, operations[..i]) && signers == AccountsIn(m, operations[..i])
    {
      assert operations[..i + 1][..i] == operations[..i];
      var op := operations[i];
      if op.amount.value >= 0 {
        continue;
      }
      if CoinOf(op) !in m {
        return Err(());
      }
      DebitsSigned(m, operations[..i]);
      DebitsSigned(m, operations[..i + 1]);
      signers := signers + [m[CoinOf(op)]];
    }
    assert operations[..|operations|] == operations;
    r := Ok(signers);
  }

  // ---------------------------------------------------------------- credentials

  type Signature = seq<bv8>

  const SIGNATURE_LEN := 65

  type Credential = seq<Signature>

  datatype SignError = InvalidInput | InvalidInputSignatureLen | InsufficientSignatures | InvalidSignatureLen

  predicate RightLength(signatures: seq<Signature>) {
    forall i :: 0 <= i < |signatures| ==> |signatures[i]| == 65
  }

  predicate TransferInputs(ins: seq<TransferableInput>) {
    forall i :: 0 <= i < |ins| ==> ins[i].input.TransferInput?
  }

  function SigCount(ins: seq<TransferableInput>): nat
    requires TransferInputs(ins)
  {
    if ins == [] then 0 else SigCount(ins[..|ins| - 1]) + |ins[|ins| - 1].input.sigIndices|
  }

  function Flatten(creds: seq<Credential>): seq<Signature> {
    if creds == [] then [] else Flatten(creds[..|creds| - 1]) + creds[|creds| - 1]
  }

  lemma NoSignatures()
    ensures RightLength([])
  {
  }

  lemma OneMoreSignature(signatures: seq<Signature>, from: nat, i: nat, to: nat)
    requires from <= i < |signatures| && i < to
    ensures RightLength(signatures[from..i]) && |signatures[i]| == 65 ==> RightLength(signatures[from..i + 1])
    ensures to <= |signatures| && |signatures[i]| != 65 ==> !RightLength(signatures[from..to])
  {
    assert signatures[from..i + 1] == signatures[from..i] + [signatures[i]];
    if to <= |signatures| { assert signatures[from..to][i - from] == signatures[i]; }
  }

  /** Takes the next numSigs signatures, from sigOffset on. */
  method BuildCredential(numSigs: nat, sigOffset: nat, signatures: seq<Signature>)
    returns (r: Result<Credential, SignError>, offset: nat)
    requires sigOffset <= |signatures|
    ensures r.Ok? <==> sigOffset + numSigs <= |signatures| && RightLength(signatures[sigOffset..sigOffset + numSigs])
    ensures r.Ok? ==> offset == sigOffset + numSigs && r.value == signatures[sigOffset..offset]
  {
    var sigs: Credential := [];
    offset := sigOffset;
    NoSignatures();
    hide RightLength;
    for j := 0 to numSigs
      invariant offset == sigOffset + j <= |signatures|
      invariant sigs == signatures[sigOffset..offset] && RightLength(sigs)
    {
      if offset >= |signatures| {
        return Err(InsufficientSignatures), offset;
      }
      OneMoreSignature(signatures, sigOffset, offset, sigOffset + numSigs);
      if |signatures[offset]| != SIGNATURE_LEN {
        return Err(InvalidSignatureLen), offset;
      }
      sigs := sigs + [signatures[offset]];
      offset := offset + 1;
    }
    r := Ok(sigs);
  }

  /** One credential per input, of as many signatures as the input has signature indices. */
  ghost predicate Partitions(creds: seq<Credential>, ins: seq<TransferableInput>, signatures: seq<Signature>)
    requires TransferInputs(ins)
  {
    && |creds| == |ins|
    && (forall i :: 0 <= i < |ins| ==> |creds[i]| == |ins[i].input.sigIndices|)
    && Flatten(creds) == signatures
  }

  /** BuildCredentialList: succeeds exactly if every input is a plain transfer, the signatures are as many as the
      inputs ask for, and each has the right length; then it hands all of them out, in order. */
  method BuildCredentialList(ins: seq<TransferableInput>, signatures: seq<Signature>)
    returns (r: Result<seq<Credential>, SignError>)
    ensures r.Ok? <==> TransferInputs(ins) && SigCount(ins) == |signatures| && RightLength(signatures)
    ensures r.Ok? ==> Partitions(r.value, ins, signatures)
  {
    var creds: seq<Credential> := [];
    var sigOffset: nat := 0;
    hide Partitions, RightLength, SigCount;
    for i := 0 to |ins|
      invariant sigOffset <= |signatures| && TransferInputs(ins[..i])
      invariant sigOffset == SigCount(ins[..i]) && RightLength(signatures[..sigOffset])
      invariant Partitions(creds, ins[..i], signatures[..sigOffset])
    {
      var input := ins[i].input;
      if !input.TransferInput? {
        return Err(InvalidInput);
      }
      var before := sigOffset;
      var cred;
      cred, sigOffset := BuildCredential(|input.sigIndices|, before, signatures);
      if cred.Err? {
        NeedsMore(ins, signatures, i, before);
        return Err(cred.error);
      }
      LengthStep(ins, signatures, i, before, sigOffset);
      creds := creds + [cred.value];
    }
    assert ins[..|ins|] == ins;
    if sigOffset != |signatures| {
      return Err(InvalidInputSignatureLen);
    }
    assert signatures[..sigOffset] == signatures;
    r := Ok(creds);
  }

  lemma LengthStep(ins: seq<TransferableInput>, signatures: seq<Signature>, i: nat, before: nat, after: nat)
    requires i < |ins| && TransferInputs(ins[..i]) && ins[i].input.TransferInput?
    requires before <= after <= |signatures| && RightLength(signatures[..before])
    requires RightLength(signatures[before..after])
    ensures SigCount(ins[..i + 1]) == SigCount(ins[..i]) + |ins[i].input.sigIndices|
    ensures RightLength(signatures[..after])
  {
    assert ins[..i + 1][..i] == ins[..i];
    assert signatures[..after] == signatures[..before] + signatures[before..after];
  }

  lemma {:induction false} SigCountPrefix(ins: seq<TransferableInput>, i: nat)
    requires i <= |ins| && TransferInputs(ins)
    ensures SigCount(ins[..i]) <= SigCount(ins)
    decreases |ins|
  {
    if i < |ins| {
      assert ins[..|ins| - 1][..i] == ins[..i];
      SigCountPrefix(ins[..|ins| - 1], i);
    } else {
      assert ins[..i] == ins;
    }
  }

  /** When the signatures from here on do not do for input i, they do not do for the whole list. */
  lemma NeedsMore(ins: seq<TransferableInput>, signatures: seq<Signature>, i: nat, before: nat)
    requires i < |ins| && TransferInputs(ins[..i]) && ins[i].input.TransferInput? && before == SigCount(ins[..i])
    requires var n := |ins[i].input.sigIndices|;
             before + n <= |signatures| ==> !RightLength(signatures[before..before + n])
    ensures TransferInputs(ins) && SigCount(ins) == |signatures| ==> !RightLength(signatures)
  {
    if TransferInputs(ins) && SigCount(ins) == |signatures| {
      assert ins[..i + 1][..i] == ins[..i];
      SigCountPrefix(ins, i + 1);
    }
  }

  /** C-chain exports are given one credential, of the first signature, however many inputs and signatures there are. */
  method BuildSingletonCredentialList(signatures: seq<Signature>) returns (r: Result<seq<Credential>, SignError>)
    ensures r.Ok? <==> |signatures| >= 1 && |signatures[0]| == 65
    ensures r.Ok? ==> r.value == [[signatures[0]]]
  {
    var cred, _ := BuildCredential(1, 0, signatures);
    if cred.Err? {
      assert |signatures| >= 1 ==> signatures[0..1][0] == signatures[0];
      return Err(cred.error);
    }
    assert signatures[0..1] == [signatures[0]];
    return Ok([cred.value]);
  }
}
