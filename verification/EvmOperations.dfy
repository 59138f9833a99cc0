/** Rosetta operations as the C-chain mapper emits them (mapper/types.go, mapper/amount.go). */
module EvmOperations {
  import opened Prelude
  import opened CallTree

  /** Avax has 18 decimals; a token carries the address of its contract. */
  datatype Currency = Avax | Token(symbol: string, decimals: nat, contract: Address)

  datatype Amount = Amount(value: int, currency: Currency)

  /** A token of an ERC-721 contract. */
  datatype Nft = Nft(contract: Address, token: nat)

  /** note holds the error text that a failed call puts into the metadata, nft what an ERC-721 operation names there. */
  datatype Op = Op(index: int, related: seq<int>, kind: OpKind, success: bool, account: Address,
                   amount: Option<Amount>, note: Option<string>, nft: Option<Nft>)

  predicate CallType(kind: OpKind) {
    kind == OpCall || kind == OpCallCode || kind == OpDelegateCall || kind == OpStaticCall
  }

  predicate CreateType(kind: OpKind) {
    kind == OpCreate || kind == OpCreate2
  }

  /** What one operation moves onto account in currency, if it succeeded. */
  function Moved(op: Op, account: Address, currency: Currency): int {
    if op.success && op.account == account && op.amount.Some? && op.amount.value.currency == currency
    then op.amount.value.value else 0
  }

  /** The net effect of successful operations on one account in one currency. */
  function Net(ops: seq<Op>, account: Address, currency: Currency): int {
    if ops == [] then 0
    else Net(ops[..|ops| - 1], account, currency) + Moved(ops[|ops| - 1], account, currency)
  }

  function MovedByAnyone(op: Op, currency: Currency): int {
    if op.success && op.amount.Some? && op.amount.value.currency == currency then op.amount.value.value else 0
  }

  /** The sum of all successful amounts in one currency. */
  function Total(ops: seq<Op>, currency: Currency): int {
    if ops == [] then 0 else Total(ops[..|ops| - 1], currency) + MovedByAnyone(ops[|ops| - 1], currency)
  }

  /** Identifiers run start, start+1, ... without a gap and only refer backwards. */
  ghost predicate Dense(ops: seq<Op>, start: int) {
    forall i :: 0 <= i < |ops| ==>
      ops[i].index == start + i && forall r :: r in ops[i].related ==> start <= r < ops[i].index
  }

  /** The net effect of at most two operations, written out. */
  lemma NetOfFew(a: Op, b: Op, account: Address, currency: Currency)
    ensures Net([a], account, currency) == Moved(a, account, currency)
    ensures Net([a, b], account, currency) == Moved(a, account, currency) + Moved(b, account, currency)
    ensures Total([a], currency) == MovedByAnyone(a, currency)
    ensures Total([a, b], currency) == MovedByAnyone(a, currency) + MovedByAnyone(b, currency)
  {
    assert [a, b][..1] == [a] && [a][..0] == [];
  }

  lemma {:induction false} NetConcat(a: seq<Op>, b: seq<Op>, account: Address, currency: Currency)
    ensures Net(a + b, account, currency) == Net(a, account, currency) + Net(b, account, currency)
    decreases |b|
  {
    if b == [] {
      assert a + b == a;
    } else {
      assert (a + b)[..|a + b| - 1] == a + b[..|b| - 1];
      NetConcat(a, b[..|b| - 1], account, currency);
    }
  }

  lemma {:induction false} TotalConcat(a: seq<Op>, b: seq<Op>, currency: Currency)
    ensures Total(a + b, currency) == Total(a, currency) + Total(b, currency)
    decreases |b|
  {
    if b == [] {
      assert a + b == a;
    } else {
      assert (a + b)[..|a + b| - 1] == a + b[..|b| - 1];
      TotalConcat(a, b[..|b| - 1], currency);
    }
  }

  lemma DenseConcat(a: seq<Op>, b: seq<Op>, start: int)
    requires Dense(a, start) && Dense(b, start + |a|)
    ensures Dense(a + b, start)
  {
    forall i | 0 <= i < |a + b|
      ensures (a + b)[i].index == start + i
      ensures forall r :: r in (a + b)[i].related ==> start <= r < (a + b)[i].index
    {
      if i >= |a| { assert (a + b)[i] == b[i - |a|]; }
    }
  }
}
