/** What the operations of a call trace mean: numbering, conservation, and agreement with the EVM ledger. */
module TraceProperties {
  import opened Prelude
  import opened CallTree
  import opened EvmOperations
  import opened TraceLedger

  // ---------------------------------------------------------------- numbering and revert status

  lemma TraceIdentifiersDense(trace: seq<FlatCall>, start: int, ops: seq<Op>)
    requires Outcome(trace, start, ops)
    ensures Dense(ops, start)
  {
    var order :| OutcomeInOrder(trace, start, ops, order);
    var calls, tail := OutcomeParts(trace, start, ops, order);
    CallOpsDense(trace, start);
    DestructOpsDense(Recorded(trace), order, start + |calls|);
    DenseConcat(calls, tail, start);
  }

  lemma {:induction false} PrefixOps(trace: seq<FlatCall>, start: int, i: nat, j: nat)
    requires i <= j <= |trace|
    ensures AllCallOps(trace[..i], start) <= AllCallOps(trace[..j], start)
    decreases j
  {
    if i < j {
      assert trace[..j][..j - 1] == trace[..j - 1];
      PrefixOps(trace, start, i, j - 1);
    }
  }

  /** The operations contributed by the i-th call of the trace, cut out of the whole list. */
  ghost function OpsAt(trace: seq<FlatCall>, start: int, i: nat): seq<Op>
    requires i < |trace|
  {
    PrefixOps(trace, start, i + 1, |trace|);
    PrefixOps(trace, start, i, i + 1);
    assert trace[..|trace|] == trace;
    AllCallOps(trace, start)[|AllCallOps(trace[..i], start)|..|AllCallOps(trace[..i + 1], start)|]
  }

  lemma OpsAtAreCallOps(trace: seq<FlatCall>, start: int, i: nat)
    requires i < |trace|
    ensures OpsAt(trace, start, i) == CallOps(trace[i], start + |AllCallOps(trace[..i], start)|)
  {
    hide AllCallOps, CallOps;
    var all, before := AllCallOps(trace, start), AllCallOps(trace[..i], start);
    OneMoreCall(trace, start, i);
    PrefixOps(trace, start, i + 1, |trace|);
    assert trace[..|trace|] == trace;
    CutOut(before, CallOps(trace[i], start + |before|), all);
  }

  lemma OneMoreCall(trace: seq<FlatCall>, start: int, i: nat)
    requires i < |trace|
    ensures AllCallOps(trace[..i + 1], start)
            == AllCallOps(trace[..i], start) + CallOps(trace[i], start + |AllCallOps(trace[..i], start)|)
  {
    hide CallOps;
    assert trace[..i + 1][..i] == trace[..i];
  }

  lemma CutOut<T>(a: seq<T>, b: seq<T>, all: seq<T>)
    requires a + b <= all
    ensures all[|a|..|a + b|] == b
  {
    assert all[..|a + b|] == a + b;
  }

  // ---------------------------------------------------------------- what each frame shows

  /** A call without value is not shown; a self-destruct into itself shows its debit alone; every other frame two
      operations. */
  function ShownBy(c: FlatCall): nat {
    if c.value == 0 && c.kind in {OpCall, OpCallCode, OpDelegateCall, OpStaticCall} then 0
    else if c.kind == OpSelfDestruct && c.from == c.to then 1
    else 2
  }

  function ShownUpTo(trace: seq<FlatCall>): nat {
    if trace == [] then 0 else ShownUpTo(trace[..|trace| - 1]) + ShownBy(trace[|trace| - 1])
  }

  /** op is one side of frame c: amounts only for frames with a value, the error text only for reverted ones. */
  predicate ShowsSide(op: Op, c: FlatCall, index: int, related: seq<int>, account: Address, value: int) {
    && op.index == index && op.related == related && op.kind == c.kind && op.account == account
    && (op.success <==> !c.revert) && op.note == (if c.revert then Some(c.error) else None)
    && op.amount == (if c.value == 0 then None else Some(Amount(value, Avax))) && op.nft.None?
  }

  /** From position n on, ops shows frame c: the sender pays, then the receiver is paid in relation to that. */
  predicate ShowsFrame(ops: seq<Op>, n: nat, start: int, c: FlatCall) {
    && n + ShownBy(c) <= |ops|
    && (ShownBy(c) > 0 ==> ShowsSide(ops[n], c, start + n, [], c.from, 0 - c.value))
    && (ShownBy(c) == 2 ==> ShowsSide(ops[n + 1], c, start + n + 1, [start + n], c.to, c.value))
  }

  lemma CallOpsShow(c: FlatCall, start: int, n: nat)
    ensures |CallOps(c, start + n)| == ShownBy(c)
    ensures forall before: seq<Op> :: |before| == n ==> ShowsFrame(before + CallOps(c, start + n), n, start, c)
  {
  }

  lemma ShowsMore(ops: seq<Op>, all: seq<Op>, n: nat, start: int, c: FlatCall)
    requires ShowsFrame(ops, n, start, c) && ops <= all
    ensures ShowsFrame(all, n, start, c)
  {
    hide ShowsSide, ShownBy;
  }

  lemma {:induction false} CallsShown(trace: seq<FlatCall>, start: int)
    ensures |AllCallOps(trace, start)| == ShownUpTo(trace)
  {
    if trace == [] { return; }
    var n := |trace| - 1;
    CallsShown(trace[..n], start);
    CallOpsShow(trace[n], start, |AllCallOps(trace[..n], start)|);
    hide CallOps, ShownBy;
  }

  /** Every outcome shows every frame, where the frames before it leave off, and then one operation per account in the
      map's order. */
  lemma FrameIsShown(trace: seq<FlatCall>, start: int, ops: seq<Op>, order: seq<Address>, i: nat)
    requires OutcomeInOrder(trace, start, ops, order) && i < |trace|
    ensures ShowsFrame(ops, ShownUpTo(trace[..i]), start, trace[i])
    ensures |ops| == ShownUpTo(trace) + |order|
  {
    hide *;
    var calls, tail := OutcomeParts(trace, start, ops, order);
    CallsShowFrame(trace, start, i);
    ShowsMore(calls, ops, ShownUpTo(trace[..i]), start, trace[i]);
    CallsShown(trace, start);
    DestructCount(Recorded(trace), order, start + |calls|);
  }

  lemma CallsShowFrame(trace: seq<FlatCall>, start: int, i: nat)
    requires i < |trace|
    ensures ShowsFrame(AllCallOps(trace, start), ShownUpTo(trace[..i]), start, trace[i])
  {
    hide AllCallOps, CallOps, ShownUpTo, ShownBy, ShowsFrame;
    var before := AllCallOps(trace[..i], start);
    CallsShown(trace[..i], start);
    OneMoreCall(trace, start, i);
    CallOpsShow(trace[i], start, |before|);
    PrefixOps(trace, start, i + 1, |trace|);
    assert trace[..|trace|] == trace;
    ShowsMore(before + CallOps(trace[i], start + |before|), AllCallOps(trace, start), |before|, start, trace[i]);
  }

  lemma {:induction false} DestructCount(m: map<Address, int>, order: seq<Address>, start: int)
    ensures |DestructOps(m, order, start)| == |order|
  {
    if order != [] { DestructCount(m, order[..|order| - 1], start); }
  }

  lemma CallOpsStatus(c: FlatCall, index: int)
    ensures forall op :: op in CallOps(c, index) ==> (op.success <==> !c.revert)
  {
  }

  lemma MarkedAtPosition(t: Tree, p: Path)
    requires ValidPath(t, p)
    ensures var marked := Propagate(t, false, "");
            && ValidPath(marked, p) && Position(marked, p) < |Preorder(marked)|
            && (Preorder(marked)[Position(marked, p)].revert <==> FailedOnPath(t, p))
  {
    hide Propagate, ValidPath, Position, Preorder, FailedOnPath;
    InitMarksExactlyFailedSubtrees(t, p);
    PreorderAtPosition(Propagate(t, false, ""), p);
  }

  /** Operations of a call in a reverted subtree are failures, all others are successes. */
  lemma StatusFollowsRevertedSubtree(t: Tree, p: Path, start: int)
    requires ValidPath(t, p)
    ensures var marked := Propagate(t, false, "");
            && ValidPath(marked, p) && Position(marked, p) < |Preorder(marked)|
            && forall op :: op in OpsAt(Preorder(marked), start, Position(marked, p)) ==>
                 (op.success <==> !FailedOnPath(t, p))
  {
    hide *;
    MarkedAtPosition(t, p);
    var marked := Propagate(t, false, "");
    var trace, i := Preorder(marked), Position(marked, p);
    OpsAtAreCallOps(trace, start, i);
    CallOpsStatus(trace[i], start + |AllCallOps(trace[..i], start)|);
  }

  // ---------------------------------------------------------------- conservation

  function Burned(c: FlatCall): nat {
    if Uncredited(c) && !c.revert then c.value else 0
  }

  /** Value destroyed by successful SELFDESTRUCTs that name themselves as beneficiary. */
  function SelfBurned(trace: seq<FlatCall>): nat {
    if trace == [] then 0 else SelfBurned(trace[..|trace| - 1]) + Burned(trace[|trace| - 1])
  }

  /** The sum of the balances that m holds for the listed accounts. */
  function HeldSum(m: map<Address, int>, order: seq<Address>): int {
    if order == [] then 0 else HeldSum(m, order[..|order| - 1]) + HeldIn(m, order[|order| - 1])
  }

  lemma CallOpsTotals(c: FlatCall, index: int, a: Address)
    ensures Net(CallOps(c, index), a, Avax) == Effect(c, a)
    ensures Total(CallOps(c, index), Avax) == 0 - Burned(c)
  {
    var ops := CallOps(c, index);
    if |ops| == 2 {
      assert ops == [ops[0], ops[1]];
      NetOfFew(ops[0], ops[1], a, Avax);
    } else if |ops| == 1 {
      assert ops == [ops[0]];
      NetOfFew(ops[0], ops[0], a, Avax);
    }
  }

  /** The operations of a trace are those of its prefix followed by those of its last call. */
  lemma LastCallOps(trace: seq<FlatCall>, start: int) returns (before: seq<Op>, ops: seq<Op>)
    requires trace != []
    ensures before == AllCallOps(trace[..|trace| - 1], start) && AllCallOps(trace, start) == before + ops
    ensures forall a :: Net(ops, a, Avax) == Effect(trace[|trace| - 1], a)
    ensures Total(ops, Avax) == 0 - Burned(trace[|trace| - 1])
  {
    hide *;
    before := AllCallOps(trace[..|trace| - 1], start);
    ops := CallOps(trace[|trace| - 1], start + |before|);
    OneMoreCall(trace, start, |trace| - 1);
    assert trace[..|trace| - 1 + 1] == trace;
    forall a ensures Net(ops, a, Avax) == Effect(trace[|trace| - 1], a) {
      CallOpsTotals(trace[|trace| - 1], start + |before|, a);
    }
    CallOpsTotals(trace[|trace| - 1], start + |before|, 0);
  }

  lemma {:induction false} CallsTotal(trace: seq<FlatCall>, start: int)
    ensures Total(AllCallOps(trace, start), Avax) == 0 - SelfBurned(trace)
  {
    if trace != [] {
      CallsTotal(trace[..|trace| - 1], start);
      var before, ops := LastCallOps(trace, start);
      TotalConcat(before, ops, Avax);
    }
  }

  lemma {:induction false} DestructsTotal(m: map<Address, int>, order: seq<Address>, start: int)
    ensures Total(DestructOps(m, order, start), Avax) == -HeldSum(m, order)
  {
    if order != [] {
      var n := |order| - 1;
      DestructsTotal(m, order[..n], start);
      var ops := DestructOps(m, order, start);
      assert ops[..|ops| - 1] == DestructOps(m, order[..n], start);
    }
  }

  lemma {:induction false} DestructsNet(m: map<Address, int>, order: seq<Address>, s: set<Address>, start: int,
                                        a: Address)
    requires Lists(order, s)
    ensures Net(DestructOps(m, order, start), a, Avax) == if a in s then -HeldIn(m, a) else 0
  {
    if order != [] {
      var n := |order| - 1;
      DestructsNet(m, order[..n], s - {order[n]}, start, a);
      var ops := DestructOps(m, order, start);
      assert ops[..|ops| - 1] == DestructOps(m, order[..n], start);
    }
  }

  lemma {:induction false} DestructOpAt(m: map<Address, int>, order: seq<Address>, s: set<Address>, start: int, k: nat)
    requires k < |order| && Lists(order, s)
    ensures order[k] in s && |DestructOps(m, order, start)| == |order|
    ensures DestructOps(m, order, start)[k] == DestructOp(order[k], HeldIn(m, order[k]), start + k)
    decreases |order|
  {
    var n := |order| - 1;
    DestructOpsDense(m, order[..n], start);
    if k < n { DestructOpAt(m, order[..n], s - {order[n]}, start, k); }
  }

  /** An outcome is the call operations followed by DESTRUCT operations. */
  lemma OutcomeParts(trace: seq<FlatCall>, start: int, ops: seq<Op>, order: seq<Address>)
    returns (calls: seq<Op>, tail: seq<Op>)
    requires OutcomeInOrder(trace, start, ops, order)
    ensures calls == AllCallOps(trace, start) && tail == DestructOps(Recorded(trace), order, start + |calls|)
    ensures ops == calls + tail && Lists(order, NonZero(Recorded(trace)))
  {
    hide AllCallOps, DestructOps, Recorded, NonZero, Lists;
    calls := AllCallOps(trace, start);
    tail := DestructOps(Recorded(trace), order, start + |calls|);
  }

  /** Whatever order the map is visited in, successful amounts cancel but for what was burned:
      self-beneficiary SELFDESTRUCTs and the balances left on destroyed accounts. */
  lemma TraceConservation(trace: seq<FlatCall>, start: int, ops: seq<Op>, order: seq<Address>)
    requires OutcomeInOrder(trace, start, ops, order)
    ensures Total(ops, Avax) == -(SelfBurned(trace) + HeldSum(Recorded(trace), order))
  {
    hide *;
    var calls, tail := OutcomeParts(trace, start, ops, order);
    TotalConcat(calls, tail, Avax);
    CallsTotal(trace, start);
    DestructsTotal(Recorded(trace), order, start + |calls|);
  }

  // ---------------------------------------------------------------- DESTRUCT against the last SELFDESTRUCT

  lemma {:induction false} CallsNetStep(trace: seq<FlatCall>, start: int, a: Address)
    requires trace != []
    ensures Net(AllCallOps(trace, start), a, Avax)
            == Net(AllCallOps(trace[..|trace| - 1], start), a, Avax) + Effect(trace[|trace| - 1], a)
  {
    var before, ops := LastCallOps(trace, start);
    NetConcat(before, ops, a, Avax);
  }

  ghost predicate CreatedAt(c: FlatCall, a: Address) {
    (c.kind == OpCreate || c.kind == OpCreate2) && c.to == a
  }

  /** The length of the trace up to and including the last SELFDESTRUCT of a. */
  ghost function LastDeath(trace: seq<FlatCall>, a: Address): nat
    requires Residual(trace, a).Some?
    ensures 0 < LastDeath(trace, a) <= |trace|
  {
    if SelfDestructOf(trace[|trace| - 1], a) then |trace| else LastDeath(trace[..|trace| - 1], a)
  }

  lemma {:induction false} LastDeathIsLast(trace: seq<FlatCall>, a: Address)
    requires Residual(trace, a).Some?
    ensures SelfDestructOf(trace[LastDeath(trace, a) - 1], a)
    ensures forall k :: LastDeath(trace, a) <= k < |trace| ==>
              !SelfDestructOf(trace[k], a) && !CreatedAt(trace[k], a)
  {
    if !SelfDestructOf(trace[|trace| - 1], a) {
      LastDeathIsLast(trace[..|trace| - 1], a);
    }
  }

  /** What the operations emitted after a's last SELFDESTRUCT put onto a. */
  ghost function GainSinceDeath(trace: seq<FlatCall>, start: int, a: Address): int
    requires Residual(trace, a).Some?
  {
    assert trace[..|trace|] == trace;
    PrefixOps(trace, start, LastDeath(trace, a), |trace|);
    Net(AllCallOps(trace, start)[|AllCallOps(trace[..LastDeath(trace, a)], start)|..], a, Avax)
  }

  lemma ResidualIsGainSinceDeath(trace: seq<FlatCall>, start: int, a: Address)
    requires Residual(trace, a).Some?
    ensures Residual(trace, a).value == GainSinceDeath(trace, start, a)
  {
    var d := LastDeath(trace, a);
    assert trace[..|trace|] == trace;
    PrefixOps(trace, start, d, |trace|);
    var all, dead := AllCallOps(trace, start), AllCallOps(trace[..d], start);
    assert Net(all, a, Avax) == Net(dead, a, Avax) + Net(all[|dead|..], a, Avax) by {
      assert all == dead + all[|dead|..];
      NetConcat(dead, all[|dead|..], a, Avax);
    }
    ResidualIsNetDifference(trace, start, a);
  }

  lemma {:induction false} ResidualIsNetDifference(trace: seq<FlatCall>, start: int, a: Address)
    requires Residual(trace, a).Some?
    ensures Residual(trace, a).value == Net(AllCallOps(trace, start), a, Avax)
                                        - Net(AllCallOps(trace[..LastDeath(trace, a)], start), a, Avax)
  {
    var d, n := LastDeath(trace, a), |trace| - 1;
    if d == |trace| {
      assert trace[..d] == trace;
    } else {
      ResidualIsNetDifference(trace[..n], start, a);
      assert trace[..n][..d] == trace[..d];
      CallsNetStep(trace, start, a);
    }
  }

  lemma NonZeroIsResidual(trace: seq<FlatCall>, a: Address)
    requires a in NonZero(Recorded(trace))
    ensures Residual(trace, a).Some? && HeldIn(Recorded(trace), a) == Residual(trace, a).value
  {
    RecordedExact(trace, a);
    hide Recorded, Residual;
  }

  lemma DestructFields(a: Address, residual: int, index: int)
    ensures DestructOp(a, residual, index)
            == Op(index, [], OpDestruct, true, a, Some(Amount(0 - residual, Avax)), None, None)
  {
  }

  /** After the call operations comes one DESTRUCT operation per listed account, and it takes exactly what the
      operations since that account's last SELFDESTRUCT put there. */
  lemma DestructCancelsGainsSinceDeath(trace: seq<FlatCall>, start: int, ops: seq<Op>, order: seq<Address>, k: nat)
    requires OutcomeInOrder(trace, start, ops, order) && k < |order|
    ensures Residual(trace, order[k]).Some? && |ops| == |AllCallOps(trace, start)| + |order|
    ensures var n := |AllCallOps(trace, start)| + k;
            ops[n] == Op(start + n, [], OpDestruct, true, order[k],
                         Some(Amount(0 - GainSinceDeath(trace, start, order[k]), Avax)), None, None)
  {
    hide *;
    var calls, tail := OutcomeParts(trace, start, ops, order);
    DestructOpAt(Recorded(trace), order, NonZero(Recorded(trace)), start + |calls|, k);
    NonZeroIsResidual(trace, order[k]);
    ResidualIsGainSinceDeath(trace, start, order[k]);
    assert ops[|calls| + k] == tail[k];
    DestructFields(order[k], GainSinceDeath(trace, start, order[k]), start + |calls| + k);
  }

  // ---------------------------------------------------------------- the EVM ledger

  /** Account balances before the transaction; absent accounts hold nothing. */
  type Ledger = map<Address, nat>

  function Opening(b: Ledger, a: Address): int {
    if a in b then b[a] else 0
  }

  /** Frames that run another account's code, or read only: in the EVM they pay nobody but the caller itself. */
  predicate PaysNobody(kind: OpKind) {
    kind == OpCallCode || kind == OpDelegateCall || kind == OpStaticCall
  }

  /** What a frame that takes effect moves onto a in the EVM. */
  function Transfer(c: FlatCall, a: Address): int {
    if c.revert || PaysNobody(c.kind) then 0
    else (if c.from == a then 0 - c.value else 0) + (if c.to == a then c.value else 0)
  }

  /** The balance the EVM gives a after the trace: reverted calls move nothing, and an account that
      self-destructs into itself is emptied. */
  function Balance(b: Ledger, trace: seq<FlatCall>, a: Address): int {
    if trace == [] then Opening(b, a)
    else
      var before, c := Balance(b, trace[..|trace| - 1], a), trace[|trace| - 1];
      if !c.revert && SelfDestructOf(c, a) && c.to == a then 0 else before + Transfer(c, a)
  }

  /** What the operations of one frame move onto a and the EVM does not: the mapper books a CALLCODE or DELEGATECALL
      with a value like a payment. */
  function PhantomOf(c: FlatCall, a: Address): int {
    if PaysNobody(c.kind) then Effect(c, a) else 0
  }

  function Phantom(trace: seq<FlatCall>, a: Address): int {
    if trace == [] then 0 else Phantom(trace[..|trace| - 1], a) + PhantomOf(trace[|trace| - 1], a)
  }

  /** No CALLCODE, DELEGATECALL or STATICCALL with a value that took effect names a on one side only. */
  ghost predicate NoPhantom(trace: seq<FlatCall>, a: Address) {
    forall i :: 0 <= i < |trace| && !trace[i].revert && PaysNobody(trace[i].kind) && trace[i].value > 0 ==>
      (trace[i].from == a <==> trace[i].to == a)
  }

  lemma {:induction false} NoneIsPhantom(trace: seq<FlatCall>, a: Address)
    requires NoPhantom(trace, a)
    ensures Phantom(trace, a) == 0
  {
    if trace != [] { NoneIsPhantom(trace[..|trace| - 1], a); }
  }

  /** What an account holds after the trace if frames are counted the way the mapper books them. */
  function Booked(b: Ledger, trace: seq<FlatCall>, a: Address): int {
    Balance(b, trace, a) + Phantom(trace, a)
  }

  /** A successful SELFDESTRUCT moves the whole balance of its account. */
  ghost predicate MovesWholeBalance(b: Ledger, trace: seq<FlatCall>) {
    forall i :: 0 <= i < |trace| && trace[i].kind == OpSelfDestruct && !trace[i].revert ==>
      trace[i].value == Balance(b, trace[..i], trace[i].from)
  }

  /** Frames whose value their sender must have: all but DELEGATECALL, which repeats the value of the frame around it,
      and STATICCALL. */
  predicate NeedsFunds(kind: OpKind) {
    kind != OpDelegateCall && kind != OpStaticCall
  }

  /** A frame that takes effect has its value covered by its sender. */
  ghost predicate Affordable(b: Ledger, trace: seq<FlatCall>) {
    forall i :: 0 <= i < |trace| && !trace[i].revert && NeedsFunds(trace[i].kind) ==>
      trace[i].value <= Balance(b, trace[..i], trace[i].from)
  }

  lemma ConsistentPrefix(b: Ledger, trace: seq<FlatCall>, n: nat)
    requires n <= |trace|
    ensures MovesWholeBalance(b, trace) ==> MovesWholeBalance(b, trace[..n])
    ensures Affordable(b, trace) ==> Affordable(b, trace[..n])
  {
    forall i | 0 <= i < n ensures trace[..n][..i] == trace[..i] {}
  }

  /** The operations of the calls put the EVM's balance and the phantom payments on a. */
  lemma {:induction false} BalanceIsOpeningPlusNet(b: Ledger, trace: seq<FlatCall>, start: int, a: Address)
    requires MovesWholeBalance(b, trace)
    ensures Balance(b, trace, a) + Phantom(trace, a) == Opening(b, a) + Net(AllCallOps(trace, start), a, Avax)
  {
    if trace == [] { return; }
    hide AllCallOps, Net;
    var n := |trace| - 1;
    ConsistentPrefix(b, trace, n);
    BalanceIsOpeningPlusNet(b, trace[..n], start, a);
    CallsNetStep(trace, start, a);
    hide MovesWholeBalance;
    BookedStep(b, trace, a);
  }

  lemma BookedStep(b: Ledger, trace: seq<FlatCall>, a: Address)
    requires trace != [] && MovesWholeBalance(b, trace)
    ensures Booked(b, trace, a) == Booked(b, trace[..|trace| - 1], a) + Effect(trace[|trace| - 1], a)
  {
  }

  lemma {:induction false} BalanceNonNegative(b: Ledger, trace: seq<FlatCall>, a: Address)
    requires Affordable(b, trace)
    ensures Balance(b, trace, a) >= 0
  {
    if trace != [] {
      var n := |trace| - 1;
      ConsistentPrefix(b, trace, n);
      BalanceNonNegative(b, trace[..n], a);
    }
  }

  lemma HeldIsGainSinceDeath(b: Ledger, trace: seq<FlatCall>, a: Address)
    requires MovesWholeBalance(b, trace) && Residual(trace, a).Some?
    ensures Held(trace, a) == Booked(b, trace, a) - Booked(b, trace[..LastDeath(trace, a)], a)
  {
    var d := LastDeath(trace, a);
    ResidualIsNetDifference(trace, 0, a);
    BalanceIsOpeningPlusNet(b, trace, 0, a);
    ConsistentPrefix(b, trace, d);
    BalanceIsOpeningPlusNet(b, trace[..d], 0, a);
  }

  ghost predicate BelowBalanceAtDeath(b: Ledger, trace: seq<FlatCall>, a: Address) {
    Residual(trace, a).Some? && Booked(b, trace, a) < Booked(b, trace[..LastDeath(trace, a)], a)
  }

  /** traceOps aborts exactly when an account is booked to end with less than it had at its last recorded
      SELFDESTRUCT. */
  lemma AbortsIffBelowBalanceAtDeath(b: Ledger, trace: seq<FlatCall>)
    requires MovesWholeBalance(b, trace)
    ensures (exists a :: Overdrawn(trace, a)) <==> (exists a :: BelowBalanceAtDeath(b, trace, a))
  {
    forall a
      ensures Overdrawn(trace, a) <==> BelowBalanceAtDeath(b, trace, a)
    {
      if Residual(trace, a).Some? { HeldIsGainSinceDeath(b, trace, a); }
    }
  }

  ghost predicate RevertsNoSelfDestruct(trace: seq<FlatCall>) {
    forall i :: 0 <= i < |trace| && trace[i].kind == OpSelfDestruct ==> !trace[i].revert
  }

  lemma DeathEmptiesAccount(b: Ledger, trace: seq<FlatCall>, a: Address)
    requires MovesWholeBalance(b, trace) && Residual(trace, a).Some?
    requires !trace[LastDeath(trace, a) - 1].revert
    ensures Balance(b, trace[..LastDeath(trace, a)], a) == 0
  {
    var d := LastDeath(trace, a);
    LastDeathIsLast(trace, a);
    assert trace[..d][..d - 1] == trace[..d - 1];
  }

  /** With no reverted SELFDESTRUCT and no phantom payment the recorded entry is the account's true balance at every
      step, so on affordable traces the fatal branch cannot be taken. */
  lemma AbortUnreachable(b: Ledger, trace: seq<FlatCall>, n: nat, a: Address)
    requires MovesWholeBalance(b, trace) && Affordable(b, trace) && RevertsNoSelfDestruct(trace)
    requires n <= |trace| && NoPhantom(trace, a)
    ensures Residual(trace[..n], a).Some? ==> Residual(trace[..n], a).value == Balance(b, trace[..n], a)
    ensures !Overdrawn(trace[..n], a)
  {
    var t := trace[..n];
    ConsistentPrefix(b, trace, n);
    BalanceNonNegative(b, t, a);
    if Residual(t, a).Some? {
      LastDeathIsLast(t, a);
      DeathEmptiesAccount(b, t, a);
      HeldIsGainSinceDeath(b, t, a);
      PhantomPrefix(trace, n, a);
      PhantomPrefix(trace, LastDeath(t, a), a);
      assert t[..LastDeath(t, a)] == trace[..LastDeath(t, a)];
    }
  }

  lemma PhantomPrefix(trace: seq<FlatCall>, n: nat, a: Address)
    requires n <= |trace| && NoPhantom(trace, a)
    ensures Phantom(trace[..n], a) == 0
  {
    NoneIsPhantom(trace[..n], a);
  }

  /** Without that condition the abort is reachable: a reverted SELFDESTRUCT followed by an ordinary payment. */
  lemma RevertedSelfDestructAborts()
    ensures var b: Ledger := map[1 := 5];
            var trace := [FlatCall(OpSelfDestruct, 1, 2, 5, 0, true, "execution reverted"),
                          FlatCall(OpCall, 1, 3, 3, 0, false, "")];
            MovesWholeBalance(b, trace) && Affordable(b, trace) && Overdrawn(trace, 1)
  {
    var b: Ledger := map[1 := 5];
    var trace := [FlatCall(OpSelfDestruct, 1, 2, 5, 0, true, "execution reverted"),
                  FlatCall(OpCall, 1, 3, 3, 0, false, "")];
    assert trace[..1] == [trace[0]] && trace[..1][..0] == [] && trace[..0] == [];
    assert Balance(b, trace[..1], 1) == 5;
    assert Residual(trace[..1], 1) == Some(0);
  }

  // ---------------------------------------------------------------- reconciliation with the EVM

  /** Destroyed when the transaction ends: successful SELFDESTRUCT, not created again since. */
  ghost predicate EvmDestroyed(trace: seq<FlatCall>, a: Address) {
    trace != [] &&
    var c := trace[|trace| - 1];
    if !c.revert && SelfDestructOf(c, a) then true
    else if !c.revert && CreatedAt(c, a) then false
    else EvmDestroyed(trace[..|trace| - 1], a)
  }

  ghost function EvmFinal(b: Ledger, trace: seq<FlatCall>, a: Address): int {
    if EvmDestroyed(trace, a) then 0 else Balance(b, trace, a)
  }

  lemma DestructsNetIsHeld(trace: seq<FlatCall>, order: seq<Address>, start: int, a: Address)
    requires Lists(order, NonZero(Recorded(trace)))
    ensures Net(DestructOps(Recorded(trace), order, start), a, Avax) == -Held(trace, a)
  {
    DestructsNet(Recorded(trace), order, NonZero(Recorded(trace)), start, a);
    RecordedExact(trace, a);
  }

  lemma OutcomeNet(trace: seq<FlatCall>, start: int, ops: seq<Op>, order: seq<Address>, a: Address)
    requires OutcomeInOrder(trace, start, ops, order)
    ensures Net(ops, a, Avax) == Net(AllCallOps(trace, start), a, Avax) - Held(trace, a)
  {
    hide *;
    var calls, tail := OutcomeParts(trace, start, ops, order);
    NetConcat(calls, tail, a, Avax);
    DestructsNetIsHeld(trace, order, start + |calls|, a);
  }

  /** What a Rosetta client that replays the operations ends up with, for every trace and account. */
  lemma ReplayedBalance(b: Ledger, trace: seq<FlatCall>, start: int, ops: seq<Op>, a: Address)
    requires Outcome(trace, start, ops) && MovesWholeBalance(b, trace)
    ensures Opening(b, a) + Net(ops, a, Avax)
            == if Residual(trace, a).Some? then Booked(b, trace[..LastDeath(trace, a)], a) else Booked(b, trace, a)
  {
    var order :| OutcomeInOrder(trace, start, ops, order);
    OutcomeNet(trace, start, ops, order, a);
    BalanceIsOpeningPlusNet(b, trace, start, a);
    if Residual(trace, a).Some? { HeldIsGainSinceDeath(b, trace, a); }
  }

  /** The exact condition under which the replayed balance of a is the one the EVM leaves behind. */
  lemma ReplayAgreesIff(b: Ledger, trace: seq<FlatCall>, start: int, ops: seq<Op>, a: Address)
    requires Outcome(trace, start, ops) && MovesWholeBalance(b, trace)
    ensures Opening(b, a) + Net(ops, a, Avax) == EvmFinal(b, trace, a) <==>
            (if Residual(trace, a).Some? then Booked(b, trace[..LastDeath(trace, a)], a) else Booked(b, trace, a))
            == if EvmDestroyed(trace, a) then 0 else Balance(b, trace, a)
    ensures Residual(trace, a).None? ==>
              (Opening(b, a) + Net(ops, a, Avax) == EvmFinal(b, trace, a) <==>
               Phantom(trace, a) == if EvmDestroyed(trace, a) then 0 - Balance(b, trace, a) else 0)
  {
    ReplayedBalance(b, trace, start, ops, a);
  }

  /** No SELFDESTRUCT of a and no creation of a was reverted. */
  ghost predicate RevertsNoLifecycle(trace: seq<FlatCall>, a: Address) {
    forall i :: 0 <= i < |trace| && trace[i].revert ==> !SelfDestructOf(trace[i], a) && !CreatedAt(trace[i], a)
  }

  lemma {:induction false} RecordedIsDestroyed(trace: seq<FlatCall>, a: Address)
    requires RevertsNoLifecycle(trace, a)
    ensures Residual(trace, a).Some? <==> EvmDestroyed(trace, a)
  {
    if trace != [] { RecordedIsDestroyed(trace[..|trace| - 1], a); }
  }

  /** Replaying the operations gives an account its EVM balance, destroyed or not, as long as the calls that destroy or
      create it all took effect and no phantom payment names it. */
  lemma ReplayReachesEvmBalance(b: Ledger, trace: seq<FlatCall>, start: int, ops: seq<Op>, a: Address)
    requires Outcome(trace, start, ops) && MovesWholeBalance(b, trace) && RevertsNoLifecycle(trace, a)
    requires NoPhantom(trace, a)
    ensures Opening(b, a) + Net(ops, a, Avax) == EvmFinal(b, trace, a)
  {
    ReplayedBalance(b, trace, start, ops, a);
    RecordedIsDestroyed(trace, a);
    NoneIsPhantom(trace, a);
    if Residual(trace, a).Some? {
      LastDeathIsLast(trace, a);
      DeathEmptiesAccount(b, trace, a);
      PhantomPrefix(trace, LastDeath(trace, a), a);
    }
  }

  function WipedTrace(): seq<FlatCall> {
    [FlatCall(OpSelfDestruct, 1, 2, 5, 0, true, "execution reverted"), FlatCall(OpCall, 3, 1, 4, 0, false, "")]
  }

  /** A reverted SELFDESTRUCT makes the mapper wipe money the account received afterwards and still owns. */
  lemma RevertedSelfDestructWipesGains(start: int, ops: seq<Op>)
    requires Outcome(WipedTrace(), start, ops)
    ensures var b: Ledger := map[1 := 5, 3 := 4];
            && MovesWholeBalance(b, WipedTrace()) && Affordable(b, WipedTrace()) && NoPhantom(WipedTrace(), 1)
            && Opening(b, 1) + Net(ops, 1, Avax) == 5
            && EvmFinal(b, WipedTrace(), 1) == 9
  {
    var b: Ledger := map[1 := 5, 3 := 4];
    WipedFacts(b, WipedTrace());
    NoneIsPhantom(WipedTrace(), 1);
    PhantomPrefix(WipedTrace(), 1, 1);
    hide Outcome, Net, Balance, Phantom, Residual, EvmDestroyed, WipedTrace;
    ReplayedBalance(b, WipedTrace(), start, ops, 1);
  }

  lemma WipedFacts(b: Ledger, trace: seq<FlatCall>)
    requires b == map[1 := 5, 3 := 4] && trace == WipedTrace()
    ensures MovesWholeBalance(b, trace) && Affordable(b, trace) && NoPhantom(trace, 1)
    ensures Residual(trace, 1).Some? && LastDeath(trace, 1) == 1 && !EvmDestroyed(trace, 1)
    ensures Balance(b, trace[..1], 1) == 5 && Balance(b, trace, 1) == 9
  {
    BalanceStep(b, trace, 0, 1);
    BalanceStep(b, trace, 0, 3);
    BalanceStep(b, trace, 1, 1);
    WipedLifecycle(trace);
    hide Balance, Residual, EvmDestroyed, LastDeath;
    assert trace[..2] == trace && trace[..0] == [];
  }

  lemma WipedLifecycle(trace: seq<FlatCall>)
    requires trace == WipedTrace()
    ensures Residual(trace, 1).Some? && LastDeath(trace, 1) == 1 && !EvmDestroyed(trace, 1)
  {
    var one := trace[..1];
    assert one[..0] == [] && Residual(one, 1) == Some(0) && LastDeath(one, 1) == 1 && !EvmDestroyed(one, 1);
  }

  function KeptTrace(): seq<FlatCall> {
    [FlatCall(OpSelfDestruct, 1, 2, 5, 0, false, ""), FlatCall(OpCall, 3, 1, 4, 0, false, ""),
     FlatCall(OpCreate2, 9, 1, 0, 0, true, "execution reverted")]
  }

  /** A reverted creation makes the mapper forget a destroyed account, and the money it received afterwards and lost. */
  lemma RevertedCreateKeepsGains(start: int, ops: seq<Op>)
    requires Outcome(KeptTrace(), start, ops)
    ensures var b: Ledger := map[1 := 5, 3 := 4];
            && MovesWholeBalance(b, KeptTrace()) && Affordable(b, KeptTrace()) && NoPhantom(KeptTrace(), 1)
            && RevertsNoSelfDestruct(KeptTrace())
            && Opening(b, 1) + Net(ops, 1, Avax) == 4
            && EvmFinal(b, KeptTrace(), 1) == 0
  {
    var b: Ledger := map[1 := 5, 3 := 4];
    assert NoPhantom(KeptTrace(), 1) && RevertsNoSelfDestruct(KeptTrace());
    NoneIsPhantom(KeptTrace(), 1);
    LivesOfOne(b, KeptTrace());
    hide Balance, Residual, Net, Outcome, Phantom, KeptTrace, NoPhantom, EvmDestroyed;
    ReplayedBalance(b, KeptTrace(), start, ops, 1);
  }

  lemma LivesOfOne(b: Ledger, trace: seq<FlatCall>)
    requires b == map[1 := 5, 3 := 4] && trace == KeptTrace()
    ensures MovesWholeBalance(b, trace) && Affordable(b, trace) && RevertsNoSelfDestruct(trace)
    ensures Balance(b, trace, 1) == 4 && Residual(trace, 1).None? && EvmDestroyed(trace, 1)
  {
    BalancesOfOne(b, trace);
    LifecycleOfOne(trace);
    hide Balance, Residual, EvmDestroyed;
    assert trace[..0] == [] && trace[..3] == trace;
  }

  lemma BalancesOfOne(b: Ledger, trace: seq<FlatCall>)
    requires b == map[1 := 5, 3 := 4] && trace == KeptTrace()
    ensures Balance(b, trace[..0], 1) == 5 && Balance(b, trace[..1], 3) == 4 && Balance(b, trace[..2], 9) == 0
    ensures Balance(b, trace[..3], 1) == 4
  {
    hide Balance;
    BalanceStep(b, trace, 0, 1);
    BalanceStep(b, trace, 1, 1);
    BalanceStep(b, trace, 2, 1);
    BalanceStep(b, trace, 0, 3);
    BalanceStep(b, trace, 0, 9);
    BalanceStep(b, trace, 1, 9);
  }

  lemma BalanceStep(b: Ledger, trace: seq<FlatCall>, i: nat, a: Address)
    requires i < |trace|
    ensures Balance(b, trace[..0], a) == Opening(b, a)
    ensures Balance(b, trace[..i + 1], a)
            == if trace[i].revert then Balance(b, trace[..i], a)
               else if SelfDestructOf(trace[i], a) && trace[i].to == a then 0
               else Balance(b, trace[..i], a) + Transfer(trace[i], a)
  {
    hide SelfDestructOf;
    assert trace[..i + 1][..i] == trace[..i];
  }

  lemma LifecycleOfOne(trace: seq<FlatCall>)
    requires trace == KeptTrace()
    ensures Residual(trace, 1).None? && EvmDestroyed(trace, 1)
  {
    var one, two := trace[..1], trace[..2];
    assert two[..1] == one && trace[..2] == two;
    assert EvmDestroyed(one, 1) && EvmDestroyed(two, 1);
  }

  // ---------------------------------------------------------------- phantom payments

  /** One CALLCODE with a value: the mapper books a payment from 1 to 2 that the EVM does not make. */
  lemma CallCodeIsBooked(start: int, ops: seq<Op>)
    requires Outcome([FlatCall(OpCallCode, 1, 2, 5, 0, false, "")], start, ops)
    ensures var b: Ledger := map[1 := 5];
            var trace := [FlatCall(OpCallCode, 1, 2, 5, 0, false, "")];
            && MovesWholeBalance(b, trace) && Affordable(b, trace) && RevertsNoLifecycle(trace, 1)
            && RevertsNoLifecycle(trace, 2)
            && Opening(b, 1) + Net(ops, 1, Avax) == 0 && EvmFinal(b, trace, 1) == 5
            && Opening(b, 2) + Net(ops, 2, Avax) == 5 && EvmFinal(b, trace, 2) == 0
  {
    var b: Ledger := map[1 := 5];
    var trace := [FlatCall(OpCallCode, 1, 2, 5, 0, false, "")];
    assert trace[..0] == [];
    assert Phantom(trace, 1) == 0 - 5 && Phantom(trace, 2) == 5;
    assert Balance(b, trace, 1) == 5 && Balance(b, trace, 2) == 0;
    assert Residual(trace, 1).None? && Residual(trace, 2).None? && !EvmDestroyed(trace, 1) && !EvmDestroyed(trace, 2);
    hide Balance, Phantom, Residual, Outcome, Net, EvmDestroyed;
    ReplayedBalance(b, trace, start, ops, 1);
    ReplayedBalance(b, trace, start, ops, 2);
  }

  function CallCodeTrace(): seq<FlatCall> {
    [FlatCall(OpSelfDestruct, 1, 2, 5, 0, false, ""), FlatCall(OpCall, 3, 1, 5, 0, false, ""),
     FlatCall(OpCallCode, 1, 4, 5, 0, false, ""), FlatCall(OpCallCode, 1, 4, 5, 0, false, "")]
  }

  /** Nothing is reverted and everything is covered, and two CALLCODEs overdraw a destroyed account: an abort. */
  lemma CallCodeAborts()
    ensures var b: Ledger := map[1 := 5, 3 := 5];
            var trace := CallCodeTrace();
            && MovesWholeBalance(b, trace) && Affordable(b, trace) && RevertsNoSelfDestruct(trace)
            && (forall a :: RevertsNoLifecycle(trace, a))
            && Overdrawn(trace, 1)
  {
    var b: Ledger := map[1 := 5, 3 := 5];
    CallCodeBalances(b, CallCodeTrace());
    CallCodeOverdraws(CallCodeTrace());
    hide Balance, Residual;
  }

  lemma CallCodeOverdraws(trace: seq<FlatCall>)
    requires trace == CallCodeTrace()
    ensures Overdrawn(trace, 1)
  {
    ResidualNext(trace, 0, 1);
    ResidualNext(trace, 1, 1);
    ResidualNext(trace, 2, 1);
    ResidualNext(trace, 3, 1);
    hide Residual;
    assert trace[..4] == trace;
  }

  lemma CallCodeBalances(b: Ledger, trace: seq<FlatCall>)
    requires b == map[1 := 5, 3 := 5] && trace == CallCodeTrace()
    ensures Balance(b, trace[..0], 1) == Balance(b, trace[..1], 3) == 5
    ensures Balance(b, trace[..2], 1) == Balance(b, trace[..3], 1) == 5
  {
    hide Balance;
    BalanceStep(b, trace, 0, 1);
    BalanceStep(b, trace, 0, 3);
    BalanceStep(b, trace, 1, 1);
    BalanceStep(b, trace, 2, 1);
  }
}
