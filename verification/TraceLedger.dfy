/** mapper/transaction.go, traceOps: from a flat call trace to debit, credit and DESTRUCT operations. */
module TraceLedger {
  import opened Prelude
  import opened CallTree
  import opened EvmOperations

  // ---------------------------------------------------------------- reference definitions

  predicate SelfDestructOf(c: FlatCall, a: Address) {
    c.kind == OpSelfDestruct && c.from == a
  }

  predicate Skipped(c: FlatCall) {
    c.value == 0 && CallType(c.kind)
  }

  /** A SELFDESTRUCT into itself is never credited. */
  predicate Uncredited(c: FlatCall) {
    c.kind == OpSelfDestruct && c.from == c.to
  }

  function AvaxOf(c: FlatCall, value: int): Option<Amount> {
    if c.value == 0 then None else Some(Amount(value, Avax))
  }

  function NoteOf(c: FlatCall): Option<string> {
    if c.revert then Some(c.error) else None
  }

  /** The operations one call contributes when the next free identifier is index. */
  function CallOps(c: FlatCall, index: int): seq<Op> {
    if Skipped(c) then []
    else
      var debit := Op(index, [], c.kind, !c.revert, c.from, AvaxOf(c, 0 - c.value), NoteOf(c), None);
      var credit := Op(index + 1, [index], c.kind, !c.revert, c.to, AvaxOf(c, c.value), NoteOf(c), None);
      if Uncredited(c) then [debit] else [debit, credit]
  }

  function AllCallOps(trace: seq<FlatCall>, start: int): seq<Op> {
    if trace == [] then []
    else
      var before := AllCallOps(trace[..|trace| - 1], start);
      before + CallOps(trace[|trace| - 1], start + |before|)
  }

  /** What a successful call moves onto account a. */
  function Effect(c: FlatCall, a: Address): int {
    if c.revert then 0
    else
      var v: int := c.value;
      (if c.from == a then -v else 0) + (if c.to == a && !Uncredited(c) then v else 0)
  }

  /** The balance the mapper attributes to a destroyed account: what it gained since its last SELFDESTRUCT,
      or None when it never self-destructed or was created again afterwards. */
  function Residual(trace: seq<FlatCall>, a: Address): Option<int> {
    if trace == [] then None
    else
      var before, c := Residual(trace[..|trace| - 1], a), trace[|trace| - 1];
      if SelfDestructOf(c, a) then Some(0)
      else if CreateType(c.kind) && c.to == a then None
      else if before.None? then None
      else Some(before.value + Effect(c, a))
  }

  function Held(trace: seq<FlatCall>, a: Address): int {
    var r := Residual(trace, a);
    if r.Some? then r.value else 0
  }

  ghost predicate Overdrawn(trace: seq<FlatCall>, a: Address) {
    Held(trace, a) < 0
  }

  function Senders(trace: seq<FlatCall>): set<Address> {
    set c | c in trace :: c.from
  }

  /** All accounts recorded as destroyed, with the balances attributed to them. */
  function Recorded(trace: seq<FlatCall>): map<Address, int> {
    map a | a in Senders(trace) && Residual(trace, a).Some? :: Residual(trace, a).value
  }

  lemma {:induction false} RecordedOnlyForSenders(trace: seq<FlatCall>, a: Address)
    requires Residual(trace, a).Some?
    ensures a in Senders(trace)
  {
    var n := |trace| - 1;
    if SelfDestructOf(trace[n], a) {
      assert trace[n] in trace;
    } else {
      RecordedOnlyForSenders(trace[..n], a);
      assert Senders(trace[..n]) <= Senders(trace);
    }
  }

  lemma RecordedExact(trace: seq<FlatCall>, a: Address)
    ensures a in Recorded(trace) <==> Residual(trace, a).Some?
    ensures HeldIn(Recorded(trace), a) == Held(trace, a)
  {
    if Residual(trace, a).Some? { RecordedOnlyForSenders(trace, a); }
  }

  function HeldIn(m: map<Address, int>, a: Address): int {
    if a in m then m[a] else 0
  }

  function NonZero(m: map<Address, int>): set<Address> {
    set a | a in m && m[a] != 0
  }

  /** order lists the members of s, each exactly once. */
  ghost predicate Lists(order: seq<Address>, s: set<Address>) {
    if order == [] then s == {}
    else order[|order| - 1] in s && Lists(order[..|order| - 1], s - {order[|order| - 1]})
  }

  function DestructOp(a: Address, residual: int, index: int): Op {
    Op(index, [], OpDestruct, true, a, Some(Amount(-residual, Avax)), None, None)
  }

  function DestructOps(m: map<Address, int>, order: seq<Address>, start: int): seq<Op> {
    if order == [] then []
    else
      var n := |order| - 1;
      DestructOps(m, order[..n], start) + [DestructOp(order[n], HeldIn(m, order[n]), start + n)]
  }

  /** Everything traceOps may return: the call operations, then DESTRUCT operations in some map order. */
  ghost predicate OutcomeInOrder(trace: seq<FlatCall>, start: int, ops: seq<Op>, order: seq<Address>) {
    && Lists(order, NonZero(Recorded(trace)))
    && var calls := AllCallOps(trace, start);
       ops == calls + DestructOps(Recorded(trace), order, start + |calls|)
  }

  ghost predicate Outcome(trace: seq<FlatCall>, start: int, ops: seq<Op>) {
    exists order :: OutcomeInOrder(trace, start, ops, order)
  }

  // ---------------------------------------------------------------- the algorithm

  /** Fatal stands for the log.Fatalf that ends the process. */
  datatype TraceResult = Done(ops: seq<Op>) | Fatal(account: Address)

  ghost predicate Tracks(destroyed: map<Address, int>, trace: seq<FlatCall>) {
    forall a :: (a in destroyed <==> Residual(trace, a).Some?)
             && (a in destroyed ==> destroyed[a] == Residual(trace, a).value)
  }

  method TraceOps(trace: seq<FlatCall>, start: int) returns (r: TraceResult)
    ensures r.Done? ==> Outcome(trace, start, r.ops) && forall a :: !Overdrawn(trace, a)
    ensures r.Fatal? ==> Overdrawn(trace, r.account)
  {
    hide *;
    var ops: seq<Op> := [];
    if |trace| == 0 {
      NothingToDo(start);
      return Done(ops);
    }
    var destroyed: map<Address, int> := map[];
    var i := 0;
    NothingToDo(start);
    while i < |trace|
      invariant 0 <= i <= |trace|
      invariant ops == AllCallOps(trace[..i], start)
      invariant Tracks(destroyed, trace[..i])
    {
      ghost var before := destroyed;
      ops, destroyed := RecordCall(trace[i], start, ops, destroyed);
      StepTracks(trace, start, i, before, destroyed);
      i := i + 1;
    }
    assert trace[..i] == trace;
    LoopDone(trace, start, destroyed);
    ghost var order;
    r, order := ZeroOut(start, ops, destroyed);
    if r.Done? {
      OutcomeReached(trace, start, order);
    } else {
      RecordedOverdraft(trace, r.account);
    }
  }

  lemma RecordedOverdraft(trace: seq<FlatCall>, a: Address)
    requires a in Recorded(trace) && Recorded(trace)[a] < 0
    ensures Overdrawn(trace, a)
  {
  }

  lemma LoopDone(trace: seq<FlatCall>, start: int, destroyed: map<Address, int>)
    requires Tracks(destroyed, trace)
    ensures destroyed == Recorded(trace)
    ensures var ops := AllCallOps(trace, start);
            && (ops != [] ==> ops[|ops| - 1].index == start + |ops| - 1)
            && (NonZero(destroyed) != {} ==> ops != [])
  {
    forall a ensures a in destroyed <==> a in Recorded(trace) { RecordedExact(trace, a); }
    CallOpsDense(trace, start);
    if a :| a in NonZero(destroyed) { ResidualLeavesOps(trace, start, a); }
  }

  lemma OutcomeReached(trace: seq<FlatCall>, start: int, order: seq<Address>)
    requires Lists(order, NonZero(Recorded(trace)))
    requires forall a :: a in Recorded(trace) ==> Recorded(trace)[a] >= 0
    ensures var calls := AllCallOps(trace, start);
            Outcome(trace, start, calls + DestructOps(Recorded(trace), order, start + |calls|))
    ensures forall a :: !Overdrawn(trace, a)
  {
    var calls := AllCallOps(trace, start);
    assert OutcomeInOrder(trace, start, calls + DestructOps(Recorded(trace), order, start + |calls|), order);
    forall a ensures !Overdrawn(trace, a) { RecordedExact(trace, a); }
  }

  lemma NothingToDo(start: int)
    ensures Tracks(map[], []) && AllCallOps([], start) == []
    ensures Outcome([], start, []) && forall a :: !Overdrawn([], a)
  {
    assert NonZero(Recorded([])) == {};
    OutcomeReached([], start, []);
  }

  /** How one call changes the map of destroyed accounts, account by account. */
  ghost predicate Updates(call: FlatCall, before: map<Address, int>, after: map<Address, int>) {
    && (forall a :: a in after <==>
          SelfDestructOf(call, a) || (a in before && !(CreateType(call.kind) && call.to == a)))
    && (forall a :: a in after ==>
          after[a] == if SelfDestructOf(call, a) then 0 else before[a] + Effect(call, a))
  }

  lemma ResidualNext(trace: seq<FlatCall>, i: nat, a: Address)
    requires i < |trace|
    ensures Residual(trace[..i + 1], a)
            == var before := Residual(trace[..i], a);
               if SelfDestructOf(trace[i], a) then Some(0)
               else if (CreateType(trace[i].kind) && trace[i].to == a) || before.None? then None
               else Some(before.value + Effect(trace[i], a))
  {
    hide SelfDestructOf, CreateType, Effect;
    assert trace[..i + 1][..i] == trace[..i];
  }

  lemma StepTracks(trace: seq<FlatCall>, start: int, i: nat, before: map<Address, int>, after: map<Address, int>)
    requires i < |trace| && Tracks(before, trace[..i]) && Updates(trace[i], before, after)
    ensures Tracks(after, trace[..i + 1])
    ensures AllCallOps(trace[..i + 1], start)
            == AllCallOps(trace[..i], start) + CallOps(trace[i], start + |AllCallOps(trace[..i], start)|)
  {
    hide Residual, CallOps, Effect, SelfDestructOf, CreateType;
    assert trace[..i + 1][..i] == trace[..i];
    forall a ensures a in after <==> Residual(trace[..i + 1], a).Some?
      ensures a in after ==> after[a] == Residual(trace[..i + 1], a).value
    {
      ResidualNext(trace, i, a);
    }
  }

  /** One round of the loop of traceOps. */
  method RecordCall(call: FlatCall, start: int, ops0: seq<Op>, destroyed0: map<Address, int>)
    returns (ops: seq<Op>, destroyed: map<Address, int>)
    ensures ops == ops0 + CallOps(call, start + |ops0|)
    ensures Updates(call, destroyed0, destroyed)
  {
    ops, destroyed := ops0, destroyed0;
    var value: int := call.value;
    var zeroValue := value == 0;
    var shouldAdd := !(zeroValue && CallType(call.kind));
    var note := if call.revert then Some(call.error) else None;
    if shouldAdd {
      var fromOp := Op(|ops| + start, [], call.kind, !call.revert, call.from,
                       if zeroValue then None else Some(Amount(-value, Avax)), note, None);
      if !zeroValue && call.from in destroyed && !call.revert {
        destroyed := destroyed[call.from := destroyed[call.from] - value];
      }
      ops := ops + [fromOp];
    }
    if call.kind == OpSelfDestruct {
      destroyed := destroyed[call.from := 0];
      if call.from == call.to {
        return;
      }
    }
    if CreateType(call.kind) {
      destroyed := destroyed - {call.to};
    }
    if shouldAdd {
      var lastOpIndex := ops[|ops| - 1].index;
      var toOp := Op(lastOpIndex + 1, [lastOpIndex], call.kind, !call.revert, call.to,
                     if zeroValue then None else Some(Amount(value, Avax)), note, None);
      if !zeroValue && call.to in destroyed && !call.revert {
        destroyed := destroyed[call.to := destroyed[call.to] + value];
      }
      ops := ops + [toOp];
    }
  }

  /** order lists the non-zero accounts of m outside todo, none of which is negative. */
  ghost predicate Visited(m: map<Address, int>, todo: set<Address>, order: seq<Address>) {
    && Lists(order, NonZero(m) - todo)
    && forall a :: a in m && a !in todo ==> m[a] >= 0
  }

  lemma VisitNext(m: map<Address, int>, todo: set<Address>, order: seq<Address>, a: Address)
    requires Visited(m, todo, order) && a in todo && a in m && m[a] >= 0
    ensures Visited(m, todo - {a}, if m[a] == 0 then order else order + [a])
  {
    var next := NonZero(m) - (todo - {a});
    if m[a] == 0 {
      assert next == NonZero(m) - todo;
    } else {
      assert (order + [a])[..|order|] == order;
      assert next - {a} == NonZero(m) - todo;
    }
  }

  lemma NoneVisited(m: map<Address, int>)
    ensures Visited(m, m.Keys, [])
  {
    assert NonZero(m) - m.Keys == {};
  }

  lemma AllVisited(m: map<Address, int>, order: seq<Address>)
    requires Visited(m, {}, order)
    ensures Lists(order, NonZero(m)) && forall a :: a in m ==> m[a] >= 0
  {
    assert NonZero(m) - {} == NonZero(m);
  }

  /** The final loop over the map; Go visits the keys in an unspecified order. */
  method ZeroOut(start: int, calls: seq<Op>, destroyed: map<Address, int>)
    returns (r: TraceResult, ghost order: seq<Address>)
    requires calls != [] ==> calls[|calls| - 1].index == start + |calls| - 1
    requires NonZero(destroyed) != {} ==> calls != []
    ensures r.Fatal? ==> r.account in destroyed && destroyed[r.account] < 0
    ensures r.Done? ==> Lists(order, NonZero(destroyed)) && forall a :: a in destroyed ==> destroyed[a] >= 0
    ensures r.Done? ==> r.ops == calls + DestructOps(destroyed, order, start + |calls|)
  {
    var ops := calls;
    order := [];
    var todo := destroyed.Keys;
    NoneVisited(destroyed);
    hide Visited, Lists;
    while todo != {}
      invariant todo <= destroyed.Keys
      invariant Visited(destroyed, todo, order)
      invariant ops == calls + DestructOps(destroyed, order, start + |calls|)
      decreases |todo|
    {
      var acct :| acct in todo;
      var val := destroyed[acct];
      if val < 0 {
        return Fatal(acct), [];
      }
      VisitNext(destroyed, todo, order, acct);
      todo := todo - {acct};
      if val == 0 {
        continue;
      }
      assert acct in NonZero(destroyed);
      NextDestruct(start, calls, destroyed, order, acct);
      ops := ops + [Op(ops[|ops| - 1].index + 1, [], OpDestruct, true, acct, Some(Amount(-val, Avax)), None, None)];
      order := order + [acct];
    }
    AllVisited(destroyed, order);
    r := Done(ops);
  }

  /** A destroyed account can only hold something if some call was worth an operation. */
  lemma {:induction false} ResidualLeavesOps(trace: seq<FlatCall>, start: int, a: Address)
    requires Held(trace, a) != 0
    ensures AllCallOps(trace, start) != []
  {
    var c := trace[|trace| - 1];
    if Skipped(c) { ResidualLeavesOps(trace[..|trace| - 1], start, a); }
  }

  lemma {:induction false} CallOpsDense(trace: seq<FlatCall>, start: int)
    ensures Dense(AllCallOps(trace, start), start)
  {
    if trace != [] {
      CallOpsDense(trace[..|trace| - 1], start);
      var before := AllCallOps(trace[..|trace| - 1], start);
      DenseConcat(before, CallOps(trace[|trace| - 1], start + |before|), start);
    }
  }

  lemma {:induction false} DestructOpsDense(m: map<Address, int>, order: seq<Address>, start: int)
    ensures |DestructOps(m, order, start)| == |order| && Dense(DestructOps(m, order, start), start)
  {
    if order != [] { DestructOpsDense(m, order[..|order| - 1], start); }
  }

  /** The last operation always exists and carries the highest identifier. */
  lemma NextDestruct(start: int, calls: seq<Op>, m: map<Address, int>, order: seq<Address>, a: Address)
    requires calls != [] && calls[|calls| - 1].index == start + |calls| - 1
    ensures var ops := calls + DestructOps(m, order, start + |calls|);
            calls + DestructOps(m, order + [a], start + |calls|)
            == ops + [DestructOp(a, HeldIn(m, a), ops[|ops| - 1].index + 1)]
  {
    DestructOpsDense(m, order, start + |calls|);
    assert (order + [a])[..|order|] == order;
  }
}
