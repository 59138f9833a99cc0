/** What token logs show, operation by operation, and whom ERC-721 tokens end up with (mapper/transaction.go). */
module EvmTokens {
  import opened Prelude
  import opened CallTree
  import opened EvmOperations
  import opened TraceLedger
  import opened TraceProperties
  import opened EvmTransaction

  // ---------------------------------------------------------------- what each log shows

  function SenderOf(log: Log): Address
    requires |log.topics| > 1
  {
    log.topics[1] % ADDRESS_RANGE
  }

  function ReceiverOf(log: Log): Address
    requires |log.topics| > 2
  {
    log.topics[2] % ADDRESS_RANGE
  }

  predicate IsTokenLog(log: Log, s: Settings) {
    Admitted(log, s, 3, s.erc20) || Admitted(log, s, 4, s.erc721)
  }

  /** Mints and burns show one operation, other transfers two, and logs that are not admitted none. */
  function ShownByLog(log: Log, s: Settings): nat {
    if !IsTokenLog(log, s) then 0 else if SenderOf(log) == 0 || ReceiverOf(log) == 0 then 1 else 2
  }

  function ShownByLogs(logs: seq<Log>, s: Settings): nat {
    if logs == [] then 0 else ShownByLogs(logs[..|logs| - 1], s) + ShownByLog(logs[|logs| - 1], s)
  }

  /** op is a successful operation on one side of an admitted log. */
  predicate ShowsParty(op: Op, log: Log, s: Settings, index: int, related: seq<int>, kind20: OpKind, kind721: OpKind,
                       account: Address, value: int)
    requires IsTokenLog(log, s)
  {
    && op.index == index && op.related == related && op.success && op.account == account && op.note.None?
    && if |log.topics| == 3 then
         var info := s.erc20[log.contract];
         && op.kind == kind20 && op.nft.None?
         && op.amount == Some(Amount(value, Token(info.symbol, info.decimals, log.contract)))
       else op.kind == kind721 && op.amount.None? && op.nft == Some(Nft(log.contract, log.topics[3]))
  }

  /** From position n on, ops shows the log. */
  predicate ShowsLog(ops: seq<Op>, n: nat, log: Log, s: Settings) {
    IsTokenLog(log, s) ==>
      var from, to, value: int := SenderOf(log), ReceiverOf(log), log.value;
      && n + ShownByLog(log, s) <= |ops|
      && if from == 0 then ShowsParty(ops[n], log, s, n, [], OpErc20Mint, OpErc721Mint, to, value)
         else if to == 0 then ShowsParty(ops[n], log, s, n, [], OpErc20Burn, OpErc721Burn, from, 0 - value)
         else
           && ShowsParty(ops[n], log, s, n, [], OpErc20Transfer, OpErc721TransferSender, from, 0 - value)
           && ShowsParty(ops[n + 1], log, s, n + 1, [n], OpErc20Transfer, OpErc721TransferReceive, to, value)
  }

  lemma LogOpsShow(log: Log, s: Settings, before: seq<Op>)
    ensures |LogOps(log, s, |before|)| == ShownByLog(log, s)
    ensures ShowsLog(before + LogOps(log, s, |before|), |before|, log, s)
  {
    Treated(log, s);
    hide TreatmentOf, Looked;
    var ops := LogOps(log, s, |before|);
    assert |ops| > 0 ==> (before + ops)[|before|] == ops[0];
    assert |ops| > 1 ==> (before + ops)[|before| + 1] == ops[1];
  }

  lemma {:induction false} LogsCount(logs: seq<Log>, s: Settings, index: int)
    requires index >= 0
    ensures |AllLogOps(logs, s, index)| == ShownByLogs(logs, s)
  {
    if logs == [] { return; }
    hide *;
    LogsCount(logs[..|logs| - 1], s, index);
    var before, ops := LastLog(logs, s, index);
    LogOpsShow(logs[|logs| - 1], s, seq(index + |before|, i => FeeOp()));
    LastLogCounts(logs, s);
  }

  function FeeOp(): Op {
    Op(0, [], OpFee, true, 0, None, None, None)
  }

  lemma LastLogCounts(logs: seq<Log>, s: Settings)
    requires logs != []
    ensures ShownByLogs(logs, s) == ShownByLogs(logs[..|logs| - 1], s) + ShownByLog(logs[|logs| - 1], s)
  {
    hide ShownByLog;
  }

  lemma {:induction false} LogsPrefix(logs: seq<Log>, s: Settings, index: int, i: nat, j: nat)
    requires i <= j <= |logs|
    ensures AllLogOps(logs[..i], s, index) <= AllLogOps(logs[..j], s, index)
    decreases j
  {
    hide LogOps;
    if i < j {
      assert logs[..j][..j - 1] == logs[..j - 1];
      LogsPrefix(logs, s, index, i, j - 1);
    }
  }

  lemma ShowsLogMore(ops: seq<Op>, all: seq<Op>, n: nat, log: Log, s: Settings)
    requires ShowsLog(ops, n, log, s) && ops <= all
    ensures ShowsLog(all, n, log, s)
  {
    hide ShowsParty, IsTokenLog, Admitted;
  }

  /** A mapped transaction begins with the fee pair, and after the trace shows every log where the logs before it leave
      off. */
  lemma TransactionShows(sender: Address, feeReceiver: Address, fee: int, trace: seq<FlatCall>, logs: seq<Log>,
                         s: Settings, ops: seq<Op>, i: nat) returns (n: nat)
    requires MappedTo(sender, feeReceiver, fee, trace, logs, s, ops)
    ensures |ops| == 2 + n + ShownByLogs(logs, s)
    ensures Outcome(trace, 2, ops[2..2 + n])
    ensures ops[0] == Op(0, [], OpFee, true, sender, Some(Amount(0 - fee, Avax)), None, None)
    ensures ops[1] == Op(1, [0], OpFee, true, feeReceiver, Some(Amount(fee, Avax)), None, None)
    ensures i < |logs| ==> ShowsLog(ops, 2 + n + ShownByLogs(logs[..i], s), logs[i], s)
  {
    hide MappedTo, Outcome, AllLogOps, LogOps, ShownByLogs, ShowsLog;
    var traceOps := Parts(sender, feeReceiver, fee, trace, logs, s, ops);
    n := |traceOps|;
    var head := FeeOps(sender, feeReceiver, fee) + traceOps;
    assert head[2..2 + n] == traceOps && ops[2..2 + n] == traceOps;
    LogsCount(logs, s, 2 + n);
    if i >= |logs| { return; }
    NextLog(logs, s, i, head);
    LogsCount(logs[..i], s, 2 + n);
    LogOpsShow(logs[i], s, head + AllLogOps(logs[..i], s, 2 + n));
    LogsPrefix(logs, s, 2 + n, i + 1, |logs|);
    assert logs[..|logs|] == logs;
    ShowsLogMore(head + AllLogOps(logs[..i + 1], s, 2 + n), ops, 2 + n + ShownByLogs(logs[..i], s), logs[i], s);
  }

  // ---------------------------------------------------------------- ERC-721 tokens

  /** op is about a token of the contract, about the given one if any is given. */
  predicate About(op: Op, contract: Address, token: Option<nat>) {
    op.nft.Some? && op.nft.value.contract == contract && (token.Some? ==> op.nft.value.token == token.value)
  }

  /** One token more for receivers and for whom tokens are minted, one less for senders and for who burns. */
  function NftMoved(op: Op, a: Address, contract: Address, token: Option<nat>): int {
    if !op.success || op.account != a || !About(op, contract, token) then 0
    else if op.kind == OpErc721Mint || op.kind == OpErc721TransferReceive then 1
    else if op.kind == OpErc721Burn || op.kind == OpErc721TransferSender then -1
    else 0
  }

  function NftNet(ops: seq<Op>, a: Address, contract: Address, token: Option<nat>): int {
    if ops == [] then 0
    else NftNet(ops[..|ops| - 1], a, contract, token) + NftMoved(ops[|ops| - 1], a, contract, token)
  }

  /** What EIP-721 attaches to a Transfer event. */
  function NftEvent(log: Log, s: Settings, a: Address, contract: Address, token: Option<nat>): int {
    if log.contract == contract && Admitted(log, s, 4, s.erc721) && (token.Some? ==> log.topics[3] == token.value) then
      (if log.topics[2] % ADDRESS_RANGE == a then 1 else 0) - (if log.topics[1] % ADDRESS_RANGE == a then 1 else 0)
    else 0
  }

  function NftLedger(logs: seq<Log>, s: Settings, a: Address, contract: Address, token: Option<nat>): int {
    if logs == [] then 0
    else NftLedger(logs[..|logs| - 1], s, a, contract, token) + NftEvent(logs[|logs| - 1], s, a, contract, token)
  }

  lemma {:induction false} NftConcat(x: seq<Op>, y: seq<Op>, a: Address, contract: Address, token: Option<nat>)
    ensures NftNet(x + y, a, contract, token) == NftNet(x, a, contract, token) + NftNet(y, a, contract, token)
    decreases |y|
  {
    hide NftMoved;
    if y == [] {
      assert x + y == x;
    } else {
      assert (x + y)[..|x + y| - 1] == x + y[..|y| - 1];
      NftConcat(x, y[..|y| - 1], a, contract, token);
    }
  }

  lemma NftOfFew(x: Op, y: Op, a: Address, contract: Address, token: Option<nat>)
    ensures NftNet([x], a, contract, token) == NftMoved(x, a, contract, token)
    ensures NftNet([x, y], a, contract, token) == NftMoved(x, a, contract, token) + NftMoved(y, a, contract, token)
  {
    assert [x, y][..1] == [x] && [x][..0] == [];
    hide NftMoved;
  }

  lemma LogNft(log: Log, s: Settings, index: int, a: Address, contract: Address, token: Option<nat>)
    requires a != ZERO_ADDRESS
    ensures NftNet(LogOps(log, s, index), a, contract, token) == NftEvent(log, s, a, contract, token)
  {
    Treated(log, s);
    hide Admitted, TreatmentOf;
    var ops := LogOps(log, s, index);
    if |ops| == 2 {
      assert ops == [ops[0], ops[1]];
      NftOfFew(ops[0], ops[1], a, contract, token);
    } else if |ops| == 1 {
      assert ops == [ops[0]];
      NftOfFew(ops[0], ops[0], a, contract, token);
    }
  }

  lemma {:induction false} LogsNft(logs: seq<Log>, s: Settings, index: int, a: Address, contract: Address,
                                   token: Option<nat>)
    requires a != ZERO_ADDRESS
    ensures NftNet(AllLogOps(logs, s, index), a, contract, token) == NftLedger(logs, s, a, contract, token)
  {
    if logs != [] {
      LogsNft(logs[..|logs| - 1], s, index, a, contract, token);
      LogsNftStep(logs, s, index, a, contract, token);
    }
  }

  lemma LogsNftStep(logs: seq<Log>, s: Settings, index: int, a: Address, contract: Address, token: Option<nat>)
    requires logs != [] && a != ZERO_ADDRESS
    requires NftNet(AllLogOps(logs[..|logs| - 1], s, index), a, contract, token)
             == NftLedger(logs[..|logs| - 1], s, a, contract, token)
    ensures NftNet(AllLogOps(logs, s, index), a, contract, token) == NftLedger(logs, s, a, contract, token)
  {
    hide *;
    LastNft(logs, s, a, contract, token);
    var before, ops := LastLog(logs, s, index);
    LogNft(logs[|logs| - 1], s, index + |before|, a, contract, token);
    NftConcat(before, ops, a, contract, token);
  }

  lemma LastNft(logs: seq<Log>, s: Settings, a: Address, contract: Address, token: Option<nat>)
    requires logs != []
    ensures NftLedger(logs, s, a, contract, token)
            == NftLedger(logs[..|logs| - 1], s, a, contract, token) + NftEvent(logs[|logs| - 1], s, a, contract, token)
  {
    hide NftEvent;
  }

  predicate NoNft(ops: seq<Op>) {
    forall i :: 0 <= i < |ops| ==> ops[i].nft.None?
  }

  lemma {:induction false} NoNftMovesNone(ops: seq<Op>, a: Address, contract: Address, token: Option<nat>)
    requires NoNft(ops)
    ensures NftNet(ops, a, contract, token) == 0
  {
    if ops != [] { NoNftMovesNone(ops[..|ops| - 1], a, contract, token); }
  }

  lemma {:induction false} CallsMoveNoNft(trace: seq<FlatCall>, start: int)
    ensures NoNft(AllCallOps(trace, start))
  {
    if trace != [] { CallsMoveNoNft(trace[..|trace| - 1], start); }
  }

  lemma {:induction false} DestructsMoveNoNft(m: map<Address, int>, order: seq<Address>, start: int)
    ensures NoNft(DestructOps(m, order, start))
  {
    if order != [] { DestructsMoveNoNft(m, order[..|order| - 1], start); }
  }

  lemma TraceMovesNoNft(trace: seq<FlatCall>, traceOps: seq<Op>)
    requires Outcome(trace, 2, traceOps)
    ensures NoNft(traceOps)
  {
    var order := SomeOrder(trace, traceOps);
    var calls, tail := OutcomeParts(trace, 2, traceOps, order);
    CallsMoveNoNft(trace, 2);
    DestructsMoveNoNft(Recorded(trace), order, 2 + |calls|);
    hide Outcome, AllCallOps, DestructOps, Recorded;
  }

  /** Over all logs of a transaction, what the operations give and take of a contract's tokens, or of one of them, is
      what the admitted Transfer events say. */
  lemma TokensFollowEvents(sender: Address, feeReceiver: Address, fee: int, trace: seq<FlatCall>, logs: seq<Log>,
                           s: Settings, ops: seq<Op>, a: Address, contract: Address, token: Option<nat>)
    requires MappedTo(sender, feeReceiver, fee, trace, logs, s, ops) && a != ZERO_ADDRESS
    ensures NftNet(ops, a, contract, token) == NftLedger(logs, s, a, contract, token)
  {
    var fees := FeeOps(sender, feeReceiver, fee);
    assert NoNft(fees);
    hide *;
    var traceOps := Parts(sender, feeReceiver, fee, trace, logs, s, ops);
    var tokens := AllLogOps(logs, s, 2 + |traceOps|);
    TraceMovesNoNft(trace, traceOps);
    NoNftMovesNone(fees, a, contract, token);
    NoNftMovesNone(traceOps, a, contract, token);
    LogsNft(logs, s, 2 + |traceOps|, a, contract, token);
    NftConcat(fees, traceOps, a, contract, token);
    NftConcat(fees + traceOps, tokens, a, contract, token);
  }
}
