/** mapper/transaction.go, Transaction: fee, trace and token operations of one C-chain transaction. */
module EvmTransaction {
  import opened Prelude
  import opened CallTree
  import opened EvmOperations
  import opened TraceLedger
  import opened TraceProperties

  const ADDRESS_RANGE: int := 0x1_0000_0000_0000_0000_0000_0000_0000_0000_0000_0000  // 2^160
  const ZERO_ADDRESS: Address := 0

  /** An event log. Topics are the 256-bit words as numbers; transferHash in Settings is the keccak hash of the
      Transfer event. value is what Erc20Amount reads: the last 32 bytes of the log's data, big endian. */
  datatype Log = Log(contract: Address, topics: seq<nat>, value: nat)

  datatype TokenInfo = TokenInfo(symbol: string, decimals: nat, unknown: bool)

  /** Fixed inputs: the hash of the Transfer event, the token filters, and the answers of GetContractInfo
      for ERC-20 and ERC-721 contracts, where a missing entry is a failed call. */
  datatype Settings = Settings(transferHash: nat, analyticsMode: bool, whiteList: set<Address>,
                               includeUnknown: bool,
                               erc20: map<Address, TokenInfo>, erc721: map<Address, TokenInfo>)

  function FromTopic(topic: nat): Address {
    topic % ADDRESS_RANGE
  }

  // ---------------------------------------------------------------- specification of the token part

  datatype Treatment = Ignored | Unavailable | Erc20(info: TokenInfo) | Erc721

  /** What the loop over receipt.Logs does with one log. */
  function TreatmentOf(log: Log, s: Settings): Treatment {
    if |log.topics| == 0 || log.topics[0] != s.transferHash then Ignored
    else if !s.analyticsMode && log.contract !in s.whiteList then Ignored
    else if |log.topics| == 4 then
      if log.contract !in s.erc721 then Unavailable
      else if s.erc721[log.contract].unknown && !s.includeUnknown then Ignored
      else Erc721
    else if |log.topics| == 3 then
      if log.contract !in s.erc20 then Unavailable
      else if s.erc20[log.contract].unknown && !s.includeUnknown then Ignored
      else Erc20(s.erc20[log.contract])
    else Ignored
  }

  function CurrencyOf(log: Log, info: TokenInfo): Currency {
    Token(info.symbol, info.decimals, log.contract)
  }

  function Erc20Ops(log: Log, currency: Currency, index: int): seq<Op>
    requires |log.topics| == 3
  {
    var from, to, value: int := FromTopic(log.topics[1]), FromTopic(log.topics[2]), log.value;
    if from == ZERO_ADDRESS then [Op(index, [], OpErc20Mint, true, to, Some(Amount(value, currency)), None, None)]
    else if to == ZERO_ADDRESS then [Op(index, [], OpErc20Burn, true, from, Some(Amount(-value, currency)), None, None)]
    else
      [Op(index, [], OpErc20Transfer, true, from, Some(Amount(-value, currency)), None, None),
       Op(index + 1, [index], OpErc20Transfer, true, to, Some(Amount(value, currency)), None, None)]
  }

  function Erc721Ops(log: Log, index: int): seq<Op>
    requires |log.topics| == 4
  {
    var from, to := FromTopic(log.topics[1]), FromTopic(log.topics[2]);
    var nft := Some(Nft(log.contract, log.topics[3]));
    if from == ZERO_ADDRESS then [Op(index, [], OpErc721Mint, true, to, None, None, nft)]
    else if to == ZERO_ADDRESS then [Op(index, [], OpErc721Burn, true, from, None, None, nft)]
    else
      [Op(index, [], OpErc721TransferSender, true, from, None, None, nft),
       Op(index + 1, [index], OpErc721TransferReceive, true, to, None, None, nft)]
  }

  function LogOps(log: Log, s: Settings, index: int): seq<Op> {
    var t := TreatmentOf(log, s);
    if t.Erc20? then Erc20Ops(log, CurrencyOf(log, t.info), index)
    else if t.Erc721? then Erc721Ops(log, index)
    else []
  }

  function AllLogOps(logs: seq<Log>, s: Settings, index: int): seq<Op> {
    if logs == [] then []
    else
      var before := AllLogOps(logs[..|logs| - 1], s, index);
      before + LogOps(logs[|logs| - 1], s, index + |before|)
  }

  function FeeOps(sender: Address, feeReceiver: Address, fee: int): seq<Op> {
    [Op(0, [], OpFee, true, sender, Some(Amount(-fee, Avax)), None, None),
     Op(1, [0], OpFee, true, feeReceiver, Some(Amount(fee, Avax)), None, None)]
  }

  // ---------------------------------------------------------------- the algorithm

  /** A failed GetContractInfo aborts the transaction; a failed traceOps the whole process. */
  datatype TransactionResult = Operations(ops: seq<Op>) | ContractInfoFailed | ProcessAborted(account: Address)

  /** A Transfer event that the mode lets through. */
  predicate Looked(log: Log, s: Settings) {
    && |log.topics| > 0 && log.topics[0] == s.transferHash && (s.analyticsMode || log.contract in s.whiteList)
  }

  /** Its contract's information is needed and cannot be had. */
  predicate MissesInfo(log: Log, s: Settings) {
    && Looked(log, s)
    && ((|log.topics| == 4 && log.contract !in s.erc721) || (|log.topics| == 3 && log.contract !in s.erc20))
  }

  /** A Transfer event with that many topics whose contract is known, or may be unknown. */
  predicate Admitted(log: Log, s: Settings, topics: nat, infos: map<Address, TokenInfo>) {
    && Looked(log, s) && |log.topics| == topics
    && log.contract in infos && (infos[log.contract].unknown ==> s.includeUnknown)
  }

  /** In standard mode only white-listed contracts are admitted, and unknown ones only on request. */
  lemma AdmittedMeans(log: Log, s: Settings, topics: nat, infos: map<Address, TokenInfo>)
    ensures Admitted(log, s, topics, infos) ==>
              && |log.topics| == topics > 0 && log.topics[0] == s.transferHash && log.contract in infos
              && (!s.analyticsMode ==> log.contract in s.whiteList)
              && (!s.includeUnknown ==> !infos[log.contract].unknown)
    ensures |log.topics| == topics > 0 && log.topics[0] == s.transferHash && log.contract in infos ==>
              && (s.analyticsMode && s.includeUnknown ==> Admitted(log, s, topics, infos))
              && (log.contract in s.whiteList && !infos[log.contract].unknown ==> Admitted(log, s, topics, infos))
              && (s.analyticsMode && !infos[log.contract].unknown ==> Admitted(log, s, topics, infos))
              && (log.contract in s.whiteList && s.includeUnknown ==> Admitted(log, s, topics, infos))
  {
  }

  lemma Treated(log: Log, s: Settings)
    ensures TreatmentOf(log, s).Unavailable? <==> MissesInfo(log, s)
    ensures TreatmentOf(log, s).Erc20? <==> Admitted(log, s, 3, s.erc20)
    ensures TreatmentOf(log, s).Erc20? ==> TreatmentOf(log, s).info == s.erc20[log.contract]
    ensures TreatmentOf(log, s).Erc721? <==> Admitted(log, s, 4, s.erc721)
  {
  }

  ghost predicate AllAvailable(logs: seq<Log>, s: Settings) {
    forall i :: 0 <= i < |logs| ==> !MissesInfo(logs[i], s)
  }

  /** The result of a transaction that could be mapped. */
  ghost predicate MappedTo(sender: Address, feeReceiver: Address, fee: int, trace: seq<FlatCall>, logs: seq<Log>,
                           s: Settings, ops: seq<Op>) {
    exists traceOps ::
      && Outcome(trace, 2, traceOps)
      && ops == FeeOps(sender, feeReceiver, fee) + traceOps + AllLogOps(logs, s, 2 + |traceOps|)
  }

  method Transaction(sender: Address, feeReceiver: Address, gasUsed: nat, gasPrice: nat, trace: seq<FlatCall>,
                     logs: seq<Log>, s: Settings)
    returns (r: TransactionResult)
    ensures r.Operations? ==> MappedTo(sender, feeReceiver, gasUsed * gasPrice, trace, logs, s, r.ops)
    ensures r.Operations? ==> AllAvailable(logs, s) && forall a :: !Overdrawn(trace, a)
    ensures r.ContractInfoFailed? ==> !AllAvailable(logs, s)
    ensures r.ProcessAborted? ==> Overdrawn(trace, r.account)
  {
    var txFee := gasUsed * gasPrice;
    var ops := FeeOps(sender, feeReceiver, txFee);
    assert |ops| == 2;
    hide *;
    var traced := TraceOps(trace, |ops|);
    if traced.Fatal? {
      return ProcessAborted(traced.account);
    }
    ops := ops + traced.ops;
    ghost var before := ops;
    var i := 0;
    NoLogs(s, |before|);
    while i < |logs|
      invariant 0 <= i <= |logs|
      invariant ops == before + AllLogOps(logs[..i], s, |before|)
      invariant AllAvailable(logs[..i], s)
    {
      var added := MapLog(logs[i], s, |ops|);
      NextLog(logs, s, i, before);
      if added.None? {
        assert logs[..|logs|] == logs;
        return ContractInfoFailed;
      }
      ops := ops + added.value;
      i := i + 1;
    }
    assert logs[..i] == logs;
    Mapped(sender, feeReceiver, txFee, trace, logs, s, traced.ops);
    r := Operations(ops);
  }

  /** One round of the loop over the receipt's logs; None when GetContractInfo fails. */
  method MapLog(log: Log, s: Settings, index: int) returns (r: Option<seq<Op>>)
    ensures r == if MissesInfo(log, s) then None else Some(LogOps(log, s, index))
  {
    if |log.topics| == 0 || log.topics[0] != s.transferHash {
      return Some([]);
    }
    if !s.analyticsMode && log.contract !in s.whiteList {
      return Some([]);
    }
    if |log.topics| == 4 {
      if log.contract !in s.erc721 {
        return None;
      }
      if s.erc721[log.contract].unknown && !s.includeUnknown {
        return Some([]);
      }
      r := Some(Erc721Ops(log, index));
    } else if |log.topics| == 3 {
      if log.contract !in s.erc20 {
        return None;
      }
      var info := s.erc20[log.contract];
      if info.unknown && !s.includeUnknown {
        return Some([]);
      }
      r := Some(Erc20Ops(log, CurrencyOf(log, info), index));
    } else {
      r := Some([]);
    }
  }

  lemma NoLogs(s: Settings, index: int)
    ensures AllLogOps([], s, index) == [] && AllAvailable([], s)
  {
  }

  lemma NextLog(logs: seq<Log>, s: Settings, i: nat, before: seq<Op>)
    requires i < |logs|
    ensures var ops := before + AllLogOps(logs[..i], s, |before|);
            before + AllLogOps(logs[..i + 1], s, |before|) == ops + LogOps(logs[i], s, |ops|)
    ensures AllAvailable(logs[..i + 1], s) <==> AllAvailable(logs[..i], s) && !MissesInfo(logs[i], s)
    ensures MissesInfo(logs[i], s) ==> !AllAvailable(logs, s)
  {
    hide LogOps, MissesInfo;
    assert logs[..i + 1][..i] == logs[..i];
    assert AllAvailable(logs[..i + 1], s) ==> !MissesInfo(logs[..i + 1][i], s);
  }

  lemma Mapped(sender: Address, feeReceiver: Address, fee: int, trace: seq<FlatCall>, logs: seq<Log>, s: Settings,
               traceOps: seq<Op>)
    requires Outcome(trace, 2, traceOps)
    ensures var before := FeeOps(sender, feeReceiver, fee) + traceOps;
            MappedTo(sender, feeReceiver, fee, trace, logs, s, before + AllLogOps(logs, s, |before|))
  {
  }

  // ---------------------------------------------------------------- properties

  lemma OneLogDense(log: Log, s: Settings, index: int)
    ensures Dense(LogOps(log, s, index), index)
  {
  }

  lemma LastLog(logs: seq<Log>, s: Settings, index: int) returns (before: seq<Op>, ops: seq<Op>)
    requires logs != []
    ensures before == AllLogOps(logs[..|logs| - 1], s, index) && AllLogOps(logs, s, index) == before + ops
    ensures ops == LogOps(logs[|logs| - 1], s, index + |before|)
  {
    hide LogOps;
    before := AllLogOps(logs[..|logs| - 1], s, index);
    ops := LogOps(logs[|logs| - 1], s, index + |before|);
  }

  lemma {:induction false} LogOpsDense(logs: seq<Log>, s: Settings, index: int)
    ensures Dense(AllLogOps(logs, s, index), index)
  {
    if logs == [] { return; }
    hide *;
    var before, ops := LastLog(logs, s, index);
    LogOpsDense(logs[..|logs| - 1], s, index);
    OneLogDense(logs[|logs| - 1], s, index + |before|);
    DenseConcat(before, ops, index);
  }

  /** Fee, trace, DESTRUCT and token operations are numbered 0, 1, 2, ... and refer only backwards. */
  lemma TransactionIdentifiersDense(sender: Address, feeReceiver: Address, fee: int, trace: seq<FlatCall>,
                                    logs: seq<Log>, s: Settings, ops: seq<Op>)
    requires MappedTo(sender, feeReceiver, fee, trace, logs, s, ops)
    ensures Dense(ops, 0)
  {
    var traceOps :| && Outcome(trace, 2, traceOps)
                    && ops == FeeOps(sender, feeReceiver, fee) + traceOps + AllLogOps(logs, s, 2 + |traceOps|);
    var fees, tokens := FeeOps(sender, feeReceiver, fee), AllLogOps(logs, s, 2 + |traceOps|);
    assert |fees| == 2 && Dense(fees, 0);
    hide *;
    TraceIdentifiersDense(trace, 2, traceOps);
    LogOpsDense(logs, s, 2 + |traceOps|);
    DenseConcat(fees, traceOps, 0);
    DenseConcat(fees + traceOps, tokens, 0);
  }

  /** The balance change of holder a that EIP-20 attaches to a Transfer event of the given contract. */
  function TransferEffect(log: Log, s: Settings, contract: Address, a: Address): int {
    if log.contract == contract && Admitted(log, s, 3, s.erc20) then
      var v: int := log.value;
      (if log.topics[2] % ADDRESS_RANGE == a then v else 0) - (if log.topics[1] % ADDRESS_RANGE == a then v else 0)
    else 0
  }

  function TokenLedger(logs: seq<Log>, s: Settings, contract: Address, a: Address): int {
    if logs == [] then 0
    else TokenLedger(logs[..|logs| - 1], s, contract, a) + TransferEffect(logs[|logs| - 1], s, contract, a)
  }

  /** The currency under which the operations of one ERC-20 contract are booked. */
  function TokenOf(s: Settings, contract: Address): Currency
    requires contract in s.erc20
  {
    Token(s.erc20[contract].symbol, s.erc20[contract].decimals, contract)
  }

  lemma LogNet(log: Log, s: Settings, index: int, contract: Address, a: Address)
    requires contract in s.erc20 && a != ZERO_ADDRESS
    ensures Net(LogOps(log, s, index), a, TokenOf(s, contract)) == TransferEffect(log, s, contract, a)
  {
    var ops := LogOps(log, s, index);
    Treated(log, s);
    if |ops| == 2 {
      assert ops == [ops[0], ops[1]];
      NetOfFew(ops[0], ops[1], a, TokenOf(s, contract));
    } else if |ops| == 1 {
      assert ops == [ops[0]];
      NetOfFew(ops[0], ops[0], a, TokenOf(s, contract));
    }
  }

  lemma TokenLedgerStep(logs: seq<Log>, s: Settings, contract: Address, a: Address)
    requires logs != []
    ensures TokenLedger(logs, s, contract, a)
            == TokenLedger(logs[..|logs| - 1], s, contract, a) + TransferEffect(logs[|logs| - 1], s, contract, a)
  {
    hide TransferEffect;
  }

  lemma {:induction false} LogsNet(logs: seq<Log>, s: Settings, index: int, contract: Address, a: Address)
    requires contract in s.erc20 && a != ZERO_ADDRESS
    ensures Net(AllLogOps(logs, s, index), a, TokenOf(s, contract)) == TokenLedger(logs, s, contract, a)
  {
    if logs != [] {
      LogsNet(logs[..|logs| - 1], s, index, contract, a);
      LogsNetStep(logs, s, index, contract, a);
    }
  }

  lemma LogsNetStep(logs: seq<Log>, s: Settings, index: int, contract: Address, a: Address)
    requires logs != [] && contract in s.erc20 && a != ZERO_ADDRESS
    requires Net(AllLogOps(logs[..|logs| - 1], s, index), a, TokenOf(s, contract))
             == TokenLedger(logs[..|logs| - 1], s, contract, a)
    ensures Net(AllLogOps(logs, s, index), a, TokenOf(s, contract)) == TokenLedger(logs, s, contract, a)
  {
    hide *;
    TokenLedgerStep(logs, s, contract, a);
    var before, ops := LastLog(logs, s, index);
    LogNet(logs[|logs| - 1], s, index + |before|, contract, a);
    NetConcat(before, ops, a, TokenOf(s, contract));
  }

  ghost predicate OnlyAvax(ops: seq<Op>) {
    forall i :: 0 <= i < |ops| && ops[i].amount.Some? ==> ops[i].amount.value.currency == Avax
  }

  ghost predicate NoAvax(ops: seq<Op>) {
    forall i :: 0 <= i < |ops| && ops[i].amount.Some? ==> ops[i].amount.value.currency != Avax
  }

  lemma {:induction false} OnlyAvaxMovesNoToken(ops: seq<Op>, a: Address, c: Currency)
    requires OnlyAvax(ops) && c != Avax
    ensures Net(ops, a, c) == 0
  {
    if ops != [] { OnlyAvaxMovesNoToken(ops[..|ops| - 1], a, c); }
  }

  lemma {:induction false} NoAvaxMovesNone(ops: seq<Op>, a: Address)
    requires NoAvax(ops)
    ensures Net(ops, a, Avax) == 0 && Total(ops, Avax) == 0
  {
    if ops != [] { NoAvaxMovesNone(ops[..|ops| - 1], a); }
  }

  lemma {:induction false} CallsMoveAvax(trace: seq<FlatCall>, start: int)
    ensures OnlyAvax(AllCallOps(trace, start))
  {
    if trace != [] { CallsMoveAvax(trace[..|trace| - 1], start); }
  }

  lemma {:induction false} DestructsMoveAvax(m: map<Address, int>, order: seq<Address>, start: int)
    ensures OnlyAvax(DestructOps(m, order, start))
  {
    if order != [] { DestructsMoveAvax(m, order[..|order| - 1], start); }
  }

  lemma {:induction false} LogsMoveTokens(logs: seq<Log>, s: Settings, index: int)
    ensures NoAvax(AllLogOps(logs, s, index))
  {
    if logs != [] { LogsMoveTokens(logs[..|logs| - 1], s, index); }
  }

  lemma TraceMovesAvax(trace: seq<FlatCall>, traceOps: seq<Op>)
    requires Outcome(trace, 2, traceOps)
    ensures OnlyAvax(traceOps)
  {
    var order :| OutcomeInOrder(trace, 2, traceOps, order);
    var calls, tail := OutcomeParts(trace, 2, traceOps, order);
    CallsMoveAvax(trace, 2);
    DestructsMoveAvax(Recorded(trace), order, 2 + |calls|);
  }

  /** The trace part of a transaction's operations. */
  lemma Parts(sender: Address, feeReceiver: Address, fee: int, trace: seq<FlatCall>, logs: seq<Log>, s: Settings,
              ops: seq<Op>) returns (traceOps: seq<Op>)
    requires MappedTo(sender, feeReceiver, fee, trace, logs, s, ops)
    ensures Outcome(trace, 2, traceOps)
    ensures ops == FeeOps(sender, feeReceiver, fee) + traceOps + AllLogOps(logs, s, 2 + |traceOps|)
  {
    hide Outcome, FeeOps, AllLogOps;
    traceOps :| && Outcome(trace, 2, traceOps)
                && ops == FeeOps(sender, feeReceiver, fee) + traceOps + AllLogOps(logs, s, 2 + |traceOps|);
  }

  lemma FeesCancel(sender: Address, feeReceiver: Address, fee: int)
    ensures OnlyAvax(FeeOps(sender, feeReceiver, fee)) && Total(FeeOps(sender, feeReceiver, fee), Avax) == 0
  {
    var fees := FeeOps(sender, feeReceiver, fee);
    NetOfFew(fees[0], fees[1], sender, Avax);
    assert fees == [fees[0], fees[1]];
    hide Total;
  }

  /** Replaying a transaction moves each holder's token balance by what the admitted Transfer events say,
      mints and burns included. */
  lemma TokenBalancesFollowEvents(sender: Address, feeReceiver: Address, fee: int, trace: seq<FlatCall>, logs: seq<Log>,
                                  s: Settings, ops: seq<Op>, contract: Address, a: Address)
    requires MappedTo(sender, feeReceiver, fee, trace, logs, s, ops)
    requires contract in s.erc20 && a != ZERO_ADDRESS
    ensures Net(ops, a, TokenOf(s, contract)) == TokenLedger(logs, s, contract, a)
  {
    var c := TokenOf(s, contract);
    assert c != Avax;
    hide *;
    var traceOps := Parts(sender, feeReceiver, fee, trace, logs, s, ops);
    var fees, tokens := FeeOps(sender, feeReceiver, fee), AllLogOps(logs, s, 2 + |traceOps|);
    TraceMovesAvax(trace, traceOps);
    FeesCancel(sender, feeReceiver, fee);
    OnlyAvaxMovesNoToken(traceOps, a, c);
    OnlyAvaxMovesNoToken(fees, a, c);
    LogsNet(logs, s, 2 + |traceOps|, contract, a);
    NetConcat(fees, traceOps, a, c);
    NetConcat(fees + traceOps, tokens, a, c);
  }

  lemma SomeOrder(trace: seq<FlatCall>, traceOps: seq<Op>) returns (order: seq<Address>)
    requires Outcome(trace, 2, traceOps)
    ensures OutcomeInOrder(trace, 2, traceOps, order) && Lists(order, NonZero(Recorded(trace)))
  {
    hide Lists, NonZero, Recorded, AllCallOps, DestructOps;
    order :| OutcomeInOrder(trace, 2, traceOps, order);
  }

  /** The fee is paid by one account to another, so avax leaves the transaction only through the trace. */
  lemma TransactionConservesAvax(sender: Address, feeReceiver: Address, fee: int, trace: seq<FlatCall>, logs: seq<Log>,
                                 s: Settings, ops: seq<Op>)
    requires MappedTo(sender, feeReceiver, fee, trace, logs, s, ops)
    ensures exists order :: Lists(order, NonZero(Recorded(trace)))
              && Total(ops, Avax) == -(SelfBurned(trace) + HeldSum(Recorded(trace), order))
  {
    hide *;
    var traceOps := Parts(sender, feeReceiver, fee, trace, logs, s, ops);
    var order := SomeOrder(trace, traceOps);
    var fees, tokens := FeeOps(sender, feeReceiver, fee), AllLogOps(logs, s, 2 + |traceOps|);
    FeesCancel(sender, feeReceiver, fee);
    LogsMoveTokens(logs, s, 2 + |traceOps|);
    NoAvaxMovesNone(tokens, sender);
    TraceConservation(trace, 2, traceOps, order);
    TotalConcat(fees, traceOps, Avax);
    TotalConcat(fees + traceOps, tokens, Avax);
  }

  lemma FeesNet(sender: Address, feeReceiver: Address, fee: int, a: Address)
    ensures Net(FeeOps(sender, feeReceiver, fee), a, Avax)
            == (if a == feeReceiver then fee else 0) - (if a == sender then fee else 0)
  {
    var fees := FeeOps(sender, feeReceiver, fee);
    NetOfFew(fees[0], fees[1], a, Avax);
    assert fees == [fees[0], fees[1]];
    hide Net;
  }

  /** Avax balances: a client that replays the operations sees the fee and the replayed trace, nothing else; that is
      the balance the EVM leaves if no SELFDESTRUCT and no creation of the account was reverted and no phantom payment
      names it. */
  lemma AvaxBalancesFollowTrace(sender: Address, feeReceiver: Address, fee: int, trace: seq<FlatCall>, logs: seq<Log>,
                                s: Settings, ops: seq<Op>, b: Ledger, a: Address)
    requires MappedTo(sender, feeReceiver, fee, trace, logs, s, ops) && MovesWholeBalance(b, trace)
    ensures var paid := (if a == feeReceiver then fee else 0) - (if a == sender then fee else 0);
            var replayed := Opening(b, a) + Net(ops, a, Avax) - paid;
            && replayed == (if Residual(trace, a).Some? then Booked(b, trace[..LastDeath(trace, a)], a)
                            else Booked(b, trace, a))
            && (RevertsNoLifecycle(trace, a) && NoPhantom(trace, a) ==> replayed == EvmFinal(b, trace, a))
  {
    hide *;
    var traceOps := Parts(sender, feeReceiver, fee, trace, logs, s, ops);
    var fees, tokens := FeeOps(sender, feeReceiver, fee), AllLogOps(logs, s, 2 + |traceOps|);
    FeesNet(sender, feeReceiver, fee, a);
    LogsMoveTokens(logs, s, 2 + |traceOps|);
    NoAvaxMovesNone(tokens, a);
    ReplayedBalance(b, trace, 2, traceOps, a);
    if RevertsNoLifecycle(trace, a) && NoPhantom(trace, a) { ReplayReachesEvmBalance(b, trace, 2, traceOps, a); }
    NetConcat(fees, traceOps, a, Avax);
    NetConcat(fees + traceOps, tokens, a, Avax);
  }
}
