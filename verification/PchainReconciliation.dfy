/** Whole runs of P-chain transactions: every coin spent was created before, with the same account and amount. */
module PchainReconciliation {
  import opened Prelude
  import opened PchainModel
  import opened PchainDependency
  import opened PchainTxOps
  import opened PchainParser
  import opened PchainProperties

  // ---------------------------------------------------------------- the operations of one transaction

  predicate NoBase(kind: Kind) {
    kind.AdvanceTime? || kind.UnknownKind? || kind.RewardValidator?
  }

  function BaseIns(tx: Tx): seq<TransferableInput> {
    if NoBase(tx.unsigned.kind) then [] else tx.unsigned.ins
  }

  /** The UTXOs reported by output operations; a stake output is numbered from the count of reported base outputs. */
  function OutUtxos(tx: Tx): seq<Utxo> {
    if NoBase(tx.unsigned.kind) then [] else AsUtxos(tx.id, tx.unsigned.outs, 0)
  }

  function StakeUtxos(c: Context, tx: Tx): seq<Utxo> {
    if IsStaking(tx.unsigned.kind) then AsUtxos(tx.id, tx.unsigned.stake, Count(tx.unsigned.outs))
    else if tx.unsigned.kind.RewardValidator? && c.deps.Some? && tx.unsigned.rewarded in c.deps.value
    then c.deps.value[tx.unsigned.rewarded].rewards
    else []
  }

  function ImportedIns(tx: Tx): seq<TransferableInput> {
    if tx.unsigned.kind.ImportAvax? then tx.unsigned.imported else []
  }

  /** Exported outputs are numbered like stake outputs. */
  function ExportUtxos(tx: Tx): seq<Utxo> {
    if tx.unsigned.kind.ExportAvax? then AsUtxos(tx.id, tx.unsigned.exported, Count(tx.unsigned.outs)) else []
  }

  function ExportAlias(c: Context, tx: Tx): ChainAlias {
    if tx.unsigned.destination in c.cfg.chainIDs then c.cfg.chainIDs[tx.unsigned.destination] else PChain
  }

  /** What gets an operation is exactly what has one owner. */
  ghost predicate Classified(utxos: seq<Utxo>) {
    forall i :: 0 <= i < |utxos| ==> (Reported(utxos[i].out) <==> SingleOwner(utxos[i].out))
  }

  /** ops reports, in order, the creation of those utxos that have exactly one owner. */
  ghost predicate ReportsAll(ops: seq<Operation>, c: Context, utxos: seq<Utxo>, chain: ChainAlias) {
    CreatesAll(ops, c, Singles(utxos), chain) && Classified(utxos)
  }

  lemma LoopClassifies(c: Context, l: OpLists, kind: Kind, utxos: seq<Utxo>, m: MetaType, chain: ChainAlias)
    requires UtxosToOps(c, l, kind, utxos, m, chain).Ok?
    ensures Classified(utxos)
  {
    hide UtxosToOps, Reported, SingleOwner;
    forall i | 0 <= i < |utxos| ensures Reported(utxos[i].out) <==> SingleOwner(utxos[i].out) {
      ReportedAreSingleOwner(c, l, kind, utxos, m, chain, i);
    }
  }

  /** The lists hold one operation per spent input and per created UTXO that has exactly one owner; imported inputs
      and exported outputs in lists of their own. */
  ghost predicate Exact(l: OpLists, c: Context, tx: Tx) {
    && SpendsAll(l.ins, c, Unskipped(c, BaseIns(tx)))
    && ReportsAll(l.outs, c, OutUtxos(tx), PChain)
    && ReportsAll(l.stakeOuts, c, StakeUtxos(c, tx), PChain)
    && ImportsAll(l.importIns, c, ImportedIns(tx))
    && ReportsAll(l.exportOuts, c, ExportUtxos(tx), ExportAlias(c, tx))
  }

  lemma ReportsAllMeans(ops: seq<Operation>, c: Context, utxos: seq<Utxo>, chain: ChainAlias)
    ensures ReportsAll(ops, c, utxos, chain) <==> CreatesAll(ops, c, Singles(utxos), chain) && Classified(utxos)
  {
    hide CreatesAll, Classified;
  }

  lemma LoopExact(c: Context, l: OpLists, kind: Kind, txID: ID, outs: seq<TransferableOutput>, m: MetaType,
                  chain: ChainAlias)
    requires !c.cfg.isConstruction && !m.MetaOther? && OutsToOps(c, l, kind, txID, outs, m, chain).Ok?
    requires Target(l, m) == []
    ensures var r := OutsToOps(c, l, kind, txID, outs, m, chain).value;
            && OthersSame(l, r, m)
            && ReportsAll(Target(r, m), c, AsUtxos(txID, outs, l.OutputLen()), chain)
            && |Target(r, m)| == Count(outs)
  {
    hide *;
    var utxos := AsUtxos(txID, outs, l.OutputLen());
    OutsAreUtxos(c, l, kind, txID, outs, m, chain);
    var r := UtxosToOps(c, l, kind, utxos, m, chain).value;
    UtxosCreate(c, l, kind, utxos, m, chain);
    GrewMeans(l, r, m, c, Singles(utxos), chain);
    LoopCount(c, l, kind, txID, outs, m, chain);
    assert Target(r, m)[|Target(l, m)|..] == Target(r, m);
    LoopClassifies(c, l, kind, utxos, m, chain);
    ReportsAllMeans(Target(r, m), c, utxos, chain);
  }

  lemma BaseExact(c: Context, tx: Tx)
    requires !c.cfg.isConstruction && BaseToOps(c, tx).Ok?
    ensures var l := BaseToOps(c, tx).value;
            && SpendsAll(l.ins, c, Unskipped(c, tx.unsigned.ins))
            && ReportsAll(l.outs, c, AsUtxos(tx.id, tx.unsigned.outs, 0), PChain)
            && l.stakeOuts == [] && l.importIns == [] && l.exportOuts == [] && |l.outs| == Count(tx.unsigned.outs)
  {
    hide InsToOps, OutsToOps, SpendsAll, ReportsAll, Unskipped, AsUtxos, Count;
    var u := tx.unsigned;
    InsSpend(c, EMPTY, u.kind, u.ins);
    var i := InsToOps(c, EMPTY, u.kind, u.ins, MetaInput).value;
    LoopExact(c, i, u.kind, tx.id, u.outs, MetaOutput, PChain);
    assert i.ins[|EMPTY.ins|..] == i.ins;
  }

  lemma ImportExact(c: Context, tx: Tx)
    requires !c.cfg.isConstruction && ImportToOps(c, tx).Ok?
    ensures var l := ImportToOps(c, tx).value;
            && SpendsAll(l.ins, c, Unskipped(c, tx.unsigned.ins))
            && ReportsAll(l.outs, c, AsUtxos(tx.id, tx.unsigned.outs, 0), PChain)
            && l.stakeOuts == [] && ImportsAll(l.importIns, c, tx.unsigned.imported) && l.exportOuts == []
  {
    hide InsToOps, OutsToOps, SpendsAll, ImportsAll, ReportsAll, Unskipped, AsUtxos, Count;
    var u := tx.unsigned;
    InsSpend(c, EMPTY, ImportAvax, u.ins);
    var i := InsToOps(c, EMPTY, ImportAvax, u.ins, MetaInput).value;
    assert i.ins[|EMPTY.ins|..] == i.ins;
    InsImport(c, i, u.imported);
    var j := InsToOps(c, i, ImportAvax, u.imported, MetaImport).value;
    assert j.importIns[|i.importIns|..] == j.importIns;
    LoopExact(c, j, ImportAvax, tx.id, u.outs, MetaOutput, PChain);
  }

  lemma StakingExact(c: Context, tx: Tx)
    requires !c.cfg.isConstruction && StakingToOps(c, tx).Ok?
    ensures var l := StakingToOps(c, tx).value;
            && SpendsAll(l.ins, c, Unskipped(c, tx.unsigned.ins))
            && ReportsAll(l.outs, c, AsUtxos(tx.id, tx.unsigned.outs, 0), PChain)
            && ReportsAll(l.stakeOuts, c, AsUtxos(tx.id, tx.unsigned.stake, Count(tx.unsigned.outs)), PChain)
            && l.importIns == [] && l.exportOuts == []
  {
    hide BaseToOps, OutsToOps, SpendsAll, ReportsAll, Unskipped, AsUtxos, Count;
    BaseExact(c, tx);
    LoopExact(c, BaseToOps(c, tx).value, tx.unsigned.kind, tx.id, tx.unsigned.stake, MetaStake, PChain);
  }

  lemma ExportExact(c: Context, tx: Tx)
    requires !c.cfg.isConstruction && ExportToOps(c, tx).Ok?
    ensures var l := ExportToOps(c, tx).value;
            && SpendsAll(l.ins, c, Unskipped(c, tx.unsigned.ins))
            && ReportsAll(l.outs, c, AsUtxos(tx.id, tx.unsigned.outs, 0), PChain)
            && l.stakeOuts == [] && l.importIns == []
            && ReportsAll(l.exportOuts, c, AsUtxos(tx.id, tx.unsigned.exported, Count(tx.unsigned.outs)),
                          ExportAlias(c, tx))
  {
    hide BaseToOps, OutsToOps, SpendsAll, ReportsAll, Unskipped, AsUtxos, Count;
    BaseExact(c, tx);
    LoopExact(c, BaseToOps(c, tx).value, ExportAvax, tx.id, tx.unsigned.exported, MetaExport,
              c.cfg.chainIDs[tx.unsigned.destination]);
  }

  lemma RewardExact(c: Context, tx: Tx)
    requires !c.cfg.isConstruction && RewardToOps(c, tx).Ok?
    ensures c.deps.Some? && tx.unsigned.rewarded in c.deps.value
    ensures var l := RewardToOps(c, tx).value;
            && l.ins == [] && l.outs == [] && l.importIns == [] && l.exportOuts == []
            && ReportsAll(l.stakeOuts, c, c.deps.value[tx.unsigned.rewarded].rewards, PChain)
  {
    hide UtxosToOps, Singles, Classified, CreatesAll;
    var utxos := c.deps.value[tx.unsigned.rewarded].rewards;
    var l := RewardToOps(c, tx).value;
    UtxosCreate(c, EMPTY, RewardValidator, utxos, MetaReward, PChain);
    LoopClassifies(c, EMPTY, RewardValidator, utxos, MetaReward, PChain);
    assert Target(l, MetaReward)[|Target(EMPTY, MetaReward)|..] == l.stakeOuts;
  }

  lemma NoneExact(c: Context)
    ensures SpendsAll([], c, Unskipped(c, [])) && ImportsAll([], c, []) && forall chain :: ReportsAll([], c, [], chain)
  {
  }

  /** Block mode: the operations of any transaction, stated without the loops that build them. */
  lemma BlockOperationsExact(c: Context, tx: Tx)
    requires !c.cfg.isConstruction && TxToOps(c, tx).Ok?
    ensures Exact(TxToOps(c, tx).value, c, tx)
  {
    hide BaseToOps, ImportToOps, ExportToOps, StakingToOps, RewardToOps, SpendsAll, ReportsAll, ImportsAll, Unskipped,
         AsUtxos, Count;
    var kind := tx.unsigned.kind;
    NoneExact(c);
    if kind.AdvanceTime? || kind.UnknownKind? {
    } else if kind.ImportAvax? {
      ImportExact(c, tx);
    } else if kind.ExportAvax? {
      ExportExact(c, tx);
    } else if kind.RewardValidator? {
      RewardExact(c, tx);
    } else if IsStaking(kind) {
      StakingExact(c, tx);
    } else {
      BaseExact(c, tx);
    }
  }

  lemma {:induction false} SinglesContain(utxos: seq<Utxo>, i: nat)
    requires i < |utxos| && Reported(utxos[i].out)
    ensures utxos[i] in Singles(utxos)
    decreases |utxos|
  {
    hide Reported;
    var n := |utxos| - 1;
    if i < n { SinglesContain(utxos[..n], i); }
  }

  lemma {:induction false} UnskippedWithin(c: Context, ins: seq<TransferableInput>, input: TransferableInput)
    requires input in Unskipped(c, ins)
    ensures input in ins && !Skipped(c, input.utxo)
  {
    hide Skipped;
    var n := |ins| - 1;
    if input in Unskipped(c, ins[..n]) { UnskippedWithin(c, ins[..n], input); }
  }

  // ---------------------------------------------------------------- runs

  /** A transaction with what the indexer knew when it parsed it. */
  datatype Step = Step(tx: Tx, accounts: AccountMap, deps: Dependencies) {
    function Ctx(cfg: Config): Context {
      Context(cfg, accounts, Some(deps))
    }
  }

  /** The dependency d is a transaction with that id, earlier, later or the step's own, and its rewards carry that id:
      a block is parsed with what all of its transactions depend on. */
  predicate Named(id: ID, d: Dependency) {
    && d.tx.Some? && d.tx.value.id == id
    && forall i :: 0 <= i < |d.rewards| ==> d.rewards[i].id.txID == id
  }

  /** The dependency's transaction is that of a step before step k. */
  ghost predicate FromHistory(run: seq<Step>, k: nat, d: Dependency) {
    exists j :: 0 <= j < k && j < |run| && d.tx == Some(run[j].tx)
  }

  /** Some earlier step pays out the reward UTXO u. */
  ghost predicate Rewarded(run: seq<Step>, k: nat, u: Utxo) {
    exists j :: 0 <= j < k && j < |run| && Rewards(run[j], u)
  }

  predicate Rewards(step: Step, u: Utxo) {
    && step.tx.unsigned.kind.RewardValidator?
    && step.tx.unsigned.rewarded in step.deps
    && u in step.deps[step.tx.unsigned.rewarded].rewards
  }

  predicate IsOutput(d: Dependency, u: UtxoID) {
    d.tx.Some? && u.outputIndex < |SpendableOutputs(d.tx.value.unsigned)|
  }

  /** The input spends a UTXO the dependencies know, all of it: an output of an earlier transaction, which may be one of
      the same block, or a reward UTXO once it is paid out. */
  ghost predicate SpendsExisting(run: seq<Step>, k: nat, input: TransferableInput)
    requires k < |run|
  {
    var u, deps := input.utxo, run[k].deps;
    && u.txID in deps && u in UtxosOf(deps[u.txID])
    && UtxosOf(deps[u.txID])[u].asset == input.asset
    && OutputAmount(UtxosOf(deps[u.txID])[u].out) == InputAmount(input.input)
    && if IsOutput(deps[u.txID], u) then FromHistory(run, k, deps[u.txID])
       else Rewarded(run, k, UtxosOf(deps[u.txID])[u])
  }

  /** What the dependency fetch gives step k. */
  ghost predicate KnowsDependencies(run: seq<Step>, k: nat)
    requires k < |run|
  {
    && AccountsOf(run[k].deps, run[k].accounts)
    && forall id :: id in run[k].deps ==> Named(id, run[k].deps[id])
  }

  /** What the chain and the dependency fetch guarantee of step k, and that parsing it does not fail. */
  ghost predicate StepOk(cfg: Config, run: seq<Step>, k: nat)
    requires k < |run|
  {
    var step := run[k];
    && KnowsDependencies(run, k)
    && (forall i :: 0 <= i < |BaseIns(step.tx)| ==> SpendsExisting(run, k, BaseIns(step.tx)[i]))
    && TxToOps(step.Ctx(cfg), step.tx).Ok?
  }

  ghost predicate RunOk(cfg: Config, run: seq<Step>) {
    forall k :: 0 <= k < |run| ==> StepOk(cfg, run, k)
  }

  function OpsAt(cfg: Config, step: Step): seq<Operation> {
    var r := Parsed(step.Ctx(cfg), step.tx);
    if r.Ok? then r.value.operations else []
  }

  // ---------------------------------------------------------------- created coins are reported

  /** Some operation of step reports that utxo was created. */
  ghost predicate ReportsCreation(cfg: Config, step: Step, utxo: Utxo) {
    exists p :: 0 <= p < |OpsAt(cfg, step)| && Creates(OpsAt(cfg, step)[p], step.Ctx(cfg), utxo, PChain)
  }

  lemma ListedIsReported(cfg: Config, step: Step, l: OpLists, list: seq<Operation>, utxos: seq<Utxo>, u: Utxo)
    requires TxToOps(step.Ctx(cfg), step.tx) == Ok(l) && (list == l.outs || list == l.stakeOuts)
    requires ReportsAll(list, step.Ctx(cfg), utxos, PChain) && u in utxos && SingleOwner(u.out)
    ensures ReportsCreation(cfg, step, u)
  {
    hide TxToOps, Creates, Reported, Singles, SingleOwner;
    var i :| 0 <= i < |utxos| && utxos[i] == u;
    SinglesContain(utxos, i);
    var p :| 0 <= p < |Singles(utxos)| && Singles(utxos)[p] == u;
    var start := |l.ins| + if list == l.outs then 0 else |l.outs|;
    assert OpsAt(cfg, step) == l.ins + l.outs + l.stakeOuts;
    assert OpsAt(cfg, step)[start + p] == list[p];
  }

  /** The id under which output i is reported: stake outputs are numbered from the count of reported base outputs. */
  function ReportedAs(tx: Tx, i: nat): UtxoID {
    var n := |tx.unsigned.outs|;
    UtxoID(tx.id, if i < n then i else Count(tx.unsigned.outs) + (i - n))
  }

  /** Output i is a base output, or all base outputs have one owner. */
  predicate Unshifted(tx: Tx, i: nat) {
    i < |tx.unsigned.outs| || AllSingle(tx.unsigned.outs)
  }

  lemma ReportedAsItself(tx: Tx, i: nat)
    ensures ReportedAs(tx, i) == UtxoID(tx.id, i) <==> Unshifted(tx, i)
  {
    CountAll(tx.unsigned.outs);
    hide Count, AllSingle;
  }

  /** Every single-owner output is reported, with its own owner and amount, under that id. */
  lemma OutputReported(cfg: Config, run: seq<Step>, j: nat, i: nat)
    requires !cfg.isConstruction && j < |run| && StepOk(cfg, run, j)
    requires SingleAt(SpendableOutputs(run[j].tx.unsigned), i)
    ensures var utxo := OutputUtxo(run[j].tx.id, SpendableOutputs(run[j].tx.unsigned), i);
            ReportsCreation(cfg, run[j], utxo.(id := ReportedAs(run[j].tx, i)))
  {
    hide TxToOps, SpendableOutputs, ReportsAll, ReportsCreation, FromHistory, SpendsExisting, AccountsOf, SingleOwner,
         AsUtxos, Count, KnowsDependencies;
    var step := run[j];
    var u, c := step.tx.unsigned, step.Ctx(cfg);
    var l := TxToOps(c, step.tx).value;
    SpendableByKind(u);
    BlockOperationsExact(c, step.tx);
    var utxo := OutputUtxo(step.tx.id, SpendableOutputs(u), i).(id := ReportedAs(step.tx, i));
    AsUtxosAt(step.tx.id, u.outs, 0);
    if i < |u.outs| {
      assert OutUtxos(step.tx)[i] == utxo;
      ListedIsReported(cfg, step, l, l.outs, OutUtxos(step.tx), utxo);
    } else {
      AsUtxosAt(step.tx.id, u.stake, Count(u.outs));
      assert SingleAt(u.stake, i - |u.outs|);
      assert StakeUtxos(c, step.tx)[i - |u.outs|] == utxo;
      ListedIsReported(cfg, step, l, l.stakeOuts, StakeUtxos(c, step.tx), utxo);
    }
  }

  lemma RewardReported(cfg: Config, run: seq<Step>, j: nat, utxo: Utxo)
    requires !cfg.isConstruction && j < |run| && StepOk(cfg, run, j) && Rewards(run[j], utxo) && SingleOwner(utxo.out)
    ensures ReportsCreation(cfg, run[j], utxo)
  {
    hide TxToOps, SpendableOutputs, ReportsAll, ReportsCreation, FromHistory, SpendsExisting, AccountsOf, SingleOwner,
         OutUtxos, KnowsDependencies;
    var step := run[j];
    var c := step.Ctx(cfg);
    BlockOperationsExact(c, step.tx);
    var l := TxToOps(c, step.tx).value;
    ListedIsReported(cfg, step, l, l.stakeOuts, StakeUtxos(c, step.tx), utxo);
  }

  /** The UTXO that step k's input spends. */
  ghost function Spent(step: Step, u: UtxoID): Utxo
    requires u.txID in step.deps && u in UtxosOf(step.deps[u.txID])
  {
    UtxosOf(step.deps[u.txID])[u]
  }

  /** The id under which the creation of u is reported. */
  ghost function CreatedAs(step: Step, u: UtxoID): UtxoID
    requires u.txID in step.deps
  {
    var d := step.deps[u.txID];
    if IsOutput(d, u) then ReportedAs(d.tx.value, u.outputIndex) else u
  }

  /** It is u itself unless u is a stake output behind a base output of several owners. */
  lemma CreatedAsItself(step: Step, u: UtxoID)
    requires u.txID in step.deps && Named(u.txID, step.deps[u.txID])
    ensures var d := step.deps[u.txID];
            CreatedAs(step, u) == u <==> (IsOutput(d, u) ==> Unshifted(d.tx.value, u.outputIndex))
  {
    hide SpendableOutputs, ReportedAs, Unshifted;
    var d := step.deps[u.txID];
    if IsOutput(d, u) { ReportedAsItself(d.tx.value, u.outputIndex); }
  }

  /** It was reported by an earlier step if it has exactly one owner. */
  lemma SpentWasReported(cfg: Config, run: seq<Step>, k: nat, input: TransferableInput) returns (j: nat)
    requires !cfg.isConstruction && RunOk(cfg, run) && k < |run|
    requires SpendsExisting(run, k, input) && Named(input.utxo.txID, run[k].deps[input.utxo.txID])
    requires SingleOwner(Spent(run[k], input.utxo).out)
    ensures j < k && ReportsCreation(cfg, run[j], Spent(run[k], input.utxo).(id := CreatedAs(run[k], input.utxo)))
  {
    hide ReportsCreation, UtxosOf, SpendableOutputs, TxToOps, AccountsOf, SingleOwner, ReportedAs;
    var u := input.utxo;
    var d := run[k].deps[u.txID];
    UtxosOfExact(d, u);
    if IsOutput(d, u) {
      j :| 0 <= j < k && j < |run| && d.tx == Some(run[j].tx);
      OutputReported(cfg, run, j, u.outputIndex);
    } else {
      assert Rewarded(run, k, Spent(run[k], u));
      j :| 0 <= j < k && j < |run| && Rewards(run[j], Spent(run[k], u));
      UtxosCarryTheirKey(d);
      assert Spent(run[k], u).(id := CreatedAs(run[k], u)) == Spent(run[k], u);
      RewardReported(cfg, run, j, Spent(run[k], u));
    }
  }

  // ---------------------------------------------------------------- spent coins were created

  /** Operation p of step k spends a coin. */
  predicate SpendsCoin(cfg: Config, step: Step, p: nat) {
    p < |OpsAt(cfg, step)| && IsSpend(OpsAt(cfg, step)[p])
  }

  predicate IsSpend(op: Operation) {
    op.coin.Some? && op.coin.value.CoinSpent?
  }

  lemma NeverSpends(ops: seq<Operation>, c: Context, utxos: seq<Utxo>)
    requires ReportsAll(ops, c, utxos, PChain)
    ensures forall q :: 0 <= q < |ops| ==> !IsSpend(ops[q])
  {
    hide Singles, Classified;
    forall q | 0 <= q < |ops| ensures !IsSpend(ops[q]) {
      assert Creates(ops[q], c, Singles(utxos)[q], PChain);
    }
  }

  lemma SpendingInput(cfg: Config, step: Step, p: nat) returns (input: TransferableInput)
    requires !cfg.isConstruction && TxToOps(step.Ctx(cfg), step.tx).Ok? && SpendsCoin(cfg, step, p)
    ensures input in BaseIns(step.tx) && Spends(OpsAt(cfg, step)[p], step.Ctx(cfg), input)
    ensures !Skipped(step.Ctx(cfg), input.utxo)
  {
    hide TxToOps, Spends, Skipped, BaseIns, OutUtxos, StakeUtxos, ReportsAll, Unskipped;
    var c := step.Ctx(cfg);
    var l := TxToOps(c, step.tx).value;
    BlockOperationsExact(c, step.tx);
    assert OpsAt(cfg, step) == l.ins + l.outs + l.stakeOuts;
    NeverSpends(l.outs, c, OutUtxos(step.tx));
    NeverSpends(l.stakeOuts, c, StakeUtxos(c, step.tx));
    input := Unskipped(c, BaseIns(step.tx))[p];
    assert l.ins[p] == OpsAt(cfg, step)[p];
    UnskippedWithin(c, BaseIns(step.tx), input);
  }

  /** The account the parser looks up is the owner found in the creating transaction. */
  lemma AccountIsOwner(run: seq<Step>, k: nat, u: UtxoID)
    requires k < |run| && KnowsDependencies(run, k)
    requires Coin(u) in run[k].accounts && u.txID in run[k].deps && u in UtxosOf(run[k].deps[u.txID])
    ensures SingleOwner(Spent(run[k], u).out) && run[k].accounts[Coin(u)] == OwnerOf(Spent(run[k], u).out)
  {
    hide UtxosOf, SpendableOutputs, SingleOwner;
    var deps, a := run[k].deps, run[k].accounts[Coin(u)];
    var c := Coin(u);
    assert Sound(deps, run[k].accounts) && c in run[k].accounts;
    assert Referenced(deps, c.utxo, a);
    var id :| id in deps && ReferencedBy(deps[id], u, a);
    assert Named(id, deps[id]);
    UtxosOfExact(deps[id], u);
  }

  /** Over any run, an operation that spends a coin has an earlier operation that created it: the same account and
      currency, the opposite amount exactly when that is below 2^63, and the same coin exactly unless it is a stake
      output behind a base output of several owners. */
  lemma SpentWasCreated(cfg: Config, run: seq<Step>, k: nat, p: nat) returns (j: nat, q: nat)
    requires !cfg.isConstruction && RunOk(cfg, run) && k < |run| && SpendsCoin(cfg, run[k], p)
    ensures j < k && q < |OpsAt(cfg, run[j])|
    ensures var spent, created := OpsAt(cfg, run[k])[p], OpsAt(cfg, run[j])[q];
            && created.account == spent.account
            && created.amount.currency == spent.amount.currency
            && (created.amount.value == -spent.amount.value <==> -spent.amount.value < TWO_63)
    ensures var spent, created := OpsAt(cfg, run[k])[p], OpsAt(cfg, run[j])[q];
            && spent.coin.value.coin.Coin? && spent.coin.value.coin.utxo.txID in run[k].deps
            && spent.coin.value.coin.utxo in UtxosOf(run[k].deps[spent.coin.value.coin.utxo.txID])
            && var utxo := Spent(run[k], spent.coin.value.coin.utxo);
               && -spent.amount.value == OutputAmount(utxo.out)
               && SameBits(created.amount.value, OutputAmount(utxo.out))
               && CurrencyOf(cfg, utxo.asset, spent.amount.currency)
    ensures var coin := OpsAt(cfg, run[k])[p].coin.value.coin;
            && coin.Coin? && coin.utxo.txID in run[k].deps && coin.utxo in UtxosOf(run[k].deps[coin.utxo.txID])
            && SingleOwner(Spent(run[k], coin.utxo).out)
    ensures var coin, created := OpsAt(cfg, run[k])[p].coin.value.coin, OpsAt(cfg, run[j])[q];
            && created.coin == Some(CoinCreated(Coin(CreatedAs(run[k], coin.utxo))))
            && var d := run[k].deps[coin.utxo.txID];
               created.coin == Some(CoinCreated(coin))
               <==> (IsOutput(d, coin.utxo) ==> Unshifted(d.tx.value, coin.utxo.outputIndex))
  {
    hide UtxosOf, SpendableOutputs, TxToOps, AccountsOf, SingleOwner, OpsAt, FromHistory, IsOutput, Unshifted,
         CreatedAs, BaseIns, Skipped, OwnerOf, BuildAmount, Rewarded, Creates, Spends;
    assert StepOk(cfg, run, k);
    var input := SpendingInput(cfg, run[k], p);
    var i :| 0 <= i < |BaseIns(run[k].tx)| && BaseIns(run[k].tx)[i] == input;
    assert SpendsExisting(run, k, input);
    SpendsMeans(OpsAt(cfg, run[k])[p], run[k].Ctx(cfg), input);
    AccountIsOwner(run, k, input.utxo);
    j := SpentWasReported(cfg, run, k, input);
    CreatedAsItself(run[k], input.utxo);
    var utxo := Spent(run[k], input.utxo).(id := CreatedAs(run[k], input.utxo));
    q :| 0 <= q < |OpsAt(cfg, run[j])| && Creates(OpsAt(cfg, run[j])[q], run[j].Ctx(cfg), utxo, PChain);
    Opposite(cfg, OpsAt(cfg, run[k])[p], run[k].Ctx(cfg), input, OpsAt(cfg, run[j])[q], run[j].Ctx(cfg), utxo);
  }

  lemma SpendsMeans(op: Operation, c: Context, input: TransferableInput)
    requires Spends(op, c, input)
    ensures Coin(input.utxo) in c.accounts && op.coin == Some(CoinSpent(Coin(input.utxo)))
  {
  }

  /** Two operations about the same UTXO. */
  lemma Opposite(cfg: Config, spent: Operation, c: Context, input: TransferableInput, created: Operation, d: Context,
                 utxo: Utxo)
    requires c.cfg == cfg && d.cfg == cfg && Spends(spent, c, input) && Creates(created, d, utxo, PChain)
    requires utxo.asset == input.asset && OutputAmount(utxo.out) == InputAmount(input.input)
    requires SingleOwner(utxo.out) && c.accounts[Coin(input.utxo)] == OwnerOf(utxo.out)
    ensures created.coin == Some(CoinCreated(Coin(utxo.id))) && created.account == spent.account
    ensures created.amount.currency == spent.amount.currency
    ensures created.amount.value == -spent.amount.value <==> -spent.amount.value < TWO_63
    ensures -spent.amount.value == OutputAmount(utxo.out) && SameBits(created.amount.value, OutputAmount(utxo.out))
    ensures CurrencyOf(cfg, utxo.asset, spent.amount.currency)
  {
    UnlockedOwners(utxo.out);
    SpentAmount(spent, cfg, input);
    CreatedAmount(created, cfg, utxo);
    hide Unlocked, OutputAmount, InputAmount, Addresses, IsTransfer;
  }

  lemma SpentAmount(op: Operation, cfg: Config, input: TransferableInput)
    requires ShowsSpent(op, cfg, input)
    ensures op.amount.value == 0 - InputAmount(input.input)
  {
    if input.input.LockIn? { assert InputAmount(input.input.inner) == input.input.inner.amount; }
  }

  lemma CreatedAmount(op: Operation, cfg: Config, utxo: Utxo)
    requires Reported(utxo.out) && IsTransfer(utxo.out, Unlocked(utxo.out).value)
    requires SameBits(op.amount.value, Unlocked(utxo.out).value.amount)
    ensures SameBits(op.amount.value, OutputAmount(utxo.out))
  {
    hide SameBits;
    if utxo.out.LockOut? { assert OutputAmount(utxo.out.inner) == utxo.out.inner.out.amount; }
  }
}