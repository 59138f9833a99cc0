/** Blocks parsed with what their own fetch returned (service/backend/pchain/block.go, mapper/pchain/helper.go): the
    fetch supplies all that a spend and its creation need to agree. */
module PchainBlocks {
  import opened Prelude
  import opened PchainModel
  import opened PchainDependency
  import opened PchainTxOps
  import opened PchainParser
  import ForkJoin
  import opened PchainCompleteness
  import opened PchainReconciliation
  import PchainCoinIds

  // ---------------------------------------------------------------- blocks

  /** A block, what the node answered while it was parsed, the run of the fetch, and the accounts collected. */
  datatype Block = Block(txs: seq<Tx>, node: ForkJoin.Node, ids: seq<ID>, fetch: seq<ForkJoin.State>,
                         accounts: AccountMap)

  function Unsigned(txs: seq<Tx>): seq<UnsignedTx> {
    seq(|txs|, i requires 0 <= i < |txs| => txs[i].unsigned)
  }

  /** The reward UTXOs the node lists for a transaction carry its id and come, each once, after all of its outputs. */
  ghost predicate ProperRewards(node: ForkJoin.Node) {
    forall id :: id in node.rewards && id in node.txs ==> RewardsFit(node.txs[id], node.rewards[id])
  }

  ghost predicate RewardsFit(tx: Tx, rewards: seq<Utxo>) {
    && (forall i :: 0 <= i < |rewards| ==>
          rewards[i].id.txID == tx.id && |SpendableOutputs(tx.unsigned)| <= rewards[i].id.outputIndex)
    && forall i, j :: 0 <= i < j < |rewards| ==> rewards[i].id != rewards[j].id
  }

  /** The fetch ran for the block's dependency ids, in some interleaving, and returned; the accounts are collected from
      its result. */
  ghost predicate Fetched(b: Block) {
    && ForkJoin.Honest(b.node) && ProperRewards(b.node)
    && Elements(b.ids) == ForkJoin.BlockDependencyIDs(Unsigned(b.txs))
    && ForkJoin.Run(b.node, b.ids, b.fetch)
    && b.fetch[|b.fetch| - 1].phase.Returned? && b.fetch[|b.fetch| - 1].phase.result.Some?
    && AccountsOf(DepsOf(b), b.accounts)
  }

  function DepsOf(b: Block): Dependencies {
    if b.fetch == [] then map[]
    else
      var phase := b.fetch[|b.fetch| - 1].phase;
      if phase.Returned? && phase.result.Some? then phase.result.value else map[]
  }

  function BlockSteps(b: Block): seq<Step> {
    seq(|b.txs|, i requires 0 <= i < |b.txs| => Step(b.txs[i], b.accounts, DepsOf(b)))
  }

  function StepsOf(blocks: seq<Block>): seq<Step> {
    if blocks == [] then [] else StepsOf(blocks[..|blocks| - 1]) + BlockSteps(blocks[|blocks| - 1])
  }

  /** Step k of the run is a transaction of some block. */
  lemma {:induction false} StepHasBlock(blocks: seq<Block>, k: nat) returns (b: nat, i: nat)
    requires k < |StepsOf(blocks)|
    ensures b < |blocks| && i < |blocks[b].txs|
    ensures StepsOf(blocks)[k] == Step(blocks[b].txs[i], blocks[b].accounts, DepsOf(blocks[b]))
  {
    hide DepsOf;
    var n := |blocks| - 1;
    var before := StepsOf(blocks[..n]);
    if k < |before| {
      b, i := StepHasBlock(blocks[..n], k);
    } else {
      b, i := n, k - |before|;
    }
  }

  // ---------------------------------------------------------------- the chain

  /** Step j created the UTXO that the input spends, with that asset and amount: as an output, or as a reward. */
  ghost predicate Created(step: Step, input: TransferableInput) {
    || CreatedOutput(step.tx, input)
    || exists u :: Rewards(step, u) && u.id == input.utxo && u.asset == input.asset
                   && OutputAmount(u.out) == InputAmount(input.input)
  }

  predicate CreatedOutput(tx: Tx, input: TransferableInput) {
    && tx.id == input.utxo.txID && input.utxo.outputIndex < |SpendableOutputs(tx.unsigned)|
    && var out := SpendableOutputs(tx.unsigned)[input.utxo.outputIndex];
       out.asset == input.asset && OutputAmount(out.out) == InputAmount(input.input)
  }

  /** The chain's own rule: base inputs spend what earlier transactions created, those of the same block included. */
  ghost predicate SpendsCreated(steps: seq<Step>, k: nat)
    requires k < |steps|
  {
    forall i :: 0 <= i < |BaseIns(steps[k].tx)| ==> exists j :: 0 <= j < k && Created(steps[j], BaseIns(steps[k].tx)[i])
  }

  /** One id is one transaction, whenever the node is asked for it. */
  ghost predicate SameTxs(steps: seq<Step>) {
    forall j, k :: 0 <= j < |steps| && 0 <= k < |steps| && steps[j].tx.id in steps[k].deps ==>
      steps[k].deps[steps[j].tx.id].tx == Some(steps[j].tx)
  }

  /** Once a reward is paid out, the node lists the same reward UTXOs for ever. */
  ghost predicate SameRewards(steps: seq<Step>) {
    forall j, k :: 0 <= j < k < |steps| && steps[j].tx.unsigned.kind.RewardValidator? ==>
      SameEntry(steps[j].deps, steps[k].deps, steps[j].tx.unsigned.rewarded)
  }

  predicate SameEntry(a: Dependencies, b: Dependencies, id: ID) {
    id in a && id in b ==> a[id] == b[id]
  }

  /** A sequence of blocks as the chain allows it, each fetched and parsed without an error. */
  ghost predicate ChainOk(cfg: Config, blocks: seq<Block>) {
    var steps := StepsOf(blocks);
    && (forall b :: 0 <= b < |blocks| ==> Fetched(blocks[b]))
    && (forall k :: 0 <= k < |steps| ==> SpendsCreated(steps, k) && TxToOps(steps[k].Ctx(cfg), steps[k].tx).Ok?)
    && SameTxs(steps) && SameRewards(steps)
  }

  // ---------------------------------------------------------------- what the fetch gives

  /** Every dependency a finished fetch returns is the node's transaction under its own id, with proper rewards. */
  lemma FetchedEntry(b: Block, id: ID)
    requires Fetched(b) && id in DepsOf(b)
    ensures Named(id, DepsOf(b)[id]) && RewardsFit(DepsOf(b)[id].tx.value, DepsOf(b)[id].rewards)
  {
    ForkJoin.ResultIsDetermined(b.node, b.ids, b.fetch);
    hide ForkJoin.Run, AccountsOf, SpendableOutputs, ForkJoin.SomeFails, ForkJoin.BlockDependencyIDs;
    assert ForkJoin.Fetch(b.node, id) == Some(DepsOf(b)[id]);
    ForkJoin.FetchIsHonest(b.node, id);
  }

  lemma SpentIsFetched(b: Block, i: nat, k: nat)
    requires Fetched(b) && i < |b.txs| && k < |BaseIns(b.txs[i])|
    ensures BaseIns(b.txs[i])[k].utxo.txID in DepsOf(b)
  {
    ForkJoin.ResultIsDetermined(b.node, b.ids, b.fetch);
    hide ForkJoin.Run, AccountsOf, ForkJoin.SomeFails, ForkJoin.Honest, ProperRewards;
    NeededIsFetched(b.txs, i);
    InputIsDependency(b.txs[i].unsigned, k);
    hide DependencyIDs, ForkJoin.BlockDependencyIDs;
    assert DependencyIDs(b.txs[i].unsigned) <= Elements(b.ids);
  }

  // ---------------------------------------------------------------- spends

  /** A spent output is found in the dependencies as the creating transaction has it. */
  lemma OutputFound(steps: seq<Step>, k: nat, j: nat, input: TransferableInput)
    requires j < k < |steps| && SameTxs(steps) && CreatedOutput(steps[j].tx, input)
    requires input.utxo.txID in steps[k].deps
    ensures SpendsExisting(steps, k, input)
  {
    var u, d := input.utxo, steps[k].deps[input.utxo.txID];
    assert d.tx == Some(steps[j].tx);
    UtxosOfExact(d, u);
    hide UtxosOf, SpendableOutputs, OutputAmount, InputAmount;
    assert FromHistory(steps, k, d);
  }

  lemma {:induction false} RewardInMap(rewards: seq<Utxo>, u: Utxo)
    requires (forall i, j :: 0 <= i < j < |rewards| ==> rewards[i].id != rewards[j].id) && u in rewards
    ensures u.id in RewardMap(rewards) && RewardMap(rewards)[u.id] == u
  {
    var n := |rewards| - 1;
    if rewards[n] != u { RewardInMap(rewards[..n], u); }
  }

  lemma RewardIsEntry(d: Dependency, u: Utxo)
    requires d.tx.Some? && RewardsFit(d.tx.value, d.rewards) && u in d.rewards
    ensures u.id in UtxosOf(d) && UtxosOf(d)[u.id] == u && !IsOutput(d, u.id)
  {
    hide SpendableOutputs;
    RewardInMap(d.rewards, u);
    OutputMapExact(d.tx.value.id, SpendableOutputs(d.tx.value.unsigned), u.id);
    hide OutputMap, RewardMap;
    var i :| 0 <= i < |d.rewards| && d.rewards[i] == u;
  }

  /** A reward that was paid out is found among the node's rewards. */
  lemma RewardFound(steps: seq<Step>, k: nat, j: nat, input: TransferableInput, u: Utxo)
    requires j < k < |steps| && SameRewards(steps) && Rewards(steps[j], u)
    requires u.id == input.utxo && u.asset == input.asset && OutputAmount(u.out) == InputAmount(input.input)
    requires u.id.txID == steps[j].tx.unsigned.rewarded
    requires input.utxo.txID in steps[k].deps
    requires steps[k].deps[input.utxo.txID].tx.Some?
    requires var d := steps[k].deps[input.utxo.txID]; RewardsFit(d.tx.value, d.rewards)
    ensures SpendsExisting(steps, k, input)
  {
    var d := steps[k].deps[input.utxo.txID];
    hide UtxosOf, OutputAmount, InputAmount, RewardsFit, IsOutput;
    assert SameEntry(steps[j].deps, steps[k].deps, steps[j].tx.unsigned.rewarded);
    RewardIsEntry(d, u);
    assert Rewarded(steps, k, u);
  }

  /** The dependencies of step k, whichever block it is in, are the node's own. */
  lemma StepEntry(blocks: seq<Block>, k: nat, id: ID)
    requires k < |StepsOf(blocks)| && (forall b :: 0 <= b < |blocks| ==> Fetched(blocks[b]))
    requires id in StepsOf(blocks)[k].deps
    ensures var d := StepsOf(blocks)[k].deps[id]; Named(id, d) && RewardsFit(d.tx.value, d.rewards)
  {
    hide Fetched, DepsOf, StepsOf, Named, RewardsFit;
    var b, i := StepHasBlock(blocks, k);
    FetchedEntry(blocks[b], id);
  }

  lemma StepKnows(blocks: seq<Block>, k: nat)
    requires k < |StepsOf(blocks)| && (forall b :: 0 <= b < |blocks| ==> Fetched(blocks[b]))
    ensures KnowsDependencies(StepsOf(blocks), k)
  {
    var b, i := StepHasBlock(blocks, k);
    assert AccountsOf(DepsOf(blocks[b]), blocks[b].accounts);
    hide Fetched, DepsOf, StepsOf, Named, RewardsFit, AccountsOf;
    forall id | id in StepsOf(blocks)[k].deps ensures Named(id, StepsOf(blocks)[k].deps[id]) {
      StepEntry(blocks, k, id);
    }
  }

  lemma StepSpends(cfg: Config, blocks: seq<Block>, k: nat, i: nat)
    requires ChainOk(cfg, blocks) && k < |StepsOf(blocks)| && i < |BaseIns(StepsOf(blocks)[k].tx)|
    ensures SpendsExisting(StepsOf(blocks), k, BaseIns(StepsOf(blocks)[k].tx)[i])
  {
    hide Fetched, DepsOf, StepsOf, TxToOps, SpendsExisting, BaseIns, SameTxs, SameRewards, RewardsFit, Rewards,
         CreatedOutput;
    var steps := StepsOf(blocks);
    var input := BaseIns(steps[k].tx)[i];
    assert SpendsCreated(steps, k);
    var j :| 0 <= j < k && Created(steps[j], input);
    var b, n := StepHasBlock(blocks, k);
    SpentIsFetched(blocks[b], n, i);
    StepEntry(blocks, k, input.utxo.txID);
    if CreatedOutput(steps[j].tx, input) {
      OutputFound(steps, k, j, input);
    } else {
      var u :| Rewards(steps[j], u) && u.id == input.utxo && u.asset == input.asset
               && OutputAmount(u.out) == InputAmount(input.input);
      RewardCarriesID(blocks, j, u);
      RewardFound(steps, k, j, input, u);
    }
  }

  lemma RewardCarriesID(blocks: seq<Block>, j: nat, u: Utxo)
    requires j < |StepsOf(blocks)| && (forall b :: 0 <= b < |blocks| ==> Fetched(blocks[b]))
    requires Rewards(StepsOf(blocks)[j], u)
    ensures u.id.txID == StepsOf(blocks)[j].tx.unsigned.rewarded
  {
    hide Fetched, StepsOf, RewardsFit;
    var id := StepsOf(blocks)[j].tx.unsigned.rewarded;
    StepEntry(blocks, j, id);
  }

  /** What fetches from an honest node return, in whatever interleaving, meets all that runs are required to know. */
  lemma FetchedBlocksRun(cfg: Config, blocks: seq<Block>)
    requires ChainOk(cfg, blocks)
    ensures RunOk(cfg, StepsOf(blocks))
  {
    var steps := StepsOf(blocks);
    forall k | 0 <= k < |steps| ensures StepOk(cfg, steps, k) {
      assert TxToOps(steps[k].Ctx(cfg), steps[k].tx).Ok?;
      StepKnows(blocks, k);
      hide StepsOf, KnowsDependencies, TxToOps, SpendsExisting, BaseIns, ChainOk;
      forall i | 0 <= i < |BaseIns(steps[k].tx)| ensures SpendsExisting(steps, k, BaseIns(steps[k].tx)[i]) {
        StepSpends(cfg, blocks, k, i);
      }
    }
  }

  /** From the fetch of each block to its operations: an operation that spends a coin has an earlier one, perhaps of the
      same block, that created it. */
  lemma FetchedSpendWasCreated(cfg: Config, blocks: seq<Block>, k: nat, p: nat) returns (j: nat, q: nat)
    requires !cfg.isConstruction && ChainOk(cfg, blocks)
    requires k < |StepsOf(blocks)| && SpendsCoin(cfg, StepsOf(blocks)[k], p)
    ensures var steps := StepsOf(blocks);
            && j < k && q < |OpsAt(cfg, steps[j])|
            && var spent, created := OpsAt(cfg, steps[k])[p], OpsAt(cfg, steps[j])[q];
               && created.account == spent.account && created.amount.currency == spent.amount.currency
               && (created.amount.value == -spent.amount.value <==> -spent.amount.value < TWO_63)
               && spent.coin.value.coin.Coin? && spent.coin.value.coin.utxo.txID in steps[k].deps
               && var u := spent.coin.value.coin.utxo;
                  && created.coin == Some(CoinCreated(Coin(CreatedAs(steps[k], u))))
                  && u in UtxosOf(steps[k].deps[u.txID])
                  && -spent.amount.value == OutputAmount(Spent(steps[k], u).out)
  {
    hide ChainOk, StepsOf, RunOk, OpsAt, CreatedAs;
    FetchedBlocksRun(cfg, blocks);
    j, q := SpentWasCreated(cfg, StepsOf(blocks), k, p);
  }

  // ---------------------------------------------------------------- a spend within one block

  function Coin5(): TransferableOutput {
    PchainCoinIds.Owned([1])
  }

  function Giver(): Tx {
    Tx(7, UnsignedTx(ImportAvax, [], [Coin5()], [], [], [], 0, 0))
  }

  function Taker(): Tx {
    Tx(8, UnsignedTx(Base, [TransferableInput(UtxoID(7, 0), 0, TransferInput(5, [0]))], [], [], [], [], 0, 0))
  }

  function GiverEntry(): Dependency {
    Dependency(Some(Giver()), [])
  }

  /** An import and a transaction that spends its output, in one block: the import is parsed with itself among the
      dependencies. */
  function SameBlock(): Block {
    var d := GiverEntry();
    Block([Giver(), Taker()], ForkJoin.Node(map[7 := Giver()], map[7 := []], None), [7],
          [ForkJoin.State([ForkJoin.Started], [], map[], ForkJoin.Waiting),
           ForkJoin.State([ForkJoin.GotTx(Giver())], [], map[], ForkJoin.Waiting),
           ForkJoin.State([ForkJoin.Ready(d)], [], map[], ForkJoin.Waiting),
           ForkJoin.State([ForkJoin.Sent], [d], map[], ForkJoin.Waiting),
           ForkJoin.State([ForkJoin.Sent], [d], map[], ForkJoin.Draining),
           ForkJoin.State([ForkJoin.Sent], [], map[7 := d], ForkJoin.Draining),
           ForkJoin.State([ForkJoin.Sent], [], map[7 := d], ForkJoin.Returned(Some(map[7 := d])))],
          map[Coin(UtxoID(7, 0)) := Bech32(PChain, 1)])
  }

  const Indexer := Config(false, map[], 0, map[])

  lemma SameBlockFetched()
    ensures Fetched(SameBlock()) && DepsOf(SameBlock()) == map[7 := GiverEntry()]
  {
    SameBlockIDs();
    SameBlockRun();
    SameBlockAccounts();
    hide ForkJoin.Run, ForkJoin.BlockDependencyIDs, AccountsOf;
  }

  lemma SameBlockIDs()
    ensures Elements(SameBlock().ids) == ForkJoin.BlockDependencyIDs(Unsigned(SameBlock().txs))
  {
    var txs := Unsigned(SameBlock().txs);
    assert txs[0] == Giver().unsigned && txs[1] == Taker().unsigned;
    assert DependencyIDs(txs[0]) == {};
    assert Taker().unsigned.ins[0].utxo.txID == 7;
    assert DependencyIDs(txs[1]) == {7};
    hide DependencyIDs;
    assert 7 in ForkJoin.BlockDependencyIDs(txs);
  }

  lemma SameBlockRun()
    ensures ForkJoin.Run(SameBlock().node, SameBlock().ids, SameBlock().fetch)
  {
    var b := SameBlock();
    forall k | 0 <= k < |b.fetch| - 1 ensures ForkJoin.Next(b.node, b.ids, b.fetch[k], b.fetch[k + 1]) {
      if k < 3 { assert ForkJoin.WorkerStep(b.node, b.ids, b.fetch[k], b.fetch[k + 1], 0); }
    }
  }

  lemma SameBlockAccounts()
    ensures AccountsOf(DepsOf(SameBlock()), SameBlock().accounts)
  {
    var deps := DepsOf(SameBlock());
    assert deps == map[7 := GiverEntry()];
    forall u ensures u in UtxosOf(deps[7]) <==> u == UtxoID(7, 0) { UtxosOfExact(deps[7], u); }
    UtxosOfExact(deps[7], UtxoID(7, 0));
    hide UtxosOf;
    assert ReferencedBy(deps[7], UtxoID(7, 0), Bech32(PChain, 1));
  }

  lemma SameBlockSteps()
    ensures StepsOf([SameBlock()]) == [Step(Giver(), SameBlock().accounts, DepsOf(SameBlock())),
                                       Step(Taker(), SameBlock().accounts, DepsOf(SameBlock()))]
  {
    var blocks := [SameBlock()];
    hide DepsOf;
    assert blocks[..0] == [] && StepsOf([]) == [];
  }

  /** Both transactions parse; the second one spends the coin the first one created. */
  lemma SameBlockParses(deps: Dependencies)
    requires deps == map[7 := GiverEntry()]
    ensures var c := Context(Indexer, map[Coin(UtxoID(7, 0)) := Bech32(PChain, 1)], Some(deps));
            && TxToOps(c, Giver()).Ok? && TxToOps(c, Taker()).Ok?
            && Parsed(c, Taker()).Ok? && |Parsed(c, Taker()).value.operations| == 1
            && Parsed(c, Taker()).value.operations[0].coin == Some(CoinSpent(Coin(UtxoID(7, 0))))
  {
    var c := Context(Indexer, map[Coin(UtxoID(7, 0)) := Bech32(PChain, 1)], Some(deps));
    hide TxToOps, Giver, Taker;
    GiverParses(c);
    var op := TakerParses(c);
    var l := EMPTY.(ins := [op]);
    assert l.Included() == [op];
    assert Parsed(c, Taker()).value.operations == [op];
  }

  lemma GiverParses(c: Context)
    requires c.cfg == Indexer
    ensures TxToOps(c, Giver()).Ok?
  {
    assert InsToOps(c, EMPTY, ImportAvax, [], MetaInput) == InsToOps(c, EMPTY, ImportAvax, [], MetaImport) == Ok(EMPTY);
    PchainCoinIds.OneOutput(c, ImportAvax, 7, Coin5(), MetaOutput, PChain);
    assert UtxoOp(c, ImportAvax, Utxo(UtxoID(7, 0), 0, Coin5().out), MetaOutput, PChain, 0).Ok?;
    hide OutsToOps, InsToOps, UtxoOp;
  }

  lemma TakerParses(c: Context) returns (op: Operation)
    requires c == Context(Indexer, map[Coin(UtxoID(7, 0)) := Bech32(PChain, 1)], Some(map[7 := GiverEntry()]))
    ensures op.coin == Some(CoinSpent(Coin(UtxoID(7, 0))))
    ensures TxToOps(c, Taker()) == Ok(EMPTY.(ins := [op]))
  {
    var ins := Taker().unsigned.ins;
    op := SpendParses(c);
    InsStart(c, EMPTY, Base, ins, MetaInput);
    InsStep(c, EMPTY, Base, ins, MetaInput, 0);
    assert ins[..1] == ins;
    var l := EMPTY.(ins := [op]);
    assert Appended(EMPTY, false, op, MetaInput) == l;
    OutsAreUtxos(c, l, Base, 8, [], MetaOutput, PChain);
    var none := AsUtxos(8, [], l.OutputLen());
    assert none[..0] == none;
    UtxosStart(c, l, Base, none, MetaOutput, PChain);
    hide InputOp, InsToOps, OutsToOps, UtxosToOps, AsUtxos;
  }

  lemma SpendParses(c: Context) returns (op: Operation)
    requires c == Context(Indexer, map[Coin(UtxoID(7, 0)) := Bech32(PChain, 1)], Some(map[7 := GiverEntry()]))
    ensures op.coin == Some(CoinSpent(Coin(UtxoID(7, 0))))
    ensures InputOp(c, Base, Taker().unsigned.ins[0], MetaInput, 0) == Ok(Some(op))
  {
    UtxosOfExact(c.deps.value[7], UtxoID(7, 0));
    hide UtxosOf;
    op := InputOp(c, Base, Taker().unsigned.ins[0], MetaInput, 0).value.value;
  }

  /** A block in which one transaction spends another's output meets all that is asked of a chain, and its second
      transaction reports the spend. */
  lemma SameBlockSpend()
    ensures ChainOk(Indexer, [SameBlock()])
    ensures |StepsOf([SameBlock()])| == 2 && SpendsCoin(Indexer, StepsOf([SameBlock()])[1], 0)
  {
    SameBlockFetched();
    SameBlockSteps();
    SameBlockIsOk([SameBlock()], DepsOf(SameBlock()));
    hide ChainOk, StepsOf, SpendsCoin;
  }

  lemma {:induction false} SameBlockIsOk(blocks: seq<Block>, deps: Dependencies)
    requires |blocks| == 1 && Fetched(blocks[0]) && deps == map[7 := GiverEntry()]
    requires var accounts := map[Coin(UtxoID(7, 0)) := Bech32(PChain, 1)];
             StepsOf(blocks) == [Step(Giver(), accounts, deps), Step(Taker(), accounts, deps)]
    ensures ChainOk(Indexer, blocks) && SpendsCoin(Indexer, StepsOf(blocks)[1], 0)
  {
    hide Fetched, StepsOf, TxToOps, Parsed, SpendsCreated, SameTxs, SameRewards, GiverEntry, Giver, Taker;
    var steps, accounts := StepsOf(blocks), map[Coin(UtxoID(7, 0)) := Bech32(PChain, 1)];
    SameBlockParses(deps);
    SameBlockAgrees(steps, accounts, deps);
    SameBlockSpends(steps);
    var c := Context(Indexer, accounts, Some(deps));
    assert steps[0].Ctx(Indexer) == steps[1].Ctx(Indexer) == c;
    hide SpendsCoin;
    TakerSpends(steps[1], c);
  }

  lemma TakerSpends(step: Step, c: Context)
    requires step.tx == Taker() && step.Ctx(Indexer) == c
    requires Parsed(c, Taker()).Ok? && |Parsed(c, Taker()).value.operations| == 1
    requires Parsed(c, Taker()).value.operations[0].coin == Some(CoinSpent(Coin(UtxoID(7, 0))))
    ensures SpendsCoin(Indexer, step, 0)
  {
    hide Parsed, Taker;
  }

  lemma SameBlockAgrees(steps: seq<Step>, accounts: AccountMap, deps: Dependencies)
    requires steps == [Step(Giver(), accounts, deps), Step(Taker(), accounts, deps)] && deps == map[7 := GiverEntry()]
    ensures SameTxs(steps) && SameRewards(steps)
  {
  }

  lemma SameBlockSpends(steps: seq<Step>)
    requires |steps| == 2 && steps[0].tx == Giver() && steps[1].tx == Taker()
    ensures SpendsCreated(steps, 0) && SpendsCreated(steps, 1)
  {
    assert BaseIns(steps[0].tx) == [] && BaseIns(steps[1].tx) == Taker().unsigned.ins;
    assert CreatedOutput(steps[0].tx, Taker().unsigned.ins[0]);
    assert Created(steps[0], Taker().unsigned.ins[0]);
  }
}
