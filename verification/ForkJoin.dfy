/** service/backend/pchain/block.go: dependencies fetched by concurrent workers that meet in a buffered channel. */
module ForkJoin {
  import opened Prelude
  import opened PchainModel
  import opened PchainDependency

  // ---------------------------------------------------------------- the ids to fetch

  function BlockDependencyIDs(txs: seq<UnsignedTx>): set<ID> {
    set i, id | 0 <= i < |txs| && id in DependencyIDs(txs[i]) :: id
  }

  /** The first loop of fetchBlkDependencies: all transactions' ids, repeated if several transactions share one. */
  method CollectIDs(txs: seq<UnsignedTx>) returns (r: Result<seq<ID>, ()>)
    ensures r.Err? <==> exists i :: 0 <= i < |txs| && txs[i].kind.UnknownKind?
    ensures r.Ok? ==> Elements(r.value) == BlockDependencyIDs(txs)
  {
    var depsTxIDs: seq<ID> := [];
    for i := 0 to |txs|
      invariant forall k :: 0 <= k < i ==> !txs[k].kind.UnknownKind?
      invariant Elements(depsTxIDs) == BlockDependencyIDs(txs[..i])
    {
      var inputTxsIds := GetTxDependenciesIDs(txs[i]);
      if inputTxsIds.Err? {
        return Err(());
      }
      OneMore(txs, i);
      ElementsConcat(depsTxIDs, inputTxsIds.value);
      depsTxIDs := depsTxIDs + inputTxsIds.value;
    }
    assert txs[..|txs|] == txs;
    r := Ok(depsTxIDs);
  }

  lemma OneMore(txs: seq<UnsignedTx>, i: nat)
    requires i < |txs|
    ensures BlockDependencyIDs(txs[..i + 1]) == BlockDependencyIDs(txs[..i]) + DependencyIDs(txs[i])
  {
    hide DependencyIDs;
    assert forall k :: 0 <= k < i ==> txs[..i + 1][k] == txs[..i][k];
    assert txs[..i + 1][i] == txs[i];
  }

  lemma ElementsConcat(a: seq<ID>, b: seq<ID>)
    ensures Elements(a + b) == Elements(a) + Elements(b)
  {
  }

  // ---------------------------------------------------------------- one worker's answer

  const EMPTY_ID: ID := 0

  /** What the node answers while the block is parsed; a missing entry is an error of that call. */
  datatype Node = Node(txs: map<ID, Tx>, rewards: map<ID, seq<Utxo>>, allocation: Option<Tx>)

  /** A transaction id is the hash of its bytes, and the allocation transaction has the zero id. */
  ghost predicate Honest(node: Node) {
    && (forall id :: id in node.txs ==> node.txs[id].id == id)
    && (node.allocation.Some? ==> node.allocation.value.id == EMPTY_ID)
  }

  /** What fetchDependencyTx sends for an id, None if it returns an error. */
  function Fetch(node: Node, id: ID): Option<Dependency> {
    if id == EMPTY_ID then
      if node.allocation.Some? then Some(Dependency(node.allocation, [])) else None
    else if id in node.txs && id in node.rewards then Some(Dependency(Some(node.txs[id]), node.rewards[id]))
    else None
  }

  // ---------------------------------------------------------------- the protocol

  datatype Worker = Started | GotTx(tx: Tx) | Ready(dep: Dependency) | Sent | Failed

  datatype Phase = Waiting | Draining | Returned(result: Option<Dependencies>)

  datatype State = State(workers: seq<Worker>, channel: seq<Dependency>, blockDeps: Dependencies, phase: Phase)

  function Init(ids: seq<ID>): State {
    State(seq(|ids|, i => Started), [], map[], Waiting)
  }

  predicate Moves(s: State, t: State, i: nat, w: Worker)
    requires i < |s.workers|
  {
    t == s.(workers := s.workers[i := w])
  }

  /** Worker i runs its next remote call; once some worker failed the shared context is cancelled. */
  ghost predicate Calls(node: Node, ids: seq<ID>, s: State, t: State, i: nat)
    requires i < |s.workers| == |ids|
  {
    var id := ids[i];
    match s.workers[i]
    case Started =>
      if id == EMPTY_ID then
        Moves(s, t, i, if node.allocation.Some? then Ready(Dependency(node.allocation, [])) else Failed)
      else Moves(s, t, i, if id in node.txs then GotTx(node.txs[id]) else Failed)
           || (Failed in s.workers && Moves(s, t, i, Failed))
    case GotTx(tx) =>
      Moves(s, t, i, if id in node.rewards then Ready(Dependency(Some(tx), node.rewards[id])) else Failed)
      || (Failed in s.workers && Moves(s, t, i, Failed))
    case _ => false
  }

  /** Worker i sends, which needs room in the channel: its capacity is the number of ids. */
  predicate Sends(ids: seq<ID>, s: State, t: State, i: nat)
    requires i < |s.workers|
  {
    && s.workers[i].Ready? && |s.channel| < |ids|
    && t == s.(workers := s.workers[i := Sent], channel := s.channel + [s.workers[i].dep])
  }

  predicate Over(w: Worker) {
    w.Sent? || w.Failed?
  }

  /** eg.Wait returns once no worker runs any more. */
  ghost predicate Joins(s: State, t: State) {
    && s.phase.Waiting? && (forall i :: 0 <= i < |s.workers| ==> Over(s.workers[i]))
    && t == s.(phase := if Failed in s.workers then Returned(None) else Draining)
  }

  /** The closed channel is drained in the order of sending. */
  predicate Drains(s: State, t: State) {
    && s.phase.Draining?
    && if s.channel == [] then t == s.(phase := Returned(Some(s.blockDeps)))
       else s.channel[0].tx.Some?
            && t == s.(channel := s.channel[1..], blockDeps := s.blockDeps[s.channel[0].tx.value.id := s.channel[0]])
  }

  ghost predicate WorkerStep(node: Node, ids: seq<ID>, s: State, t: State, i: nat) {
    i < |s.workers| == |ids| && s.phase.Waiting? && (Calls(node, ids, s, t, i) || Sends(ids, s, t, i))
  }

  ghost predicate Next(node: Node, ids: seq<ID>, s: State, t: State) {
    Joins(s, t) || Drains(s, t) || exists i :: WorkerStep(node, ids, s, t, i)
  }

  ghost predicate Run(node: Node, ids: seq<ID>, run: seq<State>) {
    |run| > 0 && run[0] == Init(ids) && forall k :: 0 <= k < |run| - 1 ==> Next(node, ids, run[k], run[k + 1])
  }

  // ---------------------------------------------------------------- the invariant

  function Sum(ws: seq<Worker>, f: Worker -> nat): nat {
    if ws == [] then 0 else Sum(ws[..|ws| - 1], f) + f(ws[|ws| - 1])
  }

  lemma {:induction false} SumUpdate(ws: seq<Worker>, f: Worker -> nat, i: nat, w: Worker)
    requires i < |ws|
    ensures Sum(ws[i := w], f) == Sum(ws, f) - f(ws[i]) + f(w)
    decreases |ws|
  {
    var n := |ws| - 1;
    if i < n {
      assert ws[i := w][..n] == ws[..n][i := w];
      SumUpdate(ws[..n], f, i, w);
    } else {
      assert ws[i := w][..n] == ws[..n];
    }
  }

  function SentOne(w: Worker): nat {
    if w.Sent? then 1 else 0
  }

  lemma {:induction false} SentRoom(ws: seq<Worker>)
    ensures Sum(ws, SentOne) <= |ws|
    ensures forall i :: 0 <= i < |ws| && !ws[i].Sent? ==> Sum(ws, SentOne) < |ws|
  {
    if ws != [] {
      var n := |ws| - 1;
      SentRoom(ws[..n]);
      assert forall i :: 0 <= i < n ==> ws[..n][i] == ws[i];
    }
  }

  /** A worker holds what its own calls answered. */
  predicate WorkerOk(node: Node, id: ID, w: Worker) {
    match w
    case Started => true
    case GotTx(tx) => id != EMPTY_ID && id in node.txs && tx == node.txs[id]
    case Ready(dep) => Fetch(node, id) == Some(dep)
    case Sent => Fetch(node, id).Some?
    case Failed => true
  }

  /** A dependency that belongs to one of the ids. */
  predicate Belongs(node: Node, ids: seq<ID>, d: Dependency) {
    d.tx.Some? && d.tx.value.id in ids && Fetch(node, d.tx.value.id) == Some(d)
  }

  ghost predicate SomeFails(node: Node, ids: seq<ID>) {
    exists i :: 0 <= i < |ids| && Fetch(node, ids[i]).None?
  }

  /** What worker i sent is in the channel or already in the result. */
  predicate Delivered(s: State, ids: seq<ID>, i: nat, d: Option<Dependency>)
    requires i < |ids|
  {
    d.Some? && (d.value in s.channel || ids[i] in s.blockDeps)
  }

  ghost predicate Inv(node: Node, ids: seq<ID>, s: State) {
    && |s.workers| == |ids| && |s.channel| <= |ids|
    && (forall i :: 0 <= i < |ids| ==> WorkerOk(node, ids[i], s.workers[i]))
    && (Failed in s.workers ==> SomeFails(node, ids))
    && (s.phase.Waiting? ==> |s.channel| == Sum(s.workers, SentOne) && s.blockDeps == map[])
    && (forall k :: 0 <= k < |s.channel| ==> Belongs(node, ids, s.channel[k]))
    && (forall id :: id in s.blockDeps ==> id in ids && Fetch(node, id) == Some(s.blockDeps[id]))
    && (forall i :: 0 <= i < |ids| && s.workers[i].Sent? ==> Delivered(s, ids, i, Fetch(node, ids[i])))
    && (s.phase.Draining? ==> forall i :: 0 <= i < |ids| ==> s.workers[i].Sent?)
    && (s.phase.Returned? ==>
          if s.phase.result.None? then SomeFails(node, ids)
          else s.phase.result.value == s.blockDeps && s.channel == []
               && forall i :: 0 <= i < |ids| ==> s.workers[i].Sent?)
  }

  lemma InitInv(node: Node, ids: seq<ID>)
    ensures Inv(node, ids, Init(ids))
  {
    NoneSent(|ids|);
  }

  lemma {:induction false} NoneSent(n: nat)
    ensures Sum(seq(n, i => Started), SentOne) == 0
  {
    if n > 0 {
      NoneSent(n - 1);
      assert seq(n, i => Started)[..n - 1] == seq(n - 1, i => Started);
    }
  }

  /** d is the node's own transaction with its own rewards; the zero id has no rewards. */
  predicate Answers(node: Node, id: ID, d: Dependency) {
    if id == EMPTY_ID then node.allocation.Some? && d == Dependency(node.allocation, [])
    else id in node.txs && id in node.rewards && d.tx == Some(node.txs[id]) && d.rewards == node.rewards[id]
  }

  lemma FetchAnswers(node: Node, id: ID)
    ensures Fetch(node, id).Some? ==> Answers(node, id, Fetch(node, id).value)
    ensures Fetch(node, id).None? <==>
            if id == 0 then node.allocation.None? else id !in node.txs || id !in node.rewards
  {
  }

  lemma FetchIsHonest(node: Node, id: ID)
    requires Honest(node) && Fetch(node, id).Some?
    ensures Fetch(node, id).value.tx.Some? && Fetch(node, id).value.tx.value.id == id
  {
  }

  lemma CallIsOk(node: Node, ids: seq<ID>, s: State, t: State, i: nat) returns (w: Worker)
    requires |s.workers| == |ids| && i < |ids| && WorkerOk(node, ids[i], s.workers[i]) && Calls(node, ids, s, t, i)
    ensures Moves(s, t, i, w) && WorkerOk(node, ids[i], w) && !w.Sent? && !s.workers[i].Sent?
    ensures w.Failed? ==> Failed in s.workers || Fetch(node, ids[i]).None?
  {
    w := t.workers[i];
  }

  lemma CallKeepsInv(node: Node, ids: seq<ID>, s: State, t: State, i: nat)
    requires Inv(node, ids, s) && s.phase.Waiting? && i < |ids| && Calls(node, ids, s, t, i)
    ensures Inv(node, ids, t)
  {
    var w := CallIsOk(node, ids, s, t, i);
    hide Calls, WorkerOk, Fetch, Belongs;
    SumUpdate(s.workers, SentOne, i, w);
    if Failed in t.workers && Failed !in s.workers {
      var k :| 0 <= k < |t.workers| && t.workers[k] == Failed;
      assert k == i;
    }
  }

  lemma SendKeepsInv(node: Node, ids: seq<ID>, s: State, t: State, i: nat)
    requires Honest(node) && Inv(node, ids, s) && s.phase.Waiting? && i < |ids| && Sends(ids, s, t, i)
    ensures Inv(node, ids, t)
  {
    assert WorkerOk(node, ids[i], s.workers[i]);
    FetchIsHonest(node, ids[i]);
    SumUpdate(s.workers, SentOne, i, Sent);
    hide Fetch;
    assert forall k :: 0 <= k < |ids| && k != i ==> t.workers[k] == s.workers[k];
  }

  lemma DrainKeepsInv(node: Node, ids: seq<ID>, s: State, t: State)
    requires Honest(node) && Inv(node, ids, s) && Drains(s, t)
    ensures Inv(node, ids, t)
  {
    if s.channel == [] { return; }
    var d := s.channel[0];
    assert Belongs(node, ids, d);
    forall i | 0 <= i < |ids| ensures Delivered(t, ids, i, Fetch(node, ids[i])) {
      assert Delivered(s, ids, i, Fetch(node, ids[i]));
      FetchIsHonest(node, ids[i]);
    }
    hide Fetch, WorkerOk;
  }

  lemma NextKeepsInv(node: Node, ids: seq<ID>, s: State, t: State)
    requires Honest(node) && Inv(node, ids, s) && Next(node, ids, s, t)
    ensures Inv(node, ids, t)
  {
    hide Calls, Sends, Drains, Honest;
    if Joins(s, t) {
      assert forall i :: 0 <= i < |ids| ==> Over(s.workers[i]);
    } else if Drains(s, t) {
      DrainKeepsInv(node, ids, s, t);
    } else {
      hide Inv;
      var i :| WorkerStep(node, ids, s, t, i);
      if Calls(node, ids, s, t, i) { CallKeepsInv(node, ids, s, t, i); } else { SendKeepsInv(node, ids, s, t, i); }
    }
  }

  lemma {:induction false} RunKeepsInv(node: Node, ids: seq<ID>, run: seq<State>)
    requires Honest(node) && Run(node, ids, run)
    ensures Inv(node, ids, run[|run| - 1])
    decreases |run|
  {
    hide Next, Inv, Honest;
    if |run| == 1 {
      InitInv(node, ids);
    } else {
      var before := run[..|run| - 1];
      assert forall k :: 0 <= k < |before| - 1 ==> Next(node, ids, before[k], before[k + 1]);
      RunKeepsInv(node, ids, before);
      NextKeepsInv(node, ids, before[|before| - 1], run[|run| - 1]);
    }
  }

  // ---------------------------------------------------------------- theorems

  /** In no interleaving does a worker wait for room: whoever is ready to send finds the channel short of full. */
  lemma SendNeverBlocks(node: Node, ids: seq<ID>, run: seq<State>, i: nat)
    requires Honest(node) && Run(node, ids, run)
    ensures var s := run[|run| - 1];
            && |s.channel| <= |ids|
            && (s.phase.Waiting? && i < |s.workers| && s.workers[i].Ready? ==> |s.channel| < |ids|)
  {
    RunKeepsInv(node, ids, run);
    hide Run, Honest, WorkerOk, Belongs, Delivered;
    SentRoom(run[|run| - 1].workers);
  }

  /** The result depends on the node's answers alone, not on the interleaving or on repeated ids: an error exactly
      if some fetch fails, and otherwise each requested id with its own dependency. */
  lemma ResultIsDetermined(node: Node, ids: seq<ID>, run: seq<State>)
    requires Honest(node) && Run(node, ids, run) && run[|run| - 1].phase.Returned?
    ensures var r := run[|run| - 1].phase.result;
            && (r.None? <==> SomeFails(node, ids))
            && (r.Some? ==> r.value.Keys == Elements(ids)
                            && forall id :: id in r.value ==> Fetch(node, id) == Some(r.value[id]))
    ensures var r := run[|run| - 1].phase.result;
            r.Some? ==> forall id :: id in r.value ==> Answers(node, id, r.value[id])
  {
    RunKeepsInv(node, ids, run);
    var s := run[|run| - 1];
    forall id ensures Fetch(node, id).Some? ==> Answers(node, id, Fetch(node, id).value) { FetchAnswers(node, id); }
    hide Run, Honest, Belongs, Fetch, Answers;
    if s.phase.result.Some? {
      forall i | 0 <= i < |ids| ensures ids[i] in s.blockDeps && Fetch(node, ids[i]).Some? {
        assert WorkerOk(node, ids[i], s.workers[i]) && Delivered(s, ids, i, Fetch(node, ids[i]));
      }
    }
  }

  function Rank(w: Worker): nat {
    match w
    case Started => 4
    case GotTx(_) => 3
    case Ready(_) => 2
    case Sent => 0
    case Failed => 0
  }

  function PhaseRank(p: Phase): nat {
    match p
    case Waiting => 2
    case Draining => 1
    case Returned(_) => 0
  }

  function Measure(s: State): nat {
    Sum(s.workers, Rank) + |s.channel| + PhaseRank(s.phase)
  }

  /** Every step uses up some of a bounded amount of work, so no run goes on forever. */
  lemma StepsRunOut(node: Node, ids: seq<ID>, s: State, t: State)
    requires |s.workers| == |ids| && Next(node, ids, s, t)
    ensures Measure(t) < Measure(s)
  {
    hide Calls, Sends, Sum, Over;
    if !Joins(s, t) && !Drains(s, t) {
      var i: nat :| WorkerStep(node, ids, s, t, i);
      var w := WorkerRanksDown(node, ids, s, t, i);
      SumUpdate(s.workers, Rank, i, w);
    }
  }

  lemma WorkerRanksDown(node: Node, ids: seq<ID>, s: State, t: State, i: nat) returns (w: Worker)
    requires WorkerStep(node, ids, s, t, i)
    ensures t.workers == s.workers[i := w] && t.phase == s.phase
    ensures Rank(w) + |t.channel| < Rank(s.workers[i]) + |s.channel|
  {
    w := t.workers[i];
  }

  /** And until the result is returned some step is possible. */
  lemma NeverStuck(node: Node, ids: seq<ID>, s: State) returns (t: State)
    requires Inv(node, ids, s) && !s.phase.Returned?
    ensures Next(node, ids, s, t)
  {
    hide Fetch, Delivered;
    if s.phase.Draining? {
      t := if s.channel == [] then s.(phase := Returned(Some(s.blockDeps)))
           else s.(channel := s.channel[1..], blockDeps := s.blockDeps[s.channel[0].tx.value.id := s.channel[0]]);
      assert Drains(s, t);
    } else if i :| 0 <= i < |s.workers| && !Over(s.workers[i]) {
      SentRoom(s.workers);
      t := WorkerCanStep(node, ids, s, i);
      assert WorkerStep(node, ids, s, t, i);
    } else {
      t := s.(phase := if Failed in s.workers then Returned(None) else Draining);
      assert Joins(s, t);
    }
  }

  lemma WorkerCanStep(node: Node, ids: seq<ID>, s: State, i: nat) returns (t: State)
    requires i < |s.workers| == |ids| && s.phase.Waiting? && !Over(s.workers[i]) && |s.channel| < |ids|
    ensures WorkerStep(node, ids, s, t, i)
  {
    var w := match s.workers[i]
      case Started =>
        if ids[i] == EMPTY_ID then
          if node.allocation.Some? then Ready(Dependency(node.allocation, [])) else Failed
        else if ids[i] in node.txs then GotTx(node.txs[ids[i]]) else Failed
      case GotTx(tx) =>
        if ids[i] in node.rewards then Ready(Dependency(Some(tx), node.rewards[ids[i]])) else Failed
      case Ready(_) => Sent
      case Sent => Sent
      case Failed => Failed;
    t := s.(workers := s.workers[i := w]);
    if s.workers[i].Ready? { t := t.(channel := s.channel + [s.workers[i].dep]); }
  }
}
