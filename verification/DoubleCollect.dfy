/** Reading an account in several calls while the chains move on: the height is read before and after, and the answer
    is given only if both agree (fetchUTXOsAndStakedOutputs on the P-chain, getAccountCoins on the C-chain). */
module DoubleCollect {
  import opened Pagination

  // ---------------------------------------------------------------- chains and reader

  /** What the chain itself holds at one height: the account's coins and its stake. */
  datatype Ledger<T, S> = Ledger(utxos: Server<T>, stake: seq<S>)

  /** What other chains exported to this one: a coin server per peer chain. Their blocks change it at any time. */
  type Memory<T> = seq<Server<T>>

  datatype Reader<T, S> =
    | Idle
    | Reading(pre: nat, source: nat, cursor: nat, coins: seq<T>)
    | ReadAll(pre: nat, coins: seq<T>, stake: seq<S>)
    | Answered(height: nat, coins: seq<T>, stake: seq<S>)
    | Refused

  /** The ledger at height h is ledgers[h]; memory is the current one. */
  datatype State<T, S> = State(ledgers: seq<Ledger<T, S>>, memory: Memory<T>, reader: Reader<T, S>)

  /** limit is the page size, overlap what pages may repeat, and peers the number of peer chains. Coins are read from
      the chain itself or from shared memory, and stake is read if asked for. */
  datatype Config = Config(limit: nat, overlap: nat, peers: nat, shared: bool, staked: bool)

  function SourceCount(cfg: Config): nat {
    if cfg.shared then cfg.peers else 1
  }

  ghost predicate Sane<T(!new)>(cfg: Config, servers: seq<Server<T>>) {
    && cfg.overlap < cfg.limit
    && forall k :: 0 <= k < |servers| ==> Legal(servers[k], cfg.overlap)
  }

  ghost predicate SaneMemory<T(!new)>(cfg: Config, memory: Memory<T>) {
    |memory| == cfg.peers && Sane(cfg, memory)
  }

  function Now<T, S>(s: State<T, S>): Ledger<T, S>
    requires s.ledgers != []
  {
    s.ledgers[|s.ledgers| - 1]
  }

  /** What the pages are read from. */
  function Servers<T, S>(cfg: Config, s: State<T, S>): seq<Server<T>>
    requires s.ledgers != []
  {
    if cfg.shared then s.memory else [Now(s).utxos]
  }

  /** A block of the chain itself: a new ledger, and its imports change shared memory. */
  ghost predicate Block<T(!new), S(!new)>(cfg: Config, s: State<T, S>, t: State<T, S>) {
    && |t.ledgers| == |s.ledgers| + 1 && s.ledgers == t.ledgers[..|s.ledgers|] && t.reader == s.reader
    && Sane(cfg, [Now(t).utxos]) && SaneMemory(cfg, t.memory)
  }

  /** A block of a peer chain: only shared memory changes, and no height that the reader sees. */
  ghost predicate Foreign<T(!new), S(!new)>(cfg: Config, s: State<T, S>, t: State<T, S>) {
    t == s.(memory := t.memory) && SaneMemory(cfg, t.memory)
  }

  /** One call of the reader, answered from the present state. */
  ghost predicate Calls<T(!new), S(!new)>(cfg: Config, s: State<T, S>, t: State<T, S>)
    requires s.ledgers != []
  {
    && t == s.(reader := t.reader)
    && var servers := Servers(cfg, s);
       match s.reader
       case Idle => t.reader == Reading(|s.ledgers| - 1, 0, 0, [])
       case Reading(pre, source, cursor, coins) =>
         t.reader == if source < |servers| then AfterPage(cfg, servers, s.reader)
                     else ReadAll(pre, coins, if cfg.staked then Now(s).stake else [])
       case ReadAll(pre, coins, stake) =>
         t.reader == if |s.ledgers| - 1 == pre then Answered(pre, coins, stake) else Refused
       case Answered(_, _, _) => false
       case Refused => false
  }

  /** A full page moves the cursor on, a short one moves on to the next source. */
  function AfterPage<T, S>(cfg: Config, servers: seq<Server<T>>, reader: Reader<T, S>): Reader<T, S>
    requires reader.Reading? && reader.source < |servers|
  {
    var server := servers[reader.source];
    var page := Page(server, cfg.limit, reader.cursor);
    if |page| < cfg.limit then Reading(reader.pre, reader.source + 1, 0, reader.coins + page)
    else Reading(reader.pre, reader.source, To(server, cfg.limit, reader.cursor), reader.coins + page)
  }

  ghost predicate Next<T(!new), S(!new)>(cfg: Config, s: State<T, S>, t: State<T, S>) {
    s.ledgers != [] && (Block(cfg, s, t) || Foreign(cfg, s, t) || Calls(cfg, s, t))
  }

  ghost predicate Run<T(!new), S(!new)>(cfg: Config, run: seq<State<T, S>>) {
    && |run| > 0 && run[0].reader == Idle && |run[0].ledgers| == 1
    && Sane(cfg, [run[0].ledgers[0].utxos]) && SaneMemory(cfg, run[0].memory)
    && forall k :: 0 <= k < |run| - 1 ==> Next(cfg, run[k], run[k + 1])
  }

  function Last<T, S>(run: seq<State<T, S>>): State<T, S>
    requires run != []
  {
    run[|run| - 1]
  }

  /** Step i reads a page. */
  ghost predicate ReadsPage<T(!new), S(!new)>(cfg: Config, run: seq<State<T, S>>, i: int) {
    && 0 <= i < |run| - 1 && run[i].ledgers != [] && Calls(cfg, run[i], run[i + 1])
    && run[i].reader.Reading? && run[i].reader.source < |Servers(cfg, run[i])|
  }

  // ---------------------------------------------------------------- what one listing would answer

  /** The pages of all sources from the given one on. */
  ghost function CoinsFrom<T(!new)>(cfg: Config, servers: seq<Server<T>>, source: nat): seq<T>
    requires Sane(cfg, servers) && source <= |servers|
    decreases |servers| - source
  {
    if source == |servers| then []
    else Collected(servers[source], cfg.limit, cfg.overlap, 0) + CoinsFrom(cfg, servers, source + 1)
  }

  /** The coins of all sources from the given one on, each as often as it is there. */
  ghost function Listed<T>(servers: seq<Server<T>>, source: nat): seq<T>
    requires source <= |servers|
    decreases |servers| - source
  {
    if source == |servers| then [] else servers[source].coins + Listed(servers, source + 1)
  }

  /** The pages hold exactly the coins that are there. */
  lemma {:induction false} PagesHoldAll<T(!new)>(cfg: Config, servers: seq<Server<T>>, source: nat, c: T)
    requires Sane(cfg, servers) && source <= |servers|
    ensures c in CoinsFrom(cfg, servers, source) <==> c in Listed(servers, source)
    decreases |servers| - source
  {
    if source == |servers| { return; }
    PagesHoldAll(cfg, servers, source + 1, c);
    var server := servers[source];
    CollectedAll(server, cfg.limit, cfg.overlap, 0, c);
    assert server.coins[0..] == server.coins;
    hide Collected, Legal;
  }

  /** What is still to be read from these servers. */
  ghost function Rest<T(!new)>(cfg: Config, servers: seq<Server<T>>, source: nat, cursor: nat): seq<T>
    requires Sane(cfg, servers) && source < |servers| && cursor <= |servers[source].coins|
  {
    Collected(servers[source], cfg.limit, cfg.overlap, cursor) + CoinsFrom(cfg, servers, source + 1)
  }

  /** Everything read so far came from these servers. */
  ghost predicate FromListing<T(!new), S(!new)>(cfg: Config, servers: seq<Server<T>>, reader: Reader<T, S>)
    requires Sane(cfg, servers)
  {
    match reader
    case Reading(_, source, cursor, coins) =>
      if source < |servers| then
        cursor <= |servers[source].coins| && coins + Rest(cfg, servers, source, cursor) == CoinsFrom(cfg, servers, 0)
      else coins == CoinsFrom(cfg, servers, 0)
    case ReadAll(_, coins, stake) => coins == CoinsFrom(cfg, servers, 0)
    case Answered(_, coins, stake) => coins == CoinsFrom(cfg, servers, 0)
    case _ => true
  }

  lemma RestStep<T(!new)>(cfg: Config, servers: seq<Server<T>>, source: nat, cursor: nat, coins: seq<T>)
    requires Sane(cfg, servers) && source < |servers| && cursor <= |servers[source].coins|
    ensures var page, next := Page(servers[source], cfg.limit, cursor), To(servers[source], cfg.limit, cursor);
            && next <= |servers[source].coins|
            && coins + Rest(cfg, servers, source, cursor)
               == coins + page + if |page| < cfg.limit then CoinsFrom(cfg, servers, source + 1)
                                 else Rest(cfg, servers, source, next)
  {
    var server, rest := servers[source], CoinsFrom(cfg, servers, source + 1);
    var page, next := Page(server, cfg.limit, cursor), To(server, cfg.limit, cursor);
    assert Legal(server, cfg.overlap);
    CollectedStep(server, cfg.limit, cfg.overlap, cursor, coins);
    hide Page, To, Collected, CoinsFrom, Legal, Sane;
    Regroup(coins, Collected(server, cfg.limit, cfg.overlap, cursor), rest);
    if |page| >= cfg.limit { Regroup(coins + page, Collected(server, cfg.limit, cfg.overlap, next), rest); }
  }

  lemma Regroup<T>(a: seq<T>, b: seq<T>, c: seq<T>)
    ensures a + (b + c) == a + b + c
  {
  }

  lemma SourceDone<T(!new)>(cfg: Config, servers: seq<Server<T>>, source: nat)
    requires Sane(cfg, servers) && source <= |servers|
    ensures CoinsFrom(cfg, servers, source)
            == if source < |servers| then Rest(cfg, servers, source, 0) else []
  {
    hide Collected, Legal;
  }

  lemma NothingMore<T>(a: seq<T>)
    ensures a + [] == a
  {
  }

  lemma PageKeepsListing<T(!new), S(!new)>(cfg: Config, servers: seq<Server<T>>, reader: Reader<T, S>)
    requires Sane(cfg, servers) && reader.Reading? && reader.source < |servers| && FromListing(cfg, servers, reader)
    ensures FromListing(cfg, servers, AfterPage(cfg, servers, reader))
  {
    hide Sane, Rest, CoinsFrom, Page, To;
    var next := reader.source + 1;
    RestStep(cfg, servers, reader.source, reader.cursor, reader.coins);
    SourceDone(cfg, servers, next);
    NothingMore(reader.coins + Page(servers[reader.source], cfg.limit, reader.cursor));
  }

  lemma StartsListing<T(!new), S(!new)>(cfg: Config, servers: seq<Server<T>>, reader: Reader<T, S>)
    requires Sane(cfg, servers) && reader.Reading? && reader.source == reader.cursor == 0 && reader.coins == []
    ensures FromListing(cfg, servers, reader)
  {
    SourceDone(cfg, servers, 0);
    hide Sane, Rest, CoinsFrom;
    if 0 < |servers| { assert [] + Rest(cfg, servers, 0, 0) == Rest(cfg, servers, 0, 0); }
  }

  lemma CallKeepsListing<T(!new), S(!new)>(cfg: Config, s: State<T, S>, t: State<T, S>, servers: seq<Server<T>>)
    requires s.ledgers != [] && Calls(cfg, s, t) && Sane(cfg, servers) && FromListing(cfg, servers, s.reader)
    requires |Servers(cfg, s)| == |servers|
    requires s.reader.Reading? && s.reader.source < |servers| ==> Servers(cfg, s) == servers
    ensures FromListing(cfg, servers, t.reader)
  {
    if s.reader.Idle? {
      StartsListing(cfg, servers, t.reader);
    } else if s.reader.Reading? && s.reader.source < |servers| {
      PageKeepsListing(cfg, servers, s.reader);
    }
    hide Sane, Rest, CoinsFrom, AfterPage;
  }

  // ---------------------------------------------------------------- what every step keeps

  predicate HasPre<T, S>(reader: Reader<T, S>) {
    reader.Reading? || reader.ReadAll?
  }

  /** The stake, if read, is that of the first height unless a block came since. */
  ghost predicate Inv<T(!new), S(!new)>(cfg: Config, s: State<T, S>) {
    && s.ledgers != [] && SaneMemory(cfg, s.memory)
    && (forall h :: 0 <= h < |s.ledgers| ==> Sane(cfg, [s.ledgers[h].utxos]))
    && (HasPre(s.reader) ==> s.reader.pre < |s.ledgers|)
    && (s.reader.ReadAll? && s.reader.pre == |s.ledgers| - 1 ==> s.reader.stake == StakeAt(cfg, s, s.reader.pre))
    && (s.reader.Answered? ==> s.reader.height < |s.ledgers| && s.reader.stake == StakeAt(cfg, s, s.reader.height))
    && (s.reader.Refused? ==> |s.ledgers| > 1)
  }

  function StakeAt<T, S>(cfg: Config, s: State<T, S>, h: nat): seq<S>
    requires h < |s.ledgers|
  {
    if cfg.staked then s.ledgers[h].stake else []
  }

  lemma StepKeepsInv<T(!new), S(!new)>(cfg: Config, s: State<T, S>, t: State<T, S>)
    requires Inv(cfg, s) && Next(cfg, s, t)
    ensures Inv(cfg, t)
  {
    hide Sane, AfterPage;
    if Block(cfg, s, t) {
      assert forall h :: 0 <= h < |s.ledgers| ==> t.ledgers[h] == s.ledgers[h];
    } else if Calls(cfg, s, t) && s.reader.Reading? && s.reader.source < |Servers(cfg, s)| {
      PageKeepsPre(cfg, Servers(cfg, s), s.reader);
    }
  }

  lemma PageKeepsPre<T, S>(cfg: Config, servers: seq<Server<T>>, reader: Reader<T, S>)
    requires reader.Reading? && reader.source < |servers|
    ensures var next := AfterPage(cfg, servers, reader); next.Reading? && next.pre == reader.pre
  {
  }

  lemma {:induction false} RunKeepsInv<T(!new), S(!new)>(cfg: Config, run: seq<State<T, S>>, k: nat)
    requires Run(cfg, run) && k < |run|
    ensures Inv(cfg, run[k])
  {
    if k == 0 { return; }
    RunKeepsInv(cfg, run, k - 1);
    hide Inv, Next, Sane;
    assert Next(cfg, run[k - 1], run[k - 1 + 1]);
    StepKeepsInv(cfg, run[k - 1], run[k]);
  }

  /** t comes after s, in which the reader was under way: if it has answered, no block came between s and the answer. */
  ghost predicate Follows<T(!new), S(!new)>(s: State<T, S>, t: State<T, S>)
    requires HasPre(s.reader)
  {
    && |s.ledgers| <= |t.ledgers| && s.ledgers == t.ledgers[..|s.ledgers|]
    && match t.reader
       case Idle => false
       case Reading(pre, _, _, _) => pre == s.reader.pre
       case ReadAll(pre, _, _) => pre == s.reader.pre
       case Answered(height, _, _) => height == s.reader.pre && |s.ledgers| == height + 1
       case Refused => true
  }

  lemma StepFollows<T(!new), S(!new)>(cfg: Config, s: State<T, S>, t: State<T, S>, u: State<T, S>)
    requires HasPre(s.reader) && s.reader.pre < |s.ledgers| && Follows(s, t) && Next(cfg, t, u)
    ensures Follows(s, u)
  {
    hide Sane, AfterPage, SaneMemory;
    if Calls(cfg, t, u) && t.reader.Reading? && t.reader.source < |Servers(cfg, t)| {
      PageKeepsPre(cfg, Servers(cfg, t), t.reader);
    } else if Block(cfg, t, u) {
      assert u.ledgers[..|s.ledgers|] == u.ledgers[..|t.ledgers|][..|s.ledgers|];
    }
  }

  lemma {:induction false} LaterFollows<T(!new), S(!new)>(cfg: Config, run: seq<State<T, S>>, i: nat, j: nat)
    requires Run(cfg, run) && i <= j < |run| && HasPre(run[i].reader)
    ensures run[i].reader.pre < |run[i].ledgers| && Follows(run[i], run[j])
    decreases j
  {
    RunKeepsInv(cfg, run, i);
    hide Next, Sane, SaneMemory;
    if i == j { return; }
    LaterFollows(cfg, run, i, j - 1);
    assert Next(cfg, run[j - 1], run[j - 1 + 1]);
    hide Follows;
    StepFollows(cfg, run[i], run[j - 1], run[j]);
  }

  lemma StepKeepsListing<T(!new), S(!new)>(cfg: Config, s: State<T, S>, t: State<T, S>, servers: seq<Server<T>>)
    requires Inv(cfg, s) && Next(cfg, s, t) && Sane(cfg, servers) && |servers| == SourceCount(cfg)
    requires FromListing(cfg, servers, s.reader)
    requires Calls(cfg, s, t) && s.reader.Reading? && s.reader.source < |Servers(cfg, s)| ==> Servers(cfg, s) == servers
    ensures FromListing(cfg, servers, t.reader)
  {
    hide Sane, Rest, CoinsFrom, Calls;
    if Calls(cfg, s, t) {
      CallKeepsListing(cfg, s, t, servers);
    } else {
      assert t.reader == s.reader;
    }
  }

  /** If all pages were read from the same servers, the answer is theirs. */
  lemma {:induction false} PagesFromOneListing<T(!new), S(!new)>(cfg: Config, run: seq<State<T, S>>, j: nat,
                                                                 servers: seq<Server<T>>)
    requires Run(cfg, run) && j < |run| && Sane(cfg, servers) && |servers| == SourceCount(cfg)
    requires forall i :: i < j && ReadsPage(cfg, run, i) ==> Servers(cfg, run[i]) == servers
    ensures FromListing(cfg, servers, run[j].reader)
  {
    hide Next, Sane, SaneMemory, CoinsFrom, Rest, Inv, Calls;
    if j == 0 { return; }
    var i := j - 1;
    PagesFromOneListing(cfg, run, i, servers);
    RunKeepsInv(cfg, run, i);
    assert Next(cfg, run[i], run[i + 1]);
    LedgersNotEmpty(cfg, run[i]);
    assert ReadsPage(cfg, run, i) ==> Servers(cfg, run[i]) == servers;
    StepKeepsListing(cfg, run[i], run[j], servers);
  }

  lemma LedgersNotEmpty<T(!new), S(!new)>(cfg: Config, s: State<T, S>)
    requires Inv(cfg, s)
    ensures s.ledgers != []
  {
  }

  // ---------------------------------------------------------------- answers

  /** Whatever the other chains do: an answer about the chain's own coins and stake is what the ledger at its height
      alone would answer. */
  lemma OwnAnswerIsOneSnapshot<T(!new), S(!new)>(cfg: Config, run: seq<State<T, S>>)
    requires Run(cfg, run) && !cfg.shared && Last(run).reader.Answered?
    ensures var s := Last(run);
            && s.reader.height < |s.ledgers|
            && var ledger := s.ledgers[s.reader.height];
               && Sane(cfg, [ledger.utxos]) && s.reader.coins == CoinsFrom(cfg, [ledger.utxos], 0)
               && s.reader.stake == if cfg.staked then ledger.stake else []
  {
    var j := |run| - 1;
    RunKeepsInv(cfg, run, j);
    var h := run[j].reader.height;
    var servers := [run[j].ledgers[h].utxos];
    hide Run, Next, Sane, SaneMemory, CoinsFrom, Follows, Calls;
    forall i | i < j && ReadsPage(cfg, run, i) ensures Servers(cfg, run[i]) == servers {
      LaterFollows(cfg, run, i, j);
      SameLedger(run[i], run[j]);
    }
    PagesFromOneListing(cfg, run, j, servers);
  }

  lemma SameLedger<T(!new), S(!new)>(s: State<T, S>, t: State<T, S>)
    requires HasPre(s.reader) && Follows(s, t) && t.reader.Answered?
    ensures t.reader.height == |s.ledgers| - 1 < |t.ledgers| && Now(s) == t.ledgers[t.reader.height]
  {
  }

  /** No block of a peer chain falls between two pages read. */
  ghost predicate Undisturbed<T(!new), S(!new)>(cfg: Config, run: seq<State<T, S>>) {
    forall a, b, k :: ReadsPage(cfg, run, a) && ReadsPage(cfg, run, b) && a <= k < b ==> !ForeignAt(cfg, run, k)
  }

  ghost predicate ForeignAt<T(!new), S(!new)>(cfg: Config, run: seq<State<T, S>>, k: int) {
    0 <= k < |run| - 1 && Foreign(cfg, run[k], run[k + 1])
  }

  /** Shared memory is answered for as it was at every page read, all of them at the height of the answer, if no block
      of a peer chain came between the first page and the last. */
  lemma SharedAnswerIsOneSnapshot<T(!new), S(!new)>(cfg: Config, run: seq<State<T, S>>, i: nat)
    requires Run(cfg, run) && cfg.shared && Last(run).reader.Answered? && ReadsPage(cfg, run, i)
    requires Undisturbed(cfg, run)
    ensures |run[i].ledgers| == Last(run).reader.height + 1
    ensures Sane(cfg, run[i].memory) && Last(run).reader.coins == CoinsFrom(cfg, run[i].memory, 0)
  {
    var j := |run| - 1;
    hide Run, Next, Sane, CoinsFrom, Calls, Follows, Undisturbed, Foreign, Legal;
    forall k: nat | k < j && ReadsPage(cfg, run, k) ensures Servers(cfg, run[k]) == run[i].memory {
      if k < i { MemoryStays(cfg, run, k, i); } else { MemoryStays(cfg, run, i, k); }
    }
    RunKeepsInv(cfg, run, i);
    LaterFollows(cfg, run, i, j);
    SameLedger(run[i], run[j]);
    PagesFromOneListing(cfg, run, j, run[i].memory);
  }

  lemma MemoryStays<T(!new), S(!new)>(cfg: Config, run: seq<State<T, S>>, a: nat, b: nat)
    requires Run(cfg, run) && Last(run).reader.Answered? && a <= b
    requires ReadsPage(cfg, run, a) && ReadsPage(cfg, run, b) && Undisturbed(cfg, run)
    ensures run[a].memory == run[b].memory
  {
    var j := |run| - 1;
    hide Run, Next, Sane, CoinsFrom, Calls, Follows, Foreign, Legal;
    LaterFollows(cfg, run, a, j);
    LaterFollows(cfg, run, b, j);
    LaterFollows(cfg, run, a, b);
    SameLedger(run[a], run[j]);
    SameLedger(run[b], run[j]);
    assert forall k :: a <= k < b ==> !ForeignAt(cfg, run, k);
    OnlyCalls(cfg, run, a, b);
  }

  /** Without a block of the chain or of a peer, shared memory stays. */
  lemma {:induction false} OnlyCalls<T(!new), S(!new)>(cfg: Config, run: seq<State<T, S>>, i: nat, k: nat)
    requires Run(cfg, run) && i <= k < |run| && HasPre(run[i].reader) && |run[k].ledgers| == |run[i].ledgers|
    requires forall m :: i <= m < k ==> !ForeignAt(cfg, run, m)
    ensures run[k].memory == run[i].memory
    decreases k
  {
    hide Sane, SaneMemory, Follows;
    if i == k { return; }
    LaterFollows(cfg, run, i, k - 1);
    LedgersGrow(run[i], run[k - 1]);
    hide Calls, Foreign;
    assert Next(cfg, run[k - 1], run[k - 1 + 1]) && !ForeignAt(cfg, run, k - 1);
    OneStep(cfg, run[k - 1], run[k]);
    OnlyCalls(cfg, run, i, k - 1);
  }

  lemma LedgersGrow<T(!new), S(!new)>(s: State<T, S>, t: State<T, S>)
    requires HasPre(s.reader) && Follows(s, t)
    ensures |s.ledgers| <= |t.ledgers|
  {
  }

  lemma OneStep<T(!new), S(!new)>(cfg: Config, s: State<T, S>, t: State<T, S>)
    requires Next(cfg, s, t) && !Foreign(cfg, s, t)
    ensures |s.ledgers| <= |t.ledgers|
    ensures |s.ledgers| == |t.ledgers| ==> s.memory == t.memory
  {
    hide Sane, AfterPage;
  }

  /** No source is finished. */
  predicate Unstarted<T, S>(reader: Reader<T, S>) {
    reader.Idle? || (reader.Reading? && reader.source == 0)
  }

  lemma FirstSource<T(!new), S(!new)>(cfg: Config, s: State<T, S>, t: State<T, S>)
    requires Inv(cfg, s) && Next(cfg, s, t) && SourceCount(cfg) > 0 && Unstarted(s.reader) && !Unstarted(t.reader)
    ensures Calls(cfg, s, t) && s.reader.Reading? && s.reader.source < |Servers(cfg, s)|
  {
    hide Sane, AfterPage;
  }

  /** An answer about some source takes a page. */
  lemma {:induction false} SomePageRead<T(!new), S(!new)>(cfg: Config, run: seq<State<T, S>>, j: nat)
    requires Run(cfg, run) && j < |run| && SourceCount(cfg) > 0 && !Unstarted(run[j].reader)
    ensures exists i :: i < j && ReadsPage(cfg, run, i)
  {
    hide Sane, SaneMemory, Next, Calls;
    var i := j - 1;
    assert Next(cfg, run[i], run[i + 1]);
    RunKeepsInv(cfg, run, i);
    if Unstarted(run[i].reader) {
      FirstSource(cfg, run[i], run[j]);
      assert ReadsPage(cfg, run, i);
    } else {
      SomePageRead(cfg, run, i);
    }
  }

  // ---------------------------------------------------------------- shared memory that changes under way

  function Listing(coins: seq<Coin>): Server<Coin> {
    Server(coins, (pos: nat) => pos)
  }

  /** Pages of two coins or more. */
  predicate ReadsTwoPeers(cfg: Config) {
    cfg.peers == 2 && cfg.shared && !cfg.staked && cfg.overlap < cfg.limit && cfg.limit > 1
  }

  const P1 := Coin(1, 10)
  const X1 := Coin(2, 20)

  /** The first peer is read, then it exports P1, then the second one exports X1, and then the second one is read. */
  function Disturbed(own: Ledger<Coin, Coin>): seq<State<Coin, Coin>> {
    var none, one, both := [Listing([]), Listing([])], [Listing([P1]), Listing([])], [Listing([P1]), Listing([X1])];
    [State([own], none, Idle),
     State([own], none, Reading(0, 0, 0, [])),
     State([own], none, Reading(0, 1, 0, [])),
     State([own], one, Reading(0, 1, 0, [])),
     State([own], both, Reading(0, 1, 0, [])),
     State([own], both, Reading(0, 2, 0, [X1])),
     State([own], both, ReadAll(0, [X1], [])),
     State([own], both, Answered(0, [X1], []))]
  }

  /** Whatever the page size: the height never changes, so the reader answers, and with a list that was never there,
      X1 without P1. */
  lemma DisturbedAnswer(cfg: Config, own: Ledger<Coin, Coin>)
    requires ReadsTwoPeers(cfg) && Legal(own.utxos, cfg.overlap)
    ensures var run := Disturbed(own);
            && Run(cfg, run) && Last(run).reader == Answered(0, [X1], [])
            && forall k :: 0 <= k < |run| ==>
                 Sane(cfg, run[k].memory) && CoinsFrom(cfg, run[k].memory, 0) != [X1]
                 && (X1 in Listed(run[k].memory, 0) ==> P1 in Listed(run[k].memory, 0))
  {
    var run := Disturbed(own);
    TwoListings(cfg, [], []);
    TwoListings(cfg, [P1], []);
    TwoListings(cfg, [P1], [X1]);
    hide Next, Sane, SaneMemory, CoinsFrom, Listed, Collected;
    forall k | 0 <= k < |run| - 1 ensures Next(cfg, run[k], run[k + 1]) {
      DisturbedStep(cfg, own, k);
    }
    SaneStart(cfg, own);
    forall k | 0 <= k < |run|
      ensures run[k].memory in [[Listing([]), Listing([])], [Listing([P1]), Listing([])],
                                [Listing([P1]), Listing([X1])]] {}
    assert [P1] + [] == [P1] && [P1] + [X1] == [P1, X1];
  }

  lemma SaneStart(cfg: Config, own: Ledger<Coin, Coin>)
    requires ReadsTwoPeers(cfg) && Legal(own.utxos, cfg.overlap)
    ensures Sane(cfg, [own.utxos]) && SaneMemory(cfg, [Listing([]), Listing([])])
  {
  }

  lemma TwoListings(cfg: Config, a: seq<Coin>, b: seq<Coin>)
    requires ReadsTwoPeers(cfg) && |a| <= 1 && |b| <= 1
    ensures var memory := [Listing(a), Listing(b)];
            && Sane(cfg, memory) && CoinsFrom(cfg, memory, 0) == a + b && Listed(memory, 0) == a + b
  {
    var memory := [Listing(a), Listing(b)];
    assert Sane(cfg, memory);
    assert CoinsFrom(cfg, memory, 2) == [] && Listed(memory, 2) == [];
    assert CoinsFrom(cfg, memory, 1) == b && Listed(memory, 1) == b;
  }

  lemma DisturbedStep(cfg: Config, own: Ledger<Coin, Coin>, k: nat)
    requires ReadsTwoPeers(cfg) && k < 7
    ensures Next(cfg, Disturbed(own)[k], Disturbed(own)[k + 1])
  {
  }

  /** And a refusal means that a block was added after the run began. */
  lemma RefusedOnlyAfterNewBlock<T(!new), S(!new)>(cfg: Config, run: seq<State<T, S>>)
    requires Run(cfg, run) && Last(run).reader.Refused?
    ensures |Last(run).ledgers| > |run[0].ledgers|
  {
    RunKeepsInv(cfg, run, |run| - 1);
    hide Sane, SaneMemory;
  }
}
