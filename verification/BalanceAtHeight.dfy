/** The P-chain's balance from the first page read to the sum: service/backend/pchain/account.go as a whole. */
module BalanceAtHeight {
  import opened Prelude
  import opened PchainModel
  import opened Balances
  import opened DoubleCollect

  type Entry = Option<Utxo>
  type Stake = Option<TransferableOutput>

  /** us lists, each once, the UTXOs among the entries that are asked for and not shared by several addresses. */
  ghost predicate Enumerates(us: seq<Utxo>, entries: seq<Entry>, assets: set<ID>) {
    && DistinctIds(us)
    && forall u :: u in us <==>
                   && Some(u) in entries && (assets == {} || u.asset in assets)
                   && Addresses(u.out).Some? && |Addresses(u.out).value| <= 1
  }

  /** Every entry decodes, and those asked for list their addresses. */
  ghost predicate Readable(entries: seq<Entry>, assets: set<ID>) {
    forall e :: e in entries ==> e.Some? && (Asked(assets, e.value.asset) ==> Addresses(e.value.out).Some?)
  }

  /** r is the balance of these UTXOs and this stake. */
  ghost predicate Balance(us: seq<Utxo>, readable: bool, stake: seq<Stake>, now: uint64,
                          r: Result<AccountBalance, ()>) {
    && (r.Ok? <==> readable && AllStakeReads(stake) && WholeSum(us, now) < TWO_64)
    && (r.Ok? ==>
          && r.value.unlocked == FreeSum(us, now) && r.value.lockedStakeable == OuterLockedSum(us, now)
          && r.value.lockedNotStakeable == OwnLockedSum(us, now)
          && r.value.staked == StakeSum(stake) % TWO_64
          && r.value.total == (WholeSum(us, now) + StakeSum(stake)) % TWO_64)
  }

  lemma SameMembersConsistent(pages: seq<Entry>, entries: seq<Entry>)
    requires ConsistentEntries(entries) && forall e :: e in pages <==> e in entries
    ensures ConsistentEntries(pages)
  {
    forall i, j | 0 <= i < |pages| && 0 <= j < |pages| && SameId(pages[i], pages[j]) ensures pages[i] == pages[j] {
      assert pages[i] in entries && pages[j] in entries;
    }
  }

  /** Sums over the kept entries are sums over any enumeration. */
  lemma KeptEnumerated(pages: seq<Entry>, entries: seq<Entry>, assets: set<ID>, us: seq<Utxo>, now: uint64, b: Bucket)
    requires ConsistentEntries(pages) && (forall i :: 0 <= i < |pages| ==> pages[i].Some?)
    requires (forall e :: e in pages <==> e in entries) && Enumerates(us, entries, assets)
    ensures BucketSum(Kept(Values(pages), assets), now, b) == BucketSum(us, now, b)
  {
    var values := Values(pages);
    var kept := Kept(values, assets);
    ValuesConsistent(pages);
    KeptDistinct(values, assets);
    DistinctNoDup(kept);
    DistinctNoDup(us);
    forall u ensures multiset(kept)[u] == multiset(us)[u] {
      KeptMember(values, assets, u);
      ValuesMember(pages, u);
      assert (u in multiset(kept) <==> u in kept) && (u in multiset(us) <==> u in us);
    }
    hide Kept, BucketSum;
    assert multiset(kept) == multiset(us);
    BucketSumPermuted(kept, us, now, b);
  }

  lemma ValuesConsistent(pages: seq<Entry>)
    requires ConsistentEntries(pages) && forall i :: 0 <= i < |pages| ==> pages[i].Some?
    ensures Balances.Consistent(Values(pages))
  {
    var values := Values(pages);
    forall i, j | 0 <= i < |values| && 0 <= j < |values| && values[i].id == values[j].id
      ensures values[i] == values[j]
    {
      assert SameId(pages[i], pages[j]);
    }
  }

  lemma ValuesMember(pages: seq<Entry>, u: Utxo)
    requires forall i :: 0 <= i < |pages| ==> pages[i].Some?
    ensures u in Values(pages) <==> Some(u) in pages
  {
    if Some(u) in pages {
      var i :| 0 <= i < |pages| && pages[i] == Some(u);
      assert Values(pages)[i] == u;
    }
  }

  /** However the entries were paged, repeated and reordered, the balance is that of the distinct UTXOs. */
  lemma BalanceOfPages(pages: seq<Entry>, entries: seq<Entry>, assets: set<ID>, stake: seq<Stake>, us: seq<Utxo>,
                       now: uint64, r: Result<AccountBalance, ()>)
    requires ConsistentEntries(entries) && (forall e :: e in pages <==> e in entries)
    requires Enumerates(us, entries, assets) && IsBalance(pages, assets, stake, now, r)
    ensures Balance(us, Readable(entries, assets), stake, now, r)
  {
    SameMembersConsistent(pages, entries);
    FilterableIff(pages, assets);
    assert Filterable(pages, assets) <==> Readable(entries, assets);
    hide *;
    if Filterable(pages, assets) {
      SumsEnumerated(pages, entries, assets, us, now);
    }
    SameSumsSameBalance(pages, assets, stake, us, now, r);
  }

  lemma SameSumsSameBalance(pages: seq<Entry>, assets: set<ID>, stake: seq<Stake>, us: seq<Utxo>, now: uint64,
                            r: Result<AccountBalance, ()>)
    requires IsBalance(pages, assets, stake, now, r)
    requires Filterable(pages, assets) ==>
               SameParts(Kept(Values(pages), assets), us, now)
    ensures Balance(us, Filterable(pages, assets), stake, now, r)
  {
    hide Kept, FreeSum, OuterLockedSum, OwnLockedSum, StakeSum, AllStakeReads, Addresses, Fresh;
  }

  ghost predicate SameParts(a: seq<Utxo>, b: seq<Utxo>, now: uint64) {
    && FreeSum(a, now) == FreeSum(b, now) && OuterLockedSum(a, now) == OuterLockedSum(b, now)
    && OwnLockedSum(a, now) == OwnLockedSum(b, now)
  }

  lemma SumsEnumerated(pages: seq<Entry>, entries: seq<Entry>, assets: set<ID>, us: seq<Utxo>, now: uint64)
    requires ConsistentEntries(pages) && Filterable(pages, assets)
    requires (forall e :: e in pages <==> e in entries) && Enumerates(us, entries, assets)
    ensures SameParts(Kept(Values(pages), assets), us, now)
  {
    hide Kept, BucketSum, Enumerates, ConsistentEntries, FreeSum, OuterLockedSum, OwnLockedSum;
    BucketsByLocktime(us, now);
    BucketsByLocktime(Kept(Values(pages), assets), now);
    forall b ensures BucketSum(Kept(Values(pages), assets), now, b) == BucketSum(us, now, b) {
      KeptEnumerated(pages, entries, assets, us, now, b);
    }
  }

  /** In every interleaving and for every page size: a balance of the chain's own coins, answered for a height, is the
      exact sum in each bucket over the UTXOs of the ledger at that height, each counted once. */
  lemma OwnBalanceAtHeight(cfg: Config, run: seq<State<Entry, Stake>>, assets: set<ID>, us: seq<Utxo>, now: uint64,
                           r: Result<AccountBalance, ()>)
    requires Run(cfg, run) && !cfg.shared && cfg.staked && Last(run).reader.Answered?
    requires Last(run).reader.height < |Last(run).ledgers|
    requires ConsistentEntries(Last(run).ledgers[Last(run).reader.height].utxos.coins)
    requires Enumerates(us, Last(run).ledgers[Last(run).reader.height].utxos.coins, assets)
    requires IsBalance(Last(run).reader.coins, assets, Last(run).reader.stake, now, r)
    ensures var ledger := Last(run).ledgers[Last(run).reader.height];
            Balance(us, Readable(ledger.utxos.coins, assets), ledger.stake, now, r)
  {
    OwnAnswerIsOneSnapshot(cfg, run);
    var ledger := Last(run).ledgers[Last(run).reader.height];
    hide Run, Sane, Enumerates, ConsistentEntries, IsBalance, Readable, Balance, CoinsFrom;
    OneListing(ledger.utxos);
    forall e ensures e in Last(run).reader.coins <==> e in ledger.utxos.coins {
      PagesHoldAll(cfg, [ledger.utxos], 0, e);
    }
    hide Listed;
    BalanceOfPages(Last(run).reader.coins, ledger.utxos.coins, assets, ledger.stake, us, now, r);
  }

  lemma OneListing(server: Pagination.Server<Entry>)
    ensures Listed([server], 0) == server.coins
  {
    assert Listed([server], 1) == [];
  }

  /** And a balance of shared memory is the exact sum over what was there at every page read, if no block of a peer
      chain came between the first page and the last. */
  lemma SharedBalanceAtHeight(cfg: Config, run: seq<State<Entry, Stake>>, i: nat, assets: set<ID>, us: seq<Utxo>,
                              now: uint64, r: Result<AccountBalance, ()>)
    requires Run(cfg, run) && cfg.shared && Last(run).reader.Answered? && ReadsPage(cfg, run, i)
    requires Undisturbed(cfg, run)
    requires ConsistentEntries(Listed(run[i].memory, 0)) && Enumerates(us, Listed(run[i].memory, 0), assets)
    requires IsBalance(Last(run).reader.coins, assets, Last(run).reader.stake, now, r)
    ensures Balance(us, Readable(Listed(run[i].memory, 0), assets), Last(run).reader.stake, now, r)
  {
    SharedAnswerIsOneSnapshot(cfg, run, i);
    hide Run, Sane, Enumerates, ConsistentEntries, IsBalance, Readable, Balance, CoinsFrom, Listed, Undisturbed,
         ReadsPage;
    forall e ensures e in Last(run).reader.coins <==> e in Listed(run[i].memory, 0) {
      PagesHoldAll(cfg, run[i].memory, 0, e);
    }
    BalanceOfPages(Last(run).reader.coins, Listed(run[i].memory, 0), assets, Last(run).reader.stake, us, now, r);
  }
}
