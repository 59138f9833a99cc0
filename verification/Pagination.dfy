/** Paged reads of a coin list (service/backend/pchain/account.go, service/backend/cchainatomictx/account.go) and the
    removal of what pages repeat (service/backend/common/account.go). */
module Pagination {
  import opened Prelude

  /** A coin identifier, ordered like its text, and the amount of the coin. */
  datatype Coin = Coin(id: nat, amount: uint64)

  // ---------------------------------------------------------------- the server

  /** The coins of an account in the server's own order. After a cursor that stands for the first pos coins it
      continues at start(pos), which may be earlier: pages may repeat coins. */
  datatype Server<T> = Server(coins: seq<T>, start: nat -> nat)

  function Cut(x: nat, bound: nat): nat {
    if x < bound then x else bound
  }

  function From<T>(s: Server<T>, pos: nat): nat {
    Cut(s.start(Cut(pos, |s.coins|)), |s.coins|)
  }

  /** Where the page after cursor pos ends, which is the next cursor. */
  function To<T>(s: Server<T>, limit: nat, pos: nat): nat {
    Cut(From(s, pos) + limit, |s.coins|)
  }

  function Page<T>(s: Server<T>, limit: nat, pos: nat): seq<T> {
    s.coins[From(s, pos)..To(s, limit, pos)]
  }

  /** No coin is skipped, and at most overlap coins are repeated. */
  ghost predicate Legal<T>(s: Server<T>, overlap: nat) {
    forall pos: nat :: pos <= |s.coins| ==> s.start(pos) <= pos <= s.start(pos) + overlap
  }

  /** With pages longer than the overlap, a full page moves the cursor on, and a short one has reached the end. */
  lemma PageProgress<T>(s: Server<T>, limit: nat, overlap: nat, pos: nat)
    requires Legal(s, overlap) && overlap < limit && pos <= |s.coins|
    ensures |Page(s, limit, pos)| == limit ==> pos < To(s, limit, pos) <= |s.coins|
    ensures |Page(s, limit, pos)| < limit ==> To(s, limit, pos) == |s.coins|
    ensures |Page(s, limit, pos)| <= limit && From(s, pos) <= pos
  {
  }

  /** All pages from cursor pos on. */
  function Collected<T>(s: Server<T>, limit: nat, overlap: nat, pos: nat): seq<T>
    requires Legal(s, overlap) && overlap < limit && pos <= |s.coins|
    decreases |s.coins| - pos
  {
    PageProgress(s, limit, overlap, pos);
    var page := Page(s, limit, pos);
    if |page| < limit then page else page + Collected(s, limit, overlap, To(s, limit, pos))
  }

  /** The page loop: it ends, whatever the page size, as long as pages are longer than the overlap. */
  method FetchCoins<T>(s: Server<T>, limit: nat, ghost overlap: nat) returns (coins: seq<T>)
    requires Legal(s, overlap) && overlap < limit
    ensures coins == Collected(s, limit, overlap, 0)
  {
    hide *;
    coins := [];
    var cursor: nat := 0;
    assert coins + Collected(s, limit, overlap, cursor) == Collected(s, limit, overlap, 0);
    while true
      invariant cursor <= |s.coins|
      invariant coins + Collected(s, limit, overlap, cursor) == Collected(s, limit, overlap, 0)
      decreases |s.coins| - cursor
    {
      PageProgress(s, limit, overlap, cursor);
      CollectedStep(s, limit, overlap, cursor, coins);
      var page := Page(s, limit, cursor);
      coins := coins + page;
      if |page| < limit {
        break;
      }
      cursor := To(s, limit, cursor);
    }
  }

  lemma CollectedStep<T>(s: Server<T>, limit: nat, overlap: nat, pos: nat, before: seq<T>)
    requires Legal(s, overlap) && overlap < limit && pos <= |s.coins|
    ensures var page, next := Page(s, limit, pos), To(s, limit, pos);
            && next <= |s.coins|
            && before + Collected(s, limit, overlap, pos)
               == if |page| < limit then before + page else before + page + Collected(s, limit, overlap, next)
  {
    PageProgress(s, limit, overlap, pos);
    hide Legal, Page, To;
  }

  /** A page no longer than the overlap can repeat for ever: the cursor at the end does not move. */
  lemma ShortPagesStall(limit: nat)
    requires limit > 0
    ensures exists s: Server<Coin>, overlap: nat ::
              Legal(s, overlap) && overlap == limit && |Page(s, limit, |s.coins|)| == limit
              && To(s, limit, |s.coins|) == |s.coins|
  {
    var s := Server(seq(limit, i => Coin(0, 0)), (pos: nat) => 0);
    assert Legal(s, limit);
    assert |Page(s, limit, |s.coins|)| == limit && To(s, limit, |s.coins|) == |s.coins|;
  }

  lemma PageMember<T>(s: Server<T>, limit: nat, pos: nat, c: T)
    requires From(s, pos) <= pos <= |s.coins|
    ensures c in s.coins[pos..] ==> c in Page(s, limit, pos) || c in s.coins[To(s, limit, pos)..]
    ensures c in Page(s, limit, pos) ==> c in s.coins
  {
    var from, to := From(s, pos), To(s, limit, pos);
    assert from <= to <= |s.coins|;
    hide From, To;
    if c in s.coins[pos..] {
      var k :| pos <= k < |s.coins| && s.coins[k] == c;
      if k < to { assert s.coins[from..to][k - from] == c; } else { assert s.coins[to..][k - to] == c; }
    }
  }

  /** The pages hold the coins from the cursor on, all of them, and otherwise only earlier ones. */
  lemma {:induction false} CollectedAll<T>(s: Server<T>, limit: nat, overlap: nat, pos: nat, c: T)
    requires Legal(s, overlap) && overlap < limit && pos <= |s.coins|
    ensures c in s.coins[pos..] ==> c in Collected(s, limit, overlap, pos)
    ensures c in Collected(s, limit, overlap, pos) ==> c in s.coins
    decreases |s.coins| - pos
  {
    hide Legal, From, To, Page, Collected;
    PageProgress(s, limit, overlap, pos);
    PageMember(s, limit, pos, c);
    CollectedStep(s, limit, overlap, pos, []);
    assert [] + Collected(s, limit, overlap, pos) == Collected(s, limit, overlap, pos);
    assert [] + Page(s, limit, pos) == Page(s, limit, pos);
    if |Page(s, limit, pos)| == limit { CollectedAll(s, limit, overlap, To(s, limit, pos), c); }
  }

  // ---------------------------------------------------------------- sorting and removing repeats

  type CoinMap = map<nat, Coin>

  /** Coins by id; of two with the same id the later one counts. */
  function ById(coins: seq<Coin>): CoinMap {
    if coins == [] then map[] else ById(coins[..|coins| - 1])[coins[|coins| - 1].id := coins[|coins| - 1]]
  }

  /** A coin that no later one shares its id with is the one that counts. */
  lemma {:induction false} LaterCounts(coins: seq<Coin>, i: nat)
    requires i < |coins| && forall j :: i < j < |coins| ==> coins[j].id != coins[i].id
    ensures coins[i].id in ById(coins) && ById(coins)[coins[i].id] == coins[i]
    decreases |coins|
  {
    var n := |coins| - 1;
    if i < n { LaterCounts(coins[..n], i); }
  }

  function Same(x: nat): nat {
    x
  }

  ghost predicate Ascending(coins: seq<Coin>) {
    forall i, j :: 0 <= i < j < |coins| ==> coins[i].id < coins[j].id
  }

  /** The coins of the map, sorted by id, each once. */
  ghost predicate Lists(r: seq<Coin>, m: CoinMap) {
    && Ascending(r)
    && (forall i :: 0 <= i < |r| ==> r[i].id in m && m[r[i].id] == r[i])
    && forall id :: id in m ==> m[id].id == id && m[id] in r
  }

  method SortUnique(coins: seq<Coin>) returns (uniqueCoins: seq<Coin>)
    ensures Lists(uniqueCoins, ById(coins))
  {
    var coinsMap: CoinMap := map[];
    for i := 0 to |coins|
      invariant coinsMap == ById(coins[..i])
    {
      assert coins[..i + 1][..i] == coins[..i];
      coinsMap := coinsMap[coins[i].id := coins[i]];
    }
    assert coins[..|coins|] == coins;
    MapCarriesIds(coins);
    hide ById, SortedBy;
    var identifiers := Identifiers(coinsMap);
    var sorted := SortBy(identifiers, Same);
    SortedDistinct(identifiers, sorted);
    uniqueCoins := [];
    for i := 0 to |sorted|
      invariant |uniqueCoins| == i
      invariant forall k :: 0 <= k < i ==> sorted[k] in coinsMap && uniqueCoins[k] == coinsMap[sorted[k]]
    {
      assert sorted[i] in sorted;
      uniqueCoins := uniqueCoins + [coinsMap[sorted[i]]];
    }
    MappedLists(coinsMap, sorted, uniqueCoins);
  }

  lemma MappedLists(m: CoinMap, sorted: seq<nat>, r: seq<Coin>)
    requires forall id :: id in m ==> m[id].id == id
    requires (forall id :: id in sorted <==> id in m) && forall i, j :: 0 <= i < j < |sorted| ==> sorted[i] < sorted[j]
    requires |r| == |sorted| && forall k :: 0 <= k < |r| ==> sorted[k] in m && r[k] == m[sorted[k]]
    ensures Lists(r, m)
  {
    forall id | id in m ensures m[id].id == id && m[id] in r {
      var k :| 0 <= k < |sorted| && sorted[k] == id;
      assert r[k] == m[id];
    }
  }

  /** The keys of the map, in Go's unspecified order. */
  method Identifiers(m: CoinMap) returns (ids: seq<nat>)
    ensures (forall id :: id in ids <==> id in m) && forall i, j :: 0 <= i < j < |ids| ==> ids[i] != ids[j]
  {
    ids := [];
    var todo := m.Keys;
    while todo != {}
      invariant todo <= m.Keys
      invariant forall id :: id in ids <==> id in m && id !in todo
      invariant forall i, j :: 0 <= i < j < |ids| ==> ids[i] != ids[j]
      decreases |todo|
    {
      var id :| id in todo;
      todo := todo - {id};
      ids := ids + [id];
    }
  }

  lemma {:induction false} MapCarriesIds(coins: seq<Coin>)
    ensures forall id :: id in ById(coins) ==> ById(coins)[id].id == id && ById(coins)[id] in coins
    ensures forall i :: 0 <= i < |coins| ==> coins[i].id in ById(coins)
  {
    if coins != [] { MapCarriesIds(coins[..|coins| - 1]); }
  }

  lemma SortedDistinct(ids: seq<nat>, sorted: seq<nat>)
    requires SortedBy(sorted, Same) && multiset(sorted) == multiset(ids)
    requires forall i, j :: 0 <= i < j < |ids| ==> ids[i] != ids[j]
    ensures forall i, j :: 0 <= i < j < |sorted| ==> sorted[i] < sorted[j]
    ensures forall id :: id in sorted <==> id in ids
  {
    forall id ensures id in sorted <==> id in ids {
      assert (id in multiset(sorted) <==> id in sorted) && (id in multiset(ids) <==> id in ids);
    }
    forall i, j | 0 <= i < j < |sorted| ensures sorted[i] < sorted[j] {
      assert Same(sorted[i]) <= Same(sorted[j]);
      if sorted[i] == sorted[j] { TwiceIn(sorted, i, j); OnceIn(ids, sorted[i]); }
    }
  }

  lemma TwiceIn(s: seq<nat>, i: nat, j: nat)
    requires i < j < |s| && s[i] == s[j]
    ensures multiset(s)[s[i]] >= 2
  {
    assert s == s[..j] + [s[j]] + s[j + 1..];
    assert s[i] in s[..j];
  }

  lemma {:induction false} OnceIn(s: seq<nat>, x: nat)
    requires forall i, j :: 0 <= i < j < |s| ==> s[i] != s[j]
    ensures multiset(s)[x] <= 1
  {
    if s != [] {
      var n := |s| - 1;
      OnceIn(s[..n], x);
      assert s == s[..n] + [s[n]];
      if s[n] == x { assert x !in s[..n]; }
    }
  }

  // ---------------------------------------------------------------- the page size does not matter

  /** Equal ids mean equal coins. */
  ghost predicate Consistent(coins: seq<Coin>) {
    forall i, j :: 0 <= i < |coins| && 0 <= j < |coins| && coins[i].id == coins[j].id ==> coins[i] == coins[j]
  }

  lemma {:induction false} ByIdMembers(coins: seq<Coin>, c: Coin)
    requires Consistent(coins)
    ensures c in coins <==> c.id in ById(coins) && ById(coins)[c.id] == c
  {
    MapCarriesIds(coins);
    hide ById;
    if c in coins {
      var i :| 0 <= i < |coins| && coins[i] == c;
      var j :| 0 <= j < |coins| && coins[j] == ById(coins)[c.id];
    }
  }

  lemma SameCoinsSameMap(a: seq<Coin>, b: seq<Coin>)
    requires Consistent(a) && Consistent(b) && forall c :: c in a <==> c in b
    ensures ById(a) == ById(b)
  {
    MapCarriesIds(a);
    MapCarriesIds(b);
    hide ById;
    forall id | id in ById(a) ensures id in ById(b) && ById(b)[id] == ById(a)[id] { ByIdMembers(b, ById(a)[id]); }
    forall id | id in ById(b) ensures id in ById(a) { ByIdMembers(a, ById(b)[id]); }
    assert ById(a).Keys == ById(b).Keys;
  }

  /** However the list is paged, sorting out the pages gives the server's coins, each once, in order. */
  lemma PageSizeIrrelevant(s: Server<Coin>, limit: nat, overlap: nat)
    requires Legal(s, overlap) && overlap < limit && Consistent(s.coins)
    ensures ById(Collected(s, limit, overlap, 0)) == ById(s.coins)
  {
    var all := Collected(s, limit, overlap, 0);
    assert s.coins[0..] == s.coins;
    forall c ensures c in all <==> c in s.coins { CollectedAll(s, limit, overlap, 0, c); }
    hide Collected, Legal;
    forall i, j | 0 <= i < |all| && 0 <= j < |all| && all[i].id == all[j].id ensures all[i] == all[j] {
      assert all[i] in s.coins && all[j] in s.coins;
    }
    SameCoinsSameMap(all, s.coins);
  }

  lemma EmptyIfNone(b: seq<Coin>)
    ensures (forall c :: c !in b) ==> b == []
  {
    if b != [] { assert b[0] in b; }
  }

  lemma {:induction false} AscendingUnique(a: seq<Coin>, b: seq<Coin>)
    requires Ascending(a) && Ascending(b) && forall c :: c in a <==> c in b
    ensures a == b
  {
    if a == [] {
      EmptyIfNone(b);
      return;
    }
    var n := |a| - 1;
    assert a[n] in b;
    var k := |b| - 1;
    LastsAgree(a, b);
    forall c ensures c in a[..n] <==> c in b[..k] {
      WithoutLast(a, c);
      WithoutLast(b, c);
    }
    AscendingUnique(a[..n], b[..k]);
    assert a == a[..n] + [a[n]] && b == b[..k] + [b[k]];
  }

  lemma LastsAgree(a: seq<Coin>, b: seq<Coin>)
    requires Ascending(a) && Ascending(b) && a != [] && b != [] && forall c :: c in a <==> c in b
    ensures a[|a| - 1] == b[|b| - 1]
  {
    assert b[|b| - 1] in b && a[|a| - 1] in a;
    var i :| 0 <= i < |a| && a[i] == b[|b| - 1];
    var j :| 0 <= j < |b| && b[j] == a[|a| - 1];
  }

  lemma WithoutLast(a: seq<Coin>, c: Coin)
    requires Ascending(a) && a != []
    ensures c in a[..|a| - 1] <==> c in a && c != a[|a| - 1]
  {
    if c in a && c != a[|a| - 1] {
      var k :| 0 <= k < |a| && a[k] == c;
      assert a[..|a| - 1][k] == c;
    }
  }

  /** The sorted list of a map is unique, so SortUnique has one answer. */
  lemma ListsUnique(a: seq<Coin>, b: seq<Coin>, m: CoinMap)
    requires Lists(a, m) && Lists(b, m)
    ensures a == b
  {
    forall c ensures c in a <==> c in b {
      if c in a { assert m[c.id] == c; }
      if c in b { assert m[c.id] == c; }
    }
    AscendingUnique(a, b);
  }

  // ---------------------------------------------------------------- sums

  function AmountOf(c: Coin): nat {
    c.amount
  }

  function Sum(coins: seq<Coin>): nat {
    SumBy(coins, AmountOf)
  }

  /** The loop of the C-chain AccountBalance, which adds up the coins of all pages as they came. */
  method SumCoins(coins: seq<Coin>) returns (r: Result<uint64, ()>)
    ensures r == if Sum(coins) < TWO_64 then Ok(Sum(coins)) else Err(())
  {
    var balanceValue: uint64 := 0;
    for i := 0 to |coins|
      invariant balanceValue == Sum(coins[..i])
    {
      assert coins[..i + 1][..i] == coins[..i];
      SumByPrefix(coins, i + 1, AmountOf);
      if balanceValue + coins[i].amount >= TWO_64 {
        return Err(());
      }
      balanceValue := balanceValue + coins[i].amount;
    }
    assert coins[..|coins|] == coins;
    r := Ok(balanceValue);
  }

  /** What the pages from pos on repeat. */
  function RepeatedSum(s: Server<Coin>, limit: nat, overlap: nat, pos: nat): nat
    requires Legal(s, overlap) && overlap < limit && pos <= |s.coins|
    decreases |s.coins| - pos
  {
    PageProgress(s, limit, overlap, pos);
    Sum(s.coins[From(s, pos)..pos])
    + if |Page(s, limit, pos)| < limit then 0 else RepeatedSum(s, limit, overlap, To(s, limit, pos))
  }

  /** The sum over all pages is the true sum plus whatever pages repeat: right exactly if only zero amounts are. */
  lemma {:induction false} CollectedSum(s: Server<Coin>, limit: nat, overlap: nat, pos: nat)
    requires Legal(s, overlap) && overlap < limit && pos <= |s.coins|
    ensures Sum(Collected(s, limit, overlap, pos)) == Sum(s.coins[pos..]) + RepeatedSum(s, limit, overlap, pos)
    decreases |s.coins| - pos
  {
    PageProgress(s, limit, overlap, pos);
    var page, from, to := Page(s, limit, pos), From(s, pos), To(s, limit, pos);
    assert page == s.coins[from..pos] + s.coins[pos..to] && s.coins[pos..] == s.coins[pos..to] + s.coins[to..];
    SumByConcat(s.coins[from..pos], s.coins[pos..to], AmountOf);
    SumByConcat(s.coins[pos..to], s.coins[to..], AmountOf);
    if |page| == limit {
      CollectedSum(s, limit, overlap, to);
      SumByConcat(page, Collected(s, limit, overlap, to), AmountOf);
    }
    hide Legal, SumBy, From, To, Page;
  }

  /** Pages of two over three coins, the second page starting at the coin the first one ended with. */
  lemma OverlapIsCountedTwice()
    ensures var s := Server([Coin(1, 5), Coin(2, 7), Coin(3, 9)], (pos: nat) => if pos == 0 then 0 else pos - 1);
            Legal(s, 1) && Sum(Collected(s, 2, 1, 0)) > Sum(s.coins)
  {
    var s := Server([Coin(1, 5), Coin(2, 7), Coin(3, 9)], (pos: nat) => if pos == 0 then 0 else pos - 1);
    assert Legal(s, 1);
    PageProgress(s, 2, 1, 0);
    CollectedSum(s, 2, 1, 0);
    assert To(s, 2, 0) == 2 && |Page(s, 2, 0)| == 2 && From(s, 2) == 1;
    var again := s.coins[1..2];
    assert Sum(again) == 7 by { assert again[..0] == []; }
    assert RepeatedSum(s, 2, 1, 2) >= 7;
    assert s.coins[0..] == s.coins;
  }
}
