/**
 * The leaderboard of the snapshot route (app/api/admin/snapshot/route.ts):
 * the prize table, the normalisation of upstream records through `??`
 * fallbacks, the stable sort by amount wagered (largest first) and the
 * assignment of rank and prize by position.
 *
 * Amounts are integers; a missing field (JSON null or undefined) is None.
 */
module Ranking {
  import opened Wrappers
  import opened Numbers

  /** The table inside prizeForRank: the prize in dollars of ranks 1 to 10. */
  const PrizeTable: map<int, int> :=
    map[1 := 2000, 2 := 1000, 3 := 500, 4 := 175, 5 := 100, 6 := 75, 7 := 50, 8 := 50, 9 := 25, 10 := 25]

  /** The `prizes` object of the route's JSON response, written out separately in the source. */
  const ResponsePrizes: map<int, int> :=
    map[1 := 2000, 2 := 1000, 3 := 500, 4 := 175, 5 := 100, 6 := 75, 7 := 50, 8 := 50, 9 := 25, 10 := 25]

  /** prizeForRank: the table's prize, or 0 (`map[rank] ?? 0`) for a rank the table lacks. */
  function PrizeForRank(rank: int): (p: int)
    ensures p >= 0
    ensures p > 0 <==> 1 <= rank <= 10
  {
    if rank in PrizeTable then PrizeTable[rank] else 0
  }

  /** The prizes of ranks 1 to n together. */
  function PrizePool(n: nat): int {
    if n == 0 then 0 else PrizePool(n - 1) + PrizeForRank(n)
  }

  /** However many players there are, the prizes add up to $4000 (the "4k Race"). */
  lemma {:induction false} PrizePoolTotal(n: nat)
    requires n >= 10
    ensures PrizePool(n) == 4000
  {
    if n > 10 {
      PrizePoolTotal(n - 1);
    } else {
      assert PrizePool(5) == 3775;
    }
  }

  /** A better rank never earns a smaller prize. */
  lemma PrizeNonIncreasing(a: int, b: int)
    requires 1 <= a <= b
    ensures PrizeForRank(b) <= PrizeForRank(a)
  {
    if b <= 10 {
      assert a in PrizeTable && b in PrizeTable;
    }
  }

  /** The prizes object the route returns lists exactly ranks 1 to 10, each with prizeForRank's prize. */
  lemma ResponsePrizesAgree(rank: int)
    ensures rank in ResponsePrizes <==> 1 <= rank <= 10
    ensures rank in ResponsePrizes ==> ResponsePrizes[rank] == PrizeForRank(rank)
  {
  }

  /** A JSON scalar the route turns into text with toString(). */
  datatype Scalar = Num(n: int) | Str(s: string)

  function ScalarText(v: Scalar): string {
    match v
    case Num(n) => IntText(n)
    case Str(s) => s
  }

  /** One upstream record, with the fields the route looks at. */
  datatype Upstream = Upstream(
    userId: Option<Scalar>,
    userName: Option<string>,
    username: Option<string>,
    name: Option<string>,
    totalWagerUsd: Option<int>,
    wageredAmount: Option<int>,
    wagered: Option<int>,
    totalWagered: Option<int>,
    rank: Option<int>)

  /** The upstream body: a JSON array of records, or any other JSON value. */
  datatype Body = JsonArray(items: seq<Upstream>) | JsonOther

  /** A normalised entry. */
  datatype Entry = Entry(id: string, username: string, wagered: int, rank: int)

  /** A ranked entry of the response: the entry's fields with rank and prize replaced by position. */
  datatype Standing = Standing(id: string, username: string, wagered: int, rank: int, prize: int)

  /** JavaScript's a ?? b: b only when a is null or undefined. */
  function Coalesce<T>(a: Option<T>, b: T): T {
    match a
    case Some(v) => v
    case None => b
  }

  /**
   * The normalisation of the record at position index: every field is
   * taken from the first of the record's own keys that is present, in the
   * order of the `??` chain, and from the position only when all of them
   * are missing.
   */
  function NormalizeAt(u: Upstream, index: nat): (r: Entry)
    ensures Some(r.username) in [u.userName, u.username, u.name]
            || (u.userName.None? && u.username.None? && u.name.None? && r.username == "Player" + NatText(index + 1))
    ensures Some(r.wagered) in [u.totalWagerUsd, u.wageredAmount, u.wagered, u.totalWagered]
            || (u.totalWagerUsd.None? && u.wageredAmount.None? && u.wagered.None? && u.totalWagered.None? && r.wagered == 0)
    ensures (u.userId.Some? && r.id == ScalarText(u.userId.value)) || (u.userId.None? && r.id == NatText(index + 1))
    ensures Some(r.rank) == u.rank || (u.rank.None? && r.rank == index + 1)
    ensures u.userName.Some? ==> r.username == u.userName.value
    ensures u.userName.None? && u.username.Some? ==> r.username == u.username.value
    ensures u.userName.None? && u.username.None? && u.name.Some? ==> r.username == u.name.value
    ensures u.totalWagerUsd.Some? ==> r.wagered == u.totalWagerUsd.value
    ensures u.totalWagerUsd.None? && u.wageredAmount.Some? ==> r.wagered == u.wageredAmount.value
    ensures u.totalWagerUsd.None? && u.wageredAmount.None? && u.wagered.Some? ==> r.wagered == u.wagered.value
    ensures u.totalWagerUsd.None? && u.wageredAmount.None? && u.wagered.None? && u.totalWagered.Some?
            ==> r.wagered == u.totalWagered.value
  {
    var n := NatText(index + 1);
    Entry(
      Coalesce(if u.userId.Some? then Some(ScalarText(u.userId.value)) else None, n),
      Coalesce(u.userName, Coalesce(u.username, Coalesce(u.name, "Player" + n))),
      Coalesce(u.totalWagerUsd, Coalesce(u.wageredAmount, Coalesce(u.wagered, Coalesce(u.totalWagered, 0)))),
      Coalesce(u.rank, index + 1))
  }

  /** array.map((entry, index) => ...) over the records. */
  function Normalize(items: seq<Upstream>): (r: seq<Entry>)
    ensures |r| == |items|
  {
    seq(|items|, i requires 0 <= i < |items| => NormalizeAt(items[i], i))
  }

  /** Array.isArray(data) ? data : [], normalised. */
  function Entries(body: Body): (r: seq<Entry>)
    ensures body.JsonOther? ==> r == []
  {
    match body
    case JsonArray(items) => Normalize(items)
    case JsonOther => []
  }

  /**
   * Normalisation keeps every record and falls back only on missing
   * fields, key by key in the order of each `??` chain: a present key is
   * kept even when it is "" or 0, and a record with no id and no name gets
   * id "k" and username "Playerk" for its 1-based position k.
   */
  lemma NormalizeFallbacks(items: seq<Upstream>, i: int)
    requires 0 <= i < |items|
    ensures items[i].userName.Some? ==> Normalize(items)[i].username == items[i].userName.value
    ensures items[i].userName.None? && items[i].username.Some?
            ==> Normalize(items)[i].username == items[i].username.value
    ensures items[i].userName.None? && items[i].username.None? && items[i].name.Some?
            ==> Normalize(items)[i].username == items[i].name.value
    ensures items[i].totalWagerUsd.Some? ==> Normalize(items)[i].wagered == items[i].totalWagerUsd.value
    ensures items[i].totalWagerUsd.None? && items[i].wageredAmount.Some?
            ==> Normalize(items)[i].wagered == items[i].wageredAmount.value
    ensures items[i].totalWagerUsd.None? && items[i].wageredAmount.None? && items[i].wagered.Some?
            ==> Normalize(items)[i].wagered == items[i].wagered.value
    ensures items[i].totalWagerUsd.None? && items[i].wageredAmount.None? && items[i].wagered.None?
              && items[i].totalWagered.Some?
            ==> Normalize(items)[i].wagered == items[i].totalWagered.value
    ensures items[i].userId.Some? ==> Normalize(items)[i].id == ScalarText(items[i].userId.value)
    ensures items[i].userId.None? ==> Normalize(items)[i].id == NatText(i + 1)
    ensures items[i].userName.None? && items[i].username.None? && items[i].name.None?
            ==> Normalize(items)[i].username == "Player" + NatText(i + 1)
    ensures items[i].totalWagerUsd.None? && items[i].wageredAmount.None? && items[i].wagered.None?
              && items[i].totalWagered.None?
            ==> Normalize(items)[i].wagered == 0
  {
  }

  /** Entries ordered by amount wagered, largest first. */
  predicate NonIncreasing(s: seq<Entry>) {
    forall i, j :: 0 <= i < j < |s| ==> s[i].wagered >= s[j].wagered
  }

  /** Inserts e before the first entry that wagered no more than e. */
  function Insert(e: Entry, s: seq<Entry>): (r: seq<Entry>)
    ensures |r| == |s| + 1
    ensures multiset(r) == multiset(s) + multiset{e}
  {
    if s == [] || e.wagered >= s[0].wagered then [e] + s
    else
      assert s == [s[0]] + s[1..];
      [s[0]] + Insert(e, s[1..])
  }

  /**
   * [...normalized].sort((a, b) => b.wagered - a.wagered): a stable sort,
   * largest amount first, written as an insertion sort.
   */
  function SortByWagered(s: seq<Entry>): (r: seq<Entry>)
    ensures |r| == |s|
    ensures multiset(r) == multiset(s)
  {
    if s == [] then []
    else
      assert s == [s[0]] + s[1..];
      Insert(s[0], SortByWagered(s[1..]))
  }

  /** The entries of s that wagered exactly w, in the order of s. */
  function WithWagered(s: seq<Entry>, w: int): (r: seq<Entry>)
    ensures |r| <= |s|
  {
    if s == [] then []
    else (if s[0].wagered == w then [s[0]] else []) + WithWagered(s[1..], w)
  }

  lemma {:induction false} InsertSorted(e: Entry, s: seq<Entry>)
    requires NonIncreasing(s)
    ensures NonIncreasing(Insert(e, s))
    ensures Insert(e, s)[0] == e || Insert(e, s)[0] == s[0]
  {
    if s != [] && e.wagered < s[0].wagered {
      InsertSorted(e, s[1..]);
    }
  }

  /** The sort's result is ordered by amount wagered, largest first. */
  lemma {:induction false} SortSorted(s: seq<Entry>)
    ensures NonIncreasing(SortByWagered(s))
  {
    if s != [] {
      SortSorted(s[1..]);
      InsertSorted(s[0], SortByWagered(s[1..]));
    }
  }

  lemma {:induction false} InsertWithWagered(e: Entry, s: seq<Entry>, w: int)
    ensures WithWagered(Insert(e, s), w) == if e.wagered == w then [e] + WithWagered(s, w) else WithWagered(s, w)
  {
    if s == [] || e.wagered >= s[0].wagered {
      assert ([e] + s)[1..] == s;
    } else {
      var r := Insert(e, s[1..]);
      InsertWithWagered(e, s[1..], w);
      assert ([s[0]] + r)[1..] == r;
    }
  }

  /**
   * The sort is stable: the entries that wagered the same amount come out
   * in the order they went in.
   */
  lemma {:induction false} SortStable(s: seq<Entry>, w: int)
    ensures WithWagered(SortByWagered(s), w) == WithWagered(s, w)
  {
    if s != [] {
      SortStable(s[1..], w);
      InsertWithWagered(s[0], SortByWagered(s[1..]), w);
    }
  }

  /** An amount occurs in s exactly when s has entries with that amount. */
  lemma {:induction false} WithWageredOccurs(s: seq<Entry>, w: int)
    ensures WithWagered(s, w) != [] <==> exists i :: 0 <= i < |s| && s[i].wagered == w
  {
    if s != [] {
      WithWageredOccurs(s[1..], w);
      if s[0].wagered != w {
        forall i | 0 < i < |s| && s[i].wagered == w
          ensures s[1..][i - 1].wagered == w
        {
        }
      }
    }
  }

  /** Two ordered lists with the same entries per amount, in the same order per amount, are equal. */
  lemma {:induction false} OrderedByAmountUnique(a: seq<Entry>, b: seq<Entry>)
    requires NonIncreasing(a) && NonIncreasing(b)
    requires forall w :: WithWagered(a, w) == WithWagered(b, w)
    ensures a == b
  {
    if a == [] || b == [] {
      if a != [] {
        WithWageredOccurs(a, a[0].wagered);
        assert false;
      } else if b != [] {
        WithWageredOccurs(b, b[0].wagered);
        assert false;
      }
    } else {
      var m, n := a[0].wagered, b[0].wagered;
      WithWageredOccurs(a, n);
      WithWageredOccurs(b, n);
      WithWageredOccurs(a, m);
      WithWageredOccurs(b, m);
      assert m == n;
      assert a[0] == b[0] by {
        assert WithWagered(a, m)[0] == a[0];
        assert WithWagered(b, m)[0] == b[0];
      }
      forall w
        ensures WithWagered(a[1..], w) == WithWagered(b[1..], w)
      {
        assert WithWagered(a, w) == WithWagered(b, w);
        if w == m {
          var x, y := WithWagered(a[1..], w), WithWagered(b[1..], w);
          assert WithWagered(a, w) == [a[0]] + x;
          assert WithWagered(b, w) == [b[0]] + y;
          assert x == ([a[0]] + x)[1..] == ([b[0]] + y)[1..] == y;
        } else {
          assert WithWagered(a, w) == WithWagered(a[1..], w);
          assert WithWagered(b, w) == WithWagered(b[1..], w);
        }
      }
      OrderedByAmountUnique(a[1..], b[1..]);
      assert a == [a[0]] + a[1..] && b == [b[0]] + b[1..];
    }
  }

  /**
   * The sort is the only ordering of its input that puts larger amounts
   * first and keeps equal amounts in input order.
   */
  lemma SortIsTheStableSort(s: seq<Entry>, t: seq<Entry>)
    requires NonIncreasing(t)
    requires forall w :: WithWagered(t, w) == WithWagered(s, w)
    ensures t == SortByWagered(s)
  {
    SortSorted(s);
    forall w
      ensures WithWagered(t, w) == WithWagered(SortByWagered(s), w)
    {
      SortStable(s, w);
    }
    OrderedByAmountUnique(t, SortByWagered(s));
  }

  /** The entry at position i (0-based) of the sorted list, ranked i + 1 with that rank's prize. */
  function Place(e: Entry, i: nat): Standing {
    Standing(e.id, e.username, e.wagered, i + 1, PrizeForRank(i + 1))
  }

  /** sorted.map((item, idx) => ({ ...item, rank: idx + 1, prize: prizeForRank(idx + 1) })). */
  function RankAll(sorted: seq<Entry>): (r: seq<Standing>)
    ensures |r| == |sorted|
  {
    seq(|sorted|, i requires 0 <= i < |sorted| => Place(sorted[i], i))
  }

  /**
   * The ranked leaderboard of an upstream body: one standing per record,
   * largest amount first, ranked 1..N by position with that rank's prize.
   */
  function Leaderboard(body: Body): (l: seq<Standing>)
    ensures |l| == |Entries(body)|
    ensures forall i, j :: 0 <= i < j < |l| ==> l[i].wagered >= l[j].wagered
    ensures forall i :: 0 <= i < |l| ==> l[i].rank == i + 1 && l[i].prize == PrizeForRank(i + 1)
  {
    SortSorted(Entries(body));
    RankAll(SortByWagered(Entries(body)))
  }

  /**
   * The leaderboard holds every normalised entry once (a permutation,
   * through the sorted list), ordered by amount wagered, with ranks 1..N by
   * position and the prize of each rank.
   */
  lemma LeaderboardShape(body: Body)
    ensures var e, l := Entries(body), Leaderboard(body);
            && |l| == |e|
            && multiset(SortByWagered(e)) == multiset(e)
            && (forall i :: 0 <= i < |l| ==> l[i] == Place(SortByWagered(e)[i], i))
            && (forall i, j :: 0 <= i < j < |l| ==> l[i].wagered >= l[j].wagered)
            && (forall i :: 0 <= i < |l| ==> l[i].rank == i + 1 && l[i].prize == PrizeForRank(l[i].rank))
  {
    hide SortByWagered, Entries, PrizeForRank;
    SortSorted(Entries(body));
  }

  /** The upstream rank field never reaches the leaderboard. */
  lemma RankIgnoresUpstreamRank(s: seq<Entry>, t: seq<Entry>)
    requires |s| == |t|
    requires forall i :: 0 <= i < |s| ==> s[i].(rank := 0) == t[i].(rank := 0)
    ensures RankAll(s) == RankAll(t)
  {
    forall i | 0 <= i < |s|
      ensures Place(s[i], i) == Place(t[i], i)
    {
      assert s[i].(rank := 0) == t[i].(rank := 0);
    }
  }

  /** The first ten places win a prize, the rest win nothing. */
  lemma PrizesByPlace(body: Body, i: int)
    requires 0 <= i < |Leaderboard(body)|
    ensures Leaderboard(body)[i].prize > 0 <==> i < 10
  {
  }
}
