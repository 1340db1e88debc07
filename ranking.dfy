/** The ranking pipeline of `fetchLeaderboard`: map the query rows to
    entries (applying the completion override), sort them by badge count,
    highest first, and number them 1..N by position. */
module Ranking {
  import opened Wrappers

  /** TOTAL_BADGES: the number of skill badges there are to earn. */
  const TotalBadges: nat := 20

  /** The value of the `all` column that credits an entrant with every badge. */
  const CompletedSentinel: string := "Yes"

  /** The placeholder picture every entry is shown with. */
  const GenericAvatar: string := "https://placehold.co/40x40/B0B0B0/FFFFFF?text=P&font=roboto"

  /** One row of `select('name, badges, all')`; a null, missing or
      non-string `all` is `None` (none of them is strictly equal to 'Yes'). */
  datatype Row = Row(name: string, badges: nat, all: Option<string>)

  /** One leaderboard entry: the row's fields spread, then `id`, `rank`,
      the effective `badges`, `total` and `avatar` written over them. */
  datatype Entry = Entry(
    name: string,
    badges: nat,
    all: Option<string>,
    id: string,
    rank: nat,
    total: nat,
    avatar: string)

  /** `item.all === 'Yes'` */
  predicate CompletedAll(row: Row) {
    row.all == Some(CompletedSentinel)
  }

  /** The badge count shown for a row: every badge once the row is marked complete. */
  function DisplayBadges(row: Row): nat {
    if CompletedAll(row) then TotalBadges else row.badges
  }

  function ToEntry(row: Row, rank: nat): Entry {
    Entry(row.name, DisplayBadges(row), row.all, row.name, rank, TotalBadges, GenericAvatar)
  }

  /** The first `data.map`: each row becomes an entry with the provisional rank index + 1. */
  function MapRows(rows: seq<Row>): (r: seq<Entry>)
    ensures |r| == |rows|
    ensures forall i :: 0 <= i < |rows| ==> Presents(r[i], rows[i]) && r[i].rank == i + 1
  {
    seq(|rows|, i requires 0 <= i < |rows| => ToEntry(rows[i], i + 1))
  }

  /** The comparator `(a, b) => b.badges - a.badges`: positive when `b` must come first. */
  function Comparator(a: Entry, b: Entry): int {
    b.badges - a.badges
  }

  /** Non-increasing in effective badges. */
  predicate SortedDesc(s: seq<Entry>) {
    forall i, j :: 0 <= i < j < |s| ==> s[i].badges >= s[j].badges
  }

  /** The entries of `s` that show exactly `k` badges, in their order in `s`. */
  function WithBadges(s: seq<Entry>, k: nat): seq<Entry> {
    if s == [] then []
    else (if s[0].badges == k then [s[0]] else []) + WithBadges(s[1..], k)
  }

  /** `r` is a stable descending sort of `s`: sorted, and every group of
      equal badge counts appears in `r` in the same order as in `s`. */
  ghost predicate IsStableSortOf(r: seq<Entry>, s: seq<Entry>) {
    SortedDesc(r) && forall k :: WithBadges(r, k) == WithBadges(s, k)
  }

  /** Insert `x` into the sorted `t` in front of every entry that does not
      show more badges than it. */
  function Insert(x: Entry, t: seq<Entry>): (r: seq<Entry>)
    requires SortedDesc(t)
    ensures |r| == |t| + 1
    ensures multiset(r) == multiset(t) + multiset{x}
    ensures SortedDesc(r)
  {
    if t == [] || Comparator(x, t[0]) <= 0 then
      PrependToSorted(x, t);
      [x] + t
    else
      var rest := Insert(x, t[1..]);
      assert t == [t[0]] + t[1..];
      HeadBoundsTail(t);
      PrependSorted(t[0], rest);
      [t[0]] + rest
  }

  lemma PrependToSorted(x: Entry, t: seq<Entry>)
    requires SortedDesc(t)
    requires t == [] || x.badges >= t[0].badges
    ensures SortedDesc([x] + t)
  {
  }

  lemma HeadBoundsTail(t: seq<Entry>)
    requires SortedDesc(t) && t != []
    ensures forall e :: e in multiset(t[1..]) ==> t[0].badges >= e.badges
  {
  }

  /** An entry showing at least as many badges as every entry of a sorted list can go in front of it. */
  lemma PrependSorted(h: Entry, s: seq<Entry>)
    requires SortedDesc(s)
    requires forall e :: e in multiset(s) ==> h.badges >= e.badges
    ensures SortedDesc([h] + s)
  {
  }

  /** `rankedData.sort((a, b) => b.badges - a.badges)`, as the stable
      insertion sort: the rest is sorted first, then the head is inserted
      in front of its ties. */
  function SortByBadges(s: seq<Entry>): (r: seq<Entry>)
    ensures |r| == |s|
    ensures multiset(r) == multiset(s)
    ensures SortedDesc(r)
  {
    if s == [] then []
    else
      assert s == [s[0]] + s[1..];
      Insert(s[0], SortByBadges(s[1..]))
  }

  /** The final `map`: the rank becomes the position, counted from 1. */
  function Rerank(s: seq<Entry>): (r: seq<Entry>)
    ensures |r| == |s|
    ensures forall i :: 0 <= i < |r| ==> r[i].rank == i + 1
    ensures Unranked(r) == Unranked(s)
  {
    seq(|s|, i requires 0 <= i < |s| => s[i].(rank := i + 1))
  }

  /** `finalData`: the list `fetchLeaderboard` stores for a successful query. */
  function RankLeaderboard(rows: seq<Row>): (r: seq<Entry>)
    ensures |r| == |rows|
    ensures forall i :: 0 <= i < |r| ==> r[i].rank == i + 1
    ensures SortedDesc(r)
  {
    var sorted := SortByBadges(MapRows(rows));
    var out := Rerank(sorted);
    assert forall i :: 0 <= i < |out| ==> out[i].badges == Unranked(out)[i].badges == sorted[i].badges;
    out
  }

  /** An entry with its rank cleared, to compare entries regardless of position. */
  function Unrank(e: Entry): Entry {
    e.(rank := 0)
  }

  function Unranked(s: seq<Entry>): (r: seq<Entry>)
    ensures |r| == |s|
    ensures forall i :: 0 <= i < |s| ==> r[i] == Unrank(s[i])
  {
    seq(|s|, i requires 0 <= i < |s| => Unrank(s[i]))
  }

  /** The entry `e` shows `row`: same name, id and completion flag, the
      override applied to the badge count, and the fixed total and avatar. */
  predicate Presents(e: Entry, row: Row) {
    && e.name == row.name
    && e.id == row.name
    && e.all == row.all
    && (row.all == Some(CompletedSentinel) ==> e.badges == TotalBadges)
    && (row.all != Some(CompletedSentinel) ==> e.badges == row.badges)
    && e.total == TotalBadges
    && e.avatar == GenericAvatar
  }

  /** What the page keeps between fetches: ranked 1..N by position, highest
      count first, every entry out of 20 and keyed by its name. */
  predicate RankedList(s: seq<Entry>) {
    && SortedDesc(s)
    && forall i :: 0 <= i < |s| ==> s[i].rank == i + 1 && Decorated(s[i])
  }

  /** The fields every entry gets whatever its row: out of 20, keyed by its
      name, shown with the generic avatar. */
  predicate Decorated(e: Entry) {
    e.total == TotalBadges && e.id == e.name && e.avatar == GenericAvatar
  }

  // ---------------------------------------------------------------------
  // The sort is stable, and it is the only stable descending sort.

  lemma {:induction false} WithBadgesAppend(a: seq<Entry>, b: seq<Entry>, k: nat)
    ensures WithBadges(a + b, k) == WithBadges(a, k) + WithBadges(b, k)
  {
    if a != [] {
      assert (a + b)[1..] == a[1..] + b;
      WithBadgesAppend(a[1..], b, k);
    } else {
      assert a + b == b;
    }
  }

  lemma {:induction false} WithBadgesMembers(s: seq<Entry>, k: nat)
    ensures forall e :: e in WithBadges(s, k) ==> e in s && e.badges == k
  {
    if s != [] {
      WithBadgesMembers(s[1..], k);
    }
  }

  /** Inserting `x` adds it to the front of its own group and leaves every other group alone. */
  lemma {:induction false} WithBadgesInsert(x: Entry, t: seq<Entry>, k: nat)
    requires SortedDesc(t)
    ensures WithBadges(Insert(x, t), k) == (if x.badges == k then [x] else []) + WithBadges(t, k)
  {
    if t == [] || Comparator(x, t[0]) <= 0 {
      WithBadgesAppend([x], t, k);
    } else {
      var rest := Insert(x, t[1..]);
      WithBadgesAppend([t[0]], rest, k);
      WithBadgesInsert(x, t[1..], k);
      WithBadgesAppend([t[0]], t[1..], k);
      assert t == [t[0]] + t[1..];
    }
  }

  /** Stability: within each badge count, the sort keeps the input order. */
  lemma {:induction false} SortByBadgesStable(s: seq<Entry>, k: nat)
    ensures WithBadges(SortByBadges(s), k) == WithBadges(s, k)
  {
    if s != [] {
      SortByBadgesStable(s[1..], k);
      WithBadgesInsert(s[0], SortByBadges(s[1..]), k);
    }
  }

  lemma {:induction false} SortedHeadIsMax(s: seq<Entry>, e: Entry)
    requires SortedDesc(s) && e in s
    ensures s[0].badges >= e.badges
  {
  }

  /** No group is empty in a list that holds no entry. */
  lemma EmptyGroupsMeanEmpty(a: seq<Entry>, b: seq<Entry>)
    requires a == []
    requires forall k :: WithBadges(a, k) == WithBadges(b, k)
    ensures b == []
  {
    if b != [] {
      WithBadgesOwnGroup(b);
      assert false;
    }
  }

  lemma WithBadgesOwnGroup(s: seq<Entry>)
    requires s != []
    ensures WithBadges(s, s[0].badges) != []
  {
  }

  /** Sorted lists with the same groups start with the same entry, and
      their tails have the same groups. */
  lemma {:induction false} SameGroupsSameHead(a: seq<Entry>, b: seq<Entry>)
    requires SortedDesc(a) && SortedDesc(b) && a != [] && b != []
    requires forall k :: WithBadges(a, k) == WithBadges(b, k)
    ensures a[0] == b[0]
    ensures forall k :: WithBadges(a[1..], k) == WithBadges(b[1..], k)
  {
    var k0 := a[0].badges;
    WithBadgesMembers(a, b[0].badges);
    WithBadgesMembers(b, k0);
    assert b[0] in WithBadges(b, b[0].badges);
    assert a[0] in WithBadges(a, k0);
    SortedHeadIsMax(a, b[0]);
    SortedHeadIsMax(b, a[0]);
    assert b[0].badges == k0;
    forall k
      ensures WithBadges(a[1..], k) == WithBadges(b[1..], k)
      ensures k == k0 ==> a[0] == b[0]
    {
      var ga, gb := WithBadges(a, k), WithBadges(b, k);
      assert ga == gb;
      if k == k0 {
        assert ga == [a[0]] + WithBadges(a[1..], k);
        assert gb == [b[0]] + WithBadges(b[1..], k);
        assert WithBadges(a[1..], k) == ga[1..];
        assert WithBadges(b[1..], k) == gb[1..];
      } else {
        assert ga == WithBadges(a[1..], k);
        assert gb == WithBadges(b[1..], k);
      }
    }
  }

  /** Two stable descending sorts of the same sequence are equal. */
  lemma {:induction false} StableSortUnique(a: seq<Entry>, b: seq<Entry>)
    requires SortedDesc(a) && SortedDesc(b)
    requires forall k :: WithBadges(a, k) == WithBadges(b, k)
    ensures a == b
  {
    if a == [] {
      EmptyGroupsMeanEmpty(a, b);
    } else if b == [] {
      EmptyGroupsMeanEmpty(b, a);
    } else {
      SameGroupsSameHead(a, b);
      StableSortUnique(a[1..], b[1..]);
      assert a == [a[0]] + a[1..];
      assert b == [b[0]] + b[1..];
    }
  }

  /** SortByBadges is a stable descending sort, and any stable descending
      sort (such as any ECMA-262 conforming `Array.prototype.sort` with
      this comparator) returns exactly what it returns. */
  lemma SortByBadgesIsTheStableSort(s: seq<Entry>, r: seq<Entry>)
    ensures IsStableSortOf(SortByBadges(s), s)
    ensures IsStableSortOf(r, s) <==> r == SortByBadges(s)
  {
    forall k ensures WithBadges(SortByBadges(s), k) == WithBadges(s, k) {
      SortByBadgesStable(s, k);
    }
    if IsStableSortOf(r, s) {
      StableSortUnique(r, SortByBadges(s));
    }
  }

  /** The comparator orders by badge count alone, so a sorted list has a
      non-positive comparator value on every ordered pair. */
  lemma ComparatorAgreesWithSorted(s: seq<Entry>)
    ensures SortedDesc(s) <==> forall i, j :: 0 <= i < j < |s| ==> Comparator(s[i], s[j]) <= 0
  {
  }

  // ---------------------------------------------------------------------
  // Relating the output to the query rows, up to the rank field.

  lemma UnrankedSorted(s: seq<Entry>)
    requires SortedDesc(s)
    ensures SortedDesc(Unranked(s))
  {
  }

  lemma UnrankedCons(h: Entry, s: seq<Entry>)
    ensures Unranked([h] + s) == [Unrank(h)] + Unranked(s)
  {
  }

  lemma UnrankedTail(s: seq<Entry>)
    requires s != []
    ensures Unranked(s) == [Unrank(s[0])] + Unranked(s[1..])
  {
  }

  lemma {:induction false} UnrankedInsert(x: Entry, t: seq<Entry>)
    requires SortedDesc(t) && SortedDesc(Unranked(t))
    ensures Unranked(Insert(x, t)) == Insert(Unrank(x), Unranked(t))
  {
    var ut := Unranked(t);
    if t == [] || Comparator(x, t[0]) <= 0 {
      UnrankedCons(x, t);
    } else {
      UnrankedTail(t);
      var rest := Insert(x, t[1..]);
      UnrankedSorted(t[1..]);
      UnrankedInsert(x, t[1..]);
      UnrankedCons(t[0], rest);
      assert ut[1..] == Unranked(t[1..]);
      assert Insert(Unrank(x), ut) == [ut[0]] + Insert(Unrank(x), ut[1..]);
    }
  }

  /** Sorting does not look at the rank, so it commutes with clearing it. */
  lemma {:induction false} UnrankedSortByBadges(s: seq<Entry>)
    ensures Unranked(SortByBadges(s)) == SortByBadges(Unranked(s))
  {
    if s != [] {
      var u := Unranked(s);
      var tail := SortByBadges(s[1..]);
      assert SortByBadges(s) == Insert(s[0], tail);
      UnrankedSortByBadges(s[1..]);
      UnrankedSorted(tail);
      UnrankedInsert(s[0], tail);
      UnrankedTail(s);
      assert u[1..] == Unranked(s[1..]);
      assert SortByBadges(u) == Insert(u[0], SortByBadges(u[1..]));
    }
  }

  /** The final list is the stable sort of the mapped rows, numbered by position. */
  lemma RankLeaderboardIsSortedMappedRows(rows: seq<Row>)
    ensures Unranked(RankLeaderboard(rows)) == SortByBadges(Unranked(MapRows(rows)))
  {
    var sorted := SortByBadges(MapRows(rows));
    assert Unranked(Rerank(sorted)) == Unranked(sorted);
    UnrankedSortByBadges(MapRows(rows));
  }

  /** The properties of `finalData`: one entry per row, ranks 1..N by
      position, non-increasing badge counts, a permutation of the mapped
      rows (up to the provisional rank they were given), and ties kept in
      query order. */
  lemma RankLeaderboardSpec(rows: seq<Row>)
    ensures |RankLeaderboard(rows)| == |rows|
    ensures RankedList(RankLeaderboard(rows))
    ensures multiset(Unranked(RankLeaderboard(rows))) == multiset(Unranked(MapRows(rows)))
    ensures forall k :: WithBadges(Unranked(RankLeaderboard(rows)), k) == WithBadges(Unranked(MapRows(rows)), k)
  {
    var mapped := Unranked(MapRows(rows));
    var out := RankLeaderboard(rows);
    RankLeaderboardIsSortedMappedRows(rows);
    var u := Unranked(out);
    assert u == SortByBadges(mapped);
    forall i, j | 0 <= i < j < |out| ensures out[i].badges >= out[j].badges {
      assert u[i].badges >= u[j].badges;
    }
    DecoratedPermutation(u, mapped);
    forall i | 0 <= i < |out| ensures Decorated(out[i]) {
      assert Decorated(u[i]);
    }
    forall k ensures WithBadges(u, k) == WithBadges(mapped, k) {
      SortByBadgesStable(mapped, k);
    }
  }

  lemma DecoratedPermutation(r: seq<Entry>, s: seq<Entry>)
    requires multiset(r) == multiset(s)
    requires forall j :: 0 <= j < |s| ==> Decorated(s[j])
    ensures forall i :: 0 <= i < |r| ==> Decorated(r[i])
  {
    forall i | 0 <= i < |r| ensures Decorated(r[i]) {
      assert r[i] in multiset(s);
    }
  }

  /** Every entry of the final list shows some query row. */
  lemma EveryEntryShowsARow(rows: seq<Row>)
    ensures forall i :: 0 <= i < |RankLeaderboard(rows)| ==>
              exists j :: 0 <= j < |rows| && Presents(RankLeaderboard(rows)[i], rows[j])
  {
    var out := RankLeaderboard(rows);
    var u := Unranked(out);
    var mapped := Unranked(MapRows(rows));
    RankLeaderboardSpec(rows);
    forall i | 0 <= i < |out|
      ensures exists j :: 0 <= j < |rows| && Presents(out[i], rows[j])
    {
      assert u[i] in multiset(u);
      assert u[i] in mapped;
      var j :| 0 <= j < |mapped| && mapped[j] == u[i];
      assert mapped[j] == Unrank(ToEntry(rows[j], j + 1));
      EntryPresentsItsRow(out[i], rows[j], j + 1);
    }
  }

  /** Every query row is shown by some entry of the final list. */
  lemma EveryRowIsShown(rows: seq<Row>)
    ensures forall j :: 0 <= j < |rows| ==>
              exists i :: 0 <= i < |RankLeaderboard(rows)| && Presents(RankLeaderboard(rows)[i], rows[j])
  {
    var out := RankLeaderboard(rows);
    var u := Unranked(out);
    var mapped := Unranked(MapRows(rows));
    RankLeaderboardSpec(rows);
    forall j | 0 <= j < |rows|
      ensures exists i :: 0 <= i < |out| && Presents(out[i], rows[j])
    {
      assert mapped[j] in multiset(mapped);
      assert mapped[j] in u;
      var i :| 0 <= i < |u| && u[i] == mapped[j];
      assert mapped[j] == Unrank(ToEntry(rows[j], j + 1));
      EntryPresentsItsRow(out[i], rows[j], j + 1);
    }
  }

  /** Up to its rank, an entry built from a row presents that row. */
  lemma EntryPresentsItsRow(e: Entry, row: Row, rank: nat)
    requires Unrank(e) == Unrank(ToEntry(row, rank))
    ensures Presents(e, row)
  {
  }

  /** An empty query result ranks to an empty list. */
  lemma RankLeaderboardEmpty()
    ensures RankLeaderboard([]) == []
  {
  }

  /** A completed entrant outranks a higher raw count below 20. */
  lemma RankLeaderboardExample()
    ensures var out := RankLeaderboard([Row("A", 5, Some("Yes")), Row("B", 18, Some("No"))]);
      && |out| == 2
      && out[0].name == "A" && out[0].rank == 1 && out[0].badges == 20
      && out[1].name == "B" && out[1].rank == 2 && out[1].badges == 18
  {
  }
}
