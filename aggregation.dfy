/** The minting screen's summary step: fetched allocation rows are grouped by
    token type and every group is reduced to totals, counts and a status. */
module Aggregation {
  import opened Allocations
  import opened Seqs

  /** The group of rows whose token type is missing or empty. */
  const Unassigned: string := "Unassigned"

  /** The group a row belongs to. A missing or empty token type goes to
      "Unassigned"; any other type is its own group, compared exactly. */
  function GroupKey(a: Allocation): (k: string)
    ensures a.tokenType == None || a.tokenType == Some("") ==> k == Unassigned
    ensures a.tokenType.Some? && a.tokenType.value != "" ==> k == a.tokenType.value
    ensures k != ""
  {
    match a.tokenType
    case None => Unassigned
    case Some(t) => if t == "" then Unassigned else t
  }

  function KeyOf(r: FetchedRow): string {
    GroupKey(r.allocation)
  }

  /** The amount a row adds to every sum it takes part in; a missing amount adds 0. */
  function Amount(r: FetchedRow): int {
    match r.allocation.tokenAmount
    case None => 0
    case Some(n) => n
  }

  /** A row counts as confirmed only when its subscription is confirmed and allocated. */
  predicate IsConfirmed(r: FetchedRow) {
    r.subscription.confirmed && r.subscription.isAllocated
  }

  predicate IsMinted(r: FetchedRow) {
    r.allocation.minted
  }

  predicate IsDistributed(r: FetchedRow) {
    r.allocation.distributed
  }

  function SumAmounts(rows: seq<FetchedRow>): int {
    if rows == [] then 0 else Amount(rows[0]) + SumAmounts(rows[1..])
  }

  /** The rows of group `k`, in input order: the reference definition of a group. */
  function OfType(rows: seq<FetchedRow>, k: string): (g: seq<FetchedRow>)
    ensures |g| <= |rows|
    ensures forall r :: r in g <==> r in rows && KeyOf(r) == k
  {
    if rows == [] then []
    else
      var init, last := rows[..|rows| - 1], rows[|rows| - 1];
      assert rows == init + [last];
      OfType(init, k) + (if KeyOf(last) == k then [last] else [])
  }

  /** The grouping as a left fold over a dictionary: each row is appended to
      the list of its group, the list being created on the group's first row. */
  function GroupBy(rows: seq<FetchedRow>): (groups: map<string, seq<FetchedRow>>)
    ensures forall k :: k in groups ==> groups[k] != []
  {
    if rows == [] then map[]
    else
      var acc := GroupBy(rows[..|rows| - 1]);
      var r := rows[|rows| - 1];
      var k := KeyOf(r);
      acc[k := (if k in acc then acc[k] else []) + [r]]
  }

  /** The members every plain JavaScript object inherits from `Object.prototype`.
      Looking one of them up in an empty object literal finds a function (or,
      for `__proto__`, the prototype itself), never `undefined`. */
  const InheritedMembers: set<string> := {
    "constructor", "hasOwnProperty", "isPrototypeOf", "propertyIsEnumerable",
    "toLocaleString", "toString", "valueOf", "__defineGetter__", "__defineSetter__",
    "__lookupGetter__", "__lookupSetter__", "__proto__"}

  /** Some row's group key names an inherited member. */
  predicate HasInheritedKey(rows: seq<FetchedRow>) {
    exists r :: r in rows && KeyOf(r) in InheritedMembers
  }

  /** The grouping as the screen runs it, over an empty object literal. A key
      naming an inherited member finds that member, which is truthy, so no list
      is created and the `push` that follows throws: the fold fails. */
  function GroupRows(rows: seq<FetchedRow>): (groups: Option<map<string, seq<FetchedRow>>>)
    ensures groups.None? <==> HasInheritedKey(rows)
    ensures groups.Some? ==> groups.value == GroupBy(rows)
  {
    if rows == [] then Some(map[])
    else
      var init, r := rows[..|rows| - 1], rows[|rows| - 1];
      assert rows == init + [r];
      match GroupRows(init)
      case None => None
      case Some(acc) =>
        var k := KeyOf(r);
        if k in InheritedMembers then None
        else Some(acc[k := (if k in acc then acc[k] else []) + [r]])
  }

  /** The fold builds exactly the reference groups: one non-empty group per key
      that occurs, holding that key's rows in input order. */
  lemma {:induction false} GroupByIsOfType(rows: seq<FetchedRow>)
    ensures forall k :: k in GroupBy(rows) <==> OfType(rows, k) != []
    ensures forall k :: k in GroupBy(rows) ==> GroupBy(rows)[k] == OfType(rows, k)
  {
    if rows != [] {
      var init, last := rows[..|rows| - 1], rows[|rows| - 1];
      GroupByIsOfType(init);
      forall k
        ensures k in GroupBy(rows) <==> OfType(rows, k) != []
        ensures k in GroupBy(rows) ==> GroupBy(rows)[k] == OfType(rows, k)
      {
        assert OfType(rows, k) == OfType(init, k) + (if KeyOf(last) == k then [last] else []);
      }
    }
  }

  datatype Status = Minted | ReadyToMint | Pending

  /** The per-token-type summary the screen shows. */
  datatype TokenSummary = TokenSummary(
    tokenType: string,
    totalAmount: int,
    confirmedAmount: int,
    distributedAmount: int,
    mintedAmount: int,
    totalCount: nat,
    confirmedCount: nat,
    distributedCount: nat,
    mintedCount: nat,
    status: Status,
    readyToMint: bool,
    isMinted: bool,
    allocations: seq<FetchedRow>)

  /** Totals, counts and status of one group. */
  function Summarize(tokenType: string, allocations: seq<FetchedRow>): (s: TokenSummary)
    ensures s.tokenType == tokenType && s.allocations == allocations
    ensures s.totalCount == |allocations|
    ensures s.confirmedCount <= s.totalCount && s.mintedCount <= s.totalCount
    ensures s.distributedCount <= s.totalCount
  {
    var confirmed := Filter(allocations, IsConfirmed);
    var minted := Filter(allocations, IsMinted);
    var distributed := Filter(allocations, IsDistributed);
    TokenSummary(
      tokenType,
      SumAmounts(allocations),
      SumAmounts(confirmed),
      SumAmounts(distributed),
      SumAmounts(minted),
      |allocations|,
      |confirmed|,
      |distributed|,
      |minted|,
      if |minted| > 0 then Minted else if |confirmed| > 0 then ReadyToMint else Pending,
      |confirmed| > 0 && |minted| == 0,
      |minted| > 0,
      allocations)
  }

  /** The status of a group: "minted" as soon as one row is minted, else "ready
      to mint" when one row is confirmed, else "pending". A group is never both
      ready to mint and minted. */
  lemma SummaryStatus(tokenType: string, allocations: seq<FetchedRow>)
    ensures var s := Summarize(tokenType, allocations);
      && (s.isMinted <==> exists r :: r in allocations && IsMinted(r))
      && (s.readyToMint <==>
           (exists r :: r in allocations && IsConfirmed(r)) && forall r :: r in allocations ==> !IsMinted(r))
      && (s.status == Minted <==> s.isMinted)
      && (s.status == ReadyToMint <==> s.readyToMint)
      && (s.status == Pending <==> forall r :: r in allocations ==> !IsMinted(r) && !IsConfirmed(r))
      && !(s.readyToMint && s.isMinted)
  {
    var confirmed := Filter(allocations, IsConfirmed);
    var minted := Filter(allocations, IsMinted);
    assert |minted| > 0 ==> minted[0] in minted;
    assert |confirmed| > 0 ==> confirmed[0] in confirmed;
  }

  /** Summarizes every group of a grouping, keyed as the grouping is. */
  function SummarizeGroups(groups: map<string, seq<FetchedRow>>): (m: map<string, TokenSummary>)
    ensures m.Keys == groups.Keys
    ensures forall k :: k in m ==> m[k] == Summarize(k, groups[k])
  {
    map k | k in groups :: Summarize(k, groups[k])
  }

  /** The summaries of all groups, keyed by token type. */
  function Summaries(rows: seq<FetchedRow>): map<string, TokenSummary> {
    SummarizeGroups(GroupBy(rows))
  }

  /** Every row's key has a summary, every summary describes the non-empty
      group of rows with its key, and no rows means no summaries. */
  lemma SummariesOfGroups(rows: seq<FetchedRow>)
    ensures var m := Summaries(rows);
      && (forall r :: r in rows ==> KeyOf(r) in m)
      && (forall k :: k in m ==> m[k] == Summarize(k, OfType(rows, k)) && m[k].allocations != [])
      && (m == map[] <==> rows == [])
  {
    GroupByIsOfType(rows);
    GroupByCoversRows(rows);
  }

  /** A type has a summary exactly when some row has that key. */
  lemma SummaryExactlyForOccurringKeys(rows: seq<FetchedRow>, k: string)
    ensures k in Summaries(rows) <==> exists r :: r in rows && KeyOf(r) == k
  {
    SummariesOfGroups(rows);
    if k in Summaries(rows) {
      var g := OfType(rows, k);
      assert g[0] in g;
    }
  }

  /** Two row lists that agree, position by position, on every row's key, and
      that hold the same row wherever the key is `k`, have the same group `k`. */
  lemma {:induction false} OfTypeAgrees(xs: seq<FetchedRow>, ys: seq<FetchedRow>, k: string)
    requires |xs| == |ys|
    requires forall i :: 0 <= i < |xs| ==> KeyOf(xs[i]) == KeyOf(ys[i])
    requires forall i :: 0 <= i < |xs| && KeyOf(xs[i]) == k ==> xs[i] == ys[i]
    ensures OfType(xs, k) == OfType(ys, k)
  {
    if xs != [] {
      var n := |xs| - 1;
      OfTypeAgrees(xs[..n], ys[..n], k);
    }
  }

  lemma GroupByCoversRows(rows: seq<FetchedRow>)
    ensures forall r :: r in rows ==> KeyOf(r) in GroupBy(rows)
  {
    GroupByIsOfType(rows);
    forall r | r in rows ensures KeyOf(r) in GroupBy(rows) {
      assert r in OfType(rows, KeyOf(r));
    }
  }

  /** Grouping loses and duplicates nothing: each row is in its own group, as
      many times as it occurs in the input, and in no other group. */
  lemma GroupHoldsEveryCopy(rows: seq<FetchedRow>, r: FetchedRow)
    requires r in rows
    ensures KeyOf(r) in Summaries(rows)
    ensures multiset(Summaries(rows)[KeyOf(r)].allocations)[r] == multiset(rows)[r]
    ensures forall k :: k in Summaries(rows) && r in Summaries(rows)[k].allocations ==> k == KeyOf(r)
  {
    SummariesOfGroups(rows);
    OfTypeMultiplicity(rows, KeyOf(r), r);
  }

  lemma {:induction false} OfTypeMultiplicity(rows: seq<FetchedRow>, k: string, r: FetchedRow)
    ensures multiset(OfType(rows, k))[r] == if KeyOf(r) == k then multiset(rows)[r] else 0
  {
    if rows != [] {
      var init, last := rows[..|rows| - 1], rows[|rows| - 1];
      assert rows == init + [last];
      OfTypeMultiplicity(init, k, r);
    }
  }

  /** Taking one row out of a list takes its amount out of the sum. */
  lemma {:induction false} SumAmountsWithout(ys: seq<FetchedRow>, i: nat)
    requires i < |ys|
    ensures SumAmounts(ys) == Amount(ys[i]) + SumAmounts(ys[..i] + ys[i + 1..])
  {
    if i == 0 {
      assert ys[..0] + ys[1..] == ys[1..];
    } else {
      var tail := ys[1..];
      SumAmountsWithout(tail, i - 1);
      assert ys[..i] + ys[i + 1..] == [ys[0]] + (tail[..i - 1] + tail[i..]);
    }
  }

  /** A sum of amounts does not depend on the order of the rows. */
  lemma {:induction false} SumAmountsPerm(xs: seq<FetchedRow>, ys: seq<FetchedRow>)
    requires multiset(xs) == multiset(ys)
    ensures SumAmounts(xs) == SumAmounts(ys)
  {
    if xs == [] {
      assert |ys| == |multiset(ys)| == 0;
    } else {
      var i := PermSplit(xs, ys);
      SumAmountsPerm(xs[1..], ys[..i] + ys[i + 1..]);
      SumAmountsWithout(ys, i);
    }
  }

  /** Two orderings of the same rows give the same rows in every group. */
  lemma OfTypePerm(xs: seq<FetchedRow>, ys: seq<FetchedRow>, k: string)
    requires multiset(xs) == multiset(ys)
    ensures multiset(OfType(xs, k)) == multiset(OfType(ys, k))
  {
    forall r
      ensures multiset(OfType(xs, k))[r] == multiset(OfType(ys, k))[r]
    {
      OfTypeMultiplicity(xs, k, r);
      OfTypeMultiplicity(ys, k, r);
    }
  }

  /** Two orderings of the same rows give the same summary, apart from the
      order of the rows it lists. */
  lemma SummarizePerm(k: string, a: seq<FetchedRow>, b: seq<FetchedRow>)
    requires multiset(a) == multiset(b)
    ensures Summarize(k, a).(allocations := []) == Summarize(k, b).(allocations := [])
  {
    var confirmedA, confirmedB := Filter(a, IsConfirmed), Filter(b, IsConfirmed);
    var mintedA, mintedB := Filter(a, IsMinted), Filter(b, IsMinted);
    var distributedA, distributedB := Filter(a, IsDistributed), Filter(b, IsDistributed);
    FilterPerm(a, b, IsConfirmed);
    FilterPerm(a, b, IsMinted);
    FilterPerm(a, b, IsDistributed);
    SumAmountsPerm(a, b);
    SumAmountsPerm(confirmedA, confirmedB);
    SumAmountsPerm(mintedA, mintedB);
    SumAmountsPerm(distributedA, distributedB);
    assert |a| == |multiset(a)| == |multiset(b)| == |b|;
    assert |confirmedA| == |multiset(confirmedA)| == |multiset(confirmedB)| == |confirmedB|;
    assert |mintedA| == |multiset(mintedA)| == |multiset(mintedB)| == |mintedB|;
    assert |distributedA| == |multiset(distributedA)| == |multiset(distributedB)| == |distributedB|;
  }

  /** The cards do not depend on the order the rows come back in: the same rows
      in any order give summaries for the same types, equal apart from the
      order of the rows each one lists. */
  lemma SummariesIgnoreRowOrder(xs: seq<FetchedRow>, ys: seq<FetchedRow>, k: string)
    requires multiset(xs) == multiset(ys)
    ensures k in Summaries(xs) <==> k in Summaries(ys)
    ensures k in Summaries(xs) ==>
      Summaries(xs)[k].(allocations := []) == Summaries(ys)[k].(allocations := [])
  {
    SummaryExactlyForOccurringKeys(xs, k);
    SummaryExactlyForOccurringKeys(ys, k);
    forall r
      ensures r in xs <==> r in ys
    {
      assert r in xs <==> r in multiset(xs);
      assert r in ys <==> r in multiset(ys);
    }
    if k in Summaries(xs) {
      SummariesOfGroups(xs);
      SummariesOfGroups(ys);
      OfTypePerm(xs, ys, k);
      SummarizePerm(k, OfType(xs, k), OfType(ys, k));
    }
  }

  /** The sum of `totalCount` over a list of summary keys. */
  function SumTotalCounts(m: map<string, TokenSummary>, ks: seq<string>): int
    requires forall k :: k in ks ==> k in m
  {
    if ks == [] then 0 else m[ks[0]].totalCount + SumTotalCounts(m, ks[1..])
  }

  /** The number of rows in the groups named by `ks`. */
  function GroupSizes(rows: seq<FetchedRow>, ks: seq<string>): nat {
    if ks == [] then 0 else |OfType(rows, ks[0])| + GroupSizes(rows, ks[1..])
  }

  /** Grouping partitions the input: whatever order the summaries are listed
      in, their `totalCount`s add up to the number of rows. */
  lemma TotalCountsPartitionRows(rows: seq<FetchedRow>, ks: seq<string>)
    requires NoDuplicates(ks)
    requires forall k :: k in ks <==> k in Summaries(rows)
    ensures SumTotalCounts(Summaries(rows), ks) == |rows|
  {
    SummariesOfGroups(rows);
    SumTotalCountsIsGroupSizes(rows, ks);
    GroupSizesCoverRows(rows, ks);
  }

  lemma {:induction false} SumTotalCountsIsGroupSizes(rows: seq<FetchedRow>, ks: seq<string>)
    requires forall k :: k in ks ==> k in Summaries(rows)
    ensures SumTotalCounts(Summaries(rows), ks) == GroupSizes(rows, ks)
  {
    if ks != [] {
      SummariesOfGroups(rows);
      SumTotalCountsIsGroupSizes(rows, ks[1..]);
    }
  }

  lemma {:induction false} GroupSizesCoverRows(rows: seq<FetchedRow>, ks: seq<string>)
    requires NoDuplicates(ks)
    requires forall r :: r in rows ==> KeyOf(r) in ks
    ensures GroupSizes(rows, ks) == |rows|
  {
    if rows == [] {
      GroupSizesOfNoRows(ks);
    } else {
      var init, last := rows[..|rows| - 1], rows[|rows| - 1];
      assert rows == init + [last];
      GroupSizesSnoc(init, last, ks);
      GroupSizesCoverRows(init, ks);
    }
  }

  lemma {:induction false} GroupSizesOfNoRows(ks: seq<string>)
    ensures GroupSizes([], ks) == 0
  {
    if ks != [] {
      GroupSizesOfNoRows(ks[1..]);
    }
  }

  /** Adding one row to the input adds one to the group sizes exactly when its
      key is listed (once) in `ks`. */
  lemma {:induction false} GroupSizesSnoc(init: seq<FetchedRow>, last: FetchedRow, ks: seq<string>)
    requires NoDuplicates(ks)
    ensures GroupSizes(init + [last], ks) == GroupSizes(init, ks) + if KeyOf(last) in ks then 1 else 0
  {
    if ks != [] {
      var rows := init + [last];
      assert rows[..|rows| - 1] == init;
      GroupSizesSnoc(init, last, ks[1..]);
      assert ks[0] !in ks[1..] by {
        forall j | 0 <= j < |ks[1..]| ensures ks[1..][j] != ks[0] {
          assert ks[1..][j] == ks[j + 1];
        }
      }
    }
  }

  /** With non-negative amounts, the confirmed, minted and distributed amounts
      of a group, being sums over subsets of its rows, never exceed its total. */
  lemma SummaryAmountBounds(tokenType: string, allocations: seq<FetchedRow>)
    requires forall r :: r in allocations ==> Amount(r) >= 0
    ensures var s := Summarize(tokenType, allocations);
      && 0 <= s.confirmedAmount <= s.totalAmount
      && 0 <= s.mintedAmount <= s.totalAmount
      && 0 <= s.distributedAmount <= s.totalAmount
  {
    SumOfFilterBounded(allocations, IsConfirmed);
    SumOfFilterBounded(allocations, IsMinted);
    SumOfFilterBounded(allocations, IsDistributed);
  }

  lemma {:induction false} SumOfFilterBounded(rows: seq<FetchedRow>, p: FetchedRow -> bool)
    requires forall r :: r in rows ==> Amount(r) >= 0
    ensures 0 <= SumAmounts(Filter(rows, p)) <= SumAmounts(rows)
  {
    if rows != [] {
      SumOfFilterBounded(rows[1..], p);
      var f := Filter(rows, p);
      if p(rows[0]) {
        assert f[1..] == Filter(rows[1..], p);
      } else {
        assert f == Filter(rows[1..], p);
      }
    }
  }

  /** The per-card mint button, disabled unless the group is ready to mint or
      when it is already minted. */
  predicate CardMintDisabled(s: TokenSummary) {
    !s.readyToMint || s.isMinted
  }

  /** The card's mint button is enabled exactly for groups in status "ready to
      mint": some row confirmed and none minted. */
  lemma CardMintEnabledExactlyWhenReady(tokenType: string, allocations: seq<FetchedRow>)
    ensures var s := Summarize(tokenType, allocations);
      && (!CardMintDisabled(s) <==> s.status == ReadyToMint)
      && (!CardMintDisabled(s) <==>
           (exists r :: r in allocations && IsConfirmed(r)) && forall r :: r in allocations ==> !IsMinted(r))
  {
    SummaryStatus(tokenType, allocations);
  }
}
