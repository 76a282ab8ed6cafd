/** Worked examples of the minting workflow on small inputs. */
module Scenarios {
  import opened Allocations
  import opened Seqs
  import opened Aggregation
  import opened Minting

  lemma GroupByOfOne(r: FetchedRow)
    ensures GroupBy([r]) == map[KeyOf(r) := [r]]
  {
    var rows, k := [r], KeyOf(r);
    assert rows[..|rows| - 1] == [];
    assert GroupBy(rows) == map[][k := [] + [r]];
    assert [] + [r] == [r];
    assert map[][k := [r]] == map[k := [r]];
  }

  lemma GroupByOfTwo(r1: FetchedRow, r2: FetchedRow)
    requires KeyOf(r2) == KeyOf(r1)
    ensures GroupBy([r1, r2]) == map[KeyOf(r1) := [r1, r2]]
  {
    var rows, k := [r1, r2], KeyOf(r1);
    assert rows[..|rows| - 1] == [r1];
    GroupByOfOne(r1);
    assert GroupBy(rows) == map[k := [r1]][k := [r1] + [r2]];
    assert [r1] + [r2] == rows;
    assert map[k := [r1]][k := rows] == map[k := rows];
  }

  lemma SingletonMap<V>(m: map<string, V>, k: string, v: V)
    requires m.Keys == {k} && m[k] == v
    ensures m == map[k := v]
  {
  }

  /** Summarizing a grouping with a single group. */
  lemma SummariesOfOneGroup(rows: seq<FetchedRow>, k: string)
    requires GroupBy(rows) == map[k := rows]
    ensures Summaries(rows) == map[k := Summarize(k, rows)]
  {
    var m := SummarizeGroups(map[k := rows]);
    assert Summaries(rows) == m;
    SingletonMap(m, k, Summarize(k, rows));
  }

  lemma SumOfTwo(a: FetchedRow, b: FetchedRow)
    ensures SumAmounts([a, b]) == Amount(a) + Amount(b)
  {
    assert [a, b][1..] == [b];
    assert [b][1..] == [];
    assert SumAmounts([]) == 0;
    assert SumAmounts([b]) == Amount(b);
  }

  /** Two confirmed, unminted rows of one token type (say "Equity", 100 and
      200) make one group whose total and confirmed amounts are their sum,
      with nothing minted, ready to mint. */
  lemma TwoConfirmedRowsAreReady(a: FetchedRow, b: FetchedRow)
    requires KeyOf(b) == KeyOf(a)
    requires IsConfirmed(a) && IsConfirmed(b) && !IsMinted(a) && !IsMinted(b)
    ensures var m := Summaries([a, b]);
      && m.Keys == {KeyOf(a)}
      && m[KeyOf(a)].totalAmount == Amount(a) + Amount(b) == m[KeyOf(a)].confirmedAmount
      && m[KeyOf(a)].mintedAmount == 0 && m[KeyOf(a)].totalCount == 2
      && m[KeyOf(a)].readyToMint && m[KeyOf(a)].status == ReadyToMint
  {
    GroupByOfTwo(a, b);
    SummariesOfOneGroup([a, b], KeyOf(a));
    ConfirmedPairSummary(a, b);
  }

  lemma ConfirmedPairSummary(a: FetchedRow, b: FetchedRow)
    requires IsConfirmed(a) && IsConfirmed(b) && !IsMinted(a) && !IsMinted(b)
    ensures var s := Summarize(KeyOf(a), [a, b]);
      && s.totalAmount == Amount(a) + Amount(b) == s.confirmedAmount
      && s.mintedAmount == 0 && s.totalCount == 2
      && s.readyToMint && s.status == ReadyToMint
  {
    var rows := [a, b];
    SumOfTwo(a, b);
    FilterAll(rows, IsConfirmed);
    assert Filter(rows, IsMinted) == [] by {
      assert Filter(rows[1..], IsMinted) == [] by { assert rows[1..][1..] == []; }
    }
  }

  /** Once both rows are minted, the group reports the minted amount and the
      status "minted", and is no longer ready to mint. */
  lemma MintedRowsAreMinted(a: FetchedRow, b: FetchedRow)
    requires KeyOf(b) == KeyOf(a)
    requires IsMinted(a) && IsMinted(b)
    ensures var m := Summaries([a, b]);
      && m[KeyOf(a)].mintedAmount == Amount(a) + Amount(b)
      && m[KeyOf(a)].status == Minted && !m[KeyOf(a)].readyToMint
  {
    GroupByOfTwo(a, b);
    SummariesOfOneGroup([a, b], KeyOf(a));
    MintedPairSummary(a, b);
  }

  lemma MintedPairSummary(a: FetchedRow, b: FetchedRow)
    requires IsMinted(a) && IsMinted(b)
    ensures var s := Summarize(KeyOf(a), [a, b]);
      && s.mintedAmount == Amount(a) + Amount(b) && s.status == Minted && !s.readyToMint
  {
    SumOfTwo(a, b);
    FilterAll([a, b], IsMinted);
  }

  /** A group whose only row is unconfirmed (say "Debt", 50) is pending and its
      card cannot be minted. */
  lemma UnconfirmedGroupIsPending(r: FetchedRow)
    requires !IsConfirmed(r) && !IsMinted(r)
    ensures var m := Summaries([r]);
      KeyOf(r) in m && m[KeyOf(r)].status == Pending && CardMintDisabled(m[KeyOf(r)])
  {
    GroupByOfOne(r);
    SummariesOfOneGroup([r], KeyOf(r));
    SummaryStatus(KeyOf(r), [r]);
  }

  /** Yet a mint request naming that group's type marks its row as minted,
      because the mint action does not look at confirmation. */
  lemma UnconfirmedGroupStillMints(r: FetchedRow, m: map<string, TokenSummary>, now: string, suffix: string)
    requires !IsConfirmed(r) && !IsMinted(r)
    requires m == Summaries([r])
    ensures var after := MintUpTo(map[r.allocation.id := r.allocation], m, [KeyOf(r)], now, [suffix], 1);
      && r.allocation.id in after
      && after[r.allocation.id].minted && after[r.allocation.id].mintingTxHash == Some(TxHash(suffix))
  {
    var id := r.allocation.id;
    GroupByOfOne(r);
    SummariesOfOneGroup([r], KeyOf(r));
    assert GroupIds(m, KeyOf(r)) == [id] by {
      assert Ids([r]) == [id];
    }
    assert LastRequest(m, [KeyOf(r)], id, 1) == 0;
    MintUpToRow(map[id := r.allocation], m, [KeyOf(r)], now, [suffix], 1, id);
  }
}
