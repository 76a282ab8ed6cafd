/** The minting manager: the allocation store it reads and writes, the summaries
    it holds, and the mint action that marks whole token-type groups as minted.
    The clock, the random part of the transaction reference and the success of
    each database call are parameters. */
module Minting {
  import opened Seqs
  import opened Allocations
  import opened Aggregation
  import Search

  /** The reference written with a mint: `0x` followed by a random suffix. */
  function TxHash(suffix: string): (h: string)
    ensures |h| == |suffix| + 2 && h[..2] == "0x" && h[2..] == suffix
  {
    "0x" + suffix
  }

  /** What one mint update writes to a row. */
  function MarkMinted(a: Allocation, now: string, hash: string): (b: Allocation)
    ensures b.minted && b.mintingDate == Some(now) && b.updatedAt == Some(now)
    ensures b.mintingTxHash == Some(hash)
    ensures SameApartFromMinting(a, b)
  {
    a.(minted := true, mintingDate := Some(now), mintingTxHash := Some(hash), updatedAt := Some(now))
  }

  /** `a` and `b` agree on every column a mint does not write. */
  predicate SameApartFromMinting(a: Allocation, b: Allocation) {
    && a.id == b.id && a.investorId == b.investorId && a.subscriptionId == b.subscriptionId
    && a.projectId == b.projectId && a.tokenType == b.tokenType && a.tokenAmount == b.tokenAmount
    && a.distributed == b.distributed
  }

  /** The ids of some fetched rows, in order. */
  function Ids(rows: seq<FetchedRow>): (ids: seq<string>)
    ensures |ids| == |rows|
  {
    if rows == [] then [] else [rows[0].allocation.id] + Ids(rows[1..])
  }

  /** The ids a mint of `tokenType` updates: those of the rows in that type's
      summary, or none when there is no such summary. */
  function GroupIds(summaries: map<string, TokenSummary>, tokenType: string): (ids: seq<string>)
    ensures tokenType !in summaries ==> ids == []
    ensures tokenType in summaries ==> |ids| == |summaries[tokenType].allocations|
  {
    if tokenType in summaries then Ids(summaries[tokenType].allocations) else []
  }

  /** The bulk update `update(...).in("id", ids)`: rows whose id is listed are
      marked minted, all others are left as they are; listed ids absent from the
      table change nothing. */
  function UpdateWhereIdIn(table: map<string, Allocation>, ids: seq<string>, now: string, hash: string)
    : (t: map<string, Allocation>)
    ensures t.Keys == table.Keys
  {
    map id | id in table :: if id in ids then MarkMinted(table[id], now, hash) else table[id]
  }

  /** A mint update keeps every row stored under its own id. */
  lemma UpdateKeepsRowsUnderOwnId(table: map<string, Allocation>, ids: seq<string>, now: string, hash: string)
    requires forall id :: id in table ==> table[id].id == id
    ensures var t := UpdateWhereIdIn(table, ids, now, hash);
      forall id :: id in t ==> t[id].id == id
  {
    var t := UpdateWhereIdIn(table, ids, now, hash);
    forall id | id in t
      ensures t[id].id == id
    {
      if id in ids {
        assert SameApartFromMinting(table[id], MarkMinted(table[id], now, hash));
      }
    }
  }

  /** The table after the first `n` requested types have been minted, each with
      its own reference. */
  function MintUpTo(table: map<string, Allocation>, summaries: map<string, TokenSummary>,
                    tokenTypes: seq<string>, now: string, suffixes: seq<string>, n: nat)
    : (after: map<string, Allocation>)
    requires n <= |tokenTypes| <= |suffixes|
    ensures after.Keys == table.Keys
  {
    if n == 0 then table
    else
      var before := MintUpTo(table, summaries, tokenTypes, now, suffixes, n - 1);
      MintType(before, summaries, tokenTypes[n - 1], now, TxHash(suffixes[n - 1]))
  }

  /** The write for one requested type: its group's rows marked minted with
      reference `hash`; a type with no rows writes nothing. */
  function MintType(table: map<string, Allocation>, summaries: map<string, TokenSummary>,
                    tokenType: string, now: string, hash: string): (after: map<string, Allocation>)
    ensures after.Keys == table.Keys
    ensures tokenType !in summaries ==> after == table
  {
    var ids := GroupIds(summaries, tokenType);
    if |ids| > 0 then UpdateWhereIdIn(table, ids, now, hash) else table
  }

  /** The last of the first `n` requested types whose group contains `id`, or -1. */
  function LastRequest(summaries: map<string, TokenSummary>, tokenTypes: seq<string>, id: string, n: nat)
    : (j: int)
    requires n <= |tokenTypes|
    ensures -1 <= j < n
    ensures j >= 0 ==> id in GroupIds(summaries, tokenTypes[j])
    ensures 0 < n && j < n - 1 ==> id !in GroupIds(summaries, tokenTypes[n - 1])
  {
    LastListing(Listings(summaries, tokenTypes, id), n)
  }

  /** No request after the last one lists `id`. */
  lemma NoLaterRequest(summaries: map<string, TokenSummary>, tokenTypes: seq<string>,
                       id: string, n: nat, i: nat)
    requires n <= |tokenTypes|
    requires LastRequest(summaries, tokenTypes, id, n) < i < n
    ensures id !in GroupIds(summaries, tokenTypes[i])
  {
    NoLaterListing(Listings(summaries, tokenTypes, id), n, i);
  }

  /** For each requested type, whether its group lists `id`. */
  function Listings(summaries: map<string, TokenSummary>, tokenTypes: seq<string>, id: string): (listed: seq<bool>)
    ensures |listed| == |tokenTypes|
  {
    seq(|tokenTypes|, j requires 0 <= j < |tokenTypes| => id in GroupIds(summaries, tokenTypes[j]))
  }

  /** The last index below `n` whose flag is set, or -1. */
  function LastListing(listed: seq<bool>, n: nat): (j: int)
    requires n <= |listed|
    ensures -1 <= j < n
    ensures j >= 0 ==> listed[j]
    ensures 0 < n && j < n - 1 ==> !listed[n - 1]
  {
    if n == 0 then -1 else if listed[n - 1] then n - 1 else LastListing(listed, n - 1)
  }

  lemma {:induction false} NoLaterListing(listed: seq<bool>, n: nat, i: nat)
    requires n <= |listed|
    requires LastListing(listed, n) < i < n
    ensures !listed[i]
  {
    if i < n - 1 {
      NoLaterListing(listed, n - 1, i);
    }
  }

  /** What the first `n` updates do to one row: a row in none of the requested
      groups is unchanged; any other is marked minted with the reference of the
      last update that listed it. */
  lemma {:induction false} MintUpToRow(table: map<string, Allocation>, summaries: map<string, TokenSummary>,
                                      tokenTypes: seq<string>, now: string, suffixes: seq<string>, n: nat, id: string)
    requires n <= |tokenTypes| <= |suffixes|
    ensures MintUpTo(table, summaries, tokenTypes, now, suffixes, n).Keys == table.Keys
    ensures id in table ==>
      var j := LastRequest(summaries, tokenTypes, id, n);
      MintUpTo(table, summaries, tokenTypes, now, suffixes, n)[id] ==
        if j < 0 then table[id] else MarkMinted(table[id], now, TxHash(suffixes[j]))
  {
    if n > 0 {
      MintUpToRow(table, summaries, tokenTypes, now, suffixes, n - 1, id);
    }
  }

  /** Minting never clears a flag: a row that was minted stays minted, and the
      mint keeps the row's identity, type and amount. */
  lemma MintIsMonotonic(table: map<string, Allocation>, summaries: map<string, TokenSummary>,
                        tokenTypes: seq<string>, now: string, suffixes: seq<string>, n: nat, id: string)
    requires n <= |tokenTypes| <= |suffixes|
    requires id in table
    ensures id in MintUpTo(table, summaries, tokenTypes, now, suffixes, n)
    ensures var row := MintUpTo(table, summaries, tokenTypes, now, suffixes, n)[id];
      && (table[id].minted ==> row.minted)
      && SameApartFromMinting(table[id], row)
  {
    MintUpToRow(table, summaries, tokenTypes, now, suffixes, n, id);
  }

  /** Every row of a requested group is marked minted, dated `now` and given a
      `0x` reference, whatever its confirmation state; rows of groups that were
      not requested are unchanged. */
  lemma MintTouchesExactlyRequestedGroups(table: map<string, Allocation>, summaries: map<string, TokenSummary>,
                                          tokenTypes: seq<string>, now: string, suffixes: seq<string>, n: nat, id: string)
    requires n <= |tokenTypes| <= |suffixes|
    requires id in table
    ensures id in MintUpTo(table, summaries, tokenTypes, now, suffixes, n)
    ensures var row := MintUpTo(table, summaries, tokenTypes, now, suffixes, n)[id];
      if exists j :: 0 <= j < n && id in GroupIds(summaries, tokenTypes[j]) then
        && row.minted && row.mintingDate == Some(now) && row.updatedAt == Some(now)
        && row.mintingTxHash.Some? && |row.mintingTxHash.value| >= 2
        && row.mintingTxHash.value[..2] == "0x"
      else
        row == table[id]
  {
    MintUpToRow(table, summaries, tokenTypes, now, suffixes, n, id);
    var last := LastRequest(summaries, tokenTypes, id, n);
    if last < 0 {
      forall j | 0 <= j < n
        ensures id !in GroupIds(summaries, tokenTypes[j])
      {
        NoLaterRequest(summaries, tokenTypes, id, n, j);
      }
    } else {
      var hash := TxHash(suffixes[last]);
      assert hash[..2] == "0x";
    }
  }

  /** No two rows share an id (the table's primary key). */
  ghost predicate DistinctIds(rows: seq<FetchedRow>) {
    NoDuplicates(Ids(rows))
  }

  /** The `i`-th id is the id of the `i`-th row. */
  lemma {:induction false} IdsAt(rows: seq<FetchedRow>, i: nat)
    requires i < |rows|
    ensures Ids(rows)[i] == rows[i].allocation.id
  {
    if i > 0 {
      IdsAt(rows[1..], i - 1);
    }
  }

  /** An id is listed exactly when some row carries it. */
  lemma {:induction false} IdsListRowIds(rows: seq<FetchedRow>, id: string)
    ensures id in Ids(rows) <==> exists r :: r in rows && r.allocation.id == id
  {
    if id in Ids(rows) {
      var i :| 0 <= i < |rows| && Ids(rows)[i] == id;
      IdsAt(rows, i);
      assert rows[i] in rows;
    } else {
      forall r | r in rows
        ensures r.allocation.id != id
      {
        var i :| 0 <= i < |rows| && rows[i] == r;
        IdsAt(rows, i);
        assert Ids(rows)[i] in Ids(rows);
      }
    }
  }

  /** The ids a mint reads from summaries computed from `rows` are the ids of
      that type's rows. */
  lemma GroupIdsOfSummaries(rows: seq<FetchedRow>, t: string)
    ensures GroupIds(Summaries(rows), t) == if t in Summaries(rows) then Ids(OfType(rows, t)) else []
  {
    SummariesOfGroups(rows);
  }

  /** When the summaries were computed from rows with distinct ids, an id is in
      the group of at most one token type. */
  lemma IdInOneGroup(rows: seq<FetchedRow>, t1: string, t2: string, id: string)
    requires DistinctIds(rows)
    requires id in GroupIds(Summaries(rows), t1) && id in GroupIds(Summaries(rows), t2)
    ensures t1 == t2
  {
    GroupIdsOfSummaries(rows, t1);
    GroupIdsOfSummaries(rows, t2);
    IdInOneOfType(rows, t1, t2, id);
  }

  lemma IdInOneOfType(rows: seq<FetchedRow>, t1: string, t2: string, id: string)
    requires DistinctIds(rows)
    requires id in Ids(OfType(rows, t1)) && id in Ids(OfType(rows, t2))
    ensures t1 == t2
  {
    IdsListRowIds(OfType(rows, t1), id);
    IdsListRowIds(OfType(rows, t2), id);
    var r1 :| r1 in OfType(rows, t1) && r1.allocation.id == id;
    var r2 :| r2 in OfType(rows, t2) && r2.allocation.id == id;
    var a :| 0 <= a < |rows| && rows[a] == r1;
    var b :| 0 <= b < |rows| && rows[b] == r2;
    IdsAt(rows, a);
    IdsAt(rows, b);
    assert a == b;
  }

  /** One reference per requested type: when a type is requested once among the
      first `n`, every row of its group carries that type's reference. */
  lemma OneReferencePerType(table: map<string, Allocation>, rows: seq<FetchedRow>,
                            tokenTypes: seq<string>, now: string, suffixes: seq<string>, n: nat, j: nat, id: string)
    requires DistinctIds(rows)
    requires j < n <= |tokenTypes| <= |suffixes|
    requires forall i :: j < i < n ==> tokenTypes[i] != tokenTypes[j]
    requires id in table && id in GroupIds(Summaries(rows), tokenTypes[j])
    ensures id in MintUpTo(table, Summaries(rows), tokenTypes, now, suffixes, n)
    ensures MintUpTo(table, Summaries(rows), tokenTypes, now, suffixes, n)[id].mintingTxHash == Some(TxHash(suffixes[j]))
  {
    var summaries := Summaries(rows);
    MintUpToRow(table, summaries, tokenTypes, now, suffixes, n, id);
    var last := LastRequest(summaries, tokenTypes, id, n);
    if last != j {
      if last < j {
        NoLaterRequest(summaries, tokenTypes, id, n, j);
      }
      IdInOneGroup(rows, tokenTypes[last], tokenTypes[j], id);
    }
  }

  /** Minting a type marks every row of the fetched data with that type, and no
      row of a type that was not requested. */
  lemma MintFollowsRowTypes(table: map<string, Allocation>, rows: seq<FetchedRow>,
                            tokenTypes: seq<string>, now: string, suffixes: seq<string>, r: FetchedRow)
    requires DistinctIds(rows)
    requires |tokenTypes| <= |suffixes|
    requires r in rows && r.allocation.id in table
    ensures var after := MintUpTo(table, Summaries(rows), tokenTypes, now, suffixes, |tokenTypes|);
      && r.allocation.id in after
      && (KeyOf(r) in tokenTypes ==> after[r.allocation.id].minted && after[r.allocation.id].mintingDate == Some(now))
      && (KeyOf(r) !in tokenTypes ==> after[r.allocation.id] == table[r.allocation.id])
  {
    var summaries, id := Summaries(rows), r.allocation.id;
    SummariesOfGroups(rows);
    MintUpToRow(table, summaries, tokenTypes, now, suffixes, |tokenTypes|, id);
    var g := summaries[KeyOf(r)].allocations;
    assert r in g;
    assert id in GroupIds(summaries, KeyOf(r)) by { IdsListRowIds(g, id); }
    if KeyOf(r) in tokenTypes {
      var j :| 0 <= j < |tokenTypes| && tokenTypes[j] == KeyOf(r);
      if LastRequest(summaries, tokenTypes, id, |tokenTypes|) < j {
        NoLaterRequest(summaries, tokenTypes, id, |tokenTypes|, j);
      }
    } else {
      var last := LastRequest(summaries, tokenTypes, id, |tokenTypes|);
      if last >= 0 {
        IdInOneGroup(rows, tokenTypes[last], KeyOf(r), id);
      }
    }
  }

  /** The rows as the re-fetch after the writes reads them back: each
      allocation looked up in `table` under its id, joined with the same
      subscription. */
  function Reread(rows: seq<FetchedRow>, table: map<string, Allocation>): seq<FetchedRow>
    requires forall r :: r in rows ==> r.allocation.id in table
  {
    seq(|rows|, i requires 0 <= i < |rows| => FetchedRow(table[rows[i].allocation.id], rows[i].subscription))
  }

  /** Read back after a mint, a row keeps its key; it is marked minted when its
      type was requested and is the very same row otherwise. */
  lemma RereadAfterMint(table: map<string, Allocation>, rows: seq<FetchedRow>,
                        tokenTypes: seq<string>, now: string, suffixes: seq<string>, i: nat)
    requires DistinctIds(rows)
    requires forall r :: r in rows ==> r.allocation.id in table && table[r.allocation.id] == r.allocation
    requires |tokenTypes| <= |suffixes|
    requires i < |rows|
    ensures var q := Reread(rows, MintUpTo(table, Summaries(rows), tokenTypes, now, suffixes, |tokenTypes|))[i];
      && KeyOf(q) == KeyOf(rows[i])
      && (KeyOf(rows[i]) in tokenTypes ==> IsMinted(q))
      && (KeyOf(rows[i]) !in tokenTypes ==> q == rows[i])
  {
    MintFollowsRowTypes(table, rows, tokenTypes, now, suffixes, rows[i]);
    MintIsMonotonic(table, Summaries(rows), tokenTypes, now, suffixes, |tokenTypes|, rows[i].allocation.id);
  }

  /** After a mint and a re-fetch of the same rows, every requested type that
      had a card still has one, and its status is `minted`. */
  lemma MintThenRegroup(table: map<string, Allocation>, rows: seq<FetchedRow>,
                        tokenTypes: seq<string>, now: string, suffixes: seq<string>, t: string)
    requires DistinctIds(rows)
    requires forall r :: r in rows ==> r.allocation.id in table && table[r.allocation.id] == r.allocation
    requires |tokenTypes| <= |suffixes|
    requires t in tokenTypes && t in Summaries(rows)
    ensures var after := MintUpTo(table, Summaries(rows), tokenTypes, now, suffixes, |tokenTypes|);
      && t in Summaries(Reread(rows, after))
      && Summaries(Reread(rows, after))[t].status == Minted
  {
    var reread := Reread(rows, MintUpTo(table, Summaries(rows), tokenTypes, now, suffixes, |tokenTypes|));
    SummaryExactlyForOccurringKeys(rows, t);
    var r :| r in rows && KeyOf(r) == t;
    var i :| 0 <= i < |rows| && rows[i] == r;
    RereadAfterMint(table, rows, tokenTypes, now, suffixes, i);
    var q := reread[i];
    assert q in reread && KeyOf(q) == t;
    SummaryExactlyForOccurringKeys(reread, t);
    SummariesOfGroups(reread);
    var g := OfType(reread, t);
    assert q in g && IsMinted(q);
    SummaryStatus(t, g);
  }

  /** A key that some row has before the mint, some re-read row has after it. */
  lemma RereadKeepsKey(table: map<string, Allocation>, rows: seq<FetchedRow>,
                       tokenTypes: seq<string>, now: string, suffixes: seq<string>, r: FetchedRow)
    requires DistinctIds(rows)
    requires forall r :: r in rows ==> r.allocation.id in table && table[r.allocation.id] == r.allocation
    requires |tokenTypes| <= |suffixes|
    requires r in rows
    ensures var reread := Reread(rows, MintUpTo(table, Summaries(rows), tokenTypes, now, suffixes, |tokenTypes|));
      exists q :: q in reread && KeyOf(q) == KeyOf(r)
  {
    var reread := Reread(rows, MintUpTo(table, Summaries(rows), tokenTypes, now, suffixes, |tokenTypes|));
    var i :| 0 <= i < |rows| && rows[i] == r;
    RereadAfterMint(table, rows, tokenTypes, now, suffixes, i);
    assert reread[i] in reread;
  }

  /** A key that some re-read row has after the mint, some row had before it. */
  lemma RereadAddsNoKey(table: map<string, Allocation>, rows: seq<FetchedRow>,
                        tokenTypes: seq<string>, now: string, suffixes: seq<string>, q: FetchedRow)
    requires DistinctIds(rows)
    requires forall r :: r in rows ==> r.allocation.id in table && table[r.allocation.id] == r.allocation
    requires |tokenTypes| <= |suffixes|
    requires q in Reread(rows, MintUpTo(table, Summaries(rows), tokenTypes, now, suffixes, |tokenTypes|))
    ensures exists r :: r in rows && KeyOf(r) == KeyOf(q)
  {
    var reread := Reread(rows, MintUpTo(table, Summaries(rows), tokenTypes, now, suffixes, |tokenTypes|));
    var i :| 0 <= i < |reread| && reread[i] == q;
    RereadAfterMint(table, rows, tokenTypes, now, suffixes, i);
    assert rows[i] in rows;
  }

  /** A mint neither adds nor removes cards: the re-fetched rows have summaries
      for exactly the types they had before. */
  lemma MintKeepsTokenTypes(table: map<string, Allocation>, rows: seq<FetchedRow>,
                            tokenTypes: seq<string>, now: string, suffixes: seq<string>, k: string)
    requires DistinctIds(rows)
    requires forall r :: r in rows ==> r.allocation.id in table && table[r.allocation.id] == r.allocation
    requires |tokenTypes| <= |suffixes|
    ensures var after := MintUpTo(table, Summaries(rows), tokenTypes, now, suffixes, |tokenTypes|);
      k in Summaries(Reread(rows, after)) <==> k in Summaries(rows)
  {
    var reread := Reread(rows, MintUpTo(table, Summaries(rows), tokenTypes, now, suffixes, |tokenTypes|));
    SummaryExactlyForOccurringKeys(rows, k);
    SummaryExactlyForOccurringKeys(reread, k);
    if k in Summaries(rows) {
      var r :| r in rows && KeyOf(r) == k;
      RereadKeepsKey(table, rows, tokenTypes, now, suffixes, r);
    }
    if k in Summaries(reread) {
      var q :| q in reread && KeyOf(q) == k;
      RereadAddsNoKey(table, rows, tokenTypes, now, suffixes, q);
    }
  }

  /** A type that was not requested shows, after the re-fetch, the very summary
      it showed before. */
  lemma MintKeepsOtherSummaries(table: map<string, Allocation>, rows: seq<FetchedRow>,
                                tokenTypes: seq<string>, now: string, suffixes: seq<string>, t: string)
    requires DistinctIds(rows)
    requires forall r :: r in rows ==> r.allocation.id in table && table[r.allocation.id] == r.allocation
    requires |tokenTypes| <= |suffixes|
    requires t !in tokenTypes && t in Summaries(rows)
    ensures var after := MintUpTo(table, Summaries(rows), tokenTypes, now, suffixes, |tokenTypes|);
      && t in Summaries(Reread(rows, after))
      && Summaries(Reread(rows, after))[t] == Summaries(rows)[t]
  {
    var reread := Reread(rows, MintUpTo(table, Summaries(rows), tokenTypes, now, suffixes, |tokenTypes|));
    forall i | 0 <= i < |rows|
      ensures KeyOf(reread[i]) == KeyOf(rows[i])
      ensures KeyOf(reread[i]) == t ==> reread[i] == rows[i]
    {
      RereadAfterMint(table, rows, tokenTypes, now, suffixes, i);
    }
    OfTypeAgrees(reread, rows, t);
    MintKeepsTokenTypes(table, rows, tokenTypes, now, suffixes, t);
    SummariesOfGroups(rows);
    SummariesOfGroups(reread);
  }

  /** Whether the write for the `i`-th requested type fails: the type has a
      non-empty group and the database reports an error. */
  predicate WriteFails(summaries: map<string, TokenSummary>, tokenTypes: seq<string>, writeOk: seq<bool>, i: nat)
    : (fails: bool)
    requires i < |tokenTypes| <= |writeOk|
    ensures fails ==> tokenTypes[i] in summaries && !writeOk[i]
  {
    |GroupIds(summaries, tokenTypes[i])| > 0 && !writeOk[i]
  }

  /** The index of the first failing write, or the number of types when none fails. */
  function FirstFailure(summaries: map<string, TokenSummary>, tokenTypes: seq<string>, writeOk: seq<bool>, from: nat)
    : (k: nat)
    requires from <= |tokenTypes| <= |writeOk|
    ensures from <= k <= |tokenTypes|
    ensures k < |tokenTypes| ==> WriteFails(summaries, tokenTypes, writeOk, k)
    decreases |tokenTypes| - from
  {
    if from == |tokenTypes| then from
    else if WriteFails(summaries, tokenTypes, writeOk, from) then from
    else FirstFailure(summaries, tokenTypes, writeOk, from + 1)
  }

  /** Every write before the first failing one succeeds. */
  lemma {:induction false} WritesBeforeFirstFailureSucceed(summaries: map<string, TokenSummary>, tokenTypes: seq<string>,
                                                          writeOk: seq<bool>, from: nat, i: nat)
    requires from <= |tokenTypes| <= |writeOk|
    requires from <= i < FirstFailure(summaries, tokenTypes, writeOk, from)
    ensures !WriteFails(summaries, tokenTypes, writeOk, i)
    decreases i - from
  {
    if from < i {
      WritesBeforeFirstFailureSucceed(summaries, tokenTypes, writeOk, from + 1, i);
    }
  }

  /** `k` is the first failing write from `from` on exactly when every write
      before it succeeds and the one at `k`, if any, fails. */
  lemma {:induction false} FirstFailureIs(summaries: map<string, TokenSummary>, tokenTypes: seq<string>,
                                          writeOk: seq<bool>, from: nat, k: nat)
    requires from <= k <= |tokenTypes| <= |writeOk|
    requires forall i :: from <= i < k ==> !WriteFails(summaries, tokenTypes, writeOk, i)
    requires k < |tokenTypes| ==> WriteFails(summaries, tokenTypes, writeOk, k)
    ensures FirstFailure(summaries, tokenTypes, writeOk, from) == k
    decreases k - from
  {
    if from < k {
      FirstFailureIs(summaries, tokenTypes, writeOk, from + 1, k);
    }
  }

  /** Appending a row whose id is new keeps the ids distinct and adds that id. */
  lemma AppendFreshRow(rows: seq<FetchedRow>, r: FetchedRow)
    requires DistinctIds(rows)
    requires forall q :: q in rows ==> q.allocation.id != r.allocation.id
    ensures DistinctIds(rows + [r])
    ensures forall id :: id in Ids(rows + [r]) <==> id in Ids(rows) || id == r.allocation.id
  {
    var s := rows + [r];
    forall id
      ensures id in Ids(s) <==> id in Ids(rows) || id == r.allocation.id
    {
      IdsListRowIds(s, id);
      IdsListRowIds(rows, id);
    }
    forall i, j | 0 <= i < j < |s|
      ensures Ids(s)[i] != Ids(s)[j]
    {
      IdsAt(s, i);
      IdsAt(s, j);
      if j == |rows| {
        assert s[i] in rows;
      } else {
        IdsAt(rows, i);
        IdsAt(rows, j);
      }
    }
  }

  /** What the model observes of a mint: success, or the first type whose write
      failed. The screen itself only shows a toast and returns normally. */
  datatype MintOutcome = MintSucceeded | MintFailed(tokenType: string)

  class MintingManager {
    const projectId: string
    /** The `token_allocations` table, by id. */
    var allocations: map<string, Allocation>
    /** The `subscriptions` table's flags, by subscription id. */
    var subscriptions: map<string, SubscriptionFlags>
    /** The ids present in the `investors` table. */
    var investors: set<string>
    /** The summaries last fetched, by token type. */
    var summaries: map<string, TokenSummary>
    var searchQuery: string
    var isMintDialogOpen: bool
    /** The type whose card opened the dialog, if any. */
    var selectedTokenType: Option<string>

    /** Every row is stored under its own id. */
    ghost predicate Valid()
      reads this`allocations
    {
      forall id :: id in allocations ==> allocations[id].id == id
    }

    constructor (projectId: string, allocations: map<string, Allocation>,
                 subscriptions: map<string, SubscriptionFlags>, investors: set<string>)
      requires forall id :: id in allocations ==> allocations[id].id == id
      ensures Valid()
      ensures this.projectId == projectId && this.allocations == allocations
      ensures this.subscriptions == subscriptions && this.investors == investors
      ensures summaries == map[] && searchQuery == "" && !isMintDialogOpen && selectedTokenType == None
    {
      this.projectId := projectId;
      this.allocations := allocations;
      this.subscriptions := subscriptions;
      this.investors := investors;
      summaries := map[];
      searchQuery := "";
      isMintDialogOpen := false;
      selectedTokenType := None;
    }

    /** The query's filter and inner joins: the row belongs to this project and
        its subscription and investor exist. */
    predicate Selects(a: Allocation)
      reads this`subscriptions, this`investors
    {
      a.projectId == Some(projectId) && a.subscriptionId in subscriptions && a.investorId in investors
    }

    /** `r` is a stored, selected row joined with its subscription's flags. */
    ghost predicate Joined(r: FetchedRow)
      reads this`allocations, this`subscriptions, this`investors
    {
      && r.allocation.id in allocations && allocations[r.allocation.id] == r.allocation
      && Selects(r.allocation) && r.subscription == subscriptions[r.allocation.subscriptionId]
    }

    /** `rows` is an answer of the query, in some order: exactly the selected
        rows, each once, joined with its subscription's flags. */
    ghost predicate IsQueryResult(rows: seq<FetchedRow>)
      reads this`allocations, this`subscriptions, this`investors
    {
      && DistinctIds(rows)
      && (forall r :: r in rows ==> Joined(r))
      && (forall id :: id in allocations && Selects(allocations[id]) ==> id in Ids(rows))
    }

    /** The summaries now held are the outcome of a successful query answering
        `rows`: those of `rows`, or the previous ones `before` when grouping
        `rows` throws. */
    ghost predicate RefetchedFrom(rows: seq<FetchedRow>, before: map<string, TokenSummary>)
      reads this`allocations, this`subscriptions, this`investors, this`summaries
    {
      && IsQueryResult(rows)
      && summaries == if HasInheritedKey(rows) then before else Summaries(rows)
    }

    /** The query of the screen, visiting the table in an unspecified order. */
    method QueryAllocations() returns (rows: seq<FetchedRow>)
      requires Valid()
      ensures IsQueryResult(rows)
    {
      rows := [];
      var remaining := allocations.Keys;
      while remaining != {}
        invariant remaining <= allocations.Keys
        invariant DistinctIds(rows)
        invariant forall r :: r in rows ==> Joined(r) && r.allocation.id !in remaining
        invariant forall id :: id in allocations && id !in remaining && Selects(allocations[id]) ==> id in Ids(rows)
        decreases remaining
      {
        var id :| id in remaining;
        var a := allocations[id];
        if Selects(a) {
          var r := FetchedRow(a, subscriptions[a.subscriptionId]);
          AppendFreshRow(rows, r);
          rows := rows + [r];
        }
        remaining := remaining - {id};
      }
    }

    /** Fetch and summarize. A failed query, or a grouping that throws because
        a token type names an inherited object member, leaves the summaries as
        they were. */
    method FetchTokenAllocations(queryOk: bool) returns (rows: seq<FetchedRow>)
      requires Valid()
      modifies this`summaries
      ensures queryOk ==> IsQueryResult(rows)
      ensures queryOk && !HasInheritedKey(rows) ==> summaries == Summaries(rows)
      ensures !queryOk || HasInheritedKey(rows) ==> summaries == old(summaries)
    {
      rows := [];
      if queryOk {
        rows := QueryAllocations();
        var groups := GroupRows(rows);
        if groups.Some? {
          summaries := SummarizeGroups(groups.value);
        }
      }
    }

    /** The summaries the screen shows for the current search query. */
    function FilteredTokenSummaries(): (shown: map<string, TokenSummary>)
      reads this`summaries, this`searchQuery
      ensures forall k :: k in shown ==> k in summaries && shown[k] == summaries[k]
      ensures searchQuery == "" ==> shown == summaries
    {
      Search.EmptyQueryShowsAll(summaries);
      Search.SearchFilter(summaries, searchQuery)
    }

    method SetSearchQuery(query: string)
      modifies this`searchQuery
      ensures searchQuery == query
    {
      searchQuery := query;
    }

    /** A click on a summary card's mint button. The button is disabled unless
        the group is ready to mint and not yet minted; a click on an enabled
        button selects the card's type and opens the dialog. A card's type is a
        group key, which is never empty. */
    method ClickCardMint(s: TokenSummary)
      requires s.tokenType != ""
      modifies this`selectedTokenType, this`isMintDialogOpen
      ensures s.readyToMint && !s.isMinted ==> selectedTokenType == Some(s.tokenType) && isMintDialogOpen
      ensures CardMintDisabled(s) ==>
        selectedTokenType == old(selectedTokenType) && isMintDialogOpen == old(isMintDialogOpen)
    {
      if !CardMintDisabled(s) {
        selectedTokenType := Some(s.tokenType);
        isMintDialogOpen := true;
      }
    }

    /** The summaries handed to the dialog: the shown summary of the selected
        type only, or every shown summary when no type is selected. */
    function DialogSummaries(): (d: map<string, TokenSummary>)
      reads this`summaries, this`searchQuery, this`selectedTokenType
      ensures selectedTokenType.None? ==> d == FilteredTokenSummaries()
      ensures selectedTokenType.Some? ==>
        && d.Keys <= {selectedTokenType.value}
        && (selectedTokenType.value in d <==> selectedTokenType.value in FilteredTokenSummaries())
      ensures forall t :: t in d ==> t in FilteredTokenSummaries() && d[t] == FilteredTokenSummaries()[t]
    {
      var shown := FilteredTokenSummaries();
      match selectedTokenType
      case None => shown
      case Some(t) => map k | k in shown && k == t :: shown[k]
    }

    /** One iteration of the mint loop: the bulk update of one type's group,
        which fails when the database reports an error. A type with no rows
        issues no write and cannot fail. */
    method WriteType(tokenType: string, now: string, hash: string, writeOk: bool) returns (failed: bool)
      requires Valid()
      modifies this`allocations
      ensures Valid()
      ensures failed == (|GroupIds(summaries, tokenType)| > 0 && !writeOk)
      ensures allocations == if failed then old(allocations) else MintType(old(allocations), summaries, tokenType, now, hash)
    {
      var ids := GroupIds(summaries, tokenType);
      failed := false;
      if |ids| > 0 {
        if !writeOk {
          return true;
        }
        UpdateKeepsRowsUnderOwnId(allocations, ids, now, hash);
        allocations := UpdateWhereIdIn(allocations, ids, now, hash);
      }
    }

    /** The loop of the mint action: the requested types in order, each group
        updated with its own reference, up to the first failing write. Returns
        the index of that write, or the number of types when all succeed. */
    method MintInOrder(tokenTypes: seq<string>, now: string, hashSuffixes: seq<string>, writeOk: seq<bool>)
      returns (stoppedAt: nat)
      requires Valid()
      requires |hashSuffixes| == |tokenTypes| == |writeOk|
      modifies this`allocations
      ensures Valid()
      ensures stoppedAt == FirstFailure(summaries, tokenTypes, writeOk, 0)
      ensures allocations == MintUpTo(old(allocations), summaries, tokenTypes, now, hashSuffixes, stoppedAt)
    {
      var sums := summaries;
      ghost var table := allocations;
      var i := 0;
      while i < |tokenTypes|
        invariant 0 <= i <= |tokenTypes|
        invariant Valid() && summaries == sums
        invariant allocations == MintUpTo(table, sums, tokenTypes, now, hashSuffixes, i)
        invariant FirstFailure(sums, tokenTypes, writeOk, 0) == FirstFailure(sums, tokenTypes, writeOk, i)
      {
        var failed := WriteType(tokenTypes[i], now, TxHash(hashSuffixes[i]), writeOk[i]);
        if failed {
          return i;
        }
        i := i + 1;
      }
      stoppedAt := i;
    }

    /** Mint the requested token types one after another, each with one shared
        reference, using the summaries held at the time of the call. The first
        failing write stops the loop; the types before it stay minted. On
        success the dialog closes and the summaries are fetched again. */
    method HandleMintTokens(tokenTypes: seq<string>, now: string, hashSuffixes: seq<string>,
                            writeOk: seq<bool>, refetchOk: bool)
      returns (outcome: MintOutcome)
      requires Valid()
      requires |hashSuffixes| == |tokenTypes| == |writeOk|
      modifies this`allocations, this`summaries, this`isMintDialogOpen
      ensures Valid()
      ensures var k := FirstFailure(old(summaries), tokenTypes, writeOk, 0);
        if k < |tokenTypes| then
          && outcome == MintFailed(tokenTypes[k])
          && allocations == MintUpTo(old(allocations), old(summaries), tokenTypes, now, hashSuffixes, k)
          && summaries == old(summaries) && isMintDialogOpen == old(isMintDialogOpen)
        else
          && outcome == MintSucceeded
          && allocations == MintUpTo(old(allocations), old(summaries), tokenTypes, now, hashSuffixes, |tokenTypes|)
          && !isMintDialogOpen
          && (refetchOk ==> exists rows :: RefetchedFrom(rows, old(summaries)))
          && (!refetchOk ==> summaries == old(summaries))
    {
      ghost var before := summaries;
      var k := MintInOrder(tokenTypes, now, hashSuffixes, writeOk);
      if k < |tokenTypes| {
        return MintFailed(tokenTypes[k]);
      }
      isMintDialogOpen := false;
      var rows := FetchTokenAllocations(refetchOk);
      assert refetchOk ==> RefetchedFrom(rows, before);
      outcome := MintSucceeded;
    }
  }
}
