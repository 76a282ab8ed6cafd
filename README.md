# Token minting workflow — a Dafny model

This project models the token-minting workflow of a cap-table web application.
It covers two React components:

- **`TokenMintingManager`** is the minting screen. It:
  - loads the project's `token_allocations` rows, inner-joined with their `subscriptions` and `investors` rows;
  - groups the rows by token type and reduces each group to totals, counts and a status (`minted`, `ready_to_mint`, `pending`);
  - lets the operator search the groups by name;
  - mints token types by marking every row of each requested group as minted. Each group gets one shared `0x…` reference. The writes run type after type and stop at the first database error; when every write succeeds, the dialog closes and the data is fetched again.
- **`TokenMintingPanel`** is a selection panel. It holds:
  - the selected token types, with tick / untick / select-all;
  - an operator confirmation flag and an in-flight flag;
  - the rules that decide when the select-all box is shown checked and when the mint button is disabled;
  - the confirmation progress percentage.

Layout:

| file | module | contents |
|---|---|---|
| `seqs.dfy` | `Seqs` | order-preserving `Filter` (`Array.prototype.filter`) and its laws; `NoDuplicates`; taking one element out of a reordering |
| `allocations.dfy` | `Allocations` | the `token_allocations` row, the subscription flags, the joined row |
| `aggregation.dfy` | `Aggregation` | grouping, per-group summary, status, the card's mint-button rule |
| `search.dfy` | `Search` | ASCII `toLowerCase`, `includes`, the search filter |
| `minting.dfy` | `Minting` | the mint as a function on the table (`MintUpTo`) with its lemmas; class `MintingManager` holding the tables and the screen state, with the query loop and the mint loop proved against those functions |
| `panel.dfy` | `MintingPanel` | class `TokenMintingPanel` and the pure helpers it renders from |
| `scenarios.dfy` | `Scenarios` | worked examples: a ready group, a minted group, an unconfirmed group |

How the external parts are represented:

- The database is held in the manager's fields, as maps keyed by id (`allocations`, `subscriptions`) and a set of investor ids.
- Anything the code cannot know in advance is a parameter of the operation:
  - the success of each database read and write;
  - the clock value (`now`);
  - the random part of each transaction reference.

The model follows the code, which has no eligibility gate and no rollback:

- A mint marks **every** row of the requested group, including unconfirmed rows and rows that are already minted (`Scenarios.UnconfirmedGroupStillMints`).
- The mint has no eligibility or already-minted check. In this model only the card button (`Aggregation.CardMintDisabled`) stands in front of it. The manager hands `handleMintTokens` to `TokenMintingDialog`, whose own checks are not part of this model.
- A failed write does not roll back the token types written before it (`Minting.MintingManager.HandleMintTokens`).
- The summaries used for a mint are the ones held on screen when the mint starts. They are not re-read.

## Model

All source paths are relative to the repository root.

| member | source | states |
|---|---|---|
| Aggregation.GroupKey | src/components/captable/TokenMintingManager.tsx:84 | a missing or empty token type goes to group "Unassigned", any other type to its own group; a key is never empty (a type naming an inherited object member makes the grouping fail, see `Aggregation.GroupRows`) |
| Aggregation.GroupBy | src/components/captable/TokenMintingManager.tsx:82-92 | the fold that appends each row to its group's list: every group it creates holds at least one row |
| Aggregation.GroupRows | src/components/captable/TokenMintingManager.tsx:82-92 | the same fold over an empty object literal: it fails exactly when some row's key names a member every object inherits (`constructor`, `toString`, `__proto__`, …), because that lookup is truthy and the following `push` throws; otherwise it yields exactly the groups of `GroupBy` |
| Aggregation.Amount | src/components/captable/TokenMintingManager.tsx:98 | the amount term of each `reduce`: a missing amount counts as 0; no contract of its own, its meaning is stated by `SummaryAmountBounds` |
| Aggregation.SumAmounts | src/components/captable/TokenMintingManager.tsx:97-125 | the four `reduce` sums of the amounts; no contract of its own, its meaning is stated by `SummaryAmountBounds` and `SumAmountsPerm` |
| Aggregation.IsConfirmed | src/components/captable/TokenMintingManager.tsx:102-104 | `subscriptions.confirmed && subscriptions.allocated`: a row is confirmed only when both flags are set; no contract of its own, its meaning is stated by `SummaryStatus` |
| Aggregation.IsMinted | src/components/captable/TokenMintingManager.tsx:111-113 | `minted === true`; no contract of its own, its meaning is stated by `SummaryStatus` |
| Aggregation.IsDistributed | src/components/captable/TokenMintingManager.tsx:119-121 | the `distributed` flag; no contract of its own, its meaning is stated by `SummaryAmountBounds` |
| Aggregation.GroupByIsOfType | src/components/captable/TokenMintingManager.tsx:82-92 | the reduce that builds the groups has a key exactly for the types that occur, and each group holds exactly that type's rows in input order (reference definition `OfType`) |
| Aggregation.OfType | src/components/captable/TokenMintingManager.tsx:82-92 | a row is in group `k` exactly when it is in the input and its key is `k` |
| Aggregation.GroupHoldsEveryCopy | src/components/captable/TokenMintingManager.tsx:82-92 | grouping loses and duplicates nothing: each row sits in its own group as many times as in the input, and in no other group |
| Aggregation.Summarize | src/components/captable/TokenMintingManager.tsx:127-147 | a summary carries its type and its rows; the total count is the number of rows, and the confirmed, minted and distributed counts never exceed it |
| Aggregation.SummaryStatus | src/components/captable/TokenMintingManager.tsx:137-145 | `isMinted` iff some row is minted; `readyToMint` iff some row is confirmed and none is minted; status `minted` / `ready_to_mint` / `pending` exactly in those cases; never both ready and minted |
| Aggregation.SummaryAmountBounds | src/components/captable/TokenMintingManager.tsx:97-125 | with non-negative amounts, the confirmed, minted and distributed amounts lie between 0 and the total amount |
| Aggregation.Summaries | src/components/captable/TokenMintingManager.tsx:82-149 | grouping followed by one summary per group (`SummarizeGroups`); it has no contract of its own, its meaning is stated by `SummariesOfGroups` |
| Aggregation.SummariesOfGroups | src/components/captable/TokenMintingManager.tsx:82-149 | every row's type has a summary; every summary is the summary of the non-empty group of rows with its key, so there is one summary per type that occurs and no other; no rows gives no summaries |
| Aggregation.SummaryExactlyForOccurringKeys | src/components/captable/TokenMintingManager.tsx:82-149 | a token type has a summary exactly when some fetched row has that key |
| Aggregation.OfTypeAgrees | src/components/captable/TokenMintingManager.tsx:82-92 | two row lists that agree position by position on every key, and on every row of group `k`, have the same group `k` |
| Aggregation.TotalCountsPartitionRows | src/components/captable/TokenMintingManager.tsx:82-136 | however the summaries are listed, their `totalCount`s add up to the number of fetched rows |
| Aggregation.SumAmountsPerm | src/components/captable/TokenMintingManager.tsx:97-125 | a sum of amounts is the same whatever order the rows are in |
| Aggregation.SummarizePerm | src/components/captable/TokenMintingManager.tsx:96-147 | the same rows in any order give the same summary, apart from the order of the rows it lists |
| Aggregation.SummariesIgnoreRowOrder | src/components/captable/TokenMintingManager.tsx:82-149 | the same fetched rows in any order give cards for the same token types, each with the same totals, counts and status |
| Aggregation.CardMintDisabled | src/components/captable/TokenMintingManager.tsx:334 | the card button's `disabled` expression; no contract of its own, its meaning is stated by `CardMintEnabledExactlyWhenReady` |
| Aggregation.CardMintEnabledExactlyWhenReady | src/components/captable/TokenMintingManager.tsx:334 | the card's mint button is enabled exactly when the group's status is `ready_to_mint`, i.e. some row is confirmed and none is minted |
| Search.LowerChar | src/components/captable/TokenMintingManager.tsx:166 | ASCII capitals map to their lower-case letter; every other character is kept |
| Search.ToLower | src/components/captable/TokenMintingManager.tsx:166 | lower-casing keeps the length and lower-cases each character |
| Search.ToLowerIdempotent | src/components/captable/TokenMintingManager.tsx:166 | lower-casing twice is the same as once |
| Search.Contains | src/components/captable/TokenMintingManager.tsx:166 | `includes`: an empty needle is found in any string, a needle longer than the string never (the full meaning is `ContainsIffOccurs`) |
| Search.ContainsIffOccurs | src/components/captable/TokenMintingManager.tsx:166 | the recursive `includes` is true exactly when the needle occurs at some index of the haystack |
| Search.SearchFilter | src/components/captable/TokenMintingManager.tsx:165-167 | the shown summaries are a sub-map of the held ones, each unchanged |
| Search.SearchKeepsExactlyMatches | src/components/captable/TokenMintingManager.tsx:165-167 | a summary is shown exactly when the lower-cased query occurs in its lower-cased token type |
| Search.EmptyQueryShowsAll | src/components/captable/TokenMintingManager.tsx:165-167 | the empty query shows every summary |
| Search.SearchIgnoresQueryCase | src/components/captable/TokenMintingManager.tsx:166 | lower-casing the query first changes nothing |
| Search.SearchFindsOwnName | src/components/captable/TokenMintingManager.tsx:165-167 | searching for a group's own name always shows that group |
| Minting.TxHash | src/components/captable/TokenMintingManager.tsx:193 | the reference is `0x` followed by the random suffix |
| Minting.MarkMinted | src/components/captable/TokenMintingManager.tsx:190-195 | the update sets `minted`, the minting date, the reference and `updated_at`, and keeps every other column |
| Minting.Ids | src/components/captable/TokenMintingManager.tsx:184 | one id per row of the group |
| Minting.IdsAt | src/components/captable/TokenMintingManager.tsx:184 | the `i`-th id is the id of the `i`-th row, so the ids follow the rows' order |
| Minting.IdsListRowIds | src/components/captable/TokenMintingManager.tsx:184 | an id is listed exactly when some row carries it |
| Minting.GroupIds | src/components/captable/TokenMintingManager.tsx:179-184 | the ids a mint of a type looks up: none when no summary has that type, otherwise one per row of its summary |
| Minting.UpdateWhereIdIn | src/components/captable/TokenMintingManager.tsx:188-196 | the bulk update keeps the table's set of ids |
| Minting.UpdateKeepsRowsUnderOwnId | src/components/captable/TokenMintingManager.tsx:188-196 | the bulk update keeps every row stored under its own id |
| Minting.MintType | src/components/captable/TokenMintingManager.tsx:179-196 | one iteration of the loop: the table keeps its ids, and a type without a summary writes nothing (its effect on each row is stated by `MintUpToRow`) |
| Minting.MintUpTo | src/components/captable/TokenMintingManager.tsx:177-199 | the table after the first `n` iterations keeps its ids (its effect on each row is stated by `MintUpToRow`) |
| Minting.LastRequest | src/components/captable/TokenMintingManager.tsx:177-199 | the last of the requested types whose group lists the id, if any |
| Minting.NoLaterRequest | src/components/captable/TokenMintingManager.tsx:177-199 | no requested type after that last one lists the id |
| Minting.MintUpToRow | src/components/captable/TokenMintingManager.tsx:177-199 | after the first `n` writes, a row that no requested group lists is unchanged; any other row is marked minted with the reference of the last write that listed it |
| Minting.MintIsMonotonic | src/components/captable/TokenMintingManager.tsx:190-195 | minting never clears `minted` and never changes a row's identity, investor, subscription, project, type, amount or distribution flag |
| Minting.MintTouchesExactlyRequestedGroups | src/components/captable/TokenMintingManager.tsx:177-199 | every row of a requested group is marked minted, dated `now` and given a `0x` reference, whatever its confirmation state; all other rows are unchanged |
| Minting.GroupIdsOfSummaries | src/components/captable/TokenMintingManager.tsx:179-184 | the ids a mint looks up for a type are the ids of that type's fetched rows, or none when there is no such summary |
| Minting.IdInOneGroup | src/components/captable/TokenMintingManager.tsx:179-184 | with distinct row ids, an id belongs to the group of at most one token type |
| Minting.OneReferencePerType | src/components/captable/TokenMintingManager.tsx:186-196 | when a type is requested once, every row of its group carries that type's reference |
| Minting.MintFollowsRowTypes | src/components/captable/TokenMintingManager.tsx:177-199 | a fetched row is marked minted exactly when its type was requested; otherwise it is unchanged |
| Minting.Reread | src/components/captable/TokenMintingManager.tsx:208 | the re-fetch after the writes: each fetched row's allocation read back from the table under its id, with the same subscription; no contract of its own, its meaning is stated by `RereadAfterMint` |
| Minting.RereadAfterMint | src/components/captable/TokenMintingManager.tsx:177-208 | a row read back from the table after the writes keeps its token type; it is minted when its type was requested, and is the very same row when it was not |
| Minting.MintThenRegroup | src/components/captable/TokenMintingManager.tsx:177-208 | after the writes, re-fetching the same rows and grouping them again gives every requested type that had a card a card whose status is `minted` |
| Minting.MintKeepsTokenTypes | src/components/captable/TokenMintingManager.tsx:177-208 | after the writes, the re-grouped rows have a card for exactly the types that had one before |
| Minting.MintKeepsOtherSummaries | src/components/captable/TokenMintingManager.tsx:177-208 | after the writes, a type that was not requested shows exactly the summary it showed before |
| Minting.WriteFails | src/components/captable/TokenMintingManager.tsx:186-198 | a write can fail only for a type that has a summary (a non-empty group) and whose update reports an error |
| Minting.FirstFailure | src/components/captable/TokenMintingManager.tsx:186-199 | the index where the loop stops: it lies within the request, and the write there (a non-empty group whose update errs) fails |
| Minting.WritesBeforeFirstFailureSucceed | src/components/captable/TokenMintingManager.tsx:186-199 | every write before the first failure succeeds |
| Minting.FirstFailureIs | src/components/captable/TokenMintingManager.tsx:186-199 | conversely, an index whose predecessors all succeed and which fails (or is the end) is the first failure |
| Minting.AppendFreshRow | src/components/captable/TokenMintingManager.tsx:54-75 | adding a row with a new id keeps the result's ids distinct and adds exactly that id |
| Minting.MintingManager.constructor | src/components/captable/TokenMintingManager.tsx:26-32 | no summaries, empty search, dialog closed, no selected type |
| Minting.MintingManager.QueryAllocations | src/components/captable/TokenMintingManager.tsx:54-75 | the answer holds each stored row of the project whose subscription and investor exist exactly once, with its subscription's flags, and nothing else |
| Minting.MintingManager.IsQueryResult | src/components/captable/TokenMintingManager.tsx:54-75 | the inner-join condition the query answer is proved against: distinct ids, every row joined to an existing subscription and investor, every selected stored row present; no contract of its own |
| Minting.MintingManager.FetchTokenAllocations | src/components/captable/TokenMintingManager.tsx:48-162 | on success the answer is a query answer, and the held summaries are its summaries, unless some row's type names an inherited object member: then the grouping throws and the summaries stay as they were; a failed query also leaves them as they were |
| Minting.MintingManager.SetSearchQuery | src/components/captable/TokenMintingManager.tsx:243 | the search box sets the query |
| Minting.MintingManager.FilteredTokenSummaries | src/components/captable/TokenMintingManager.tsx:165-167 | the shown summaries are held summaries, unchanged, and an empty query shows all of them (exact filter: `SearchKeepsExactlyMatches`) |
| Minting.MintingManager.ClickCardMint | src/components/captable/TokenMintingManager.tsx:332-338 | a click on an enabled card button selects that type and opens the dialog; a disabled button changes nothing; the card's type is a group key, never empty, so the selection is always truthy (line 356) |
| Minting.MintingManager.DialogSummaries | src/components/captable/TokenMintingManager.tsx:355-369 | the dialog gets the shown summaries, limited to the selected type when there is one |
| Minting.MintingManager.WriteType | src/components/captable/TokenMintingManager.tsx:179-199 | one loop iteration: a non-empty group whose update errs fails and writes nothing; otherwise the group is marked minted |
| Minting.MintingManager.MintInOrder | src/components/captable/TokenMintingManager.tsx:177-200 | the loop stops at the first failing write, and the table is exactly the writes before it applied in order |
| Minting.MintingManager.HandleMintTokens | src/components/captable/TokenMintingManager.tsx:170-217 | on a failing write: the earlier writes are kept, and summaries and dialog are left as they were (the model's outcome names the type; the source only shows a generic toast). On success: every requested group is written, the dialog closes, and a successful re-fetch holds the summaries of a fresh query answer, or the old ones when that answer's grouping throws |
| MintingPanel.MintableTokenTypes | src/components/captable/TokenMintingPanel.tsx:91-93 | the mintable summaries are the ready ones, every copy kept, none added |
| MintingPanel.MintableDistributes | src/components/captable/TokenMintingPanel.tsx:91-93 | the mintable list keeps the input order |
| MintingPanel.TypesOf | src/components/captable/TokenMintingPanel.tsx:65-67 | the token types of the summaries, position by position |
| MintingPanel.SelectAllTypes | src/components/captable/TokenMintingPanel.tsx:62-68 | select-all picks one type per ready summary, and exactly the types of ready summaries |
| MintingPanel.RemoveAll | src/components/captable/TokenMintingPanel.tsx:55-57 | unticking removes every copy of the type and keeps every copy of the others |
| MintingPanel.RemoveAllDistributes | src/components/captable/TokenMintingPanel.tsx:55-57 | removal keeps the order of what remains |
| MintingPanel.RemoveAllAbsent | src/components/captable/TokenMintingPanel.tsx:55-57 | unticking a type that is not selected changes nothing |
| MintingPanel.RoundHalfUp | src/components/captable/TokenMintingPanel.tsx:98 | `Math.round` of `n / d`: the nearest integer, halves rounded up |
| MintingPanel.CalculateProgress | src/components/captable/TokenMintingPanel.tsx:96-99 | 0 for a zero total; never above 100; never negative for a non-negative share; exactly 100 from 99.5 % on; below that, the percentage rounded to the nearest whole number |
| MintingPanel.MintGuardPasses | src/components/captable/TokenMintingPanel.tsx:76 | the handler's guard; no contract of its own, related to the button by `EnabledButtonPassesGuard` |
| MintingPanel.MintButtonDisabled | src/components/captable/TokenMintingPanel.tsx:245-250 | the mint button's `disabled` expression; no contract of its own, related to the guard by `EnabledButtonPassesGuard` |
| MintingPanel.EnabledButtonPassesGuard | src/components/captable/TokenMintingPanel.tsx:245-250 | the button is enabled exactly when the handler's guard (line 76) passes and neither `isMinting` nor `isLoading` is set: an enabled button always gets past the guard, while the guard ignores both flags and so can pass while the button is disabled |
| MintingPanel.RemoveAllKeepsNoDuplicates | src/components/captable/TokenMintingPanel.tsx:55-57 | unticking keeps a repeat-free selection repeat-free |
| MintingPanel.SelectionStaysValid | src/components/captable/TokenMintingPanel.tsx:51-72 | ticking an unticked ready type, unticking, and select-all (with distinct ready types) keep the selection repeat-free and made of ready types only, as long as the props do not change (`StaleSelectionLooksComplete`) |
| MintingPanel.SelectAllChecked | src/components/captable/TokenMintingPanel.tsx:133-136 | the select-all box's `checked` expression; no contract of its own, its meaning is stated by `SelectAllCheckedMeansAllSelected` |
| MintingPanel.SameLengthIffAllChosen | src/components/captable/TokenMintingPanel.tsx:133-136 | a repeat-free list drawn from a repeat-free list is as long as it exactly when it holds all of it |
| MintingPanel.SelectAllCheckedMeansAllSelected | src/components/captable/TokenMintingPanel.tsx:133-136 | for such a selection, the count-based select-all box is checked exactly when every ready type is selected and there is one |
| MintingPanel.StaleSelectionLooksComplete | src/components/captable/TokenMintingPanel.tsx:133-136 | new props keep the selection: a type selected while ready stays selected once it is not, the selection is then no longer one the checkboxes can produce, and the select-all box shows checked although the type now ready is not selected |
| MintingPanel.TokenMintingPanel.constructor | src/components/captable/TokenMintingPanel.tsx:31-38 | nothing selected, not minting, not confirmed |
| MintingPanel.TokenMintingPanel.ReceiveProps | src/components/captable/TokenMintingPanel.tsx:31-38 | new `tokenSummaries` and `isLoading` props replace the old ones; the selection, the confirmation and the in-flight flag are kept |
| MintingPanel.TokenMintingPanel.HandleTokenTypeSelection | src/components/captable/TokenMintingPanel.tsx:51-59 | ticking appends the type; unticking removes every copy of it |
| MintingPanel.TokenMintingPanel.HandleSelectAll | src/components/captable/TokenMintingPanel.tsx:62-72 | select-all selects exactly the ready types, and the box then shows checked iff one exists; unselect-all empties the selection and the box shows unchecked |
| MintingPanel.TokenMintingPanel.SetConfirmationChecked | src/components/captable/TokenMintingPanel.tsx:223-226 | the confirmation box sets the flag |
| MintingPanel.TokenMintingPanel.BeginMint | src/components/captable/TokenMintingPanel.tsx:76-80 | without confirmation or selection nothing happens; otherwise the mint is in flight and the current selection is requested; a click on an enabled button (`MintButtonIsDisabled`, lines 245-250) always starts a mint and leaves the button disabled |
| MintingPanel.TokenMintingPanel.FinishMint | src/components/captable/TokenMintingPanel.tsx:81-87 | success clears selection and confirmation, failure keeps both, and the mint is no longer in flight |
| MintingPanel.TokenMintingPanel.HandleMintTokens | src/components/captable/TokenMintingPanel.tsx:75-88 | the whole handler: a failed guard changes nothing; otherwise the selection is requested, and the state afterwards depends on the callback's outcome as above |
| Scenarios.TwoConfirmedRowsAreReady | src/components/captable/TokenMintingManager.tsx:95-149 | two confirmed, unminted rows of one type form one group whose total and confirmed amounts are their sum, with nothing minted, ready to mint |
| Scenarios.MintedRowsAreMinted | src/components/captable/TokenMintingManager.tsx:137-145 | once both rows are minted, the group reports their sum as minted, status `minted`, and is not ready |
| Scenarios.UnconfirmedGroupIsPending | src/components/captable/TokenMintingManager.tsx:137-145 | a group whose only row is unconfirmed and unminted is pending, and its card button is disabled |
| Scenarios.UnconfirmedGroupStillMints | src/components/captable/TokenMintingManager.tsx:177-199 | a mint request naming that group's type still marks its row minted with the type's reference |

## Left out

- Database access, `async`/`await`, and the Supabase client are not modelled.
  - Reads and writes act on the manager's in-memory tables.
  - Their success is a parameter: `queryOk`, `writeOk`, `refetchOk`, `callbackSucceeds`.
  - Table rows carry only the columns the workflow reads or writes. Investor display fields and the distribution date and reference are not modelled.
- `new Date().toISOString()` and `Math.random().toString(36)` are not computed. The timestamp and the reference suffixes are parameters.
- Toasts, `console` logging, the `isLoading` spinner of the manager, `formatNumber`/`formatCurrency` (`Intl.NumberFormat`) and all JSX rendering are not modelled.
- MintingPanel.CalculateProgress: rounds the exact fraction half up. The source computes `(confirmed / total) * 100` in IEEE doubles, where an exact-half percentage can come out just below the half and show one less: for 23 of 40 the source computes 57.49999999999999 and shows 57, while the model gives 58 (likewise 29 of 200: 14 against 15).
- Amounts are unbounded integers, not IEEE doubles. `calculateProgress` is computed exactly on integers; floating-point rounding of `confirmed / total * 100` is not modelled.
- Search.LowerChar: folds the ASCII capitals `A`–`Z` only. JavaScript's `toLowerCase` also folds non-ASCII capitals (`É` becomes `é`), which this model keeps unchanged, so a search can miss a type that differs from the query only in a non-ASCII letter's case.
- Search.ToLower: lower-cases ASCII letters only, through `LowerChar`. JavaScript's `toLowerCase` also folds non-ASCII letters.
- The summaries are a map keyed by token type. The order `Object.entries` lists them in is not modelled. Lookups by `find` are lookups by key, which is equivalent because keys are unique.
- The manager's mount effect (fetch only when a project id is present) is not modelled. `FetchTokenAllocations` is called directly.
- `TokenMintingDialog` is not part of this model. Only the summaries handed to it and its completion callback (`HandleMintTokens`) are.
- The re-fetch after a successful mint is not awaited in the source. The model runs it to completion before the method returns.
- Minting.MintingManager.FetchTokenAllocations: states that the summaries are those of *some* query answer. The order of the rows inside each group (which follows the database's return order) is left unspecified; `Aggregation.SummariesIgnoreRowOrder` shows that this order changes nothing on a card but the order of its row list.
- Minting.MintingManager.HandleMintTokens: the returned `MintOutcome` is the model's own observation. The source catches the error, shows a generic toast and resolves normally, so its caller cannot tell a failed mint from a successful one.
- Minting.MintingManager.HandleMintTokens: the tokens are written in the database only. No blockchain transaction is issued, and none is modelled.
- Minting.MintThenRegroup: the re-fetch is taken to return the rows fetched before the mint, each read back under its id. Rows that other writers add, delete or retype in between are not covered, and neither is a re-fetch that fails.
