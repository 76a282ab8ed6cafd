/** The records the token-minting workflow reads and writes: a row of the
    `token_allocations` table, the two flags of the `subscriptions` row it is
    joined with, and the joined row the minting screen works on. */
module Allocations {

  datatype Option<+T> = None | Some(value: T)

  /** A `token_allocations` row, restricted to the columns the minting workflow
      reads or writes. `tokenType` and `tokenAmount` are optional because the
      screen guards both against a missing value (`|| "Unassigned"`, `|| 0`). */
  datatype Allocation = Allocation(
    id: string,
    investorId: string,
    subscriptionId: string,
    projectId: Option<string>,
    tokenType: Option<string>,
    tokenAmount: Option<int>,
    distributed: bool,
    minted: bool,
    mintingDate: Option<string>,
    mintingTxHash: Option<string>,
    updatedAt: Option<string>)

  /** The `confirmed` and `allocated` columns of the joined `subscriptions` row
      (`allocated` is a Dafny keyword, hence `isAllocated`). */
  datatype SubscriptionFlags = SubscriptionFlags(confirmed: bool, isAllocated: bool)

  /** One row of the minting screen's query: the allocation with its subscription's flags. */
  datatype FetchedRow = FetchedRow(allocation: Allocation, subscription: SubscriptionFlags)
}
