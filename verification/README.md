# Ledger, stock and routing: a verified model

This project models the PL/pgSQL ledger and stock engine of an accounting and point-of-sale system, its check of GST numbers, and
the two small protocols on its Rust side, and proves what they keep over every run.

Tables are fields of a class, each a `map` from primary key to row. Triggers are methods that the row operations call; the
procedures are methods on top of those. An exception raised in a procedure, or a foreign key that refuses, is an answer `false`
that leaves every table as it was. Beside the classes stand modules of values: the predicates every committed state satisfies,
the functions the methods are proved against, and the lemmas.

| files | what they hold |
|---|---|
| `Options`, `Sums`, `Money` | nullable columns; SQL sums over a table, grouping and the sum of groups; rounding to paise |
| `StockModel`, `StockGuards`, `StockEngine` | movements feeding batches feeding stock; exactly which lists of lines are accepted; the triggers and the seven kinds of document, openings and merges |
| `StockTheorems`, `StockMerge` | what the stock invariant and the contracts amount to; merging inventories |
| `LedgerModel`, `Ledger`, `LedgerTheorems` | ledger rows and the daily summary kept beside them; vouchers and openings; drift, deletion, reports |
| `Documents` | a stock document and its voucher as one transaction |
| `AllocationModel`, `Allocations` | bill allocations in groups, promotion on delete, the pending report |
| `Approvals`, `Numbering` | the five approval levels; voucher numbers |
| `PosModel`, `Pos` | counter sessions, settlements, petty cash |
| `Exchanges`, `GiftCoupons` | claims against exchanges and advances; gift coupons |
| `Gst` | the Luhn mod 36 check character, of Annex B of ISO/IEC 7812-1 with N = 36 |
| `Routing`, `ChangeStream` | one-shot routing of answers across reconnects; grouping a replication stream into transactions |

## Main results

- In every state reachable through documents, openings, flag changes and merges, batch totals are the sums over their movements,
  each stock figure is the sum of its batches' closings and so the plain sum of movements, and no batch is negative where that is
  not allowed (`StockModel.Consistent`, kept by every procedure; `StockTheorems.StockIsSumOfMovements`).
- A successful merge adds the source's stock to the destination at every branch and leaves nothing of the source, although the
  first update recomputes only the source's figures (`StockEngine.StockDb.Merge`, `StockMerge.MergedStock`).
- What a stored line moves is its quantity in the batch's unit, in packs or loose, in the column its kind writes, on creation and
  on update (`StockTheorems.LineMoves`, `StockTheorems.UpdatedLineMoves`).
- Updating a document comes to erasing it and creating the target list, in every stock figure and every batch, even where its
  lines could not have been deleted (`StockTheorems.UpdateIsRecreate`, `StockTheorems.UpdateMatchesRecreated`); deleting one takes
  exactly its own share out of stock, batches and ledger and undoes its creation (`Documents.DeleteTakesOwnShare`,
  `Documents.CreateThenDelete`).
- Deleting lines that draw on batches depends on the order, which SQL leaves open: it succeeds exactly if the order taken passes;
  every order does, or some does, under exact conditions on the batches (`StockGuards.AllOrdersPassIff`,
  `StockGuards.SomeOrderPassesIff`; for a document just created `StockGuards.CreatedCanGo`).
- The daily summary is off on each day by exactly the running sum of amounts lost in date moves, and the reports read from it
  agree with the rows (`LedgerModel.UpdateTracked`, `LedgerTheorems.UpdateKeepsExactIff`, `LedgerTheorems.ClosingFromBook`).
- Allocation groups keep one NEW row and no orphans through deletes and promotions, and through inserts, updates and openings
  exactly where their lists say so (`AllocationModel.UpdateKeepsIff`, `AllocationModel.OpeningKeepsIff`), so the pending report
  adds up (`AllocationModel.PendingReportAddsUp`).
- Closed sessions of a counter and its open till net to what customers paid: petty cash telescopes (`PosModel.Telescopes`).
- Requests move one way only, answers reach their own caller once (`Routing.NeverBack`, `Routing.Router.HandleResponse`).

## Where the code does not do what it seems to promise

The model follows the code; each of these is a lemma or a clause of a contract.

- A debit note's create books a negative inward quantity and its update a positive outward one, so a kept line counts twice after
  an update (`StockTheorems.UpdateIsRecreate`, `StockTheorems.DebitNoteSavedTwice`).
- A row of the ledger moved to another day takes its new amounts off the old day (`LedgerTheorems.MovedAndChanged`).
- No procedure ever writes `deduction_voucher_id`, so the guards that read it never fire (`StockModel.Unrecorded`, part of
  the engine's `Valid`).
- A merge never rewrites `batch.reorder_inventory_id`, which names the inventory itself unless it has another for reordering: such
  an inventory cannot be merged away once it has a batch, because its own deletion at the end is refused
  (`StockMerge.StillNamed` in the condition of `StockEngine.StockDb.Merge`, `StockMerge.UnnamedIff`).
- The search for a clashing NEW row compares ids with the line's own id, which finds nothing when the line has none
  (`AllocationModel.UpsertKeepsOneNewIff`; for whole lists `AllocationModel.UpdateKeepsIff`).
- An adjustment that adds to an empty batch and takes from it again is accepted but cannot be deleted in every order
  (`StockGuards.MixedMayStay`; exactly when, `StockGuards.CreatedCanGo`).
- An opening's ON_ACC line is stored with the pending id carried over from the NEW line before it; retyped later, it opens that
  group again (`AllocationModel.CarriedPendingDoubles`; exactly when, `AllocationModel.OpeningKeepsIff`).
- An ADJ allocation promoted after the last approval stays unmarked (`Approvals.PromotedUnmarked`; exactly when,
  `Approvals.DropKeepsMarksIff` and `Approvals.SaveKeepsMarksIff`).
- Year codes lose their leading zero, and then two voucher numbers can read the same (`Numbering.ShortYearsClash`; exactly when,
  `Numbering.YearsClashIff`).
- Negative denomination counts reduce `issued` but not the coupons (`GiftCoupons.MadeIffCounted`).
- Deleting a voucher that claimed from an exchange removes its adjustments but leaves the exchange adjusted
  (`Exchanges.DeleteKept`; exactly when it then still agrees, `Exchanges.DeleteStaysExactIff`).
- Editing or deleting a petty cash voucher breaks the telescoping by exactly the change (`PosModel.Telescopes`).
- After a reconnect the token is gone: a second reconnect in a row is made without one (`Routing.Router.Reconnect`).

## Model

| member | source | states |
|---|---|---|
| `StockEngine.StockDb.InsertTxn` | scripts/052_inv_txn.sql:65-72 | a new movement adds its sides to its batch and keeps both levels of totals exact; it is refused exactly when its id is taken, its batch is missing, or the batch would close below zero where that is not allowed |
| `StockEngine.StockDb.UpdateTxn` | scripts/052_inv_txn.sql:80-90 | changing the sides of a movement moves its batch by the difference and keeps both levels exact; refused exactly when the batch would close below zero where that is not allowed |
| `StockEngine.StockDb.DeleteTxn` | scripts/052_inv_txn.sql:98-106 | a deleted movement takes the batch it owns along, or its sides out of the batch it drew on; refused exactly when its own batch is still named, or the guard on batches fails |
| `StockEngine.StockDb.AfterBatchUpdate` | scripts/045_batch.sql:254-265 | the guard on negative closings and the recomputed stock figure of the place and inventory the batch had before the update |
| `StockEngine.StockDb.DeleteBatch` | scripts/045_batch.sql:245-268 | deleting a batch recomputes the stock figure it counted in |
| `StockModel.PutIsSound` | scripts/052_inv_txn.sql:65-90 | writing one movement with the effect of its trigger keeps every batch total and every stock figure exact, because a movement never changes its batch |
| `StockModel.RemoveIsSound` | scripts/052_inv_txn.sql:98-106 | so does removing a movement that owns no batch |
| `StockModel.RemoveOwnerIsSound` | scripts/052_inv_txn.sql:98-106 | and removing a movement with its own batch, when nothing else names that batch |
| `StockModel.RefreshKeepsStock` | scripts/045_batch.sql:245-268 | recomputing the one stock row of the old inventory and branch is enough to keep the second level exact |
| `StockEngine.StockDb.InsertMovement` | scripts/062_purchase_bill.sql:156-230 | the inserts of one line into batch and inv_txn: accepted exactly when the guard allows the change; a new batch carries the line's id, place and reorder inventory |
| `StockEngine.StockDb.CreateLine` | scripts/066_sale_bill.sql:186-235 | one turn of a create loop, with exactly when it raises: unknown inventory, taken id, purchase quantity not above zero, unknown source batch, batch of another inventory, branch or warehouse, or a negative closing |
| `StockEngine.StockDb.UpsertMovement` | scripts/062_purchase_bill.sql:370-455 | the upserts of an update: an existing batch and movement keep their identity, a new line books the update side |
| `StockEngine.StockDb.UpdateLine` | scripts/066_sale_bill.sql:308-420 | one turn of an update loop, with exactly when it raises; what the upsert hits keeps its owner, inventory and batch |
| `StockEngine.StockDb.RemoveLines` | scripts/000_common.sql:18-26 | deleting lines takes exactly their movements and own batches along; lines that own batches go exactly when none of those is named from elsewhere, the others, in whatever order, exactly when that order passes the guard on their batches |
| `StockEngine.StockDb.RemoveMovement` | scripts/045_batch.sql:254-265 | one deleted line: its movement, and the batch it owns, leave; for a line that draws on a batch exactly when that batch is covered without it and those gone before |
| `StockGuards.TakingAlwaysGoes` | scripts/045_batch.sql:254-265 | movements that only take from batches, such as those of sales and deductions, can always be removed |
| `StockGuards.CoveredWeathers` | scripts/045_batch.sql:254-265 | where no batch is both added to and taken from, ending covered means that every order of removal passes the guard |
| `StockGuards.AllOrdersPassIff` | scripts/045_batch.sql:254-265 | every order of removal passes if and only if each batch can do without all that is added to it |
| `StockGuards.SomeOrderPassesIff` | scripts/045_batch.sql:254-265 | some order passes if and only if each batch ends covered |
| `StockGuards.RemovalMeans` | scripts/045_batch.sql:254-265 | so a removal goes if every order passes, only if some does, and exactly if each batch ends covered when none is both added to and taken from |
| `StockGuards.CreatedCanGo` | scripts/052_inv_txn.sql:98-106 | a document just created: no batch it brought is named from elsewhere; for kinds that draw on batches each batch ends covered without it (so some order passes), and can do without all it adds (so every order passes) if and only if it was covered, before, for all that the document takes |
| `StockGuards.MixedMayStay` | scripts/045_batch.sql:254-265 | an adjustment that adds to an empty batch and takes from it again was accepted, and some order of deleting it is refused |
| `StockEngine.StockDb.CreateLines` | scripts/068_credit_note.sql:136-180 | the create loop stores exactly the list; it succeeds exactly when ids are new and distinct and each line is accepted given the lines before it |
| `StockEngine.StockDb.UpdateLines` | scripts/066_sale_bill.sql:298-420 | the keyed diff and the upserts leave exactly the target list; the deletion of missed lines succeeds exactly if the order taken passes, and after it the list is written exactly when each line is accepted given the lines before it |
| `StockEngine.StockDb.CreateDoc` | scripts/084_stock_deduction.sql:69-149 | creating a document of any of the seven kinds: all or nothing, exactly when it succeeds, the header as sent, the deduction it names approved, and the lines and movements that `StockTheorems.LineMoves` and `LineStored` spell out |
| `StockEngine.StockDb.TryCreateDoc` | scripts/086_stock_addition.sql:61-171 | the body before rollback, with the place check, the approval of a deduction and the empty list |
| `StockEngine.StockDb.UpdateDoc` | scripts/084_stock_deduction.sql:154-283 | updating a document: all or nothing, its lines exactly the target list, and exactly when it succeeds given what the deletion of missed lines leaves, which succeeds as said for deleting lines; what each line then moves is `StockTheorems.UpdatedLineMoves` |
| `StockEngine.StockDb.TryUpdateDoc` | scripts/082_stock_adjustment.sql:133-262 | the body before rollback, with the place check and the same condition |
| `StockEngine.StockDb.DeleteDoc` | scripts/062_purchase_bill.sql:508-520 | deleting a document removes exactly its lines, movements and own batches, and succeeds as said for deleting lines, for all kinds |
| `StockEngine.StockDb.SetOpening` | scripts/054_inventory_opening.sql:40-165 | opening stock of one inventory at a branch and warehouse: exactly the listed lines, all or nothing |
| `StockEngine.StockDb.AddInventory` | scripts/040_inventory.sql:11-12 | an inventory can be added exactly when those it names exist, and keeps the invariant |
| `StockEngine.StockDb.SetAllowNegative` | scripts/040_inventory.sql:71-74 | turning negative stock off succeeds exactly when no batch of the inventory is negative, so no batch is ever negative where it may not be |
| `StockEngine.StockDb.MoveBatches` | scripts/225_merge_inventory.sql:31-39 | moving the batches writes every row before the triggers run, which then recompute only the source's figures |
| `StockEngine.StockDb.MoveMovements` | scripts/225_merge_inventory.sql:40-48 | moving the movements fires the cascade once more and makes the destination's figures exact wherever a movement was moved |
| `StockEngine.StockDb.Merge` | scripts/225_merge_inventory.sql:1-92 | merge of two inventories: the exact condition for success, every row of the source the destination's, column by column, batch totals untouched, destination stock the sum of both, nothing left at the source |
| `StockEngine.StockDb.MergeAll` | scripts/225_merge_inventory.sql:94-106 | merge of a list, all or nothing: it stops exactly at the first merge that is refused; afterwards everything of all sources is the destination's, whose stock at every branch is the sum of all |
| `StockMerge.MergedStock` | scripts/225_merge_inventory.sql:31-48 | after both moves each destination figure is the old destination plus the old source figure, batches without movements closing at zero |
| `StockMerge.RenamedAll` | scripts/225_merge_inventory.sql:31-62 | the renaming, column by column, of batches, movements and lines |
| `StockMerge.UnnamedIff` | scripts/225_merge_inventory.sql:87-92 | the source can be deleted exactly when no other inventory, no batch (its own included), no other inventory's movement and no stock row names it for reordering or bulk |
| `StockMerge.MergedIsConsistent` | scripts/225_merge_inventory.sql:26-48 | the merged state satisfies the whole invariant, non-negative closings included, because both flags were equal |
| `StockGuards.WritableIff` | scripts/045_batch.sql:101-110 | part way through a list the checks on a line say exactly what is said from the state before the list |
| `StockTheorems.ClosingIsNet` | scripts/045_batch.sql:245-268 | a batch closes at the sum of the net movements on it |
| `StockTheorems.StockIsSumOfMovements` | scripts/052_inv_txn.sql:65-112 | both cache levels collapse: a stock figure is the plain sum over the movements of that inventory at that branch |
| `StockTheorems.BookedNet` | scripts/082_stock_adjustment.sql:84-128 | whichever side a kind books, a created line moves its net quantity |
| `StockTheorems.LineMoves` | scripts/066_sale_bill.sql:194-226 | what a created line's movement holds, kind by kind, in both columns: quantity, with free quantity for purchases, times the unit, times the inventory's loose quantity unless the line is loose |
| `StockTheorems.PacksAreLoose` | scripts/062_purchase_bill.sql:160-214 | a line of packs moves what a loose line of their content moves |
| `StockTheorems.UpdatedLineMoves` | scripts/062_purchase_bill.sql:370-455 | the same of an updated line; one that keeps id, inventory and batch has its other column left as it was, but for adjustments |
| `StockTheorems.LineStored` | scripts/062_purchase_bill.sql:166-184 | a stored line has the columns that were sent, a batch only where it draws on one, a source only for additions |
| `StockTheorems.UpdatedNet` | scripts/064_debit_note.sql:251-279 | a kept line moves its new net quantity, and for debit notes the stored inward side besides |
| `StockTheorems.UpdateVersusRecreate` | scripts/064_debit_note.sql:131-279 | over any selection of movements by place, updating and re-creating differ exactly by the inward sides kept by debit notes |
| `StockTheorems.UpdateIsRecreate` | scripts/066_sale_bill.sql:298-385 | whether or not the lines could have been deleted first: updating to a list leaves the same lines as erasing and creating it, every stock figure and every batch drawn on at the sum of the re-created movements, the batch of each line at its new movement and what others draw on it, and the batches of others at what is left on them; for debit notes exactly where the kept inward sides cancel |
| `StockTheorems.RecreationExists` | scripts/066_sale_bill.sql:298-385 | there always is such a removal and re-creation to compare with |
| `StockTheorems.UpdateMatchesRecreated` | scripts/066_sale_bill.sql:298-385 | where the re-creation is a state of the database it has the same stock and closings; and where the lines could go first, also on the batches lines bring, matched by their line, and on those of others |
| `StockTheorems.DebitNoteSavedTwice` | scripts/064_debit_note.sql:143-279 | a debit note saved again unchanged moves each line twice |
| `StockTheorems.DeleteRemovesOwnShare` | scripts/068_credit_note.sql:352-364 | deleting a document takes exactly its own lines' movements out of every stock figure and batch |
| `StockTheorems.CreateThenDelete` | scripts/068_credit_note.sql:76-180 | create then delete restores lines, movements, batches and stock |
| `StockTheorems.DrawnLineStays` | scripts/900_foreign_key.sql:367-368 | a line whose own batch another movement draws on survives every successful update, with its inventory and its batch |
| `Documents.DocumentDb.Create` | scripts/068_credit_note.sql:76-180 | voucher, ledger rows, header, lines and movements stand or fall together, with the exact condition for success |
| `Documents.DocumentDb.Delete` | scripts/068_credit_note.sql:352-364 | the chain header, lines, movements, own batches and voucher, ledger rows goes as a whole or not at all; for kinds that own batches exactly when none is named from elsewhere, for the others as said for deleting lines |
| `Documents.CreateThenDelete` | scripts/062_purchase_bill.sql:508-520 | create then delete is the identity on stock, batches and every day of the summary |
| `Documents.DeleteTakesOwnShare` | scripts/900_foreign_key.sql:259-260 | a delete takes exactly the document's own share out of each stock figure, batch and day |
| `Ledger.LedgerDb.InsertRow` | scripts/051_ac_txn.sql:75-98 | a new row is added to its day unless it is a memo row; the summary stays equal to the rows up to the recorded drift |
| `Ledger.LedgerDb.UpdateRow` | scripts/051_ac_txn.sql:100-147 | an update on the same day keeps the summary in step; one that moves the date takes the new amounts off the old day and is recorded as drift |
| `Ledger.LedgerDb.DeleteRow` | scripts/051_ac_txn.sql:149-173 | a deleted row leaves its day |
| `Ledger.LedgerDb.CreateVoucher` | scripts/058_voucher.sql:288-358 | exactly one row per line, all or nothing, with exactly when it is refused |
| `Ledger.LedgerDb.UpdateVoucher` | scripts/058_voucher.sql:360-451 | afterwards the voucher's rows are exactly one per line with its account, credit and debit, though the upsert never writes the account; other rows stand |
| `Ledger.LedgerDb.DeleteVoucher` | scripts/058_voucher.sql:274-281 | exactly the voucher's rows go, each through its trigger |
| `Ledger.LedgerDb.SetOpening` | scripts/053_account_opening.sql:28-64 | both amounts zero removes the opening row, otherwise the account and branch have exactly one opening row, which holds them, dated the day before the books begin |
| `LedgerModel.UpdateTracked` | scripts/051_ac_txn.sql:100-141 | the summary is off on each day by exactly the running sum of old minus new amounts of rows moved out of it |
| `LedgerTheorems.UpdateKeepsExactIff` | scripts/058_voucher.sql:412-433 | an update keeps an exact summary exact if and only if the date stays or the kept rows of each account keep their totals |
| `LedgerTheorems.MovedAndChanged` | scripts/051_ac_txn.sql:117-141 | one row moved to another day leaves the old day at old minus new amounts: wrong if and only if the amounts changed |
| `LedgerTheorems.CreateThenDelete` | scripts/058_voucher.sql:274-281 | create then delete restores the rows and every figure |
| `LedgerTheorems.DeleteRemovesOwnShare` | scripts/051_ac_txn.sql:149-173 | a deleted voucher takes exactly its own amounts out of every day |
| `LedgerTheorems.SummaryBalances` | scripts/216_account_book.sql:67-106 | opening plus debit minus credit is closing, exactly in whole paise and within the rounding of the four figures otherwise |
| `LedgerTheorems.DaysAreRows` | scripts/216_account_book.sql:51-65 | with an exact summary any sum of debits, of credits or of their difference over any choice of days is the same sum over the non-memo rows |
| `LedgerTheorems.FiguresAreRows` | scripts/216_account_book.sql:67-106 | so opening, debit, credit and closing are each the rounded sum of their column over the account's own non-memo rows: at the branches named or all, before the range, in it, or up to its end |
| `LedgerTheorems.OthersDoNotCount` | scripts/216_account_book.sql:93-95 | a memo row, a row of another account or of a branch not named, and a row dated later change no figure |
| `LedgerTheorems.ClosingFromBook` | scripts/216_account_book.sql:1-65 | opening plus the account book's rows of the account in range gives the closing, but for opening rows in range, of which there are none from the beginning of the books |
| `Allocations.AllocationTable.Promote` | scripts/047_bill_allocation.sql:54-67 | when a NEW row goes, each ADJ row of its group opens a fresh group of its own and nothing else changes |
| `Allocations.AllocationTable.Delete` | scripts/047_bill_allocation.sql:54-73 | after deletes and promotions at most one NEW row opens each group, no ADJ row is orphaned, and no amount has moved |
| `Allocations.AllocationTable.DeleteOf` | scripts/053_account_opening.sql:29-41 | all rows of one ledger row go, and exactly the ADJ rows that settled against them are promoted, each to a fresh group |
| `Allocations.AllocationTable.InsertLine` | scripts/058_voucher.sql:516-539 | one line of an insert: exactly when it is refused, and at most one NEW row per group whatever it says |
| `Allocations.AllocationTable.InsertAll` | scripts/058_voucher.sql:506-542 | one row per line or none, with the exact condition; at most one NEW row per group remains, and no orphans if and only if each ADJ line names a group that is live or that the list opens |
| `Allocations.AllocationTable.UpsertLine` | scripts/058_voucher.sql:711-751 | one line of an update: it keeps one NEW row per group if and only if it does not name a live group without an id, and no orphans if and only if it neither retypes, moves nor names wrongly |
| `Allocations.AllocationTable.UpdateAll` | scripts/058_voucher.sql:692-755 | for any list: exactly when it succeeds; every row is then as its last line says, others stand or are promoted; one NEW row per group remains if and only if no group is claimed twice, and no orphans if and only if each ADJ row left names a group that stands or is claimed |
| `AllocationModel.UpdateKeepsIff` | scripts/058_voucher.sql:711-751 | whatever an update leaves, both halves of the invariant hold if and only if the stored rows and the list say so |
| `AllocationModel.RowsAreLines` | scripts/058_voucher.sql:702-751 | saved with its own ids or none, a ledger row has exactly the allocations of its list, each with type, amount and pending id of its last line: named or drawn for NEW, named for ADJ, none for ON_ACC |
| `AllocationModel.OtherRowsStand` | scripts/058_voucher.sql:700-711 | allocations of other ledger rows stand, unless they settled against a NEW row that the list left out |
| `AllocationModel.CarefulKeeps` | scripts/058_voucher.sql:713-726 | an accepted list keeps the whole invariant when no id comes twice, ADJ lines name groups left or opened by the list, NEW rows keep type and group, and a NEW line without an id names no group already opened |
| `Allocations.AllocationTable.SetOpening` | scripts/053_account_opening.sql:65-105 | for any list: taken exactly when it is not empty and holds no ADJ line, no ON_ACC line with a pending id and no zero amount; which type, amount, pending id, account and ledger row each stored row has; and exactly when each part of the invariant survives |
| `AllocationModel.OpeningKeepsIff` | scripts/053_account_opening.sql:65-101 | saving an opening leaves one NEW row per group if and only if no two rows, stored or begun by the list, end up opening one; grouped and unorphaned rows likewise |
| `AllocationModel.OpeningRowsAreLines` | scripts/053_account_opening.sql:84-101 | each row written has its last line's type and amount; new rows belong to this opening's ledger row and account and to no voucher, old ones stay where they were; with own ids the opening has exactly the rows written |
| `AllocationModel.OpeningOthersStand` | scripts/053_account_opening.sql:61-68 | allocations of other ledger rows stand, unless they settled against a NEW row that the list left out |
| `AllocationModel.CarefulOpeningKeeps` | scripts/053_account_opening.sql:65-101 | so it keeps the invariant when no id comes twice, no stored row changes type and new NEW lines name no group already opened |
| `AllocationModel.UpsertKeepsOneNewIff` | scripts/058_voucher.sql:713-719 | a NEW line without an id is compared with nothing: a second NEW row appears if and only if it names a live group |
| `AllocationModel.UpsertKeepsNoOrphansIff` | scripts/058_voucher.sql:720-751 | an upsert orphans an ADJ row if and only if it names no live group, or retypes or moves the NEW row that others settle against |
| `AllocationModel.ClosingsAddUp` | scripts/212_account_pending.sql:1-14 | the groups' closings together are all amounts that are not on account: nothing counted twice or lost |
| `AllocationModel.PendingReportAddsUp` | scripts/212_account_pending.sql:1-14 | the rounded report: each closing is its group's rounded sum, and together they are all amounts not on account, exactly in whole paise and within half a paisa per group otherwise |
| `AllocationModel.OpeningUpsertKeepsIff` | scripts/053_account_opening.sql:84-101 | the opening upsert keeps the stored pending id; a second NEW row appears if and only if a row becomes NEW under an id another row opens |
| `AllocationModel.CarriedPendingDoubles` | scripts/053_account_opening.sql:69-83 | two saves of one opening: an ON_ACC line stored with the carried pending id and retyped at the second save opens the same group twice |
| `Pos.PosDb.InsertBreakup` | scripts/072_pos_counter_transaction_breakup.sql:29-35 | exactly the breakup lines are stored under the transaction's stamps; refused exactly for an unknown account, a missing amount or a repeated account |
| `PosModel.BreakupRows` | scripts/072_pos_counter_transaction_breakup.sql:29-35 | one row per breakup line: its account, credit and debit, under the counter, session and settlement of its transaction |
| `Pos.PosDb.Apply` | scripts/072_pos_counter_transaction_breakup.sql:14-38 | a transaction and its breakup are stored together, unstamped, or not at all |
| `Pos.PosDb.Update` | scripts/072_pos_counter_transaction_breakup.sql:40-70 | no update changes a settled transaction; another keeps its session, with its breakup rewritten under it |
| `Pos.PosDb.Delete` | scripts/900_foreign_key.sql:970-983 | a voucher's transaction and breakup go together |
| `Pos.PosDb.InsertSession` | scripts/074_pos_counter_session.sql:12-33 | the trigger stamps exactly the counter's unstamped rows, in both tables |
| `Pos.PosDb.PutPetty` | scripts/074_pos_counter_session.sql:62-85 | a petty cash voucher books one breakup line on the default cash account |
| `Pos.PosDb.Close` | scripts/074_pos_counter_session.sql:35-60 | row by row: what the counter had booked since its last close belongs to the new session, the paying-out voucher falls in it, the paying-in one in the next, with their breakup lines; exactly when the close fails |
| `Pos.PosDb.Settle` | scripts/075_pos_counter_settlement.sql:10-35 | fails exactly when no session of the counters is unsettled; otherwise exactly those sessions and their rows get the settlement, and no settled row changes |
| `PosModel.CloseAgrees` | scripts/074_pos_counter_session.sql:16-23 | closing keeps both tables stamped alike |
| `PosModel.SettleAgrees` | scripts/075_pos_counter_settlement.sql:23-32 | settling keeps a row's settlement equal to its session's |
| `PosModel.PettyBalances` | scripts/074_pos_counter_session.sql:76-84 | the breakup line of a petty cash voucher books the voucher's amount |
| `PosModel.SessionNets` | scripts/074_pos_counter_session.sql:46-59 | a closed session nets to real takings plus petty cash found minus petty cash carried forward, and later edits of its petty vouchers |
| `PosModel.Telescopes` | scripts/074_pos_counter_session.sql:35-60 | the closed sessions of a counter and its open till together net to what customers paid, and later edits of petty vouchers |
| `PosModel.SettlementIsItsSessions` | scripts/075_pos_counter_settlement.sql:23-32 | what a settlement covers is exactly what its sessions took |
| `PosModel.BreakupSummaryAddsUp` | scripts/214_pos_settlement_query.sql:1-23 | the breakup summary adds up to the settled sessions, exactly in whole paise and within half a paisa per account |
| `PosModel.TransactionSummaryAddsUp` | scripts/214_pos_settlement_query.sql:25-50 | so does the transaction summary |
| `Gst.FindCodePoint` | scripts/024_gst_registration.sql:31-36 | the inner loop finds the character's place in the alphabet, or none |
| `Gst.FindCheckCode` | scripts/024_gst_registration.sql:28-41 | the loops end with the code point that balances the payload, for payloads of any length |
| `Gst.CheckGstNo` | scripts/024_gst_registration.sql:24-48 | accepts null, the one literal, and numbers in the format that end in the computed character |
| `Gst.FoldedAddsDigits` | scripts/024_gst_registration.sql:39-40 | the floor of quotient plus remainder is the sum of the two base-36 digits |
| `Gst.OneCheckCharacter` | scripts/024_gst_registration.sql:28-46 | exactly one final character makes the weighted total a multiple of 36 |
| `Gst.AcceptedIffBalanced` | scripts/024_gst_registration.sql:27-46 | a number in the format is accepted if and only if it weighs a multiple of 36 |
| `Gst.SubstitutionDetected` | scripts/024_gst_registration.sql:28-46 | every substitution of one character is detected |
| `Gst.SwapDetected` | scripts/024_gst_registration.sql:28-46 | swapping two different neighbours is detected unless they are 0 and Z |
| `Gst.CaseDoesNotMatter` | scripts/024_gst_registration.sql:17-42 | lower case counts as upper case |
| `Gst.UpperIs` | scripts/024_gst_registration.sql:18-18 | a small letter counts as the capital in its place of the alphabet, any other character as itself |
| `Routing.Router.Issue` | api/src/conn.rs:30-32 | a new id, never used before among the first 2^64, and an empty one-shot channel |
| `Routing.Router.Enqueue` | api/src/conn.rs:48-60 | the route enters the queue when there is room |
| `Routing.Router.Leave` | api/src/conn.rs:34-46 | a caller that stops waiting loses at most its own route |
| `Routing.Router.Receive` | api/src/conn.rs:80-84 | the caller gets the answer to its own request, fails once the request is lost, and waits only while it is on its way |
| `Routing.Router.HandleRoute` | api/src/engine/ws/native.rs:129-157 | the oldest route goes in flight under a vacant entry, or is lost with everything in flight when the socket is broken |
| `Routing.Router.HandleResponse` | api/src/engine/ws/native.rs:159-211 | an answer reaches only the channel of the call that issued its id, which is empty, and at most once; any other message leaves all requests where they are |
| `Routing.Router.Reconnect` | api/src/engine/ws/native.rs:219-283 | what is in flight is lost; queued requests and channel subscriptions stay; the token is used once and gone |
| `Routing.Router.HandleParam` | api/src/engine/ws/native.rs:289-300 | subscriptions and tokens are stored and move no request |
| `Routing.Router.Shutdown` | api/src/engine/ws/native.rs:302-314 | when the router ends every request has been answered or lost |
| `Routing.IdsDiffer` | api/src/conn.rs:30-32 | the first 2^64 calls have distinct ids, wrap-around included |
| `Routing.NeverBack` | api/src/engine/ws/native.rs:259-283 | over any run a request only moves on, and an answered or lost one stays so |
| `Approvals.ApprovalDb.Create` | scripts/058_voucher.sql:73-84 | a voucher needs as many approvals as the highest level with a tag |
| `Approvals.ApprovalDb.Save` | scripts/058_voucher.sql:528-537 | a new allocation is marked exactly when its voucher is fully approved, a stored one keeps voucher and mark; NEW rows of fully approved vouchers stay marked if and only if no bare row is retyped |
| `Approvals.ApprovalDb.SaveOpening` | scripts/053_account_opening.sql:84-101 | an allocation of an opening gets no mark, and unmarks a NEW row of a fully approved voucher if and only if it retypes a bare one |
| `Approvals.ApprovalDb.Drop` | scripts/047_bill_allocation.sql:54-67 | the rows go and exactly the ADJ rows that settled against them are promoted, keeping their marks; NEW rows of fully approved vouchers stay marked if and only if no promoted row is bare |
| `Approvals.ApprovalDb.Approve` | scripts/058_voucher.sql:228-271 | exactly the next level, by a member of its tag, on a voucher whose registration number is open; one new log row, one level fewer left, and the last level marks the NEW allocations |
| `Approvals.ApprovalDb.Touch` | scripts/058_voucher.sql:164-179 | updates are refused once the registration number is there |
| `Approvals.ApprovalDb.Delete` | scripts/900_foreign_key.sql:499-500 | a voucher can be deleted exactly while it has no approval; its allocations go along, what settled against them is promoted, and NEW rows stay marked if and only if no promoted row is bare |
| `Approvals.LogIsState` | scripts/058_voucher.sql:260-266 | a voucher has exactly as many log rows as its state |
| `Approvals.ApproveSound` | scripts/058_voucher.sql:260-269 | states stay within their bounds, logs hold levels 1 to the state once each, and marks mean full approval |
| `Approvals.PromotedUnmarked` | scripts/047_bill_allocation.sql:58-63 | two saves, the last approval and the deletion of the bill that the other row settles: the promoted row is a NEW row of a fully approved voucher without its mark |
| `Approvals.DropKeepsMarksIff` | scripts/047_bill_allocation.sql:54-67 | deleting rows leaves a NEW row of a fully approved voucher unmarked if and only if a row settling against one of them is an unmarked row of a fully approved voucher |
| `Approvals.SaveKeepsMarksIff` | scripts/058_voucher.sql:729-751 | an upsert does so if and only if it retypes such a row to NEW |
| `Approvals.ApproveKeepsMarks` | scripts/058_voucher.sql:268-269 | an approval never does |
| `Numbering.NumberDb.Create` | scripts/058_voucher.sql:181-223 | the next number of its counter, nothing skipped and nothing reused, or no change at all; the counter is that of branch, year and the type's sequence or else the type; with the exact condition for success |
| `Numbering.NumberDb.FindYear` | scripts/058_voucher.sql:186-189 | the one financial year a date lies in; none when there is none or are several |
| `Numbering.SharesIff` | scripts/058_voucher.sql:206-211 | two numbered vouchers share a counter if and only if branch and year agree and their types have one sequence, or one type is the other's sequence |
| `Numbering.NumberDb.Delete` | scripts/058_voucher.sql:274-281 | a deleted voucher frees no number |
| `Numbering.NoRepeat` | scripts/044_voucher_numbering.sql:1-8 | live numbered vouchers of one branch and year have different numbers when their types share a sequence or one is the other's |
| `Numbering.ParseShown` | scripts/058_voucher.sql:218-220 | with a four-digit year code prefix, year and counter can be read back from the text |
| `Numbering.NumbersDiffer` | scripts/058_voucher.sql:218-220 | equal texts have equal prefixes, with one year code equal numbers, and different year codes only where the digits of one run into the other, never when both have as many digits |
| `Numbering.YearsClashIff` | scripts/058_voucher.sql:218-220 | two year codes share a voucher number if and only if the digits of one begin those of the other and the next digit is not zero |
| `Numbering.FourDigitsIff` | scripts/058_voucher.sql:219-219 | the year code has four digits if and only if the year it starts in ends in 10 to 99 |
| `Numbering.ShortYearsClash` | scripts/058_voucher.sql:218-220 | so 2000-01 and 2011-12 share numbers |
| `Exchanges.ExchangeDb.Set` | scripts/056_exchange.sql:27-44 | an exchange opens exactly with a non-negative amount and a new voucher |
| `Exchanges.ExchangeDb.ClaimEach` | scripts/057_exchange_adjustment.sql:20-45 | the loop succeeds exactly when each claim names an exchange of the branch that still covers it; each claim is then recorded in one row of its own, with the claiming voucher, exchange and amount |
| `Exchanges.ExchangeDb.ClaimAll` | scripts/057_exchange_adjustment.sql:12-47 | all claims of both lists or none |
| `Exchanges.ExchangeDb.Delete` | scripts/900_foreign_key.sql:463-470 | deleting a claiming voucher gives nothing back |
| `Exchanges.NeverOverdrawn` | scripts/056_exchange.sql:11-18 | adjusted never exceeds opening, is the sum of all claims in whole paise, and is off by at most 0.005 per claim otherwise |
| `Exchanges.DriftBound` | scripts/057_exchange_adjustment.sql:22-24 | rounding at each claim drifts by at most half a paisa a claim |
| `Exchanges.DeleteKept` | scripts/900_foreign_key.sql:466-470 | the claims ever made are the recorded adjustments and those of deleted vouchers |
| `Exchanges.DeleteStaysExactIff` | scripts/900_foreign_key.sql:466-470 | an exchange that equals its recorded claims still does after a deletion if and only if the deleted voucher's claims from it sum to zero |
| `GiftCoupons.GiftDb.Create` | scripts/060_gift_voucher.sql:56-109 | one active coupon per counted unit, with its denomination's amount; issued equals the coupons made if and only if no count is negative; exactly when it fails |
| `GiftCoupons.GiftDb.ClaimAll` | scripts/060_gift_voucher.sql:148-171 | each coupon handed in is live, active, of its account and named once, or nothing happens; claimed grows by the coupons gone |
| `GiftCoupons.MadeIffCounted` | scripts/060_gift_voucher.sql:66-103 | the sum of counts is the number of coupons if and only if no count is negative |
| `ChangeStream.Watch` | tenant/src/cdc/watch.rs:87-163 | the loop ends in the state of its stream |
| `ChangeStream.GroupsAreSent` | tenant/src/cdc/watch.rs:88-117 | of a well-bracketed stream with keepalives anywhere exactly the committed groups were sent, in order with their rows in order, and exactly the open group's rows are held |
| `ChangeStream.PrefixIsBracketed` | tenant/src/cdc/watch.rs:88-117 | every prefix of a well-bracketed stream is one, with the same groups as far as committed |
| `ChangeStream.SentInOrder` | tenant/src/cdc/watch.rs:88-117 | at every moment what was sent is a prefix of the groups |
| `ChangeStream.AliveIff` | tenant/src/cdc/watch.rs:98-117 | whatever the stream, the loop panics exactly at the first row outside a transaction, unheard transaction, garbled payload or failed reply, and holds a transaction exactly while a Begin is open |
| `ChangeStream.HeldSinceBegin` | tenant/src/cdc/watch.rs:101-116 | whatever the stream, the rows held are those since the last Begin |
| `ChangeStream.SecondBeginDrops` | tenant/src/cdc/watch.rs:101-107 | what a second Begin overtakes might never have been: the whole stream ends as without it |
| `Money.RoundsByHalf` | scripts/057_exchange_adjustment.sql:23-23 | rounding to paise moves an amount by at most half a paisa and whole paise not at all |
| `Money.RoundsTo` | scripts/057_exchange_adjustment.sql:23-23 | which amount rounding gives: the nearest whole paise, halves away from zero |

## Left out

- `StockEngine.StockDb.DeleteDoc`: sale bills are left out, because the text of `delete_sale_bill` names a variable like the column
  it returns.
- `StockGuards.RemovalOf`: the order in which a cascade visits its rows is any order, because SQL fixes none.
- `StockEngine.StockDb.SetOpening`: one inventory at a time, and the ids of its lines are new or its own.
- `StockEngine.StockDb.UpdateLines`: the ids of the list are distinct, and each is new or the id of a line of the same document,
  as the callers of the update procedures guarantee; the same holds for `Ledger.LedgerDb.UpdateVoucher`.
- `Allocations.AllocationTable.SetOpening`: covers accounts of sundry type; for others the procedure deletes the rows, which is
  `DeleteOf`.
- `Routing.Router.Issue`: the first 2^64 requests of a connection; after that ids repeat.
- `Exchanges.ExchangeDb.Set`: the account, its name and the contact are not modelled.
- `GiftCoupons.GiftDb.Create`: its voucher, expiry dates and branch are not modelled; no procedure makes a coupon inactive.
- `Pos.PosDb.Close`: the voucher procedures behind the petty cash are reduced to the counter tables; their ledger rows cancel.
- `Documents.DocumentDb.Delete`: blocks by tables outside the model that may name the voucher, an approval log or an exchange say.
- Material conversion: its update writes another document's table and compares a record with a number, so there is no meaning to
  model.
- Personal-use purchases and goods inward notes: the same pattern as other documents.
- `delete_gift_voucher`, whose text has the flaw of `delete_sale_bill`.
- Memo conversion, TDS, and the category and GST branches of `update_ac_txn`, whose diff an emptied list skips.
- Bank allocations, and the checks that a sundry or bank account has allocations at all.
- Prices, taxes, names, categories, divisions and timestamps copied between rows; the price rows that purchases write.
- `batch.source_batch_id`, a copy that no key constrains.
- The GSTIN format pattern, an argument of `Gst.CheckGstNo`.
- Binary floating point: quantities and amounts are exact reals, and only the decimal rounding is kept.
- Concurrent sessions of the database: each procedure call is one step.
- Sockets, framing, pings, the wasm client, replication handshake and keepalive bytes, JSON decoding, access control, reports
  with dynamic filters.
