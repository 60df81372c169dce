# School bookkeeping ledger: the posting core in Dafny

This project models the double-entry core of a school bookkeeping web application. The model covers four areas:

- **The account-mapping engine.** A non-accountant names one account, a direction (money out, money in or a transfer) and an amount. The engine picks a contra account among the company's other accounts, using a filter on account type and on names mentioning cash or a bank, then a fixed priority table. It decides which account is debited and which credited, and it explains the entry in words.
- **The accountant's transaction screens.** These cover:
  - posting a balanced two-line entry, with the contra account chosen by the engine or by hand;
  - correcting a posted transaction inside one database transaction, by a reversal that mirrors every line with debit and credit exchanged, a correcting entry, and a link each way;
  - the delete guard: the owner only, the same day only, never a reversal or a correction, never a transaction another one refers to;
  - the Correct redirect, and the prefilled correction form.
- **The administrator's chart of accounts.** Accounts are created, renamed and deleted with a duplicate-name check per company. An account cannot be deleted while lines use it. An account's statement shows total debits, total credits, the balance (debits minus credits) and the number of lines.
- **The company's financial year.** The year end clamps a configured day to the month's length, and a given day belongs to a current financial year.

The database is the class `Store.Ledger`. It holds:

- the accounts table as a sequence in ascending id order, which `Store.Ledger.Valid` keeps in every state (see "## Left out");
- the transactions table as a map from id to transaction, each transaction carrying its lines;
- the two identity counters.

The controller actions are methods that take the `Ledger`. Every one of them keeps `Store.Consistent`. Under that invariant:

- every stored transaction balances, fits its columns and has well-formed lines on accounts of its own company;
- every reversal mirrors the transaction it corrects;
- reversal and correction point at each other;
- a transaction has at most one reversal and at most one correction.

Amounts are integer cents: the `decimal(18,2)` columns hold at most 10^18 - 1 cents. `DateTime.Today`, the signed-in user and the user's company are parameters.

Modules, in dependency order:

- `Optional` (optional.dfy);
- `Text` (text.dfy): ASCII lower-casing, `Contains`, .NET trimming, SQL Server's trailing-space rule, digits;
- `Sequences` (sequences.dfy): `Where`, and a stable `OrderByDescending` with `FirstOrDefault`;
- `Calendar` (calendar.dfy) and `Companies` (company.dfy);
- `Entities` (entities.dfy): the records;
- `Keys` (keys.dfy): least elements of integer sets;
- `Store` (ledger.dfy);
- `Mapping` (mapping.dfy);
- `TransactionLifecycle` (transactions.dfy);
- `ChartOfAccounts` (accounts.dfy).

Where the code differs from its comments or from what one would expect, the model follows the code:

- **Transfer candidates.** The comment on the transfer filter says "allow any account except the selected one", but `IsValidTransferAccount` admits only Asset candidates, and only when the selected account is an Asset or a Liability. The model does what the code does.
- **Name comparison.** The duplicate-name check runs in SQL Server as `LOWER(a) = LOWER(b)`, which ignores case and trailing spaces. The model compares names that way (`ChartOfAccounts.SqlNameEquals`).
- **Correction targets.** The create action accepts any transaction of the company as a correction target, reversals and corrections included. Its "already corrected" lookup spans all companies and tests only `CorrectedTransactionId`. The model does the same.
- **Check order.** A mapping error is reported before the form's validation errors, because the mapping runs first (Areas/Accountant/Controllers/TransactionController.cs:259-326).
- **Prefill direction.** The correction form selects the credited account of the original, with the debited account as contra. `DetermineTransactionDirection` then proposes a direction for it. `TransactionLifecycle.PrefillOfPostedEntry` shows the consequence: booked as prefilled, the correction repeats the original's sides when the direction is money in, and swaps them otherwise.

## Model

| member | source | states |
|---|---|---|
| Entities.NewLine | Fx9Kl2/Sx2Dn8Gateway.cs:14-27 | a new line belongs to one transaction and one account, and its debit and credit both start at zero |
| Entities.NewTransaction | Fx9Kl2/Pz7Vm5Protocol.cs:39-67 | a new transaction is neither a reversal nor a correction, links to no other transaction and has no lines |
| Entities.FindAccount | Areas/Admin/Controllers/AccountsController.cs:51-55 | the lookup by id within a company succeeds exactly when such an account exists, and returns an account of the table with that id and company |
| Entities.Mirror | Areas/Accountant/Controllers/TransactionController.cs:366-372 | the reversal's lines: one per original line, on the same account with debit and credit exchanged |
| Entities.MirrorPointwise | Areas/Accountant/Controllers/TransactionController.cs:356-376 | the reversal's lines keep the original's order and accounts, with debit and credit exchanged on each line |
| Entities.MirrorSwapsTotals | Areas/Accountant/Controllers/TransactionController.cs:356-376 | the reversal's total debits are the original's total credits and vice versa, over the same number of lines |
| Entities.MirrorKeepsBalance | Areas/Accountant/Controllers/TransactionController.cs:356-376 | a reversal balances exactly when the original does |
| Entities.MirrorLinesFor | Areas/Accountant/Controllers/TransactionController.cs:356-376 | the reversal's lines on an account are the mirror of the original's lines on that account |
| Entities.MirrorNetsToZero | Areas/Accountant/Controllers/TransactionController.cs:356-376 | an original and its reversal net to zero on every account |
| Entities.MirrorKeepsLinesWellFormed | Areas/Accountant/Controllers/TransactionController.cs:356-376 | mirroring keeps every line non-negative with exactly one side non-zero |
| Calendar.DaysInMonth | Fx9Kl2/Hx7Tz3Data.cs:52 | a month has 28 to 31 days: 29 exactly in a leap February, 28 in another February, 30 in April, June, September and November |
| Calendar.NewDate | Fx9Kl2/Hx7Tz3Data.cs:47 | a date is built exactly when year, month and day form a date `DateTime` can hold |
| Calendar.DaysInMonthChecked | Fx9Kl2/Hx7Tz3Data.cs:52 | the month length is defined exactly for years 1 to 9999 and months 1 to 12 |
| Companies.NewCompany | Fx9Kl2/Hx7Tz3Data.cs:33-36 | a new company's year end is 31 March, inside the ranges 1..12 and 1..31 |
| Companies.GetFinancialYearEnd | Fx9Kl2/Hx7Tz3Data.cs:43-54 | the year end is a valid date in the given year and the configured month, on the configured day or the month's last day; it fails only where `DateTime` throws |
| Companies.YearEndKeepsExistingDay | Fx9Kl2/Hx7Tz3Data.cs:47 | a configured day that exists in the month is kept exactly |
| Companies.YearEndClampsMissingDay | Fx9Kl2/Hx7Tz3Data.cs:49-53 | a configured day the month lacks becomes the month's last day |
| Companies.GetCurrentFinancialYear | Fx9Kl2/Hx7Tz3Data.cs:57-63 | the current financial year is today's year exactly when today is on or before this year's year end, and otherwise the next year |
| Companies.TodayFallsInCurrentFinancialYear | Fx9Kl2/Hx7Tz3Data.cs:57-63 | today lies after the previous financial year's end and on or before the current one's |
| Text.TrimIsMiddleSlice | Areas/Admin/Controllers/AccountsController.cs:110 | the stored name is a middle slice of the input, with only whitespace cut off either end |
| Text.TrimmedHasNoWhiteSpaceEnds | Areas/Admin/Controllers/AccountsController.cs:110 | a non-empty stored name neither starts nor ends with whitespace |
| Text.TrimEmptyIffBlank | Areas/Admin/Controllers/AccountsController.cs:268 | trimming leaves nothing exactly when the input is blank, which is what the required-name attribute rejects |
| Text.Utf16Length | Fx9Kl2/Pz7Vm5Protocol.cs:17-19 | the length .NET and `nvarchar` report lies between the number of characters and twice that |
| Text.Utf16LengthCounts | Fx9Kl2/Pz7Vm5Protocol.cs:17-19 | the length equals the number of characters exactly when none is above U+FFFF, and twice it exactly when all are |
| Text.NatToStringRoundTrip | Areas/Accountant/Controllers/TransactionController.cs:360 | the digits written after "REV-" read back as the original's id |
| Sequences.Filter | Services/TransactionMappingService.cs:218 | `Where` keeps only elements that satisfy the filter, and keeps every one that does |
| Sequences.SortDesc | Services/TransactionMappingService.cs:149 | `OrderByDescending` returns a permutation of its input, sorted by non-increasing key |
| Sequences.SortDescHead | Services/TransactionMappingService.cs:196-198 | the first element after `OrderByDescending` is the earliest element of maximum key |
| Mapping.IsValidTransferAccount | Services/TransactionMappingService.cs:296-314 | a transfer candidate qualifies exactly when it is an Asset and the selected account is an Asset or a Liability |
| Mapping.PossibleContraAccounts | Services/TransactionMappingService.cs:203-294 | every candidate is an Asset account of the table, in the same company, and is not the selected account |
| Mapping.MoneyCandidates | Services/TransactionMappingService.cs:229-286 | for money entries the candidates are the company's other Asset accounts named after cash or a bank, or all its other Asset accounts when no such account exists |
| Mapping.TransferCandidates | Services/TransactionMappingService.cs:254-266 | for transfers the candidates are the company's other Asset accounts, and there are none unless the selected account is an Asset or a Liability |
| Mapping.CashOrBankNameSimplifies | Services/TransactionMappingService.cs:244-246 | the "petty cash" alternative of the name test adds nothing beyond "cash" |
| Mapping.Priority | Services/TransactionMappingService.cs:316-338 | every priority lies between 10 and 100 |
| Mapping.CashOrBankOutranks | Services/TransactionMappingService.cs:316-338 | a name mentioning cash or a bank scores at least 60, and any other name at most 50 |
| Mapping.FallbackPriority | Services/TransactionMappingService.cs:316-338 | in a money entry, an Asset account not named after cash or a bank scores 10 |
| Mapping.IsRecommended | Services/TransactionMappingService.cs:340-360 | for money entries an account is recommended exactly when its name mentions cash or a bank, and for transfers exactly when it is an Asset |
| Mapping.BestContra | Services/TransactionMappingService.cs:178-201 | a best contra account exists exactly when there are candidates, and it is one of them |
| Mapping.DetermineAccountMapping | Services/TransactionMappingService.cs:40-122 | each failure has its own reason and occurs exactly when its condition holds. On success both accounts belong to the company and differ, the contra is an Asset, the sides are the selected and the contra account with the selected one credited exactly for money in, and the explanation is built from the two accounts |
| Mapping.MoneyMappingSucceedsIffOtherAsset | Services/TransactionMappingService.cs:81-88 | a money entry on an existing account maps exactly when the company has another Asset account, and otherwise fails with "no suitable contra account" |
| Mapping.TransferMappingSucceedsIff | Services/TransactionMappingService.cs:81-88 | a transfer maps exactly when the selected account is an Asset or a Liability and the company has another Asset account |
| Mapping.MappingPicksFirstHighestPriority | Services/TransactionMappingService.cs:196-200 | the chosen contra has the highest priority among the candidates and is the earliest candidate with it |
| Mapping.FallbackPicksFirstAsset | Services/TransactionMappingService.cs:271-286 | when no other Asset account is named after cash or a bank, a money entry takes the first other Asset account of the accounts sequence |
| Mapping.DebitCredit | Services/TransactionMappingService.cs:362-385 | the two sides are the selected and the contra account, and for two different accounts they differ and the selected one is credited exactly for money in |
| Mapping.ExplanationReadsCreditToDebit | Services/TransactionMappingService.cs:152-176 | the explanation always reads "FROM" the credited account "TO" the debited one |
| Mapping.Explanation | Services/TransactionMappingService.cs:152-176 | the sentence for each direction: money out flows from the contra account to the primary one, money in from the primary account to the contra, and a transfer goes from the contra account to the primary one |
| Mapping.ErrorMessage | Services/TransactionMappingService.cs:50-88 | the message the service reports for each failure, word for word |
| Mapping.ToOptions | Services/TransactionMappingService.cs:142-148 | one ranked entry per candidate, in order, carrying its priority and recommendation |
| Mapping.AvailableContraAccounts | Services/TransactionMappingService.cs:124-150 | the ranked list is sorted by non-increasing priority, is empty when the primary account is not in the company, and is otherwise a permutation of the candidates' entries |
| Mapping.AvailableOptionsDescribeCandidates | Services/TransactionMappingService.cs:142-149 | every listed entry describes one candidate contra account |
| Mapping.TransferOptionsAllRecommended | Services/TransactionMappingService.cs:340-360 | for transfers every listed entry is a recommended Asset account |
| Mapping.MoneyOptionsRecommendedTogether | Services/TransactionMappingService.cs:340-360 | for money entries the listed entries are either all recommended or none of them is |
| Mapping.RankedHeadIsChosenContra | Services/TransactionMappingService.cs:124-201 | the first entry of the ranked list is the contra account the mapping chooses |
| Store.AccountTotals | Areas/Admin/Controllers/AccountsController.cs:61-67 | an account's total debits, total credits and number of lines, summed over the lines of every stored transaction |
| Store.AlreadyCorrected | Areas/Accountant/Controllers/TransactionController.cs:342-343 | a transaction counts as corrected when any stored transaction names it as the one it corrects |
| Store.Unreferenced | Areas/Accountant/Controllers/TransactionController.cs:709-711 | no stored transaction names it as the one it corrects or as its reversal |
| Store.AccountTotalsRemove | Areas/Admin/Controllers/AccountsController.cs:61-67 | taking any one transaction out of the table takes exactly its lines out of an account's totals |
| Store.AccountTotalsInsert | Areas/Admin/Controllers/AccountsController.cs:61-67 | storing a transaction adds exactly its lines to an account's totals |
| Store.AccountTotalsReplace | Areas/Admin/Controllers/AccountsController.cs:61-67 | rewriting a transaction's links without touching its lines leaves every total unchanged |
| Store.ConsistentEntriesBalance | Areas/Accountant/Controllers/TransactionController.cs:437-451 | every transaction of a consistent ledger is stored under its own id and balances |
| Store.PostKeepsConsistent | Areas/Accountant/Controllers/TransactionController.cs:429-455 | storing a balanced original under the next id keeps the ledger consistent |
| Store.DeleteKeepsConsistent | Areas/Accountant/Controllers/TransactionController.cs:709-720 | removing an unreferenced original, with its lines, keeps the ledger consistent |
| Store.CorrectionKeepsConsistent | Areas/Accountant/Controllers/TransactionController.cs:351-414 | a mirrored reversal and a balanced correction of a not yet corrected transaction, under two fresh ids and linked both ways, keep the ledger consistent |
| Store.AddAccountKeepsConsistent | Areas/Admin/Controllers/AccountsController.cs:108-116 | a new account under the next id keeps the ledger consistent |
| Store.EditAccountKeepsConsistent | Areas/Admin/Controllers/AccountsController.cs:177-188 | renaming an account or changing its type keeps the ledger consistent |
| Store.UnusedAccountHasNoLines | Areas/Admin/Controllers/AccountsController.cs:61-67 | an account no line uses has zero debits, zero credits and no lines |
| Store.RemoveAccountKeepsConsistent | Areas/Admin/Controllers/AccountsController.cs:240-249 | removing an account no line uses keeps the ledger consistent |
| Store.Ledger.InsertTransaction | Areas/Accountant/Controllers/TransactionController.cs:454-455 | a row that fits its columns is stored under the next identity value, which then advances; any other row fails and nothing changes |
| Store.Ledger.UpdateTransaction | Areas/Accountant/Controllers/TransactionController.cs:411-412 | the stored row is replaced and nothing else changes |
| Store.Ledger.RemoveTransaction | Areas/Accountant/Controllers/TransactionController.cs:719-720 | the row goes together with its lines, and nothing else changes |
| Store.Ledger.RollBack | Areas/Accountant/Controllers/TransactionController.cs:419-421 | the rows return to what they were when the database transaction began; identity values handed out stay used |
| Store.Ledger.InsertAccount | Areas/Admin/Controllers/AccountsController.cs:115-116 | the account is appended under the next identity value, which advances |
| Store.Ledger.UpdateAccount | Areas/Admin/Controllers/AccountsController.cs:187-188 | the account row is replaced and nothing else changes |
| Store.Ledger.RemoveAccount | Areas/Admin/Controllers/AccountsController.cs:248-249 | the account row goes and nothing else changes |
| TransactionLifecycle.DetermineDebitCreditForManualSelection | Areas/Accountant/Controllers/TransactionController.cs:774-789 | the sides are the selected and the contra account, and for two different accounts the selected one is credited exactly for money in |
| TransactionLifecycle.ManualSidesAgreeWithService | Areas/Accountant/Controllers/TransactionController.cs:774-789 | a hand-picked contra account is booked on the same sides as the mapping service would book it |
| TransactionLifecycle.CountMatching | Areas/Accountant/Controllers/TransactionController.cs:267-270 | the count of matching accounts never exceeds the size of the table |
| TransactionLifecycle.CountSingle | Areas/Accountant/Controllers/TransactionController.cs:267-270 | with ascending ids, an id is counted once when the company has that account and never otherwise |
| TransactionLifecycle.SelectionCountIsTwoIff | Areas/Accountant/Controllers/TransactionController.cs:267-276 | the count of the two selected ids is two exactly when the ids differ and both accounts belong to the company |
| TransactionLifecycle.ManualMapping | Areas/Accountant/Controllers/TransactionController.cs:264-303 | a manual mapping takes the two named accounts of the company with the manual side table, and otherwise fails with a selection error |
| TransactionLifecycle.ManualMappingSucceedsIff | Areas/Accountant/Controllers/TransactionController.cs:264-303 | a manual selection succeeds exactly when the two ids differ and both accounts belong to the company, so choosing the selected account as its own contra is refused; the "not found" branch after a passing count cannot occur |
| TransactionLifecycle.ManualMappingSound | Areas/Accountant/Controllers/TransactionController.cs:264-303 | with ascending ids, a hand-picked pair maps exactly when the ids differ and both accounts belong to the company; the "not found" error never occurs, and a success debits and credits two different accounts of the company |
| TransactionLifecycle.ServiceMappingSound | Services/TransactionMappingService.cs:40-122 | a mapping the service returns debits and credits two different accounts of the company |
| TransactionLifecycle.ResolveMapping | Areas/Accountant/Controllers/TransactionController.cs:264-318 | a success keeps the form's selected account, direction and amount, and the selected account is one of the two sides. A contra id above zero selects the manual path: with ascending ids it succeeds exactly when the ids differ and both accounts belong to the company, it keeps the named contra, and a failure is a selection error. Without one, the outcome is the service's own, and a service error is passed on wrapped. On either path a success debits and credits two different accounts of the company |
| TransactionLifecycle.EntryLines | Areas/Accountant/Controllers/TransactionController.cs:437-451 | a simple entry has exactly two lines, and they balance |
| TransactionLifecycle.JournalEntry | Areas/Accountant/Controllers/TransactionController.cs:429-452 | a normal post writes a balanced original under its id, linked to nothing |
| TransactionLifecycle.ReversalEntry | Areas/Accountant/Controllers/TransactionController.cs:356-376 | the reversal is flagged as a reversal and not as a correction, and it balances exactly when the original does |
| TransactionLifecycle.CorrectingEntry | Areas/Accountant/Controllers/TransactionController.cs:379-408 | the correcting entry is flagged as a correction and not as a reversal, and it balances |
| TransactionLifecycle.JournalEntryLinesOk | Areas/Accountant/Controllers/TransactionController.cs:437-451 | with a positive amount and a sound mapping, both lines are well formed and name accounts of the company |
| TransactionLifecycle.PlanCreate | Areas/Accountant/Controllers/TransactionController.cs:259-349 | the mapping error comes first, then the form's validation. A valid form with no correction requested is planned as a normal post with the resolved mapping. A correction request is refused as "not found" when the target is not a transaction of the company, refused as "already corrected" when some transaction corrects it, and is otherwise planned as a correction of that target |
| TransactionLifecycle.CorrectedTargetIsRefused | Areas/Accountant/Controllers/TransactionController.cs:342-349 | once any transaction corrects a target, every further correction of it is refused |
| TransactionLifecycle.PostEntry | Areas/Accountant/Controllers/TransactionController.cs:429-455 | a normal post stores exactly the two-line entry under the next id, or, when the row does not fit its columns, changes nothing |
| TransactionLifecycle.PostCorrection | Areas/Accountant/Controllers/TransactionController.cs:351-423 | a correction stores the reversal linked to the correcting entry and the correcting entry linked to both, after which the target counts as corrected; any failed write restores every row |
| TransactionLifecycle.Create | Areas/Accountant/Controllers/TransactionController.cs:250-491 | a rejected plan changes nothing. A planned post stores the two-line entry under the next id and advances the counter, or, when the row does not fit its columns, changes no row. A planned correction stores the reversal and the correcting entry under the next two ids, linked both ways, or, when either row does not fit, leaves every row as it was while the identity values handed out stay used. The accounts never change, and the ledger stays consistent |
| TransactionLifecycle.PostingMovesTwoBalances | Areas/Accountant/Controllers/TransactionController.cs:437-451 | a post adds the amount to the debits of the debited account and to the credits of the credited one, and changes no other account's totals |
| TransactionLifecycle.CorrectionReplacesTarget | Areas/Accountant/Controllers/TransactionController.cs:356-412 | on every account a correction cancels the target's lines and adds the correcting entry's lines in their place |
| TransactionLifecycle.CanUserDeleteTransaction | Areas/Accountant/Controllers/TransactionController.cs:726-747 | deletion is allowed exactly for the user who entered the transaction, on its own date, when it is neither a reversal nor a correction. The checks run in that order, and a refusal carries the message of the first one that fails |
| TransactionLifecycle.DeleteDecision | Areas/Accountant/Controllers/TransactionController.cs:694-717 | "not found" exactly when the company has no such transaction, and deletion exactly when the user check passes and no transaction refers to it. A failed user check is refused with that check's message, and a referenced transaction with the message about its corrections |
| TransactionLifecycle.DeleteConfirmed | Areas/Accountant/Controllers/TransactionController.cs:684-724 | the transaction goes, with its lines, exactly when the delete decision allows it; otherwise nothing changes, and the ledger stays consistent |
| TransactionLifecycle.DeleteKeepsCorrections | Areas/Accountant/Controllers/TransactionController.cs:709-720 | deleting an original never removes the evidence that another transaction was corrected, so a corrected target stays uncorrectable |
| TransactionLifecycle.CorrectAction | Areas/Accountant/Controllers/TransactionController.cs:494-525 | "not found" exactly when the id names no transaction of the company; for a transaction of the company, the "already corrected" screen exactly when some transaction corrects it, and otherwise the correction form for it |
| TransactionLifecycle.CorrectScreenMatchesCreateChecks | Areas/Accountant/Controllers/TransactionController.cs:506-521 | the Correct screen lets a correction start exactly when the create action would accept a valid correction form for that target |
| TransactionLifecycle.DetermineTransactionDirection | Areas/Accountant/Controllers/TransactionController.cs:750-771 | the proposed direction is never a transfer |
| TransactionLifecycle.DirectionIsMoneyInIff | Areas/Accountant/Controllers/TransactionController.cs:750-771 | money in is proposed exactly for a cash or bank account outside a correction, and for a Revenue account not named after cash or a bank |
| TransactionLifecycle.FirstDebitLine | Areas/Accountant/Controllers/TransactionController.cs:223 | the line found has a positive debit, and none is found exactly when no line has one |
| TransactionLifecycle.FirstCreditLine | Areas/Accountant/Controllers/TransactionController.cs:224 | the line found has a positive credit, and none is found exactly when no line has one |
| TransactionLifecycle.FirstDebitLineIsFirst | Areas/Accountant/Controllers/TransactionController.cs:223 | when line i is the first line with a positive debit, line i is the one found |
| TransactionLifecycle.FirstCreditLineIsFirst | Areas/Accountant/Controllers/TransactionController.cs:224 | when line i is the first line with a positive credit, line i is the one found |
| TransactionLifecycle.AccountById | Areas/Accountant/Controllers/TransactionController.cs:233 | the account a line's navigation property loads has the line's account id and comes from the table; none is loaded exactly when no account has that id |
| TransactionLifecycle.FormValid | Areas/Accountant/Controllers/TransactionController.cs:797-813 | the form's attributes: a description that is not blank, a selected account id from 1 to the largest 32-bit integer, and an amount of at least one cent |
| TransactionLifecycle.CreatePrefill | Areas/Accountant/Controllers/TransactionController.cs:199-240 | the form is a correction form exactly when a transaction to correct is named, and it keeps that id |
| TransactionLifecycle.PrefillOfPostedEntry | Areas/Accountant/Controllers/TransactionController.cs:208-240 | for a posted entry, the correction form selects the credited account with the debited one as contra and the same amount; booked as prefilled, it repeats the original's sides for money in and swaps them otherwise |
| ChartOfAccounts.UntrimmedCheckAdmitsDuplicate | Areas/Admin/Controllers/AccountsController.cs:97-110 | with "Cash" stored, the input " Cash" is valid and passes the check as written, and storing it trimmed gives the company two accounts with equal names |
| ChartOfAccounts.TrimmedCheckKeepsNamesDistinct | Areas/Admin/Controllers/AccountsController.cs:97-116 | a name that passes the check on its trimmed form keeps the company's names distinct when it is stored |
| ChartOfAccounts.ChecksAgreeOnUnpaddedNames | Areas/Admin/Controllers/AccountsController.cs:97-110 | for input without surrounding whitespace, the check as written and the trimmed check agree |
| ChartOfAccounts.SqlNameEquals | Areas/Admin/Controllers/AccountsController.cs:98 | two names are equal as SQL Server compares them: ASCII case is ignored, and so are trailing spaces |
| ChartOfAccounts.AccountNameValid | Areas/Admin/Controllers/AccountsController.cs:268-269 | the form's attributes: a name that is not blank and has at most 100 UTF-16 code units, as `StringLength` counts them |
| ChartOfAccounts.AstralNameLengthCountsTwice | Areas/Admin/Controllers/AccountsController.cs:269 | a name of 51 characters above U+FFFF is 102 code units long and is refused, while 50 of them fit the limit exactly |
| ChartOfAccounts.NameInUse | Areas/Admin/Controllers/AccountsController.cs:97-99 | the duplicate check as written: some account of the company, other than the one excepted, has a name that SQL Server finds equal to the name as typed |
| ChartOfAccounts.AccountIndex | Areas/Admin/Controllers/AccountsController.cs:158-162 | the position found holds the account with that id in that company, and none is found exactly when no such account exists |
| ChartOfAccounts.AccountExists | Areas/Admin/Controllers/AccountsController.cs:260-263 | the existence test agrees with the lookup the other actions use |
| ChartOfAccounts.CreateAccount | Areas/Admin/Controllers/AccountsController.cs:89-123 | a blank name fails with an unhandled error before validation and changes nothing. A valid name not taken in the company is stored trimmed under the next id; otherwise the form is redisplayed and nothing changes. Distinct names stay distinct, and the ledger stays consistent |
| ChartOfAccounts.FreshAccountHasNoLines | Fx9Kl2/Qw8Rt5Entity.cs:36 | the id the next account will receive has no lines, so a new account's statement shows zeros |
| ChartOfAccounts.EditAccount | Areas/Admin/Controllers/AccountsController.cs:152-201 | "not found" exactly when the ids disagree or the company has no such account. For an account that exists, a blank name fails with an unhandled error and changes nothing. An update happens exactly when the name is valid and no other account of the company has it, and it changes only that account's name (trimmed) and type. Distinct names stay distinct |
| ChartOfAccounts.RenameKeepsNamesDistinct | Areas/Admin/Controllers/AccountsController.cs:165-178 | a rename that passed the check, which excludes the account itself, keeps the company's names distinct |
| ChartOfAccounts.DeleteAccount | Areas/Admin/Controllers/AccountsController.cs:228-258 | "not found" exactly when the company has no such account; the account is removed exactly when no line uses it, and otherwise nothing changes |
| ChartOfAccounts.Details | Areas/Admin/Controllers/AccountsController.cs:45-70 | a statement exists exactly for an account of the company; its debits, credits and count are the sums over all lines on the account, and the balance is debits minus credits |
| ChartOfAccounts.DeletableAccountShowsZeros | Areas/Admin/Controllers/AccountsController.cs:240-244 | an account that may be deleted shows a zero balance and no transactions |

## Left out

- Identity, authorization and the signed-in user: the redirects for a missing user or company are not modelled. The user id and company id are parameters.
- TempData and ModelState messages: rejections are distinct result values. Only the delete guard carries its messages, because the code returns them as values.
- `DateTime.Now`, `DateTime.Today`, `EnteredAt` and the time of day: `today` and the transaction date are dates given as parameters, and the prefilled form leaves the date out.
- Write-off fields, invoice and PDF fields, and line ids: nothing in the core reads them.
- Index, search and Delete GET screens, and the account-list view models: display only.
- The display names the prefill loads for the view, and the remaining view-model plumbing.
- Culture formatting: amounts in the explanation use a plain "N2" layout, without the en-ZA group and decimal separators.
- Unicode case folding: `ToLower` and `ToLowerInvariant` change only the ASCII letters.
- String lengths are counted as .NET counts them, in UTF-16 code units (`Text.Utf16Length`), for the 100-character name limit and the 200- and 50-character description and reference columns. A .NET string may hold a lone surrogate; a Dafny `char` is a Unicode scalar value, so such strings are not modelled.
- Fractional cents: amounts are whole cents, so an amount of less than one cent cannot be posted.
- The model binder turns a blank account name into null, and `ToLower` on it throws before validation runs (AccountsController.cs lines 98 and 166). The model does not represent null; it returns `CreateFailed` or `EditFailed` for a blank name and changes nothing.
- Row order: the candidate query (TransactionMappingService.cs lines 217-219) has no `OrderBy`, so SQL Server may return the accounts in any order. The model always reads them in ascending id order: the ledger invariant `Store.Ledger.Valid` requires `AccountIdsAscending` in every state. So a tie between equal priorities (lines 196-198) always goes to the lowest id, and so does the fallback's first Asset account.
- Undefined `Direction` values: the `_` arms for an integer outside the enum (TransactionMappingService.cs lines 174, 268 and 384) cannot be expressed, because `Direction` is a closed datatype with three values.
- Null accounts and null names in the explanation (TransactionMappingService.cs lines 159-165): accounts are values in the model, and every name is a string.
- Exceptions: the mapping service's catch-all branches, the concurrency exception in Edit and the exception around account deletion are left out. They cannot arise in an in-memory model.
- Concurrency: two simultaneous corrections of one target are not modelled.
- TransactionLifecycle.PostEntry: requires a positive amount; `Create` enforces it through the form's validation, since the mapping service never checks the amount.
- TransactionLifecycle.PostCorrection: requires a positive amount, for the same reason.
- Failed writes: a row that does not fit its columns makes `SaveChangesAsync` throw.
  - On a normal post the exception is unhandled; the model returns `Rejected(StorageFailure)` and changes nothing.
  - A failed insert is modelled as taking no identity value. SQL Server may in fact consume one.
- ChartOfAccounts.CreateAccount: uses the trimmed duplicate check `NameInUseTrimmed`, not the check as written; see Findings.
- ChartOfAccounts.EditAccount: uses the trimmed duplicate check `NameInUseTrimmed`, not the check as written; see Findings.
- TransactionLifecycle.DetermineTransactionDirection: its own contract states only that the direction is never Transfer. The full case analysis is the lemma `DirectionIsMoneyInIff`.

## Findings

| source | as written | input that shows it | evidently intended | confidence | as-written member | corrected member |
|---|---|---|---|---|---|---|
| Areas/Admin/Controllers/AccountsController.cs:97-110 | The duplicate check compares the name as typed, but the account is stored under the trimmed name. Edit does the same at lines 165-177. | The company has an account "Cash"; create an account named " Cash" (leading space). The check finds no match, and a second account named "Cash" is stored. | The check compares the trimmed name, so no two accounts of a company have names the database finds equal. | not executed | ChartOfAccounts.UntrimmedCheckAdmitsDuplicate | ChartOfAccounts.TrimmedCheckKeepsNamesDistinct |
