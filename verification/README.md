# MoneyFox ledger core in Dafny

This project models three pieces of the MoneyFox / MoneyManager personal-finance app:

- **Booking transaction amounts on accounts** (`AccountLogic`). A financial transaction (Expense, Income or Transfer) is booked on its charged account and, for a transfer, first on its target account. Un-booking reverses the signs and only runs for a cleared transaction. Each leg does four things:
  - it looks the account up by id, and the first match wins;
  - it skips silently when no account has that id;
  - it adds a signed delta to the balance;
  - it marks the transaction `Cleared`.

  Nothing happens unless the transaction's `ClearTransactionNow` is set. Deleting an account happens only after a confirmation.
- **The total balance** (`TotalBalance`). The view model stores the sum of all account balances, or 0 when there is no account collection.
- **The category spreading statistic** (`CategorySpreading`). It works in these steps:
  - it selects the expenses and incomes of an inclusive range of days;
  - it groups them by category name, with the empty name for payments without a category;
  - it values each group at its expenses minus its incomes;
  - it ranks the positive groups in descending order and lists the top six;
  - it appends an "Others" item for the positive remainder.

Money is modelled as integer cents. The source carries amounts in `double`, but only adds and subtracts them.

Files:
- `model.dfy` (module `Model`): the `Account` datatype, the `FinancialTransaction` class and `Option`. The class has constant fields and one mutable field, `cleared`.
- `seqs.dfy` (module `Seqs`): `Filter`, which stands for LINQ `Where`, with its multiset contract, and small sequence lemmas.
- `account_logic.dfy` (module `AccountLogic`): the pure specification of booking on a `Snapshot`, made of the account list and the transaction's `cleared` flag. It also holds the lemmas about booking and the `Ledger` class. `Ledger` performs the same steps in place on its `allAccounts` field and on the transaction object.
- `total_balance.dfy` (module `TotalBalance`): the sum of balances, how a booking moves it, and the `TotalBalanceViewModel` class.
- `category_spreading.dfy` (module `CategorySpreading`): the statistic pipeline as functions, the lemmas about its result, and the in-place `AddOtherItem` on a `StatisticList` object.

The ledger code behaves as follows, and the model keeps this behaviour:
- booking is not idempotent on `cleared`: `AddTransactionAmount` books a transaction again even when it is already cleared;
- transfers are not all-or-nothing: a leg whose account is missing is skipped while the other leg still applies;
- un-booking does not reset `cleared`;
- deleting an account reverses no balances.

`AddTwiceBooksTwice` and `TransferWithMissingTarget` state the first two. `RemoveAmountEffect` states that `cleared` stays as it was on un-booking. `Ledger.DeleteAccount` touches only the account list.

## Model

| member | source | states |
|---|---|---|
| `AccountLogic.FindAccount` | MoneyManager.Business/Logic/AccountLogic.cs:127-139 | The result is the position of the first account with the id: no earlier account has it. `None` is returned exactly when no account has the id. |
| `AccountLogic.HandleAmountEffect` | MoneyManager.Business/Logic/AccountLogic.cs:100-116 | One leg changes only the looked-up account, by exactly the delta. Ids and names stay the same. It sets `cleared` exactly when `ClearTransactionNow` holds and the account exists. Otherwise nothing changes. |
| `AccountLogic.NothingBookedWithoutClearNow` | MoneyManager.Business/Logic/AccountLogic.cs:100-104 | Without `ClearTransactionNow`, booking and un-booking leave balances and `cleared` unchanged. |
| `AccountLogic.AddAmountEffect` | MoneyManager.Business/Logic/AccountLogic.cs:79-125 | Booking an Income raises the charged account by the amount. An Expense or Transfer lowers it by the amount. A Transfer also raises the target account by the amount. Only found accounts change. `cleared` becomes true when some leg applied. |
| `AccountLogic.RemoveAmountEffect` | MoneyManager.Business/Logic/AccountLogic.cs:64-98 | Un-booking an uncleared transaction changes nothing. Otherwise Income moves the charged account by -amount, and Expense and Transfer move it by +amount. A Transfer's target moves by -amount. `cleared` keeps its value. |
| `AccountLogic.AddThenRemoveRestoresBalances` | MoneyManager.Business/Logic/AccountLogic.cs:64-125 | Booking then un-booking restores every balance, for any transaction and any account list. |
| `AccountLogic.RemoveThenAddRestoresBalances` | MoneyManager.Business/Logic/AccountLogic.cs:64-125 | For a cleared transaction, un-booking then booking restores every balance. |
| `AccountLogic.AddTwiceBooksTwice` | MoneyManager.Business/Logic/AccountLogic.cs:79-89 | Booking is not guarded by `cleared`: booking an expense twice lowers the charged account by twice the amount. |
| `AccountLogic.TransferWithMissingTarget` | MoneyManager.Business/Logic/AccountLogic.cs:79-125 | When a transfer's target account is missing, the charged account still loses the amount and the transaction is cleared. No other account changes. |
| `AccountLogic.FilterKeepsLookup` | MoneyManager.Business/Logic/AccountLogic.cs:51 | After removing the accounts with one id, a lookup of any other id finds an account exactly when it did before, and finds the same account as before. |
| `AccountLogic.WithoutAccount` | MoneyManager.Business/Logic/AccountLogic.cs:51 | After deletion, no account with the id remains. Every other account is kept as often as it occurred, with its balance untouched. A lookup of any other id finds exactly the account it found before. |
| `AccountLogic.Ledger.HandleTransactionAmount` | MoneyManager.Business/Logic/AccountLogic.cs:100-116 | The in-place leg leaves the account list and `cleared` as `HandleAmount` specifies. |
| `AccountLogic.Ledger.PrehandleAddIfTransfer` | MoneyManager.Business/Logic/AccountLogic.cs:118-125 | Only a transfer credits its target account, through one leg. |
| `AccountLogic.Ledger.PrehandleRemoveIfTransfer` | MoneyManager.Business/Logic/AccountLogic.cs:91-98 | Only a transfer debits its target account, through one leg. |
| `AccountLogic.Ledger.AddTransactionAmount` | MoneyManager.Business/Logic/AccountLogic.cs:79-89 | The new balance of each account is its old balance plus the booking delta of `AddAmountEffect`. The new state is `AddAmount` of the old one. |
| `AccountLogic.Ledger.RemoveTransactionAmount` | MoneyManager.Business/Logic/AccountLogic.cs:64-77 | An uncleared transaction leaves accounts and flag unchanged. Otherwise each balance moves by the un-booking delta. |
| `AccountLogic.Ledger.DeleteAccount` | MoneyManager.Business/Logic/AccountLogic.cs:47-54 | Without confirmation, the account list is unchanged. With it, the list becomes `WithoutAccount` of the old list: the id is gone, every other account is kept as often as before, and every lookup of another id finds the same account. |
| `TotalBalance.SumOfBalancesUpdate` | MoneyManager.Business/ViewModels/TotalBalanceViewModel.cs:29-31 | Changing one account's balance moves the total by exactly that change. |
| `TotalBalance.HandleAmountTotal` | MoneyManager.Business/Logic/AccountLogic.cs:108-110 | One leg moves the total by its delta when it applies, and leaves it unchanged otherwise. |
| `TotalBalance.TransferKeepsTotal` | MoneyManager.Business/Logic/AccountLogic.cs:79-125 | When both of a transfer's accounts exist, booking and un-booking leave the total balance unchanged. |
| `TotalBalance.TotalBalanceViewModel.UpdateBalance` | MoneyManager.Business/ViewModels/TotalBalanceViewModel.cs:27-32 | `TotalBalance` becomes the sum of all balances, or 0 for a null collection. An empty collection gives 0. The value depends only on the accounts, so a repeated call gives the same value. Only the view model's field is written. |
| `CategorySpreading.SelectPayments` | Src/MoneyFox.Business/StatisticDataProvider/CategorySpreadingDataProvider.cs:27-31 | Each Expense or Income payment whose day lies in [start day, end day] is kept as often as it occurs. Every other payment is dropped. |
| `CategorySpreading.GroupLabels` | Src/MoneyFox.Business/StatisticDataProvider/CategorySpreadingDataProvider.cs:35-40 | The group keys are distinct. A name is a key exactly when some payment has that category name, with "" for payments without a category. |
| `CategorySpreading.GroupedIsGrouping` | Src/MoneyFox.Business/StatisticDataProvider/CategorySpreadingDataProvider.cs:35-46 | There is one item per category name, with distinct names. Each item is valued at the signed sum of its group's payments. Every payment's name has an item. |
| `CategorySpreading.GroupingKeepsTotal` | Src/MoneyFox.Business/StatisticDataProvider/CategorySpreadingDataProvider.cs:35-46 | The group values add up to all expenses minus all incomes, so grouping loses nothing and counts nothing twice. |
| `CategorySpreading.InsertDescending` | Src/MoneyFox.Business/StatisticDataProvider/CategorySpreadingDataProvider.cs:48 | Insertion adds exactly one item, as a multiset, and adds its value to the sum. |
| `CategorySpreading.InsertKeepsDescending` | Src/MoneyFox.Business/StatisticDataProvider/CategorySpreadingDataProvider.cs:48 | Insertion keeps a descending list descending. |
| `CategorySpreading.SortDescending` | Src/MoneyFox.Business/StatisticDataProvider/CategorySpreadingDataProvider.cs:48 | The result is a permutation of the input, as a multiset, with the same sum. |
| `CategorySpreading.SortIsDescending` | Src/MoneyFox.Business/StatisticDataProvider/CategorySpreadingDataProvider.cs:48 | The sorted list is in non-increasing order of value. |
| `CategorySpreading.RankFacts` | Src/MoneyFox.Business/StatisticDataProvider/CategorySpreadingDataProvider.cs:47-49 | The ranked list is descending and has no duplicates. It holds exactly the positive items, each positive, with the same sum. |
| `CategorySpreading.RankedFacts` | Src/MoneyFox.Business/StatisticDataProvider/CategorySpreadingDataProvider.cs:35-49 | `tempStatisticList` holds exactly the positive groups, each once and in descending order. |
| `CategorySpreading.RemainingIsRest` | Src/MoneyFox.Business/StatisticDataProvider/CategorySpreadingDataProvider.cs:84-86 | The items the `Contains` test excludes are exactly the items after the taken prefix. |
| `CategorySpreading.TopWithOthersShape` | Src/MoneyFox.Business/StatisticDataProvider/CategorySpreadingDataProvider.cs:51-95 | With at most six ranked items, all are returned. With more, the result is the first six plus "Others", valued at the sum of the rest. |
| `CategorySpreading.SpreadingShape` | Src/MoneyFox.Business/StatisticDataProvider/CategorySpreadingDataProvider.cs:33-57 | The same holds for the whole statistic of a payment list. |
| `CategorySpreading.SpreadingBounded` | Src/MoneyFox.Business/StatisticDataProvider/CategorySpreadingDataProvider.cs:51-94 | The result has at most seven items. It has seven exactly when more than six positive groups exist, and then the seventh is "Others". |
| `CategorySpreading.SpreadingPositive` | Src/MoneyFox.Business/StatisticDataProvider/CategorySpreadingDataProvider.cs:47-94 | Every item of the result, "Others" included, has a strictly positive value. |
| `CategorySpreading.SpreadingDescending` | Src/MoneyFox.Business/StatisticDataProvider/CategorySpreadingDataProvider.cs:48 | The category items are in non-increasing order of value. |
| `CategorySpreading.PrefixHoldsLargest` | Src/MoneyFox.Business/StatisticDataProvider/CategorySpreadingDataProvider.cs:48-51 | Each of the first n ranked items is a positive item. Every positive item outside them is worth no more than each of them. |
| `CategorySpreading.SpreadingListsLargestGroups` | Src/MoneyFox.Business/StatisticDataProvider/CategorySpreadingDataProvider.cs:47-51 | The listed categories are positive groups. No unlisted positive group is worth more than a listed one. |
| `CategorySpreading.SpreadingKeepsTotal` | Src/MoneyFox.Business/StatisticDataProvider/CategorySpreadingDataProvider.cs:47-93 | The result values add up to the sum of all positive group values. |
| `CategorySpreading.AddOtherItem` | Src/MoneyFox.Business/StatisticDataProvider/CategorySpreadingDataProvider.cs:73-95 | The in-place append leaves the list as `WithOthers` specifies: unchanged below six items, else "Others" is appended only for a positive remainder. |
| `CategorySpreading.GetSpreadingStatisticItems` | Src/MoneyFox.Business/StatisticDataProvider/CategorySpreadingDataProvider.cs:33-57 | The returned list is the statistic `Spreading` of the payments. |
| `CategorySpreading.GetValues` | Src/MoneyFox.Business/StatisticDataProvider/CategorySpreadingDataProvider.cs:27-31 | The result is the statistic of the selected payments of the timeframe. |

## Left out

- Floating point: balances and amounts are integer cents, so `double` rounding is not modelled.
- `SetLabel` is not modelled: it appends the currency text and the rounded percentage to each label. The ": value" suffix of the "Others" label is left out too. Both are formatting.
- Persistence is left out: `accountData.Update` and `transactionData.Update`, the SQLite category store and the repository `GetList` query. The account list and the payment repository are plain sequences.
- The service-locator lookups are left out. The account collection of `TotalBalanceViewModel` is a parameter, where `None` stands for null.
- `TransactionLogic.DeleteAssociatedTransactionsFromDatabase` and `Utilities.IsDeletionConfirmed` are not part of this model. The confirmation is the boolean parameter of `DeleteAccount`.
- `AccountDataAccess.Delete` is not part of this model. It is modelled as removing every account with the deleted account's id.
- Ledger.HandleTransactionAmount: the account collection is never null in the model. In the source, `FirstOrDefault` on a null `AllAccounts` throws before any balance changes, when `ClearTransactionNow` is set. The same holds for `AddTransactionAmount`, `RemoveTransactionAmount` and the two prehandle methods, which go through it.
- Accounts are values in the ledger's list, not shared objects. The model does not capture two list entries that are the same object, or updates made through other references to an account.
- `GoToAddAccount` and `RefreshRelatedTransactions` are left out: they are navigation and list refresh only.
- Recurring payments, the payment list view model, the Android activities and fragments, and the settings tiles are left out. They are outside the modelled core.
- Concurrency and the `async` dialog flow are left out.
- AddOtherItem: `statisticList.Contains(x)` compares item references in the source, while `Remaining` compares items by value. The two agree on the ranked groups `AddOtherItem` is given, because their category names are distinct (`RemainingIsRest`). On a list holding two equal items they differ.
- SortDescending: no lemma states that it is stable, as `OrderByDescending` is. It is stable by construction, because an item goes in front of equal values that followed it.
