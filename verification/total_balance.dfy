/**
 * The total over all account balances shown by
 * MoneyManager.Business/ViewModels/TotalBalanceViewModel.cs, and how the
 * bookkeeping of `AccountLogic` moves it.
 */
module TotalBalance {
  import opened Model
  import AccountLogic

  /** The sum of the balances of all accounts (`AllAccounts.Sum(x => x.CurrentBalance)`). */
  function SumOfBalances(accounts: seq<Account>): int {
    if accounts == [] then 0 else accounts[0].currentBalance + SumOfBalances(accounts[1..])
  }

  /** Changing one account's balance moves the sum by exactly that change. */
  lemma {:induction false} SumOfBalancesUpdate(accounts: seq<Account>, i: nat, a: Account)
    requires i < |accounts|
    ensures SumOfBalances(accounts[i := a])
            == SumOfBalances(accounts) - accounts[i].currentBalance + a.currentBalance
  {
    if i > 0 {
      assert accounts[i := a][1..] == accounts[1..][i - 1 := a];
      SumOfBalancesUpdate(accounts[1..], i - 1, a);
    }
  }

  /** One leg of a booking moves the total by its delta when it applies, and not at all otherwise. */
  lemma HandleAmountTotal(s: AccountLogic.Snapshot, t: FinancialTransaction, amountFunc: int -> int,
                          leg: AccountLogic.Leg)
    ensures SumOfBalances(AccountLogic.HandleAmount(s, t, amountFunc, leg).accounts)
            == SumOfBalances(s.accounts)
               + (if AccountLogic.Found(s.accounts, t, leg) then amountFunc(t.amount) else 0)
  {
    if AccountLogic.Found(s.accounts, t, leg) {
      var i := AccountLogic.FindAccount(s.accounts, AccountLogic.LegAccountId(t, leg)).value;
      var account := s.accounts[i];
      SumOfBalancesUpdate(s.accounts, i,
                          account.(currentBalance := account.currentBalance + amountFunc(t.amount)));
    }
  }

  /**
   * A transfer whose two accounts both exist moves money between them and
   * leaves the total unchanged, when booked and when un-booked.
   */
  lemma TransferKeepsTotal(s: AccountLogic.Snapshot, t: FinancialTransaction)
    requires t.transactionType == Transfer
    requires AccountLogic.FindAccount(s.accounts, t.chargedAccountId).Some?
    requires AccountLogic.FindAccount(s.accounts, t.targetAccountId).Some?
    ensures SumOfBalances(AccountLogic.AddAmount(s, t).accounts) == SumOfBalances(s.accounts)
    ensures SumOfBalances(AccountLogic.RemoveAmount(s, t).accounts) == SumOfBalances(s.accounts)
  {
    var m := AccountLogic.PrehandleAdd(s, t);
    AccountLogic.HandleAmountEffect(s, t, AccountLogic.AddTargetAmount(), AccountLogic.Target);
    AccountLogic.FindAccountIgnoresBalances(s.accounts, m.accounts, t.chargedAccountId);
    HandleAmountTotal(s, t, AccountLogic.AddTargetAmount(), AccountLogic.Target);
    HandleAmountTotal(m, t, AccountLogic.AddChargedAmount(t), AccountLogic.Charged);
    if s.cleared {
      var n := AccountLogic.PrehandleRemove(s, t);
      AccountLogic.HandleAmountEffect(s, t, AccountLogic.RemoveTargetAmount(), AccountLogic.Target);
      AccountLogic.FindAccountIgnoresBalances(s.accounts, n.accounts, t.chargedAccountId);
      HandleAmountTotal(s, t, AccountLogic.RemoveTargetAmount(), AccountLogic.Target);
      HandleAmountTotal(n, t, AccountLogic.RemoveChargedAmount(t), AccountLogic.Charged);
    }
  }

  /**
   * The view model that shows the total balance. The account collection it
   * reads comes from a service locator in the source and is a parameter here;
   * `None` stands for a collection that is null.
   */
  class TotalBalanceViewModel {
    var totalBalance: int

    constructor ()
      ensures totalBalance == 0
    {
      totalBalance := 0;
    }

    /** `UpdateBalance`: the total of all balances, or 0 when there is no account collection. */
    method UpdateBalance(allAccounts: Option<seq<Account>>)
      modifies this
      ensures allAccounts.None? ==> totalBalance == 0
      ensures allAccounts.Some? ==> totalBalance == SumOfBalances(allAccounts.value)
    {
      totalBalance := if allAccounts.Some? then SumOfBalances(allAccounts.value) else 0;
    }
  }
}
