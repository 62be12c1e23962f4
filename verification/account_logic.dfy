/**
 * Booking transaction amounts on accounts (MoneyManager.Business/Logic/AccountLogic.cs).
 *
 * A transaction is booked in legs. Each leg looks an account up by id (the
 * first match wins), turns the transaction's amount into a signed delta with
 * an amount function, adds it to that account's balance and marks the
 * transaction cleared. A transfer has a second leg on its target account,
 * handled before the leg on the charged account.
 *
 * The pure specification (`HandleAmount`, `AddAmount`, `RemoveAmount`) works
 * on a `Snapshot` of the account list and the transaction's `cleared` flag;
 * the `Ledger` class performs the same steps in place.
 */
module AccountLogic {
  import opened Model
  import Seqs

  /** Which of a transaction's accounts one leg of the booking touches. */
  datatype Leg = Charged | Target

  /** The account list together with the transaction's `cleared` flag. */
  datatype Snapshot = Snapshot(accounts: seq<Account>, cleared: bool)

  function LegAccountId(t: FinancialTransaction, leg: Leg): int {
    match leg
    case Charged => t.chargedAccountId
    case Target => t.targetAccountId
  }

  /** The position of the first account with the given id, as `FirstOrDefault` finds it. */
  function FindAccount(accounts: seq<Account>, id: int): (r: Option<nat>)
    ensures r.Some? ==> r.value < |accounts| && accounts[r.value].id == id
    ensures r.Some? ==> forall j :: 0 <= j < r.value ==> accounts[j].id != id
    ensures r.None? <==> forall j :: 0 <= j < |accounts| ==> accounts[j].id != id
  {
    if accounts == [] then None
    else if accounts[0].id == id then Some(0)
    else match FindAccount(accounts[1..], id)
      case None => None
      case Some(i) => Some(i + 1)
  }

  /** Two account lists that agree on everything except possibly the balances. */
  predicate SameAccounts(a: seq<Account>, b: seq<Account>) {
    && |a| == |b|
    && forall k :: 0 <= k < |a| ==> a[k].id == b[k].id && a[k].name == b[k].name
  }

  /** A lookup only depends on the ids, so changing balances does not move it. */
  lemma {:induction false} FindAccountIgnoresBalances(a: seq<Account>, b: seq<Account>, id: int)
    requires SameAccounts(a, b)
    ensures FindAccount(a, id) == FindAccount(b, id)
  {
    if a != [] && a[0].id != id {
      FindAccountIgnoresBalances(a[1..], b[1..], id);
    }
  }

  // The amount functions of the source: each maps the transaction's amount
  // to the delta of one leg.

  /** Charged leg when booking: an income raises the balance, anything else lowers it. */
  function AddChargedAmount(t: FinancialTransaction): int -> int {
    x => if t.transactionType == Income then x else -x
  }

  /** Charged leg when un-booking: the opposite of `AddChargedAmount`. */
  function RemoveChargedAmount(t: FinancialTransaction): int -> int {
    x => if t.transactionType == Income then -x else x
  }

  /** Target leg of a transfer when booking. */
  function AddTargetAmount(): int -> int {
    x => x
  }

  /** Target leg of a transfer when un-booking. */
  function RemoveTargetAmount(): int -> int {
    x => -x
  }

  /** Whether a leg applies to the account at position `k`. */
  predicate Hits(accounts: seq<Account>, t: FinancialTransaction, leg: Leg, k: nat) {
    t.clearTransactionNow && FindAccount(accounts, LegAccountId(t, leg)) == Some(k)
  }

  /** Whether a leg applies to some account at all. */
  predicate Found(accounts: seq<Account>, t: FinancialTransaction, leg: Leg) {
    t.clearTransactionNow && FindAccount(accounts, LegAccountId(t, leg)).Some?
  }

  /** `HandleTransactionAmount`: one leg of the booking. */
  function HandleAmount(s: Snapshot, t: FinancialTransaction, amountFunc: int -> int, leg: Leg): Snapshot {
    if !t.clearTransactionNow then s
    else
      match FindAccount(s.accounts, LegAccountId(t, leg))
      case None => s
      case Some(i) =>
        var account := s.accounts[i];
        Snapshot(s.accounts[i := account.(currentBalance := account.currentBalance + amountFunc(t.amount))], true)
  }

  /** `PrehandleAddIfTransfer`: a transfer first credits its target account. */
  function PrehandleAdd(s: Snapshot, t: FinancialTransaction): Snapshot {
    if t.transactionType == Transfer then HandleAmount(s, t, AddTargetAmount(), Target) else s
  }

  /** `PrehandleRemoveIfTransfer`: a transfer first debits its target account. */
  function PrehandleRemove(s: Snapshot, t: FinancialTransaction): Snapshot {
    if t.transactionType == Transfer then HandleAmount(s, t, RemoveTargetAmount(), Target) else s
  }

  /** `AddTransactionAmount`: book the transaction, without looking at `cleared`. */
  function AddAmount(s: Snapshot, t: FinancialTransaction): Snapshot {
    HandleAmount(PrehandleAdd(s, t), t, AddChargedAmount(t), Charged)
  }

  /** `RemoveTransactionAmount`: un-book the transaction if it is cleared. */
  function RemoveAmount(s: Snapshot, t: FinancialTransaction): Snapshot {
    if s.cleared then HandleAmount(PrehandleRemove(s, t), t, RemoveChargedAmount(t), Charged) else s
  }

  /** The balance change a leg makes at position `k` when its delta is `delta`. */
  function LegChange(accounts: seq<Account>, t: FinancialTransaction, leg: Leg, k: nat, delta: int): int {
    if Hits(accounts, t, leg, k) then delta else 0
  }

  /** Booking deltas: the target of a transfer gains the amount; the charged account gains an income and loses anything else. */
  function AddChange(accounts: seq<Account>, t: FinancialTransaction, k: nat): int {
    (if t.transactionType == Transfer then LegChange(accounts, t, Target, k, t.amount) else 0)
    + LegChange(accounts, t, Charged, k, if t.transactionType == Income then t.amount else -t.amount)
  }

  /** Un-booking deltas: exactly the negation of the booking deltas. */
  function RemoveChange(accounts: seq<Account>, t: FinancialTransaction, k: nat): int {
    (if t.transactionType == Transfer then LegChange(accounts, t, Target, k, -t.amount) else 0)
    + LegChange(accounts, t, Charged, k, if t.transactionType == Income then -t.amount else t.amount)
  }

  /**
   * One leg changes only the looked-up account, by exactly the delta, and
   * marks the transaction cleared; without `ClearTransactionNow` or without a
   * matching account it changes nothing.
   */
  lemma HandleAmountEffect(s: Snapshot, t: FinancialTransaction, amountFunc: int -> int, leg: Leg)
    ensures var r := HandleAmount(s, t, amountFunc, leg);
      && SameAccounts(s.accounts, r.accounts)
      && (forall k :: 0 <= k < |s.accounts| ==>
            r.accounts[k].currentBalance
              == s.accounts[k].currentBalance + LegChange(s.accounts, t, leg, k, amountFunc(t.amount)))
      && r.cleared == (s.cleared || Found(s.accounts, t, leg))
  {
  }

  /** Booking: what `AddTransactionAmount` does to every account and to the `cleared` flag. */
  lemma AddAmountEffect(s: Snapshot, t: FinancialTransaction)
    ensures var r := AddAmount(s, t);
      && SameAccounts(s.accounts, r.accounts)
      && (forall k :: 0 <= k < |s.accounts| ==>
            r.accounts[k].currentBalance == s.accounts[k].currentBalance + AddChange(s.accounts, t, k))
      && r.cleared == (s.cleared || Found(s.accounts, t, Charged)
                       || (t.transactionType == Transfer && Found(s.accounts, t, Target)))
  {
    var m := PrehandleAdd(s, t);
    HandleAmountEffect(s, t, AddTargetAmount(), Target);
    FindAccountIgnoresBalances(s.accounts, m.accounts, t.chargedAccountId);
    HandleAmountEffect(m, t, AddChargedAmount(t), Charged);
  }

  /** Un-booking: what `RemoveTransactionAmount` does; nothing at all unless the transaction is cleared. */
  lemma RemoveAmountEffect(s: Snapshot, t: FinancialTransaction)
    ensures !s.cleared ==> RemoveAmount(s, t) == s
    ensures var r := RemoveAmount(s, t);
      && SameAccounts(s.accounts, r.accounts)
      && (forall k :: 0 <= k < |s.accounts| ==>
            r.accounts[k].currentBalance
              == s.accounts[k].currentBalance + (if s.cleared then RemoveChange(s.accounts, t, k) else 0))
      && r.cleared == s.cleared
  {
    if s.cleared {
      var m := PrehandleRemove(s, t);
      HandleAmountEffect(s, t, RemoveTargetAmount(), Target);
      FindAccountIgnoresBalances(s.accounts, m.accounts, t.chargedAccountId);
      HandleAmountEffect(m, t, RemoveChargedAmount(t), Charged);
    }
  }

  /** Without `ClearTransactionNow`, neither booking nor un-booking changes a balance or the `cleared` flag. */
  lemma NothingBookedWithoutClearNow(s: Snapshot, t: FinancialTransaction)
    requires !t.clearTransactionNow
    ensures AddAmount(s, t) == s
    ensures RemoveAmount(s, t) == s
  {
  }

  /** Two account lists with the same accounts and the same balances are equal. */
  lemma SameBalancesEqual(a: seq<Account>, b: seq<Account>)
    requires SameAccounts(a, b)
    requires forall k :: 0 <= k < |a| ==> a[k].currentBalance == b[k].currentBalance
    ensures a == b
  {
    assert forall k :: 0 <= k < |a| ==> a[k] == b[k];
  }

  /** Booking and then un-booking a transaction leaves every balance as it was. */
  lemma AddThenRemoveRestoresBalances(s: Snapshot, t: FinancialTransaction)
    ensures RemoveAmount(AddAmount(s, t), t).accounts == s.accounts
  {
    var a := AddAmount(s, t);
    AddAmountEffect(s, t);
    RemoveAmountEffect(a, t);
    forall k | 0 <= k < |s.accounts|
      ensures RemoveAmount(a, t).accounts[k].currentBalance == s.accounts[k].currentBalance
    {
      FindAccountIgnoresBalances(s.accounts, a.accounts, t.chargedAccountId);
      FindAccountIgnoresBalances(s.accounts, a.accounts, t.targetAccountId);
      if !a.cleared {
        assert AddChange(s.accounts, t, k) == 0;
      }
    }
    SameBalancesEqual(RemoveAmount(a, t).accounts, s.accounts);
  }

  /** Un-booking a cleared transaction and booking it again leaves every balance as it was. */
  lemma RemoveThenAddRestoresBalances(s: Snapshot, t: FinancialTransaction)
    requires s.cleared
    ensures AddAmount(RemoveAmount(s, t), t).accounts == s.accounts
  {
    var m := RemoveAmount(s, t);
    RemoveAmountEffect(s, t);
    AddAmountEffect(m, t);
    forall k | 0 <= k < |s.accounts|
      ensures AddAmount(m, t).accounts[k].currentBalance == s.accounts[k].currentBalance
    {
      FindAccountIgnoresBalances(s.accounts, m.accounts, t.chargedAccountId);
      FindAccountIgnoresBalances(s.accounts, m.accounts, t.targetAccountId);
    }
    SameBalancesEqual(AddAmount(m, t).accounts, s.accounts);
  }

  /**
   * Booking is not guarded by `cleared`: booking an expense twice lowers the
   * charged account twice.
   */
  lemma AddTwiceBooksTwice(s: Snapshot, t: FinancialTransaction, k: nat)
    requires t.transactionType == Expense && Hits(s.accounts, t, Charged, k)
    ensures k < |s.accounts|
    ensures AddAmount(AddAmount(s, t), t).accounts[k].currentBalance
            == s.accounts[k].currentBalance - 2 * t.amount
  {
    var a := AddAmount(s, t);
    AddAmountEffect(s, t);
    FindAccountIgnoresBalances(s.accounts, a.accounts, t.chargedAccountId);
    AddAmountEffect(a, t);
  }

  /**
   * Transfers are not all-or-nothing: with the target account missing, the
   * charged account still loses the amount and the transaction is cleared.
   */
  lemma TransferWithMissingTarget(s: Snapshot, t: FinancialTransaction, k: nat)
    requires t.transactionType == Transfer && Hits(s.accounts, t, Charged, k)
    requires FindAccount(s.accounts, t.targetAccountId).None?
    ensures k < |s.accounts|
    ensures AddAmount(s, t).accounts[k].currentBalance == s.accounts[k].currentBalance - t.amount
    ensures AddAmount(s, t).cleared
    ensures forall j :: 0 <= j < |s.accounts| && j != k ==>
              AddAmount(s, t).accounts[j] == s.accounts[j]
  {
    AddAmountEffect(s, t);
  }

  /** Whether an account survives the deletion of id `id`. */
  function KeptBy(id: int): Account -> bool {
    (a: Account) => a.id != id
  }

  /** The account a lookup of `id` finds, if any. */
  function LookUp(accounts: seq<Account>, id: int): Option<Account> {
    match FindAccount(accounts, id)
    case None => None
    case Some(i) => Some(accounts[i])
  }

  /**
   * Filtering out the accounts with id `id` keeps the order of the others, so
   * a lookup of any other id finds the same account as before.
   */
  lemma {:induction false} FilterKeepsLookup(accounts: seq<Account>, id: int, other: int)
    requires other != id
    ensures LookUp(Seqs.Filter(accounts, KeptBy(id)), other) == LookUp(accounts, other)
  {
    if accounts != [] {
      var head := accounts[0];
      var tail := accounts[1..];
      var rest := Seqs.Filter(tail, KeptBy(id));
      FilterKeepsLookup(tail, id, other);
      if head.id != id {
        var r := [head] + rest;
        assert Seqs.Filter(accounts, KeptBy(id)) == r;
        assert r[0] == head && r[1..] == rest;
      } else {
        assert Seqs.Filter(accounts, KeptBy(id)) == rest;
      }
    }
  }

  /** The accounts that remain after deleting every account with id `id`. */
  function WithoutAccount(accounts: seq<Account>, id: int): (r: seq<Account>)
    ensures forall a :: a in r <==> a in accounts && a.id != id
    ensures forall a: Account :: a.id != id ==> multiset(r)[a] == multiset(accounts)[a]
    ensures forall other :: other != id ==>
              && (FindAccount(r, other).Some? <==> FindAccount(accounts, other).Some?)
              && (FindAccount(r, other).Some? ==> r[FindAccount(r, other).value] == accounts[FindAccount(accounts, other).value])
  {
    var r := Seqs.Filter(accounts, KeptBy(id));
    assert forall a :: (a in r <==> multiset(r)[a] > 0) && (a in accounts <==> multiset(accounts)[a] > 0);
    assert forall other :: other != id ==>
             && (FindAccount(r, other).Some? <==> FindAccount(accounts, other).Some?)
             && (FindAccount(r, other).Some? ==> r[FindAccount(r, other).value] == accounts[FindAccount(accounts, other).value])
    by {
      forall other | other != id
        ensures && (FindAccount(r, other).Some? <==> FindAccount(accounts, other).Some?)
                && (FindAccount(r, other).Some? ==> r[FindAccount(r, other).value] == accounts[FindAccount(accounts, other).value])
      {
        FilterKeepsLookup(accounts, id, other);
        assert LookUp(r, other) == LookUp(accounts, other);
      }
    }
    r
  }

  /**
   * The account list of `AccountDataAccess` together with the booking
   * operations of `AccountLogic`, which work on it.
   */
  class Ledger {
    var allAccounts: seq<Account>

    constructor (accounts: seq<Account>)
      ensures allAccounts == accounts
    {
      allAccounts := accounts;
    }

    function State(t: FinancialTransaction): Snapshot
      reads this, t
    {
      Snapshot(allAccounts, t.cleared)
    }

    /** `HandleTransactionAmount`. */
    method HandleTransactionAmount(t: FinancialTransaction, amountFunc: int -> int, leg: Leg)
      modifies this, t
      ensures State(t) == HandleAmount(old(State(t)), t, amountFunc, leg)
    {
      if t.clearTransactionNow {
        var found := FindAccount(allAccounts, LegAccountId(t, leg));
        if found.None? {
          return;
        }
        var i := found.value;
        var account := allAccounts[i];
        var amount := amountFunc(t.amount);
        allAccounts := allAccounts[i := account.(currentBalance := account.currentBalance + amount)];
        t.cleared := true;
      }
    }

    /** `PrehandleAddIfTransfer`. */
    method PrehandleAddIfTransfer(t: FinancialTransaction)
      modifies this, t
      ensures State(t) == PrehandleAdd(old(State(t)), t)
    {
      if t.transactionType == Transfer {
        HandleTransactionAmount(t, AddTargetAmount(), Target);
      }
    }

    /** `PrehandleRemoveIfTransfer`. */
    method PrehandleRemoveIfTransfer(t: FinancialTransaction)
      modifies this, t
      ensures State(t) == PrehandleRemove(old(State(t)), t)
    {
      if t.transactionType == Transfer {
        HandleTransactionAmount(t, RemoveTargetAmount(), Target);
      }
    }

    /** `AddTransactionAmount`: its effect on every account is `AddAmountEffect`. */
    method AddTransactionAmount(t: FinancialTransaction)
      modifies this, t
      ensures State(t) == AddAmount(old(State(t)), t)
      ensures |allAccounts| == |old(allAccounts)|
      ensures forall k :: 0 <= k < |allAccounts| ==>
                allAccounts[k].currentBalance
                  == old(allAccounts[k].currentBalance) + AddChange(old(allAccounts), t, k)
    {
      ghost var s := State(t);
      PrehandleAddIfTransfer(t);
      HandleTransactionAmount(t, AddChargedAmount(t), Charged);
      AddAmountEffect(s, t);
    }

    /** `RemoveTransactionAmount`: its effect on every account is `RemoveAmountEffect`. */
    method RemoveTransactionAmount(t: FinancialTransaction)
      modifies this, t
      ensures State(t) == RemoveAmount(old(State(t)), t)
      ensures !old(t.cleared) ==> allAccounts == old(allAccounts) && t.cleared == old(t.cleared)
      ensures |allAccounts| == |old(allAccounts)|
      ensures forall k :: 0 <= k < |allAccounts| ==>
                allAccounts[k].currentBalance
                  == old(allAccounts[k].currentBalance)
                     + (if old(t.cleared) then RemoveChange(old(allAccounts), t, k) else 0)
    {
      ghost var s := State(t);
      if t.cleared {
        PrehandleRemoveIfTransfer(t);
        HandleTransactionAmount(t, RemoveChargedAmount(t), Charged);
      }
      RemoveAmountEffect(s, t);
    }

    /**
     * `DeleteAccount`: the answer to the confirmation prompt is the parameter
     * `confirmed`; without it nothing is removed. Balances of the remaining
     * accounts are not touched.
     */
    method DeleteAccount(account: Account, confirmed: bool)
      modifies this
      ensures !confirmed ==> allAccounts == old(allAccounts)
      ensures confirmed ==> allAccounts == WithoutAccount(old(allAccounts), account.id)
    {
      if confirmed {
        allAccounts := WithoutAccount(allAccounts, account.id);
      }
    }
  }
}
