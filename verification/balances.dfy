/**
 * The `POST /balances/deposit/:userId` handler. Its error branches send a
 * reply but do not return, so the reply it reports and the write it makes are
 * modelled separately: the reply is the first error sent, and the balance
 * write runs whenever the profile exists and the amount is a number.
 */
module Balances {
  import opened Wrappers
  import opened Store
  import opened Queries

  /** `Number(req.query.amount)`: not a number, or an integer amount in minor units. */
  datatype Amount = NaN | Num(value: int)

  /**
   * The error replies the handler sends: "Invalid amount", "Not a valid
   * client ID" and "Deposit is larger than 25% of unpaid jobs". Success
   * replies "Deposit processed succesfully".
   */
  datatype DepositError = InvalidAmount | NotValidClient | OverLimit

  /** `amount * 4 > sumUnpaid`; a NaN amount compares false. */
  predicate OverQuarter(amount: Amount, sumUnpaid: int) {
    amount.Num? && amount.value * 4 > sumUnpaid
  }

  /**
   * The guard as a threshold: a numeric amount is refused exactly when it
   * exceeds a quarter of the unpaid total rounded down, and NaN never is.
   */
  lemma QuarterGuardThreshold(a: int, sumUnpaid: int)
    ensures OverQuarter(Num(a), sumUnpaid) <==> a > sumUnpaid / 4
    ensures !OverQuarter(NaN, sumUnpaid)
  {
    var k := sumUnpaid / 4;
    assert sumUnpaid == 4 * k + sumUnpaid % 4 && 0 <= sumUnpaid % 4 < 4;
    if a > k {
      assert 4 * a >= 4 * k + 4;
    } else {
      assert 4 * a <= 4 * k;
    }
  }

  /** The reply the caller receives: the first error branch taken, else success. */
  function DepositReport(l: Ledger, userId: ProfileId, amount: Amount): (o: Outcome<DepositError>)
    ensures o.Pass? ==> userId in l.profiles && IsClient(l.profiles[userId])
    ensures o.Pass? ==> amount.Num? && 4 * amount.value <= SumUnpaid(l, userId)
  {
    if amount.NaN? then Fail(InvalidAmount)
    else if userId !in l.profiles || !IsClient(l.profiles[userId]) then Fail(NotValidClient)
    else if OverQuarter(amount, SumUnpaid(l, userId)) then Fail(OverLimit)
    else Pass
  }

  /**
   * The balance write `client.balance + amount`. It is skipped only when the
   * profile lookup found nothing (reading its balance throws) or when the
   * amount is NaN, which an integer balance cannot hold.
   */
  function DepositWrite(l: Ledger, userId: ProfileId, amount: Amount): (r: Ledger)
    ensures r.jobs == l.jobs && r.contracts == l.contracts
    ensures r.profiles.Keys == l.profiles.Keys
    ensures forall p :: p in l.profiles && p != userId ==> r.profiles[p] == l.profiles[p]
  {
    if userId in l.profiles && amount.Num? then
      SetBalance(l, userId, l.profiles[userId].balance + amount.value)
    else l
  }

  /** The handler as written: the reply and the write, independently. */
  function Deposit(l: Ledger, userId: ProfileId, amount: Amount): (s: Step<DepositError>)
    ensures s.after.jobs == l.jobs && s.after.contracts == l.contracts
    ensures s.after.profiles.Keys == l.profiles.Keys
    ensures WellFormed(l) ==> WellFormed(s.after)
  {
    Step(DepositReport(l, userId, amount), DepositWrite(l, userId, amount))
  }

  /**
   * The reply, case by case: a NaN amount first, then an unknown or
   * non-client profile, then the 25% guard, which fails exactly when
   * `4 * amount > sumUnpaid`.
   */
  lemma DepositOutcomes(l: Ledger, userId: ProfileId, amount: Amount)
    ensures var o := Deposit(l, userId, amount).outcome;
      && (o == Fail(InvalidAmount) <==> amount.NaN?)
      && (o == Fail(NotValidClient) <==>
            amount.Num? && (userId !in l.profiles || l.profiles[userId].role != Client))
      && (o == Fail(OverLimit) <==>
            && amount.Num? && userId in l.profiles && l.profiles[userId].role == Client
            && 4 * amount.value > SumPrices(l, UnpaidJobs(l, userId, true)))
      && (o == Pass <==>
            && amount.Num? && userId in l.profiles && l.profiles[userId].role == Client
            && 4 * amount.value <= SumPrices(l, UnpaidJobs(l, userId, true)))
  {
  }

  /** With no negative prices, a zero or negative amount always passes the guard. */
  lemma DepositNonPositivePasses(l: Ledger, userId: ProfileId, a: int)
    requires PricesNonNegative(l)
    requires userId in l.profiles && IsClient(l.profiles[userId])
    requires a <= 0
    ensures Deposit(l, userId, Num(a)).outcome == Pass
  {
    SumPricesNonNegative(l, UnpaidJobs(l, userId, true));
  }

  /**
   * Whatever the reply, an existing profile is credited by a numeric amount
   * and nothing else changes; otherwise the ledger is untouched.
   */
  lemma DepositEffect(l: Ledger, userId: ProfileId, amount: Amount)
    ensures var after := Deposit(l, userId, amount).after;
      && (userId in l.profiles && amount.Num? ==>
            && after.profiles[userId].balance == l.profiles[userId].balance + amount.value
            && after.profiles[userId].role == l.profiles[userId].role
            && TotalBalance(after) == TotalBalance(l) + amount.value)
      && (userId !in l.profiles || amount.NaN? ==> after == l)
  {
    if userId in l.profiles && amount.Num? {
      var v := l.profiles[userId].balance + amount.value;
      assert Deposit(l, userId, amount).after == SetBalance(l, userId, v);
      SetBalanceTotal(l, userId, v);
    }
  }

  /**
   * The missing `return`s: an existing profile is credited even when the
   * reply is the "not a valid client" or the 25% error.
   */
  lemma DepositCreditsDespiteError(l: Ledger, userId: ProfileId, a: int)
    requires userId in l.profiles
    requires Deposit(l, userId, Num(a)).outcome.Fail?
    ensures Deposit(l, userId, Num(a)).outcome.error != InvalidAmount
    ensures Deposit(l, userId, Num(a)).after.profiles[userId].balance == l.profiles[userId].balance + a
  {
  }

  /** A client with no unpaid work asks to deposit 1: the reply is the 25% error, yet the balance grows by 1. */
  lemma DepositOverLimitStillCredits()
    ensures var l := Ledger(map[1 := Profile(Client, 0)], map[], map[]);
      var s := Deposit(l, 1, Num(1));
      s.outcome == Fail(OverLimit) && s.after.profiles[1].balance == 1
  {
    var l := Ledger(map[1 := Profile(Client, 0)], map[], map[]);
    assert l.jobs.Keys == {};
    assert UnpaidJobs(l, 1, true) == [];
  }

  /** The handler with a `return` after each error reply: a failed deposit writes nothing. */
  function DepositWithReturns(l: Ledger, userId: ProfileId, amount: Amount): (s: Step<DepositError>)
    ensures s.outcome.Fail? ==> s.after == l
    ensures s.after.profiles.Keys == l.profiles.Keys
    ensures s.outcome.Pass? ==>
      && userId in l.profiles && amount.Num?
      && s.after.profiles[userId].balance == l.profiles[userId].balance + amount.value
    ensures s.after.jobs == l.jobs && s.after.contracts == l.contracts
    ensures forall p :: p in l.profiles && p != userId ==> s.after.profiles[p] == l.profiles[p]
  {
    var o := DepositReport(l, userId, amount);
    if o.Fail? then Step(o, l) else Step(o, DepositWrite(l, userId, amount))
  }

  /** The corrected handler replies as the original does and agrees with it whenever it succeeds. */
  lemma DepositWithReturnsAgrees(l: Ledger, userId: ProfileId, amount: Amount)
    ensures DepositWithReturns(l, userId, amount).outcome == Deposit(l, userId, amount).outcome
    ensures Deposit(l, userId, amount).outcome.Pass? ==>
      DepositWithReturns(l, userId, amount) == Deposit(l, userId, amount)
    ensures Deposit(l, userId, amount).outcome.Fail? && Deposit(l, userId, amount).after != l ==>
      DepositWithReturns(l, userId, amount).after != Deposit(l, userId, amount).after
  {
  }
}
