/**
 * Runs of requests against one ledger, each handler seeing the ledger the
 * previous one left. Used to state that a job is paid at most once.
 */
module Trace {
  import opened Wrappers
  import opened Store
  import opened Payment
  import opened Balances

  datatype Request =
    | PayRequest(caller: ProfileId, job: JobId, now: Timestamp)
    | DepositRequest(user: ProfileId, amount: Amount)

  /** A pay request comes from an existing profile (the middleware rejects the rest). */
  predicate Authenticated(l: Ledger, r: Request) {
    r.PayRequest? ==> r.caller in l.profiles
  }

  predicate AllAuthenticated(l: Ledger, rs: seq<Request>) {
    forall i :: 0 <= i < |rs| ==> Authenticated(l, rs[i])
  }

  /** Profiles are never added or removed, so the rest of a run stays authenticated. */
  lemma RestAuthenticated(l: Ledger, rs: seq<Request>)
    requires WellFormed(l) && AllAuthenticated(l, rs) && rs != []
    ensures AllAuthenticated(Handle(l, rs[0]), rs[1..])
  {
    var after := Handle(l, rs[0]);
    forall i | 0 <= i < |rs[1..]|
      ensures Authenticated(after, rs[1..][i])
    {
      assert Authenticated(l, rs[i + 1]);
    }
  }

  /** The ledger one request leaves behind. */
  function Handle(l: Ledger, r: Request): (after: Ledger)
    requires WellFormed(l) && Authenticated(l, r)
    ensures WellFormed(after)
    ensures after.profiles.Keys == l.profiles.Keys
    ensures after.jobs.Keys == l.jobs.Keys
    ensures after.contracts == l.contracts
  {
    match r
    case PayRequest(caller, job, now) => Pay(l, caller, job, now).after
    case DepositRequest(user, amount) => Deposit(l, user, amount).after
  }

  /** 1 when the request pays job `j` successfully, else 0. */
  function PaysJob(l: Ledger, r: Request, j: JobId): nat
    requires WellFormed(l) && Authenticated(l, r)
  {
    if r.PayRequest? && r.job == j && Pay(l, r.caller, r.job, r.now).outcome == Pass then 1 else 0
  }

  /** How many requests of the run pay job `j` successfully. */
  function Payments(l: Ledger, rs: seq<Request>, j: JobId): nat
    requires WellFormed(l) && AllAuthenticated(l, rs)
    decreases |rs|
  {
    if rs == [] then 0
    else
      var after := Handle(l, rs[0]);
      RestAuthenticated(l, rs);
      PaysJob(l, rs[0], j) + Payments(after, rs[1..], j)
  }

  /** The job exists and its `paid` is NULL. */
  predicate Unpaid(l: Ledger, j: JobId) {
    j in l.jobs && l.jobs[j].paid == None
  }

  /** No request turns a paid or missing job back into an unpaid one. */
  lemma HandleNeverUnpays(l: Ledger, r: Request, j: JobId)
    requires WellFormed(l) && Authenticated(l, r)
    requires !Unpaid(l, j)
    ensures !Unpaid(Handle(l, r), j)
  {
    if r.PayRequest? && j in l.jobs {
      PayLeavesPaidJobs(l, r.caller, r.job, r.now, j);
    }
  }

  /** A successful payment of `j` found it unpaid and leaves it paid. */
  lemma PayingMarksPaid(l: Ledger, r: Request, j: JobId)
    requires WellFormed(l) && Authenticated(l, r)
    requires PaysJob(l, r, j) == 1
    ensures Unpaid(l, j)
    ensures !Unpaid(Handle(l, r), j)
  {
    PayEffect(l, r.caller, r.job, r.now);
  }

  /** In any run, a job is paid at most once, and never if it was not unpaid to begin with. */
  lemma {:induction false} PaidAtMostOnce(l: Ledger, rs: seq<Request>, j: JobId)
    requires WellFormed(l) && AllAuthenticated(l, rs)
    ensures Payments(l, rs, j) <= (if Unpaid(l, j) then 1 else 0)
    decreases |rs|
  {
    if rs != [] {
      var after := Handle(l, rs[0]);
      RestAuthenticated(l, rs);
      PaidAtMostOnce(after, rs[1..], j);
      if PaysJob(l, rs[0], j) == 1 {
        PayingMarksPaid(l, rs[0], j);
      } else if !Unpaid(l, j) {
        HandleNeverUnpays(l, rs[0], j);
      }
    }
  }
  /** The ledger a whole run leaves behind. */
  function Run(l: Ledger, rs: seq<Request>): (final: Ledger)
    requires WellFormed(l) && AllAuthenticated(l, rs)
    ensures WellFormed(final)
    ensures final.profiles.Keys == l.profiles.Keys
    ensures final.contracts == l.contracts
    decreases |rs|
  {
    if rs == [] then l
    else
      var after := Handle(l, rs[0]);
      RestAuthenticated(l, rs);
      Run(after, rs[1..])
  }

  /** The money a run deposits: each numeric amount sent for an existing profile. */
  function Credited(l: Ledger, rs: seq<Request>): int
    requires WellFormed(l) && AllAuthenticated(l, rs)
    decreases |rs|
  {
    if rs == [] then 0
    else
      var after := Handle(l, rs[0]);
      RestAuthenticated(l, rs);
      var r := rs[0];
      (if r.DepositRequest? && r.user in l.profiles && r.amount.Num? then r.amount.value else 0)
        + Credited(after, rs[1..])
  }

  /** No contract names the same profile as client and contractor. */
  predicate DistinctParties(l: Ledger) {
    forall id :: id in l.contracts ==> l.contracts[id].clientId != l.contracts[id].contractorId
  }

  /** With distinct parties, payments move money and only deposits add to it. */
  lemma HandleTotal(l: Ledger, r: Request)
    requires WellFormed(l) && Authenticated(l, r) && DistinctParties(l)
    ensures TotalBalance(Handle(l, r)) == TotalBalance(l)
      + (if r.DepositRequest? && r.user in l.profiles && r.amount.Num? then r.amount.value else 0)
  {
    match r
    case PayRequest(caller, job, now) =>
      if Pay(l, caller, job, now).outcome == Pass {
        PayEffect(l, caller, job, now);
        PayConservesMoney(l, caller, job, now);
      }
    case DepositRequest(user, amount) =>
      DepositEffect(l, user, amount);
  }

  /** Over a whole run with distinct parties, the ledger's total grows by exactly what was deposited. */
  lemma {:induction false} RunTotal(l: Ledger, rs: seq<Request>)
    requires WellFormed(l) && AllAuthenticated(l, rs) && DistinctParties(l)
    ensures TotalBalance(Run(l, rs)) == TotalBalance(l) + Credited(l, rs)
    decreases |rs|
  {
    if rs != [] {
      var after := Handle(l, rs[0]);
      RestAuthenticated(l, rs);
      HandleTotal(l, rs[0]);
      assert after.contracts == l.contracts;
      RunTotal(after, rs[1..]);
    }
  }
}
