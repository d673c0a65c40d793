/**
 * The `POST /jobs/:job_id/pay` handler: three checks in order (role, payable
 * job, balance), then three writes (job marked paid, client debited,
 * contractor credited).
 */
module Payment {
  import opened Wrappers
  import opened Store
  import opened Queries

  /**
   * The errors the handler throws: "User is not client", "No job found" and
   * "Client does not have enough balance". Success replies "All done.".
   */
  datatype PayError = UserNotClient | NoJobFound | NotEnoughBalance

  /**
   * The handler's logic. The caller's profile is the one the authentication
   * middleware loaded; the contractor's balance is read before any write, so
   * when client and contractor are the same profile the second write wins.
   */
  function Pay(l: Ledger, callerId: ProfileId, jobId: JobId, now: Timestamp): (s: Step<PayError>)
    requires WellFormed(l)
    requires callerId in l.profiles
    ensures WellFormed(s.after)
    ensures s.outcome.Fail? ==> s.after == l
    ensures s.outcome.Pass? ==> FindPayableJob(l, callerId, jobId).Some?
    ensures s.outcome.Pass? ==> jobId in l.jobs && l.jobs[jobId].price <= l.profiles[callerId].balance
    ensures s.after.profiles.Keys == l.profiles.Keys
    ensures s.after.contracts == l.contracts
    ensures s.after.jobs.Keys == l.jobs.Keys
  {
    var client := l.profiles[callerId];
    if !IsClient(client) then Step(Fail(UserNotClient), l)
    else
      match FindPayableJob(l, callerId, jobId)
      case None => Step(Fail(NoJobFound), l)
      case Some(job) =>
        if client.balance < job.price then Step(Fail(NotEnoughBalance), l)
        else Step(Pass, PayWrites(l, jobId, now))
  }

  /**
   * The three writes of a successful payment, from balances read before any
   * write: the job is marked paid, the client debited, the contractor credited.
   */
  function PayWrites(l: Ledger, jobId: JobId, now: Timestamp): (r: Ledger)
    requires WellFormed(l)
    requires jobId in l.jobs && l.jobs[jobId].contractId in l.contracts
    ensures WellFormed(r)
    ensures r.profiles.Keys == l.profiles.Keys && r.contracts == l.contracts && r.jobs.Keys == l.jobs.Keys
    ensures r.jobs[jobId] == l.jobs[jobId].(paid := Some(true), paymentDate := Some(now))
    ensures forall j :: j in l.jobs && j != jobId ==> r.jobs[j] == l.jobs[j]
  {
    var job := l.jobs[jobId];
    var contract := l.contracts[job.contractId];
    var client := l.profiles[contract.clientId];
    var contractor := l.profiles[contract.contractorId];
    var marked := l.(jobs := l.jobs[jobId := job.(paid := Some(true), paymentDate := Some(now))]);
    var debited := SetBalance(marked, contract.clientId, client.balance - job.price);
    SetBalance(debited, contract.contractorId, contractor.balance + job.price)
  }

  /** The writes change the total by the price when both parties coincide, and not at all otherwise. */
  lemma PayWritesTotal(l: Ledger, jobId: JobId, now: Timestamp)
    requires WellFormed(l)
    requires jobId in l.jobs && l.jobs[jobId].contractId in l.contracts
    ensures var c := l.contracts[l.jobs[jobId].contractId];
      TotalBalance(PayWrites(l, jobId, now))
        == TotalBalance(l) + (if c.clientId == c.contractorId then l.jobs[jobId].price else 0)
  {
    var job := l.jobs[jobId];
    var c := l.contracts[job.contractId];
    var m0 := l.profiles;
    var m1 := m0[c.clientId := m0[c.clientId].(balance := m0[c.clientId].balance - job.price)];
    var m2 := m1[c.contractorId := m1[c.contractorId].(balance := m0[c.contractorId].balance + job.price)];
    assert PayWrites(l, jobId, now).profiles == m2;
    TotalUpdate(m0, c.clientId, m0[c.clientId].balance - job.price);
    TotalUpdate(m1, c.contractorId, m0[c.contractorId].balance + job.price);
  }

  /** The contract of a job the handler can pay (defined only for such jobs). */
  function PayContract(l: Ledger, jobId: JobId): Contract
    requires jobId in l.jobs && l.jobs[jobId].contractId in l.contracts
  {
    l.contracts[l.jobs[jobId].contractId]
  }

  /**
   * The outcome, case by case: the role check comes first, then the job must
   * be among the caller's unpaid jobs, then the balance must cover the price
   * (equality suffices).
   */
  lemma PayOutcomes(l: Ledger, callerId: ProfileId, jobId: JobId, now: Timestamp)
    requires WellFormed(l)
    requires callerId in l.profiles
    ensures var o := Pay(l, callerId, jobId, now).outcome;
      && (o == Fail(UserNotClient) <==> !IsClient(l.profiles[callerId]))
      && (o == Fail(NoJobFound) <==>
            IsClient(l.profiles[callerId]) && jobId !in UnpaidJobs(l, callerId, true))
      && (o == Fail(NotEnoughBalance) <==>
            && IsClient(l.profiles[callerId]) && jobId in UnpaidJobs(l, callerId, true)
            && l.profiles[callerId].balance < l.jobs[jobId].price)
      && (o == Pass <==>
            && IsClient(l.profiles[callerId]) && jobId in UnpaidJobs(l, callerId, true)
            && l.jobs[jobId].price <= l.profiles[callerId].balance)
  {
    var o := Pay(l, callerId, jobId, now).outcome;
    PayableIffListedUnpaid(l, callerId, jobId);
    if !IsClient(l.profiles[callerId]) {
      assert o == Fail(UserNotClient);
    } else if FindPayableJob(l, callerId, jobId).None? {
      assert o == Fail(NoJobFound);
    } else if l.profiles[callerId].balance < l.jobs[jobId].price {
      assert o == Fail(NotEnoughBalance);
    } else {
      assert o == Pass;
    }
  }

  /**
   * A successful payment marks the job paid at `now`, debits the client and
   * credits the contractor by the price, and changes no other job or profile.
   * When client and contractor coincide, only the credit survives.
   */
  lemma PayEffect(l: Ledger, callerId: ProfileId, jobId: JobId, now: Timestamp)
    requires WellFormed(l)
    requires callerId in l.profiles
    requires Pay(l, callerId, jobId, now).outcome == Pass
    ensures jobId in l.jobs && l.jobs[jobId].contractId in l.contracts
    ensures var after := Pay(l, callerId, jobId, now).after;
      var job := l.jobs[jobId];
      var c := PayContract(l, jobId);
      && c.clientId == callerId
      && after.jobs[jobId] == Job(job.contractId, job.price, Some(true), Some(now))
      && (forall j :: j in l.jobs && j != jobId ==> after.jobs[j] == l.jobs[j])
      && (c.contractorId != callerId ==>
            && after.profiles[callerId].balance == l.profiles[callerId].balance - job.price
            && after.profiles[callerId].balance >= 0
            && after.profiles[c.contractorId].balance == l.profiles[c.contractorId].balance + job.price)
      && (c.contractorId == callerId ==>
            after.profiles[callerId].balance == l.profiles[callerId].balance + job.price)
      && (forall p :: p in l.profiles && p != callerId && p != c.contractorId ==>
            after.profiles[p] == l.profiles[p])
      && (forall p :: p in l.profiles ==> after.profiles[p].role == l.profiles[p].role)
  {
  }

  /** Between distinct client and contractor, a payment moves money without creating or destroying any. */
  lemma PayConservesMoney(l: Ledger, callerId: ProfileId, jobId: JobId, now: Timestamp)
    requires WellFormed(l)
    requires callerId in l.profiles
    requires Pay(l, callerId, jobId, now).outcome == Pass
    requires PayContract(l, jobId).contractorId != callerId
    ensures TotalBalance(Pay(l, callerId, jobId, now).after) == TotalBalance(l)
  {
    assert Pay(l, callerId, jobId, now).after == PayWrites(l, jobId, now);
    PayWritesTotal(l, jobId, now);
  }

  /**
   * When a contract names the same profile as client and contractor, the
   * stale contractor read makes a payment add the price to the ledger's total.
   */
  lemma PaySelfContractAddsPrice(l: Ledger, callerId: ProfileId, jobId: JobId, now: Timestamp)
    requires WellFormed(l)
    requires callerId in l.profiles
    requires Pay(l, callerId, jobId, now).outcome == Pass
    requires PayContract(l, jobId).contractorId == callerId
    ensures TotalBalance(Pay(l, callerId, jobId, now).after) == TotalBalance(l) + l.jobs[jobId].price
  {
    assert Pay(l, callerId, jobId, now).after == PayWrites(l, jobId, now);
    PayWritesTotal(l, jobId, now);
  }

  /** A job whose `paid` is set is never touched by a payment, whoever asks. */
  lemma PayLeavesPaidJobs(l: Ledger, callerId: ProfileId, jobId: JobId, now: Timestamp, j: JobId)
    requires WellFormed(l)
    requires callerId in l.profiles
    requires j in l.jobs && l.jobs[j].paid.Some?
    ensures Pay(l, callerId, jobId, now).after.jobs[j] == l.jobs[j]
  {
  }

  /** Once a payment succeeds, paying the same job again fails, for any caller and time. */
  lemma PayOnce(l: Ledger, callerId: ProfileId, jobId: JobId, now: Timestamp, caller2: ProfileId, now2: Timestamp)
    requires WellFormed(l)
    requires callerId in l.profiles && caller2 in l.profiles
    requires Pay(l, callerId, jobId, now).outcome == Pass
    ensures Pay(Pay(l, callerId, jobId, now).after, caller2, jobId, now2).outcome.Fail?
  {
    PayEffect(l, callerId, jobId, now);
  }

  /** The writes take the paid job out of every unpaid total it was in, and change nothing else in them. */
  lemma PayWritesSumUnpaid(l: Ledger, jobId: JobId, now: Timestamp, userId: ProfileId)
    requires WellFormed(l)
    requires jobId in l.jobs && l.jobs[jobId].contractId in l.contracts
    ensures SumUnpaid(PayWrites(l, jobId, now), userId)
         == SumUnpaid(l, userId) - (if UnpaidFor(l, userId, true, jobId) then l.jobs[jobId].price else 0)
  {
    var after := PayWrites(l, jobId, now);
    UnpaidAfterMarking(l, after, userId, jobId);
  }

  /**
   * A successful payment lowers the paying client's unpaid total (the sum the
   * deposit guard uses) by the job's price and leaves every other user's total
   * unchanged.
   */
  lemma PayLowersSumUnpaid(l: Ledger, callerId: ProfileId, jobId: JobId, now: Timestamp, userId: ProfileId)
    requires WellFormed(l)
    requires callerId in l.profiles
    requires Pay(l, callerId, jobId, now).outcome == Pass
    ensures jobId in l.jobs
    ensures SumUnpaid(Pay(l, callerId, jobId, now).after, userId)
         == SumUnpaid(l, userId) - (if userId == callerId then l.jobs[jobId].price else 0)
  {
    assert Pay(l, callerId, jobId, now).after == PayWrites(l, jobId, now);
    PayWritesSumUnpaid(l, jobId, now, userId);
    assert UnpaidFor(l, userId, true, jobId) <==> userId == callerId;
  }
}
