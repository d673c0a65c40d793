/**
 * The read queries of src/app.js: contract lookup, contract listing,
 * `getUnpaidJobs`, and the job lookup of the pay handler, each as a scan of
 * the ledger maps.
 */
module Queries {
  import opened Wrappers
  import opened Ids
  import opened Store

  /** The caller is the contract's client (client side) or its contractor (otherwise). */
  predicate OnSide(c: Contract, userId: ProfileId, asClient: bool) {
    if asClient then c.clientId == userId else c.contractorId == userId
  }

  /**
   * `GET /contracts/:id`: the contract with that id, provided the caller is
   * its client (when the caller is a client) or its contractor (otherwise).
   * `None` is the "No contract found." reply. The status plays no part.
   */
  function FindContract(l: Ledger, callerId: ProfileId, id: ContractId): (r: Option<Contract>)
    requires callerId in l.profiles
    ensures r.Some? ==> id in l.contracts && r.value == l.contracts[id]
    ensures r.Some? ==> (if IsClient(l.profiles[callerId]) then r.value.clientId == callerId
                         else r.value.contractorId == callerId)
    ensures (id in l.contracts && l.contracts[id].clientId != callerId
             && l.contracts[id].contractorId != callerId) ==> r == None
    ensures (id in l.contracts && IsClient(l.profiles[callerId])
             && l.contracts[id].clientId == callerId) ==> r == Some(l.contracts[id])
    ensures (id in l.contracts && !IsClient(l.profiles[callerId])
             && l.contracts[id].contractorId == callerId) ==> r == Some(l.contracts[id])
  {
    if id in l.contracts && OnSide(l.contracts[id], callerId, IsClient(l.profiles[callerId]))
    then Some(l.contracts[id])
    else None
  }

  /**
   * `GET /contracts/`: the ids of every contract on the caller's side, in
   * ascending id order. The `whereNot` option is not a `findAll` filter, so
   * terminated contracts are listed too.
   */
  function ListContracts(l: Ledger, callerId: ProfileId): (r: seq<ContractId>)
    requires callerId in l.profiles
    ensures StrictlyIncreasing(r)
    ensures forall id :: id in r <==> FindContract(l, callerId, id).Some?
  {
    var asClient := IsClient(l.profiles[callerId]);
    var keep := (id: nat) => id in l.contracts && OnSide(l.contracts[id], callerId, asClient);
    FilterIncreasing(SortedIds(l.contracts.Keys), keep);
    Filter(SortedIds(l.contracts.Keys), keep)
  }

  /**
   * The `isClient` test (the profile's type is `'client'`) picks the side: a
   * client sees exactly the contracts naming it as client, anyone else
   * exactly those naming it as contractor.
   */
  lemma ContractSideFollowsRole(l: Ledger, callerId: ProfileId)
    requires callerId in l.profiles
    ensures l.profiles[callerId].role == Client ==>
      forall id :: id in ListContracts(l, callerId) <==> id in l.contracts && l.contracts[id].clientId == callerId
    ensures l.profiles[callerId].role != Client ==>
      forall id :: id in ListContracts(l, callerId) <==> id in l.contracts && l.contracts[id].contractorId == callerId
  {
  }

  /** The contract listing keeps terminated contracts of the caller. */
  lemma ListContractsKeepsTerminated(l: Ledger, callerId: ProfileId, id: ContractId)
    requires callerId in l.profiles
    requires id in l.contracts && l.contracts[id].status == Terminated
    requires OnSide(l.contracts[id], callerId, IsClient(l.profiles[callerId]))
    ensures id in ListContracts(l, callerId)
  {
  }

  /**
   * The row filter of `getUnpaidJobs`: the job's `paid` is NULL and it joins
   * to an `in_progress` contract on which `userId` is on the requested side.
   */
  predicate UnpaidFor(l: Ledger, userId: ProfileId, asClient: bool, j: JobId) {
    && j in l.jobs
    && l.jobs[j].paid == None
    && l.jobs[j].contractId in l.contracts
    && l.contracts[l.jobs[j].contractId].status == InProgress
    && OnSide(l.contracts[l.jobs[j].contractId], userId, asClient)
  }

  /** The row filter of `getUnpaidJobs` as a test on job ids. */
  function UnpaidFilter(l: Ledger, userId: ProfileId, asClient: bool): nat -> bool {
    (j: nat) => UnpaidFor(l, userId, asClient, j)
  }

  /** `getUnpaidJobs(userId, isClient)`: the ids of the matching jobs, in ascending id order. */
  function UnpaidJobs(l: Ledger, userId: ProfileId, asClient: bool): (r: seq<JobId>)
    ensures StrictlyIncreasing(r)
    ensures forall j :: j in r <==> UnpaidFor(l, userId, asClient, j)
  {
    FilterIncreasing(SortedIds(l.jobs.Keys), UnpaidFilter(l, userId, asClient));
    Filter(SortedIds(l.jobs.Keys), UnpaidFilter(l, userId, asClient))
  }

  /** `unpaidJobs.reduce((sum, val) => sum + val.price, 0)` over the listed jobs. */
  function SumPrices(l: Ledger, js: seq<JobId>): int {
    if js == [] then 0
    else (if js[0] in l.jobs then l.jobs[js[0]].price else 0) + SumPrices(l, js[1..])
  }

  /** The total price of a client's unpaid work, as the deposit handler computes it. */
  function SumUnpaid(l: Ledger, userId: ProfileId): int {
    SumPrices(l, UnpaidJobs(l, userId, true))
  }

  /** With no negative prices, a sum of prices is never negative. */
  lemma {:induction false} SumPricesNonNegative(l: Ledger, js: seq<JobId>)
    requires PricesNonNegative(l)
    ensures SumPrices(l, js) >= 0
  {
    if js != [] {
      SumPricesNonNegative(l, js[1..]);
    }
  }

  /** With no negative prices, a client's unpaid total covers each of its unpaid jobs. */
  lemma {:induction false} SumPricesCoversEach(l: Ledger, js: seq<JobId>, j: JobId)
    requires PricesNonNegative(l)
    requires j in js && j in l.jobs
    ensures SumPrices(l, js) >= l.jobs[j].price
  {
    SumPricesNonNegative(l, js[1..]);
    if js[0] != j {
      SumPricesCoversEach(l, js[1..], j);
    }
  }

  /**
   * Dropping one id from a filter over distinct ids lowers the sum of prices
   * by that job's price (if it was kept), provided prices agree on the scan.
   */
  lemma {:induction false} SumFilterDrop(l: Ledger, l2: Ledger, ids: seq<nat>, p: nat -> bool, q: nat -> bool, j: nat)
    requires StrictlyIncreasing(ids)
    requires forall x :: x in ids ==> (q(x) <==> p(x) && x != j)
    requires forall x :: x in ids ==> (x in l2.jobs <==> x in l.jobs)
    requires forall x :: x in ids && x in l.jobs ==> l2.jobs[x].price == l.jobs[x].price
    ensures SumPrices(l2, Filter(ids, q))
         == SumPrices(l, Filter(ids, p)) - (if j in ids && p(j) && j in l.jobs then l.jobs[j].price else 0)
  {
    if ids != [] {
      var x := ids[0];
      var rest := ids[1..];
      HeadBelowTail(ids);
      SumFilterDrop(l, l2, rest, p, q, j);
      var fp := Filter(rest, p);
      var fq := Filter(rest, q);
      if p(x) {
        assert ([x] + fp)[0] == x && ([x] + fp)[1..] == fp;
      }
      if q(x) {
        assert ([x] + fq)[0] == x && ([x] + fq)[1..] == fq;
      }
      if x == j {
        assert j !in rest;
      }
      assert j in ids <==> x == j || j in rest;
    }
  }

  /**
   * `l2` is `l` with job `j` marked paid: the contracts, the job ids, every
   * other job and `j`'s price stay as they were.
   */
  predicate MarkedPaid(l: Ledger, l2: Ledger, j: JobId) {
    && j in l.jobs
    && l2.contracts == l.contracts
    && l2.jobs.Keys == l.jobs.Keys
    && (forall x :: x in l.jobs && x != j ==> l2.jobs[x] == l.jobs[x])
    && l2.jobs[j].paid.Some?
    && l2.jobs[j].price == l.jobs[j].price
  }

  /**
   * Marking one job paid lowers a client's unpaid total by that job's price
   * if it was unpaid work of that client, and leaves it unchanged otherwise.
   */
  lemma UnpaidAfterMarking(l: Ledger, l2: Ledger, userId: ProfileId, j: JobId)
    requires MarkedPaid(l, l2, j)
    ensures SumUnpaid(l2, userId)
         == SumUnpaid(l, userId) - (if UnpaidFor(l, userId, true, j) then l.jobs[j].price else 0)
  {
    var ids := SortedIds(l.jobs.Keys);
    UnpaidFiltersAfterMarking(l, l2, userId, j, ids);
    assert SortedIds(l2.jobs.Keys) == ids;
    SumFilterDrop(l, l2, ids, UnpaidFilter(l, userId, true), UnpaidFilter(l2, userId, true), j);
  }

  /** The job-by-job step of `UnpaidAfterMarking`: only the marked job leaves the unpaid rows, and no price moves. */
  lemma UnpaidFiltersAfterMarking(l: Ledger, l2: Ledger, userId: ProfileId, j: JobId, ids: seq<nat>)
    requires MarkedPaid(l, l2, j)
    ensures forall x :: x in ids ==>
      (UnpaidFilter(l2, userId, true)(x) <==> UnpaidFilter(l, userId, true)(x) && x != j)
    ensures forall x :: x in ids && x in l.jobs ==> x in l2.jobs && l2.jobs[x].price == l.jobs[x].price
  {
    forall x | x in ids
      ensures UnpaidFilter(l2, userId, true)(x) <==> UnpaidFilter(l, userId, true)(x) && x != j
    {
      assert UnpaidFilter(l2, userId, true)(x) == UnpaidFor(l2, userId, true, x);
      assert UnpaidFilter(l, userId, true)(x) == UnpaidFor(l, userId, true, x);
    }
  }

  /**
   * The `Job.findOne` of the pay handler: the job with id `jobId` whose `paid`
   * is NULL and whose contract is `in_progress` with `callerId` as its client.
   */
  function FindPayableJob(l: Ledger, callerId: ProfileId, jobId: JobId): (r: Option<Job>)
    ensures r.Some? ==> jobId in l.jobs && r.value == l.jobs[jobId]
  {
    if && jobId in l.jobs
       && l.jobs[jobId].paid == None
       && l.jobs[jobId].contractId in l.contracts
       && l.contracts[l.jobs[jobId].contractId].status == InProgress
       && l.contracts[l.jobs[jobId].contractId].clientId == callerId
    then Some(l.jobs[jobId])
    else None
  }

  /** The pay handler finds a job exactly when it is among the caller's unpaid jobs as a client. */
  lemma PayableIffListedUnpaid(l: Ledger, callerId: ProfileId, jobId: JobId)
    ensures FindPayableJob(l, callerId, jobId).Some? <==> jobId in UnpaidJobs(l, callerId, true)
  {
  }

  /** A job already paid, on a contract not in progress, or of another client is never found. */
  lemma FindPayableJobRejects(l: Ledger, callerId: ProfileId, jobId: JobId)
    requires jobId in l.jobs
    requires || l.jobs[jobId].paid.Some?
             || (l.jobs[jobId].contractId in l.contracts
                 && (l.contracts[l.jobs[jobId].contractId].status != InProgress
                     || l.contracts[l.jobs[jobId].contractId].clientId != callerId))
    ensures FindPayableJob(l, callerId, jobId) == None
  {
  }
}
