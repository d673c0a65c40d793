/**
 * The ledger store: the three tables the handlers of src/app.js read and write
 * (Profile, Contract, Job), as immutable maps from primary key to row.
 */
module Store {
  import opened Wrappers
  import opened Ids

  type ProfileId = nat
  type ContractId = nat
  type JobId = nat

  /** The value the store writes for `CURRENT_TIMESTAMP`; supplied by the caller. */
  type Timestamp = int

  /** The `type` column of a profile. */
  datatype Role = Client | Contractor

  /** The `status` column of a contract. */
  datatype Status = New | InProgress | Terminated

  /** A balance holder. Balances are integers in minor units. */
  datatype Profile = Profile(role: Role, balance: int)

  /** A contract links one client profile and one contractor profile. */
  datatype Contract = Contract(clientId: ProfileId, contractorId: ProfileId, status: Status)

  /**
   * A payable unit of work. `paid == None` is the SQL NULL the queries test for;
   * the handlers only ever write `Some(true)`.
   */
  datatype Job = Job(contractId: ContractId, price: int, paid: Option<bool>, paymentDate: Option<Timestamp>)

  datatype Ledger = Ledger(
    profiles: map<ProfileId, Profile>,
    contracts: map<ContractId, Contract>,
    jobs: map<JobId, Job>)

  /** What a handler reports together with the ledger it leaves behind. */
  datatype Step<+E> = Step(outcome: Outcome<E>, after: Ledger)

  /** Both parties of every contract exist as profiles. */
  predicate WellFormed(l: Ledger) {
    forall id :: id in l.contracts ==>
      l.contracts[id].clientId in l.profiles && l.contracts[id].contractorId in l.profiles
  }

  /** No job has a negative price. */
  predicate PricesNonNegative(l: Ledger) {
    forall id :: id in l.jobs ==> l.jobs[id].price >= 0
  }

  /** The `isClient` test: the profile's type is `'client'`. */
  predicate IsClient(p: Profile) {
    p.role == Client
  }

  /**
   * `Profile.update({ balance: v }, { where: { id } })`: sets the balance of
   * the profile with that id, if there is one, and touches nothing else.
   */
  function SetBalance(l: Ledger, id: ProfileId, v: int): (r: Ledger)
    ensures r.contracts == l.contracts && r.jobs == l.jobs
    ensures r.profiles.Keys == l.profiles.Keys
    ensures id in l.profiles ==> r.profiles[id] == Profile(l.profiles[id].role, v)
    ensures forall p :: p in l.profiles && p != id ==> r.profiles[p] == l.profiles[p]
    ensures id !in l.profiles ==> r == l
  {
    if id in l.profiles then l.(profiles := l.profiles[id := l.profiles[id].(balance := v)]) else l
  }

  /** The sum of the balances of the listed profiles (absent ids contribute nothing). */
  function SumBalances(m: map<ProfileId, Profile>, ids: seq<ProfileId>): int {
    if ids == [] then 0
    else (if ids[0] in m then m[ids[0]].balance else 0) + SumBalances(m, ids[1..])
  }

  /** The sum of all balances of a profile table, in ascending id order. */
  function Total(m: map<ProfileId, Profile>): int {
    SumBalances(m, SortedIds(m.Keys))
  }

  /** All the money held in the ledger. */
  function TotalBalance(l: Ledger): int {
    Total(l.profiles)
  }

  /** Changing one balance changes a sum over distinct ids by the difference, if the id is listed. */
  lemma {:induction false} SumBalancesUpdate(m: map<ProfileId, Profile>, ids: seq<ProfileId>, k: ProfileId, v: int)
    requires k in m
    requires StrictlyIncreasing(ids)
    ensures SumBalances(m[k := m[k].(balance := v)], ids)
         == SumBalances(m, ids) + (if k in ids then v - m[k].balance else 0)
  {
    if ids != [] {
      HeadBelowTail(ids);
      SumBalancesUpdate(m, ids[1..], k, v);
      assert k in ids <==> ids[0] == k || k in ids[1..];
    }
  }

  /** Writing one balance changes a table's total by exactly the difference. */
  lemma TotalUpdate(m: map<ProfileId, Profile>, k: ProfileId, v: int)
    requires k in m
    ensures Total(m[k := m[k].(balance := v)]) == Total(m) + v - m[k].balance
  {
    assert m[k := m[k].(balance := v)].Keys == m.Keys;
    SumBalancesUpdate(m, SortedIds(m.Keys), k, v);
  }

  /** Writing one balance changes the ledger's total by exactly the difference. */
  lemma SetBalanceTotal(l: Ledger, id: ProfileId, v: int)
    requires id in l.profiles
    ensures TotalBalance(SetBalance(l, id, v)) == TotalBalance(l) + v - l.profiles[id].balance
  {
    TotalUpdate(l.profiles, id, v);
  }
}
