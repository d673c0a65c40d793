# Ledger rules of the contractor-payments service

This project models, in Dafny, the ledger logic of `src/app.js` in a small
Express/Sequelize service where clients pay contractors for jobs done under
contracts. Every Sequelize query is replaced by a lookup over an immutable
`Ledger` of three maps keyed by primary key:

- profiles: `type` (client or contractor) and `balance`;
- contracts: `ClientId`, `ContractorId` and `status` (`new`, `in_progress`, `terminated`);
- jobs: `ContractId`, `price`, `paid` (NULL or true) and `paymentDate`.

The handlers become pure functions from a ledger to a `Step`: the outcome the
caller is told, and the ledger the handler leaves behind.

- `Store` (store.dfy): the tables, `isClient`, the well-formedness condition
  (both parties of every contract exist), the single balance write `SetBalance`,
  and the total money in the ledger.
- `Queries` (queries.dfy): the contract lookup and listing, `getUnpaidJobs` and
  the sum of unpaid prices. `findAll` results come back in ascending id order, built by
  `Ids` (ids.dfy).
- `Payment` (payment.dfy): the `POST /jobs/:job_id/pay` handler. It runs three
  checks in order (role, payable job, balance) and then makes three writes.
- `Balances` (balances.dfy): the `POST /balances/deposit/:userId` handler. The
  reply and the balance write are modelled separately, because the error branches
  reply without returning.
- `Trace` (trace.dfy): runs of requests over one ledger. It proves that a job is
  paid at most once, and that the total money changes only by deposits when no
  contract names the same profile on both sides.

Behaviour of the code that the model keeps, where it differs from what the
handlers' comments and names suggest:

- A deposit is not required to be positive. Only NaN is rejected, and the guard
  `amount * 4 > sumUnpaid` lets zero and negative amounts through.
- The deposit error branches do not return. For an existing profile and a
  numeric amount, the balance write happens whatever the reply was.
- The contract listing passes `whereNot`, which `findAll` does not read as a filter. Terminated contracts are therefore listed.
- The contractor's balance is read before the client is debited. If a contract
  names the same profile on both sides, the credit overwrites the debit, and the
  payment adds the price to the ledger's total.
- The transaction object is passed as an ignored third argument to `update`. The
  writes are therefore not part of the transaction. In the model writes cannot
  fail, so no rollback is modelled.

## Model

| member | source | states |
|---|---|---|
| Store.SetBalance | src/app.js:177-187 | a `Profile.update` of one balance sets that profile's balance, keeps its type, and changes no other profile, contract or job |
| Store.SetBalanceTotal | src/app.js:177-187 | one balance write changes the ledger's total money by exactly the new balance minus the old one |
| Queries.ContractSideFollowsRole | src/app.js:20-22 | `isClient` (type `client`) picks the side: a client's listing holds exactly the contracts naming it as `ClientId`, anyone else's exactly those naming it as `ContractorId` |
| Queries.FindContract | src/app.js:27-49 | a contract is returned exactly when its id exists and the caller is its client (for a client caller) or its contractor (otherwise), whatever its status; a contract naming neither is never returned |
| Queries.ListContracts | src/app.js:54-80 | the listing holds, in ascending id order, exactly the contracts the by-id lookup would return to the caller, whatever their status |
| Queries.ListContractsKeepsTerminated | src/app.js:62-64 | a terminated contract on the caller's side is listed, since `whereNot` is not applied |
| Queries.UnpaidJobs | src/app.js:82-100 | the result lists, in ascending id order and without repeats, every job with NULL `paid` whose contract is `in_progress` and names the user on the requested side, and no other job |
| Queries.SumPricesNonNegative | src/app.js:221 | when no price is negative, the reduced sum of prices is never negative |
| Queries.SumPricesCoversEach | src/app.js:221 | when no price is negative, the sum over a job list is at least the price of each listed job |
| Queries.UnpaidAfterMarking | src/app.js:219-221 | marking one job paid, with contracts, prices and every other job unchanged, lowers a client's sum of unpaid prices by that job's price when it was unpaid work of that client, and leaves the sum unchanged otherwise |
| Queries.SumFilterDrop | src/app.js:221 | when one filter keeps exactly what another keeps minus one id, the reduced sum of prices drops by that id's price if the other filter kept it, and by nothing otherwise |
| Queries.FindPayableJob | src/app.js:137-152 | a job found by the pay handler's lookup is the stored row for that id |
| Queries.PayableIffListedUnpaid | src/app.js:137-152 | the pay handler finds a job exactly when that job is among the caller's unpaid jobs as a client |
| Queries.FindPayableJobRejects | src/app.js:141-150 | a job already paid, on a contract not in progress, or on another client's contract is never found |
| Payment.Pay | src/app.js:118-196 | every failure leaves the ledger unchanged; success implies the job was payable by the caller and its price did not exceed the caller's balance; well-formedness, tables' keys and contracts are preserved |
| Payment.PayWrites | src/app.js:167-187 | the three writes mark exactly the paid job with `paid = true` and `paymentDate = now`, leave every other job and the contracts as they were, keep the sets of profile and job ids, and keep the ledger well-formed |
| Payment.PayWritesTotal | src/app.js:159-187 | the three writes, made from balances read before any write, leave the total unchanged for distinct parties and raise it by the price when client and contractor are one profile |
| Payment.PayOutcomes | src/app.js:132-165 | non-clients get "User is not client" and nothing else does; a client gets "No job found" iff the job is not among its unpaid jobs; then the balance error iff balance < price; success iff price <= balance (equality pays) |
| Payment.PayEffect | src/app.js:167-187 | on success the job becomes paid with `paymentDate = now` and keeps its other fields; the client loses and the contractor gains the price (balance stays non-negative); with one profile on both sides only the credit remains; no other job, profile or role changes |
| Payment.PayConservesMoney | src/app.js:176-187 | a successful payment between distinct client and contractor leaves the total of all balances unchanged |
| Payment.PaySelfContractAddsPrice | src/app.js:159-187 | when client and contractor are the same profile, the stale contractor read makes a payment raise the total by the job's price |
| Payment.PayLeavesPaidJobs | src/app.js:146-151 | a job whose `paid` is set is not changed by any pay request |
| Payment.PayWritesSumUnpaid | src/app.js:167-174 | the writes take the paid job out of every client's sum of unpaid prices it was in, and change nothing else in those sums |
| Payment.PayLowersSumUnpaid | src/app.js:219-221 | after a successful payment, the payer's sum of unpaid prices (the deposit guard's base) drops by the job's price and every other user's sum is unchanged |
| Payment.PayOnce | src/app.js:146-174 | after a successful payment, paying the same job again fails for every caller and time |
| Balances.QuarterGuardThreshold | src/app.js:224 | a numeric amount is refused by the 25% guard exactly when it exceeds `sumUnpaid / 4` rounded down, and NaN never is, since comparisons with NaN are false |
| Balances.DepositReport | src/app.js:205-226 | a success reply implies an existing client profile and `4 * amount <= sumUnpaid` |
| Balances.DepositWrite | src/app.js:228-232 | the deposit write changes no job, contract or other profile and keeps the set of profiles |
| Balances.Deposit | src/app.js:201-235 | a deposit leaves jobs, contracts and the set of profiles unchanged and preserves well-formedness |
| Balances.DepositOutcomes | src/app.js:205-226 | the reply is "Invalid amount" iff the amount is NaN; else "Not a valid client ID" iff the profile is missing or not a client; else the 25% error iff `4 * amount > sumUnpaid`; else success |
| Balances.DepositNonPositivePasses | src/app.js:224-226 | with no negative prices, a zero or negative amount for a client always passes the guard |
| Balances.DepositEffect | src/app.js:228-232 | for an existing profile and a numeric amount, whatever the reply, that profile's balance grows by the amount and the total by the same; otherwise nothing changes |
| Balances.DepositCreditsDespiteError | src/app.js:214-232 | for an existing profile, a numeric amount that gets an error reply is still credited |
| Balances.DepositOverLimitStillCredits | src/app.js:224-232 | a client with no unpaid work depositing 1 gets the 25% error but is credited 1 |
| Balances.DepositWithReturns | src/app.js:205-232 | with a return after each error reply, a failed deposit leaves the ledger unchanged and a successful one credits exactly the amount |
| Balances.DepositWithReturnsAgrees | src/app.js:205-232 | the corrected handler sends the same reply as the original, matches it on success, and differs from it exactly where the original writes after an error |
| Trace.RestAuthenticated | src/app.js:118-235 | no request adds or removes profiles, so the callers of the rest of a run still exist |
| Trace.Handle | src/app.js:118-235 | each request keeps the ledger well-formed, keeps the sets of profile and job ids, and changes no contract |
| Trace.Run | src/app.js:118-235 | a run of requests keeps the ledger well-formed, keeps the set of profile ids, and changes no contract |
| Trace.HandleNeverUnpays | src/app.js:167-174 | no request turns a paid or missing job into an unpaid one |
| Trace.PayingMarksPaid | src/app.js:137-174 | a request that pays a job found it unpaid and leaves it paid |
| Trace.PaidAtMostOnce | src/app.js:137-174 | in any run, a job is paid successfully at most once, and never when it was not unpaid at the start |
| Trace.HandleTotal | src/app.js:167-232 | with distinct parties, a pay request leaves the total unchanged and a deposit raises it by the credited amount |
| Trace.RunTotal | src/app.js:167-232 | over any run with distinct parties, the total grows by exactly the sum of credited deposits |

## Left out

- HTTP and Express plumbing is not modelled: routing, status codes, `json spaces`, and the second reply attempts after a first `res.end`. Only the first reply sent is modelled.
- The `getProfile` middleware is not part of this model. The caller is a profile id that must exist; the 401 for unknown profiles comes from the middleware.
- Transactions, commit, rollback and concurrency are not modelled, nor the double-pay and stale-deposit races between concurrent requests. Each request runs alone on the ledger it is given.
- A contract whose contractor profile is missing is excluded by the `WellFormed` precondition. In the code this throws only after the job and client writes.
- `Number(req.query.amount)` parsing is not modelled. An amount is either NaN or an integer in minor units; fractional amounts and floating-point prices or balances are not modelled.
- Balances.DepositWrite: when the amount is NaN and the profile exists, the code still issues an update with balance `NaN`. The integer ledger cannot hold that value, so the model leaves the ledger unchanged.
- `CURRENT_TIMESTAMP` is a `now` parameter of the pay handler.
- `findAll` order is taken to be ascending primary key. No `ORDER BY` is given, so the real order is up to the database.
- src/adminController.js (`bestProfession`, `bestClients`) is not modelled. Its filtering, grouping, sums, ordering and limit are evaluated by the database, and its date checks depend on JavaScript `Date` parsing.
- The unreachable not-found replies of the listings (src/app.js:76-78, 109-111) are not modelled. `findAll` always returns an array, so an empty list is a success.

## Findings

| source | as written | input that shows it | evidently intended | confidence | as-written member | corrected member |
|---|---|---|---|---|---|---|
| src/app.js:206-226 | the error branches reply but do not return, so the balance write at lines 228-232 still runs | a client profile with balance 0 and no unpaid jobs deposits 1: the reply is "Deposit is larger than 25% of unpaid jobs", and the balance becomes 1 | return after each error reply, so a refused deposit writes nothing | high; not executed | Balances.DepositOverLimitStillCredits | Balances.DepositWithReturns |
