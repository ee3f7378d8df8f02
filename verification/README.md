# Expense splitter: settlement, lifecycle and confirmation, verified

The service records what the members of a group pay, splits every expense, and
when the group is closed computes a snapshot and a list of payments that evens
everybody out. Each payment then goes through a confirmation machine with two
keys, and the group is settled with its last payment. This project models that
logic in Dafny and proves what it guarantees, for all inputs and for all runs.

The modules follow the program:

- `Shares`, `Machine`, `Allocations`, `FairShares`, `Planner` are the functions of
  `settlement.go`, as loops over sequences, maps and arrays, each proved against a
  specification function. `PlanBounds`, `PlanOrder`, `Shortest` and `Divisions` prove
  what the plan promises. `MachineClose` is the computation of a close in int64, and when it gives
  what unbounded integers give.
- `Requests` is the validation of a request to record an expense.
- `Tables`, `Snapshots` and `Queries` are the rows of a group, the queries a close
  runs on them and the snapshot it computes; `Breakdown` says what stands in every entry
  of a snapshot in terms of the expenses alone.
- `TwoKey` is the payment machine as a pure function and what its histories contain.
- `Lifecycle` is the concurrent protocol: committed rows, transactions under way and
  one event per statement that a transaction can execute next, with PostgreSQL's row
  locks, foreign keys and unique constraints, at isolation level read committed. An
  event that has to wait or cannot happen changes nothing, so every sequence of events
  is a run. `Invariants` and `Protocol` prove what every event keeps; `Guarantees`
  states what therefore holds in every reachable state, `Records` what the run, the
  payments and the audit log say there, entry by entry, `Ownership` who writes expenses,
  `Roles` who settles and closes and `Memberships` who joins and who decides.
- `Orderly` proves more for runs in which a removal and a finalization commit only
  while what they checked still holds. `Serial` gives the effect of each request as a
  whole, proves it equal to its statements when nothing interleaves, and shows that
  serving requests one after the other is orderly; `Serializable` shows the converse:
  when exactly a commit does what its caller's request does if served at that moment,
  and that a run of such commits reaches the rows of its requests in that order.
  `Settling` says when exactly a closed group can still be settled. `GroupStore` is the class
  whose methods change the rows in place with exactly that effect; each method also states
  in plain fields when it succeeds, what it answers otherwise and every row afterwards.
- `Races` and `LastPayments` are runs the locks do not prevent, from the creation of a
  group to the state in which a promise fails.
- `Search` and `Nudges` are the text search and the reminders.

## Where the code falls short of what it promises

1. `RemoveMember` runs its checks and its deletion as separate statements. An expense
   committed in between can name the member who is about to go; the share is then
   charged to nobody on the list, the nets no longer sum to zero, and the group can
   read settled while somebody is owed money (`Races.LeavingStrandsADebt`). A hand-over
   in between can promote the member who is about to go; the group then has no admin,
   over any further run (`Races.PromotionLosesTheAdmin`). What a deletion may do is characterised exactly by `Orderly.RemovalIsFairIffUnused`; what
   the nets sum to in any case, by `Snapshots.TotalsAgree`; and everybody is square
   if and only if nobody outside the list is charged (`Guarantees.SettledMeansSquare`).
2. Two finalizations that run side by side, by whoever may finalize, each count the
   other's payment as unsettled. All payments end up settled and the group stays closed,
   over any further run (`LastPayments.LastTwoFinalizationsStrandAGroup`). A finalization
   leaves the group's status right if and only if its count still holds when it commits
   (`Orderly.PaidIsComplete`). A closed group can be settled without a global admin if
   and only if it has an admin and an unsettled payment (`Settling.CanBeSettledIff`), so
   neither this group nor one that has lost its admin ever is.
3. The README of the repository calls the plan the minimum set of payments; its section
   on the algorithm, more carefully, a heuristic. The plan can be longer than necessary
   (`Shortest.PlanIsNotAlwaysShortest`). Its length is the number of debtors and creditors
   less the number of running sums that the debts, largest first, and the credits, largest
   first, have in common (`Divisions.PlanLength`); it is the shortest if and only if the
   members cannot be divided into more groups that settle separately than there are such
   sums (`Divisions.PlanIsShortestIff`), third parties or not, and always below twice the
   shortest.
4. `weightedShares` multiplies in int64 and amounts have no upper bound in the
   validation, so an accepted request can be split wrongly (`Machine.Int64SplitCanFail`);
   `Machine.Int64SplitIsExact` says exactly when the machine result is the mathematical one.
   For the same reason two accepted expenses can close with a negative total
   (`MachineClose.LargeTotalWraps`) or not at all (`MachineClose.LargeSumFailsTheClose`).
   The total is right if and only if it is below 2^63 (`MachineClose.TotalIsExactIff`);
   with no product beyond that either, so is the whole close (`MachineClose.CloseIsExact`).
5. `weightedShares` is not exact for every negative amount (`Shares.SplitIsExact` is an
   if and only if); the validation and the table reject those.
6. A close and a removal ask for their caller's authority once, before they start. In
   every open group an admin who starts to close and then hands over still closes it; in
   the order of the commits the close would be refused
   (`Serializable.HandedOverStillCloses`). That the caller still has the authority is part
   of the exact condition in `Serializable.EventIsServedIff`.

## Model

| member | source | states |
|---|---|---|
| Shares.FairShares | server/services/settlement.go:37-51 | the loop computes the equal split, nothing for a group of none |
| Shares.WeightedShares | server/services/settlement.go:57-80 | the loops compute the specification `Split`, with Go's truncating division, for every amount and every list of weights |
| Shares.ProportionalParts | server/services/settlement.go:68-73 | the proportional parts and their sum |
| Shares.TopUp | server/services/settlement.go:74-78 | the remainder pass adds one to the first entries, as many as are left over, in place |
| Shares.RemainderFits | server/services/settlement.go:74-78 | for a non-negative amount the leftover is below the number of participants, so one pass hands it all out |
| Shares.SplitIsExact | server/services/settlement.go:53-80 | the shares sum to the amount if and only if it is not negative or nothing is lost to rounding |
| Shares.UnweightedSplitChargesNobody | server/services/settlement.go:65-67 | without positive total weight all shares are zero |
| Shares.SplitIsFair | server/services/settlement.go:70-78 | each share is the exact proportion rounded down, or one more, and those with one more come first |
| Shares.SplitIsNonNegative | server/services/settlement.go:57-80 | nobody is charged a negative share |
| Shares.UnitWeightsSplitEqually | server/services/settlement.go:53-56 | unit weights give exactly the equal split |
| Shares.EqualSplitAt | server/services/settlement.go:37-51 | of a non-negative amount everybody gets the quotient, and as many as the remainder says, the first ones, one baisa more |
| Machine.Int64SplitIsExact | server/services/settlement.go:61-78 | wrapping int64 arithmetic computes the mathematical split if and only if no product of amount and weight leaves the type |
| Machine.Int64SplitCanFail | server/types/expense.go:68-99 | an amount and weights that the validation accepts and int64 splits wrongly |
| Machine.WrapIsCongruent | server/services/settlement.go:61-78 | an int64 operation is off by a multiple of 2^64 and stays in the type |
| Allocations.AllocationsFromRows | server/services/settlement.go:12-32 | the loop with its index map computes the regrouping |
| Allocations.RegroupedAt | server/services/settlement.go:12-32 | the k-th allocation has the amount, users and weights of exactly the rows of the k-th expense, wherever they stand |
| Allocations.UserWeight | server/services/settlement.go:22-29 | each row with a user puts that user with its weight, or 1 for a null weight, at the end of the list, and a row without one nothing |
| Allocations.RegroupingUndoesJoin | server/services/settlement.go:12-32 | from any interleaving of the joined rows every expense comes back with its amount, users and weights, a null weight as 1, in first-appearance order |
| Allocations.RegroupedJoin | server/database/queries/expenses.sql:10-15 | regrouping undoes the LEFT JOIN: its own order of rows gives the expenses back in order |
| FairShares.AddCharges | server/services/settlement.go:109-111 | the inner loop adds each share to its user's entry of the map |
| FairShares.BuildFairShares | server/services/settlement.go:94-114 | the map has the members and the named users as keys, and every user's entry is what that user owes over all expenses |
| FairShares.OwedIsAdditive | server/services/settlement.go:99-112 | the shares of two lists of expenses taken together are the pointwise sums |
| FairShares.OwedIgnoresOrder | server/services/settlement.go:99-112 | the order of the expenses does not matter |
| FairShares.SharesConserve | server/services/settlement.go:94-114 | members and named outsiders together are charged exactly the amounts |
| FairShares.OutsidersOwe | server/services/settlement.go:94-114 | nothing is charged outside the member list if and only if every outsider's share is zero |
| FairShares.OwedBetween | server/services/settlement.go:94-114 | nobody owes less than nothing or more than all amounts together |
| FairShares.MemberOwes | server/services/settlement.go:91-111 | of an expense without named users the i-th member owes the i-th part of the equal split, so the remainder falls on the first members |
| FairShares.NamedUserOwes | server/services/settlement.go:102-111 | of an expense with named users the i-th of them owes the i-th part of the split by the weights |
| FairShares.OthersOweNothing | server/services/settlement.go:102-111 | nobody else owes anything of it |
| Planner.OneArrangement | server/services/settlement.go:134-145 | both comparison functions leave one sorted arrangement only, so an unstable sort is deterministic |
| Ids.LessIsLexicographic | server/services/settlement.go:134-145 | user ids are compared character by character: one is less if and only if it is a proper beginning of the other, or has the smaller character where they first differ |
| Planner.ComputePlan | server/services/settlement.go:120-167 | splits the balances, sorts both sides and matches them: the result is the specification `Plan` |
| Planner.Match | server/services/settlement.go:147-166 | the two pointers over the arrays, with balances changed in place, compute the greedy matching of two lists |
| Planner.Pay | server/services/settlement.go:150-164 | one turn: one transfer, both balances moved, a pointer whose balance is zero moves on |
| Planner.AfterOne | server/services/settlement.go:149-165 | each transfer empties at least one side's account, which is why the loop ends |
| PlanOrder.PayersAreOrdered | server/services/settlement.go:134-166 | of two transfers by different users the earlier is by the one with the larger debt, or with the same debt and the smaller id |
| PlanOrder.ReceiversAreOrdered | server/services/settlement.go:134-166 | and in the same way for who receives, by the larger credit |
| PlanOrder.OnlyThePlan | server/services/settlement.go:116-167 | for distinct users and nets that sum to zero the plan is the only list of transfers that are positive, between each pair at most once, pay every debt and credit exactly and are ordered on both sides |
| PlanBounds.PlanPaysExactly | server/services/settlement.go:147-166 | for nets that sum to zero each debtor sends exactly the debt and receives nothing, each creditor the reverse, the others neither |
| PlanBounds.PlanConnects | server/services/settlement.go:156 | every transfer is positive and goes from a debtor to a creditor |
| PlanBounds.PlanSettlesIffZeroSum | server/services/settlement.go:116-120 | the plan brings every net to zero if and only if the nets sum to zero |
| PlanBounds.PlanIsShort | server/services/settlement.go:147-166 | at most debtors plus creditors less one transfers, fewer than there are members |
| PlanBounds.SettlingTakes | server/services/settlement.go:116-119 | any way of settling has at least as many transfers as there are debtors, and as there are creditors |
| PlanBounds.PlanIsNearOptimal | server/services/settlement.go:116-119 | the plan has fewer than twice the transfers of any other way of settling, and no more when one side has a single member |
| PlanBounds.PlanMovesLeast | server/services/settlement.go:116-120 | no way of settling moves less money in total |
| PlanBounds.PlanIgnoresOrder | server/services/settlement.go:119 | the same balances in any order give the very same transfers |
| Divisions.Parts | server/services/settlement.go:116-119 | any transfers leave at least as many separate groups, crossed by no transfer and touching given users, as there are such users less transfers |
| Divisions.SettlingDivides | server/services/settlement.go:116-119 | whoever settles in few transfers, through third parties or not, divides the members into many groups that settle by themselves |
| Divisions.DivisionSettles | server/services/settlement.go:116-119 | every division into groups that settle by themselves gives a way of settling with one transfer less per group |
| Divisions.PlanLength | server/services/settlement.go:147-166 | the plan has as many transfers as there are debtors and creditors, less the running sums that the two sorted lines have in common |
| Divisions.PlanIsShortestIff | server/services/settlement.go:116-119 | no way of settling, among the members or through third parties, is shorter than the plan if and only if no division into groups that settle separately has more groups than there are common running sums |
| Divisions.IndivisiblePlanIsShortest | server/services/settlement.go:116-119 | when no group of members settles by itself, no way of settling has fewer transfers than the plan |
| Shortest.PlanIsNotAlwaysShortest | server/services/settlement.go:116-119 | five balances that three transfers settle and the plan settles with four |
| Requests.ValidateShare | server/types/expense.go:83-96 | one turn of the loop finds what is wrong with the share, in the order of the source, or puts 1 for an omitted weight |
| Requests.ValidateShares | server/types/expense.go:81-97 | the loop stops at the first share not in order, with the omitted weights before it replaced and the rest untouched |
| Requests.Validate | server/types/expense.go:68-99 | a request passes if and only if the amount is positive, the category one of the five, description and date are there, and every share has its own uuid and a weight from 1 to 1000 or none; then the weights left out are 1 and nothing else has changed |
| Requests.PassesIff | server/types/expense.go:68-97 | for every request: all checks pass if and only if those conditions hold |
| Requests.ComplaintTells | server/types/expense.go:69-95 | which complaint a request gets: the first thing wrong, in the order of the source |
| Requests.SplitTypeOf | server/types/expense.go:54-64 | equal exactly without shares, weighted exactly when some weight exceeds one |
| Requests.ValidatedSplitsExactly | server/types/expense.go:81-97 | whatever passed is split exactly, and a subset split is an equal split among those named |
| Requests.StorableMakesValidExpense | server/database/migration/schema/0001_init.sql:53-76 | a validated request satisfies the row constraints on amount and weights |
| Tables.GroupsAddUp | server/database/queries/expenses.sql:58-68 | grouping the live expenses by payer or by category keeps their total |
| Tables.PaidIs | server/services/close.go:58-61 | the entry of a membership is what it paid for live expenses, zero when absent |
| Snapshots.AllocationsAre | server/database/queries/expenses.sql:10-15 | the joined rows regroup to exactly the live expenses and their shares |
| Snapshots.AllocationsAreChargeable | server/types/expense.go:81-97 | valid expenses meet the preconditions of the exact split |
| Snapshots.TotalsAgree | server/services/close.go:53-94 | total spent, paid and the categories agree, and the fair shares and the nets miss by exactly what outsiders are charged |
| Snapshots.ZeroSumIffNoOutsider | server/services/close.go:88-94 | the nets sum to zero if and only if nobody off the list is charged |
| Breakdown.SpendingIs | server/services/close.go:63-71 | a category is reported if and only if some live expense is of it, with the sum of those expenses |
| Breakdown.TotalIs | server/services/close.go:73-106 | the total spent is the sum of the live expenses, and the member count is the number of members listed |
| Breakdown.MemberIs | server/services/close.go:78-94 | each member's line: the sum of the member's own live expenses, the sum of the member's shares in all of them, and the difference |
| Breakdown.EqualShareIs | server/services/settlement.go:91-111 | of an expense that names nobody each listed member's share is the quotient, and for the first ones by user id one baisa more |
| Breakdown.NamedShareIs | server/database/queries/expenses.sql:10-15 | of an expense that names users their shares are its split by their weights, in the order of their ids |
| Breakdown.NoShareIs | server/services/settlement.go:94-114 | nobody else has a share of it |
| Queries.OrderedUsers | server/database/queries/memberships.sql:66-70 | the ordering by user id |
| Queries.ListApprovedMembers | server/database/queries/memberships.sql:66-70 | exactly the approved members with their membership ids, by increasing user id |
| Queries.SumGroups | server/database/queries/expenses.sql:58-68 | the sum of the live amounts per group, for either grouping |
| Queries.TotalOf | server/services/close.go:73-76 | the loop over the map, in whatever order, gives the sum of its values, in unbounded integers |
| Queries.ListExpenseAllocations | server/database/queries/expenses.sql:10-15 | the rows of the LEFT JOIN in creation order, shares by user id |
| Queries.BalanceMembers | server/services/close.go:89-93 | the loop fills in every member's paid, fair share and net |
| Queries.TakeSnapshot | server/services/close.go:53-101 | the queries and loops of a close compute the snapshot of the expenses |
| MachineClose.TotalOf | server/services/close.go:73-76 | the loop over the map in int64 gives the sum of its values, wrapped around once |
| MachineClose.BuildFairShares | server/services/settlement.go:94-114 | the loops in int64 give every user what the machine's shares come to, wrapped around once |
| MachineClose.MemberOwes64 | server/services/settlement.go:91-111 | in int64 too the i-th member owes the i-th part of an expense that names nobody |
| MachineClose.NamedUserOwes64 | server/services/settlement.go:102-111 | and the i-th named user the i-th part of one that names users |
| MachineClose.OthersOweNothing64 | server/services/settlement.go:102-111 | and nobody else anything |
| MachineClose.TakeSnapshot | server/services/close.go:53-101 | the queries, with their casts, and the loops in int64 compute the machine snapshot, or fail |
| MachineClose.Match | server/services/settlement.go:147-166 | the pointer loop in int64 over lists of nets above -2^63 is the greedy matching |
| Breakdown.FailsIff | server/database/queries/expenses.sql:58-68 | the queries of a close fail if and only if what some payer paid, or what was spent on some category, does not fit int64 |
| Breakdown.MachineTotalIs | server/services/close.go:63-106 | otherwise categories and member count are exact and the total differs from the exact one by a multiple of 2^64 |
| Breakdown.MachineMemberIs | server/services/close.go:78-94 | users and what they paid are exact; each fair share differs from the sum of the charges, and each net from paid less fair share, by a multiple of 2^64 |
| MachineClose.TotalIsExactIff | server/services/close.go:73-76 | the close gets a total and the right one if and only if the live expenses come to less than 2^63 |
| MachineClose.CloseIsExact | server/services/close.go:53-101 | with such a total and no amount times a weight beyond 2^63 the machine snapshot is the mathematical one |
| MachineClose.Compute | server/services/close.go:53-94 | everything a close computes in int64, snapshot and plan, is then what unbounded integers give |
| MachineClose.LargeTotalWraps | server/services/close.go:73-76 | two valid expenses by different payers in different categories that close with a negative total |
| MachineClose.LargeSumFailsTheClose | server/database/queries/expenses.sql:58-62 | two valid expenses by one payer whose sum fails the query and the close |
| TwoKey.AllowedSteps | server/services/payments.go:117-178 | for each status, exactly which action by whom from where leads to it |
| TwoKey.RefusedSteps | server/services/payments.go:117-178 | for every action, actor and status: exactly when a step is forbidden and exactly when it conflicts |
| TwoKey.LabelTells | server/services/payments.go:341-363 | the label of a lawful step tells its action and, for an override, that the status admitted it to a global admin only |
| TwoKey.OverrideExceedsGroupAdmin | server/services/payments.go:341-363 | a step is labelled an override if and only if a group admin could not have taken it |
| TwoKey.SettledIsFinal | server/services/payments.go:118-120 | no step of a history but the last settles |
| TwoKey.DebtorNeverAdvances | server/services/payments.go:112-116 | no step by the debtor, whatever other roles that user has, confirms or settles |
| TwoKey.DebtorAlone | server/services/payments.go:112-116 | a history of the debtor's steps only never gets past a submitted proof |
| TwoKey.TwoKeys | server/services/payments.go:150-164 | a settled history ends with proof, confirmation and finalization by the right people, or with a labelled override of the global admin, never both |
| TwoKey.DisputeNeedsNewProof | server/services/payments.go:141-148 | a disputed payment is settled, except by an override, only after a new proof |
| Invariants.MemberEventKeeps | server/services/memberships.go:13-236 | joining, deciding and handing over keep the whole invariant in any state |
| Invariants.RemoveDeleteKeeps | server/services/memberships.go:287-290 | so does a deletion, stale checks or not, because the foreign keys keep every payer |
| Protocol.ExpenseLookupKeeps | server/services/expenses.go:99-111 | looking up one named user, between any other statements, keeps the invariant |
| Protocol.ExpenseCommitKeeps | server/services/expenses.go:68-152 | committing a recorded, updated or deleted expense keeps the invariant |
| Protocol.ApprovedListOk | server/database/queries/memberships.sql:66-70 | the list has nobody twice and everybody who paid |
| Protocol.CloseReadKeeps | server/services/close.go:48-84 | whatever the four queries read one after the other under the lock stays what one read would return |
| Protocol.CloseCommitKeeps | server/services/close.go:109-159 | the run that commits has the snapshot of the expenses it closes over and its plan as payments |
| Protocol.PaidHistories | server/services/payments.go:281-300 | a commit extends its payment's log entries by one linked lawful step and its version by one |
| Protocol.PaidProofs | server/services/payments.go:185-203 | marking the proofs seen before the guarded update and committing after it leaves exactly the latest proof of each payment current |
| Protocol.PaidKeepsPay | server/database/queries/payments.sql:12-16 | a commit outdates every other transaction on its payment and no transaction on another |
| Protocol.PayCommitKeeps | server/services/payments.go:226-330 | committing a payment step keeps the invariant |
| Protocol.EventKeeps | server/database/queries/groups.sql:33-50 | every statement of every transaction keeps the invariant |
| Protocol.RunKeeps | README.md:271-279 | so does every run |
| Guarantees.ClosedIsFinal | server/services/close.go:35-47 | once closed, over any further run, expenses, run and payment terms stay, and so do settled payments and a settled group |
| Guarantees.SettledOnce | server/database/migration/schema/0001_init.sql:79-85 | in every reachable state there is at most one run, the group is open until there is one, and its totals are those of the live expenses, added without overflow |
| Records.RunSays | server/services/close.go:53-106 | in every reachable state the run lists its members by user id, counts all of them, and has for every category exactly what the live expenses spent on it |
| Records.RunSaysOf | server/services/close.go:78-94 | and for every member what that member paid, owes and is left with, as sums over the expenses |
| Records.PaymentsAre | server/services/close.go:123-134 | in every reachable state the payments are the transfers of the plan for the balances of the run, in order |
| Records.ExpenseSays | server/database/migration/schema/0001_init.sql:53-76 | in every reachable state every expense has a positive amount, weights from 1 to 1000 and a payer who is still an approved member |
| Guarantees.SettledMeansSquare | server/services/payments.go:302-324 | in every reachable settled group all payments are settled; and with its payments everybody has paid exactly the fair share if and only if nobody off the list is charged |
| Guarantees.StepsFormOneChain | server/services/payments.go:221-225 | under any interleaving the committed steps of a payment are one gapless chain from pending to its status, as many as its version says |
| Records.LogSays | server/services/payments.go:341-363 | in every reachable state each log entry is about a payment of the group, has the roles its user has in it, and its label tells its action and where it led |
| Records.LogLinks | server/services/payments.go:291-300 | in every reachable log a step starts where the one before it on the same payment ended, the first one from pending |
| Records.PaymentSays | server/database/queries/payments.sql:12-16 | in every reachable state the version of a payment is the number of log entries about it and its status that of the last |
| Guarantees.SettledTookTwoKeys | server/services/payments.go:112-116 | in every reachable state a settled payment went through both keys or a labelled override |
| Guarantees.DebtorAloneGetsNowhere | server/services/payments.go:112-116 | in every reachable state a payment only its debtor has acted on is neither confirmed nor settled |
| Guarantees.OutdatedNeverCommits | server/services/payments.go:281-289 | once the version of a payment has moved on, a transaction that saw an earlier one cannot commit and its guarded update ends it |
| Guarantees.OneCommitPerVersion | server/database/queries/payments.sql:12-16 | over every run at most one of the transactions that see the same version of a payment ever commits |
| Guarantees.ProvenHasOneCurrentProof | server/database/migration/schema/0001_init.sql:107-116 | without help from the unique index a payment has at most one current proof, exactly one when proven or confirmed, and it is the latest of as many as were submitted |
| Ownership.OnlyPayersWrite | server/services/expenses.go:85-87 | over every run, whatever interleaves, an expense is recorded, changed or deleted only by its payer, and its payer and shares never change |
| Roles.RolesAreReal | server/services/payments.go:253-270 | over every run whoever the log shows acting as group admin had been the approved admin, and whoever it shows as global admin had called as one |
| Roles.SettledByAnAdmin | server/services/payments.go:150-164 | a settled payment was settled by such an admin who is not the debtor, by override only as global admin |
| Roles.ClosedByAnAdmin | server/services/close.go:23-25 | a group was closed by somebody who had been its approved admin or called as global admin |
| Memberships.RowAfter | server/services/memberships.go:13-122 | what one event can make of one user's membership: it appears when its user, verified, asks for it in an open group, is decided when requested, by an admin, and keeps its id |
| Memberships.DecisionHolds | server/services/memberships.go:65-122 | a decision takes effect: the membership is approved or rejected, as decided |
| Memberships.AskedFor | server/services/memberships.go:13-55 | over every run each membership but the founder's was asked for by its own verified user while the group was open |
| Memberships.WasDecided | server/services/memberships.go:65-122 | over every run whoever is approved or rejected, but for the founder, was so by an event of a global admin or an approved admin of the group |
| Memberships.DecidedForGood | server/database/queries/memberships.sql:16-20 | over any further run an approved or rejected membership stays so or is gone, and its id goes to nobody else |
| Memberships.DecidedOnce | server/database/queries/memberships.sql:16-20 | over every run a membership is decided at most once |
| Orderly.RemovalIsFairIffUnused | server/services/memberships.go:265-287 | a deletion keeps the admin and everybody who shares an expense if and only if its checks still hold, counting the users looked up so far for expenses under way |
| Orderly.PaidIsComplete | server/services/payments.go:302-324 | a step leaves the group settled exactly when all its payments are, if and only if its count still holds |
| Orderly.ApprovedListFair | server/services/close.go:48-52 | in orderly runs a close lists everybody who shares an expense, and at least the admin |
| Orderly.RunFair | server/services/memberships.go:238-294 | every orderly run keeps an admin, approved sharers and the right group status |
| Orderly.ExactlyOneAdmin | server/database/queries/memberships.sql:36-46 | in orderly runs there is exactly one admin, who is approved |
| Orderly.BooksBalance | server/services/close.go:73-94 | in orderly runs the nets sum to zero and the fair shares to the total spent, over at least one member |
| Orderly.EverybodyIsSquare | server/services/close.go:138-143 | in orderly runs a closed group is settled exactly when all its payments are, and its payments make everybody square |
| Serial.ServedAsOne | server/services/expenses.go:50-152 | for each service function: its statements, when nothing interleaves, have exactly its effect as a whole, and are orderly |
| Serial.ServedIsSound | server/services/memberships.go:238-294 | each request keeps everything orderly runs keep |
| Serial.SerialIsOrderly | server/services/memberships.go:256-290 | any requests served one after the other reach only states of orderly runs |
| Serializable.EventIsServedIff | server/services/close.go:23-47 | in orderly runs a commit does to the rows what its caller's request does if served at that moment, if and only if a close's list and its caller's authority, a removal's caller's authority, or a payment actor's group admin role are still current |
| Serializable.FreshRunIsSerial | server/services/expenses.go:68-152 | an orderly run whose commits rest on current lists, authority and roles reaches exactly the rows of its requests, by their own callers, served one after the other in the order of their commits |
| Serializable.QuietRunIsSerial | server/services/payments.go:231-339 | so does every orderly run of interleaved expense, close and payment transactions among the same members |
| Serializable.RequestsWereMade | server/services/expenses.go:68-152 | over every run each request in the commit order was asked for by statements of the run, by this caller and with these arguments |
| Serializable.HandedOverStillCloses | server/services/close.go:23-47 | in every open group an admin who starts to close and hands over before the lock still closes it; served in the order of the commits the close would be refused, served in the other order both requests reach the rows of the run |
| Races.LeavingStrandsADebt | server/services/memberships.go:265-290 | a run in which a group of two reads settled with nothing to pay while its admin is owed the whole expense |
| Races.NoAdminForever | server/services/memberships.go:197-209 | a group without an admin has none over any further run |
| Races.PromotionLosesTheAdmin | server/services/memberships.go:256-290 | a run in which the admin hands over to a member whose removal is under way, after which the group has no admin over any further run |
| LastPayments.ClosedForever | server/services/payments.go:307-311 | a group closed with all payments settled stays so over any further run |
| LastPayments.FinalizedSideBySide | server/services/payments.go:302-324 | from any closed group with two unsettled payments that these callers, the same or not, may finalize as group or global admin, two finalizations side by side leave it there |
| LastPayments.LastTwoFinalizationsStrandAGroup | server/services/payments.go:302-324 | a run from the creation of a group of three, without a global admin, in which both payments are proven, confirmed and finalized by its admin, and which ends there |
| Settling.ReceiversAreApproved | server/services/memberships.go:287-290 | in every reachable state whoever is to receive a payment is an approved member |
| Settling.SettlesOne | server/services/payments.go:117-178 | in a closed group with an admin every unsettled payment can be settled by its debtor, its creditor and the admin, who hands over to the creditor where needed |
| Settling.CanBeSettledIff | server/services/payments.go:302-324 | from every reachable closed group some requests without a global admin reach the settled group if and only if it has an admin and an unsettled payment |
| Settling.NeverSettledOtherwise | server/services/payments.go:150-164 | otherwise no run without a global admin settles it, whatever interleaves |
| Settling.OrderlyGroupsCanBeSettled | server/services/payments.go:302-324 | every closed group of an orderly run can be settled without a global admin |
| GroupStore.Group.constructor | server/services/groups.go:36-56 | an open group whose founder is its approved admin, and nothing else |
| GroupStore.Group.RequestToJoin | server/services/memberships.go:13-55 | succeeds if and only if the caller is verified, the group open and there is no membership yet, which then is a requested one with the next id |
| GroupStore.Group.DecideMember | server/services/memberships.go:65-122 | denied to all but a global admin and an approved group admin; decides exactly a requested membership, as asked, and changes no other |
| GroupStore.Group.TransferAdmin | server/services/memberships.go:162-236 | demotes, then promotes: which answer is given when, and every role and standing afterwards |
| GroupStore.Group.RemoveMember | server/services/memberships.go:238-294 | for oneself or as admin; removes a member if and only if it has no admin role, no expenses, deleted or not, no live shares and no payments, and no other |
| GroupStore.AllNamedApproved | server/services/expenses.go:99-111 | the loop finds whether everybody named is an approved member |
| GroupStore.ShareRows | server/services/expenses.go:126-136 | the loop inserts one row per share |
| GroupStore.Group.RecordExpense | server/services/expenses.go:50-165 | succeeds if and only if the group is open, the day in range and the caller and everybody named approved; then appends exactly the expense asked for |
| GroupStore.Group.UpdateExpense | server/services/expenses.go:295-383 | changes amount and category, and nothing else, if and only if the group is open, the day in range and the expense live and the caller's own |
| GroupStore.Group.DeleteExpense | server/services/expenses.go:231-293 | marks an expense deleted, and nothing else, if and only if the group is open and the expense live and the caller's own |
| GroupStore.Group.CloseGroup | server/services/close.go:14-163 | denied to all but admins, a conflict unless open; otherwise closes onto the snapshot of exactly the approved members, with one pending payment per transfer of the plan, settled at once without any; with sums that int64 holds it cannot fail past the status check |
| GroupStore.Group.Settle | server/services/close.go:48-143 | the part under the lock: list, snapshot, plan, run, payments, settled at once without payments |
| GroupStore.Group.Apply | server/services/payments.go:275-324 | the statements of an accepted step: proof, payment row, log entry, group status |
| GroupStore.StepIs | server/services/payments.go:275-324 | for all rows: an accepted step has exactly that effect on payment, proofs, log and group status |
| GroupStore.Group.Judge | server/services/payments.go:253-270 | the checks: whoever has no part in the payment is denied before the machine is asked |
| GroupStore.Group.TransitionPayment | server/services/payments.go:226-339 | which answer is given when; an accepted step changes status and version of its payment only, makes a new proof the only current one, adds one log entry, and settles a closed group exactly with its last payment |
| Serial.EndsOfPlanExist | server/database/migration/schema/0001_init.sql:98-100 | the payments of a close never violate their foreign keys when nothing interleaves |
| Search.SearchIsLiteral | server/services/expenses.go:46-48 | for every term and every text the search pattern matches exactly the texts that contain the term, up to case |
| Search.EscapeIsInjective | server/services/expenses.go:46-48 | different terms escape differently |
| Search.EscapesEach | server/services/expenses.go:46-48 | each backslash, percent sign and underscore gets a backslash, wherever it stands, and nothing else changes |
| Nudges.Reminders.UpsertNudge | server/database/queries/nudges.sql:9-15 | the conditional upsert and whether it sends |
| Nudges.Reminders.RunNudges | server/services/nudges.go:38-76 | a payment is reported if and only if it is pending or proof_submitted, was last updated longer ago than the threshold, and its debtor or creditor was not reminded within it; in the order of the payments, with recipient, kind and amount; the table has their times and is otherwise unchanged; sent plus skipped is the number of such payments due by age |
| Nudges.StaleIff | server/database/queries/nudges.sql:1-7 | listed are exactly the payments pending or proof_submitted whose last update is more than 3600 seconds times the hours ago |
| Nudges.RunComesTo | server/services/nudges.go:38-76 | for every table, list of payments and clock: that is what the upserts of a run come to |
| Nudges.RemindersAreSpaced | server/database/queries/nudges.sql:9-15 | however runs interleave and whatever their clocks say, two reminders of a kind are more than the later one's threshold apart |
| Nudges.RunHasDistinctKeys | server/database/queries/nudges.sql:1-7 | a run attempts no reminder twice |
| Nudges.RunIsIdempotent | server/services/nudges.go:13-18 | the upserts of a run made once more, at whatever later times, send nothing if and only if each key was last sent to within the threshold |
| Nudges.SendsNothingIff | server/services/nudges.go:13-18 | after whatever upserts, further ones send nothing if and only if a reminder of each key was sent within its threshold |

## Left out

- One group: rows of different groups never meet, so group ids do not appear.
- I/O, HTTP, identity lookup, PDF, image proofs' storage and hashing: a proof is an opaque value, a caller is a user id with the global admin and verified flags.
- Failures of the database in the middle of a transaction: a transaction commits, or ends without effect (the `Abort` event at any point).
- The reads of authority and status before `RequestToJoin`, `setMemberStatus` and `TransferAdmin` write: each is one atomic step. Authority can be out of date when the write happens; nothing proved depends on it.
- The four checks of `RemoveMember` are one step and its deletion another; what is proved of all runs does not rely on the checks, what is proved of orderly runs asks that they hold at the deletion.
- Each membership lookup of `RecordExpense` is a step of its own, the named users in any order; its inserts and commit are one step, and so are those of a close.
- Row locks on proofs and the unique index on current proofs: without them more interleavings are possible than in PostgreSQL, and `Guarantees.ProvenHasOneCurrentProof` holds of those too.
- `SettlementRun.listed`, the member list with membership ids, is kept with a run for the specification; the table stores the snapshot only.
- User ids are strings in canonical form; two spellings of one uuid, which the validation takes for two users, are not modelled (the unique constraint on shares rejects them).
- Dates: whether a day is within the trip is an input of the expense steps.
- int64 in the protocol: its closes compute in unbounded integers, which is what `MachineClose` computes in int64 for totals and products below 2^63; beyond that a close is modelled by `MachineClose` only.
- Queries.TotalOf: adds unbounded integers; `MachineClose.TotalOf` is the loop in int64.
- GroupStore.Group.CloseGroup: does not model the casts of the queries to bigint, which fail a close whose sums reach 2^63 (`MachineClose.LargeSumFailsTheClose`).
- MachineClose.CloseIsExact: assumes at most 2^50 members and 2^50 shares per expense.
- `sort.Slice` is modelled by what it promises, a sorted permutation, not by its algorithm.
- The audit entries other than those of payments, `GetSettlementPlan`, listings, pagination, `truncateDescription`, group metadata, account administration and group deletion: none of it bears on what is proved.
- A fewest-transfers plan is not computed by the code, so there is none to model.
- Machine.Int64SplitIsExact: assumes that the sum of the weights stays below one eighth of the int64 range, which 1000 per participant cannot exceed.
- Planner.SortSlice: states what the library sort promises and nothing about stability, because the plan does not depend on it.
