# Splitly: balances and settlement, verified

Splitly is a React Native app for a group that shares expenses. Each member has a name. Each expense has an amount, a payer and a list of participants who split it equally. From the member and expense lists the app derives three things:

- `getMemberBalances`: a record `{paid, split, net}` per member name;
- `settlementPlan`: a greedy list of payments;
- `totalExpense`: the sum of all amounts.

The payments are planned as follows:

- Members whose net is below -0.01 become debtors, owing the magnitude of their net.
- Members whose net is above 0.01 become creditors.
- While both lists are non-empty, both are re-sorted by descending amount. The first debtor pays the first creditor the smaller of their two amounts. Whichever head has dropped below 0.01 is shifted off.

The same logic exists twice:

- In the shared state provider (`app/context/AppContext.tsx`).
- In the single-screen app (`app/index.tsx`). This one also keeps the form fields in state and a running `totalSpent` per member.

This project models both, file by file:

| file | models |
|---|---|
| `wrappers.dfy` | `Option` |
| `text.dfy` | `String.prototype.trim` and the `toLowerCase` comparison used to refuse duplicate names |
| `ledger.dfy` | the records (`Expense`, `Balance`, `Transaction`, the planner's `{name, amount}` parties), `totalExpense`, and the `filter` by expense id |
| `balances.dfy` | `getMemberBalances`, as a method with the source's three loops proved equal to the function `Sheet`; module `Conservation` proves that the nets sum to zero when every payer and participant is a member and no participant list is empty |
| `sorting.dfy` | `Array.prototype.sort` with the comparator `b.amount - a.amount`, as a stable insertion sort proved sorted, a permutation and stable |
| `settlement.dfy` | `settlementPlan`, as a method whose partition pass and `while` loop are proved equal to the recursive function `Plan`, and the properties of `Plan` |
| `store.dfy` | the provider's `addMember`, `removeMember`, `addExpense`, `removeExpense` and `clearAll`, as pure functions from the previous state, since each is a `setState` updater |
| `screen.dfy` | the single-screen app as the class `SplitScreen`, whose fields are its `useState` variables and whose methods are its handlers |

Money is modelled as exact `real`. Ids and timestamps, which the app takes from `Date.now()`, are parameters. So is the result of `Number(...)` on the amount field (`None` stands for `NaN`).

In two places the code does something other than what its callers or its design lead one to expect. The model follows the code in both:

- `addMember` (app/context/AppContext.tsx:84-92) returns `true` for a name that is already on the roster ignoring case; only the state is left unchanged. The tab screen at app/(tabs)/index.tsx:52-55 shows its "Duplicate" alert only when the flag is `false`. It always passes a non-blank trimmed name, so the alert is never shown and a duplicate is silently dropped. `Store.DuplicateAccepted` states this.
- `settlementPlan` drops every member whose net lies within 0.01 of zero before planning, however many there are. Their amounts are never paid, so the plan can leave a creditor owed far more than 0.01. `Settlement.BandHidesDebt` gives an example: A pays 0.05 split between five others, and the plan is empty though A is owed 0.05. The plan therefore settles debts only up to 0.01 per party; `Settlement.PlanNearlyComplete` states that bound.

## Model

| member | source | states |
|---|---|---|
| Text.Trim | app/context/AppContext.tsx:85 | the result is a slice of the input, everything cut from either end is white space, and the result neither starts nor ends with white space |
| Text.TrimIdempotent | app/context/AppContext.tsx:85 | trimming a trimmed name changes nothing, so `addMember` leaves a name its caller has already trimmed as it is |
| Text.LowerChar | app/context/AppContext.tsx:88 | a character changes only if it is an upper-case ASCII letter, and then to its lower-case form; the result is never upper case |
| Text.LowerEach | app/context/AppContext.tsx:88 | `toLowerCase` maps each character on its own, in place |
| Text.LowerIdempotent | app/index.tsx:86 | lower-casing twice equals lower-casing once |
| Text.Lower | app/context/AppContext.tsx:88 | `toLowerCase` keeps the length; `LowerEach` gives each character's image |
| Text.SameName | app/context/AppContext.tsx:88 | two names match when their lower-case forms are equal; `SameNameEquivalence` and `SameAsLower` state its properties |
| Text.SameNameEquivalence | app/index.tsx:86 | matching ignoring case is reflexive, symmetric and transitive |
| Text.SameAsLower | app/index.tsx:86 | every name matches its own lower-case form |
| Ledger.Abs | app/context/AppContext.tsx:134 | the result is non-negative and is the input or its negation |
| Ledger.Min | app/context/AppContext.tsx:142 | the result is at most both inputs and equals one of them |
| Ledger.TotalExpense | app/context/AppContext.tsx:151 | with positive amounts the total is non-negative, and positive when there is any expense |
| Ledger.TotalExpenseConcat | app/index.tsx:262 | the total of a concatenation is the sum of the totals |
| Ledger.WithoutExpense | app/context/AppContext.tsx:106 | the filter never lengthens the list; `WithoutExpenseMembers` and `WithoutExpenseConcat` say which expenses remain and in what order |
| Ledger.OnlyExpense | app/context/AppContext.tsx:106 | the expenses the filter drops never outnumber the list; `OnlyExpenseMembers` says which they are |
| Ledger.WithoutExpenseMembers | app/context/AppContext.tsx:106 | the filter keeps exactly the expenses whose id differs, and the list is unchanged when no expense has the id |
| Ledger.WithoutExpenseConcat | app/index.tsx:166 | the filter distributes over concatenation, so survivors keep their order |
| Ledger.WithoutExpenseTotal | app/context/AppContext.tsx:105-107 | removing by id lowers the total by exactly the amounts carrying that id |
| Ledger.OnlyExpenseMembers | app/context/AppContext.tsx:106 | the removed expenses are exactly those carrying the id |
| Balances.NameOrder | app/context/AppContext.tsx:116 | the record's key order lists each member name exactly once |
| Balances.Count | app/context/AppContext.tsx:120-122 | a name occurs in a participant list exactly when its count is positive |
| Balances.Share | app/context/AppContext.tsx:119 | for a non-empty participant list the shares add back up to the amount, and a positive amount gives a positive share |
| Balances.Paid | app/context/AppContext.tsx:118 | the sum of the amounts of the expenses the name paid for; `NeverPaid` and `PaidTotalIs` state its properties |
| Balances.Portion | app/context/AppContext.tsx:120-122 | a name not in the participant list is charged nothing |
| Balances.Split | app/context/AppContext.tsx:119-122 | the sum of the name's portions over all expenses; `NeverCharged` and `SplitTotalIs` state its properties |
| Balances.EntryFor | app/context/AppContext.tsx:125 | an entry's net is what the name paid minus what it was charged |
| Balances.NeverPaid | app/context/AppContext.tsx:118 | a name that paid for none of the expenses has paid nothing |
| Balances.NeverCharged | app/context/AppContext.tsx:119-122 | a name in none of the participant lists has been charged nothing |
| Balances.Sheet | app/context/AppContext.tsx:114-128 | the record is well formed, has an entry for exactly the member names, and every entry has `net == paid - split` |
| Balances.MemberBalances | app/context/AppContext.tsx:114-128 | the three loops of `getMemberBalances` produce exactly the record `Sheet` describes |
| Balances.StartBalances | app/context/AppContext.tsx:116 | the first loop gives every member name a zero entry, with keys in first-assignment order |
| Balances.ApplyExpenses | app/context/AppContext.tsx:117-123 | after the expense loop each entry has gained what its name paid and what it was charged, and the keys are unchanged |
| Balances.ApplyExpense | app/index.tsx:202-212 | one expense credits the payer's `paid` if the payer has an entry and charges each participant one share per occurrence |
| Balances.ChargeShares | app/context/AppContext.tsx:120-122 | the participant loop adds one share per occurrence to each listed name that has an entry, and changes nothing else |
| Balances.ComputeNets | app/context/AppContext.tsx:124-126 | the last loop sets `net = paid - split` for every listed key and changes no other field |
| Balances.AppendExpense | app/index.tsx:202-212 | a new expense moves only its payer's `paid` and its participants' `split`, by the amount and one share per occurrence |
| Balances.PortionSnoc | app/index.tsx:207-211 | one more participant adds one share to that name only |
| Balances.PortionOfDistinct | app/index.tsx:206-211 | a participant listed once is charged exactly one share |
| Balances.PortionIsCountTimesShare | app/context/AppContext.tsx:119-122 | a participant is charged the share times its number of occurrences |
| Balances.PortionIsRepeat | app/context/AppContext.tsx:120-122 | the charge is one share added per occurrence |
| Balances.RepeatIsProduct | app/context/AppContext.tsx:121 | adding a share `k` times gives `k` times the share |
| Balances.SharesAddUp | app/context/AppContext.tsx:119 | the `k` equal shares of an amount add up to the amount |
| Balances.SheetEntries | app/context/AppContext.tsx:114-128 | a map with exactly the member names as keys and each entry as computed is the record of `Sheet` |
| Conservation.NetConservation | app/context/AppContext.tsx:114-128 | the nets sum to what members paid minus what members were charged |
| Conservation.PaidByMembersIsTotal | app/context/AppContext.tsx:118 | when every payer is a member, the `paid` column adds up to `totalExpense` |
| Conservation.ChargedToMembersIsTotal | app/context/AppContext.tsx:119-122 | when every participant is a member and no list is empty, the `split` column adds up to `totalExpense` |
| Conservation.PaidTotalIs | app/context/AppContext.tsx:118 | over distinct names, the `paid` column is what those names paid |
| Conservation.SplitTotalIs | app/context/AppContext.tsx:119-122 | over distinct names, the `split` column is what the expenses charged those names |
| Conservation.ZeroSum | app/index.tsx:196-220 | if every payer and participant is a member and no participant list is empty, the nets sum to exactly zero |
| Sorting.Insert | app/context/AppContext.tsx:139 | insertion makes the list one longer |
| Sorting.InsertPermutes | app/context/AppContext.tsx:139 | insertion adds exactly the one element and loses none |
| Sorting.InsertAfter | app/context/AppContext.tsx:139 | an element no larger than the last goes at the end |
| Sorting.InsertBefore | app/context/AppContext.tsx:139 | an element larger than the last goes before it |
| Sorting.SortSnoc | app/context/AppContext.tsx:139-140 | sorting a list inserts its last element into the sorted rest |
| Sorting.InsertSorted | app/context/AppContext.tsx:139 | inserting into a descending list keeps it descending |
| Sorting.SortDesc | app/context/AppContext.tsx:139-140 | the sort's result is a permutation of its input in descending order of amount |
| Sorting.SortedUnchanged | app/index.tsx:235-236 | a list already in descending order is left as it is |
| Sorting.InsertStable | app/context/AppContext.tsx:139 | insertion places the new element after every element with its amount |
| Sorting.SortStable | app/context/AppContext.tsx:139-140 | for every amount, the elements with that amount keep their input order |
| Sorting.SortHead | app/index.tsx:235-238 | the first element after sorting is the earliest element with the largest amount |
| Sorting.SortHeadIsMaximal | app/index.tsx:238 | the first element after sorting is in the input, and no input amount exceeds it |
| Sorting.SortHeadFirst | app/index.tsx:235-238 | among elements with the head's amount, the earliest in the input comes first |
| Sorting.FirstIndex | app/index.tsx:238 | the index found is the first with the given amount |
| Sorting.SortSum | app/context/AppContext.tsx:139-140 | sorting changes no total over any group of names |
| Settlement.Debtors | app/context/AppContext.tsx:134 | there are no more debtors than listed names |
| Settlement.Creditors | app/context/AppContext.tsx:135 | there are no more creditors than listed names |
| Settlement.Unsettled | app/context/AppContext.tsx:133-136 | the members outside the settled band are no more than the listed names |
| Settlement.Plan | app/context/AppContext.tsx:138-147 | the payments of the `while` loop on two lists; `PlanStep`, `PlanEmpty`, `PlanLength` and `PlanParties` state its properties |
| Settlement.PlanEmpty | app/context/AppContext.tsx:138 | the loop emits a payment exactly when both lists are non-empty |
| Settlement.PlanFor | app/context/AppContext.tsx:130-149 | the plan of the debtors and creditors of a balance record; `PlanForLength`, `PlanForParties` and `PlanForWithinBalances` state its properties |
| Settlement.DebtorsExactly | app/context/AppContext.tsx:133-134 | the debtors are exactly the names whose net is below -0.01, each owing the magnitude of its net |
| Settlement.CreditorsExactly | app/context/AppContext.tsx:133-135 | the creditors are exactly the names whose net is above 0.01, each owed its net |
| Settlement.Reduce | app/context/AppContext.tsx:144-146 | the head is shifted off exactly when its decremented amount is below 0.01; otherwise it stays, its amount lowered by the payment; the other parties are kept, in order |
| Settlement.SettlementPlan | app/context/AppContext.tsx:130-149 | the plan equals `PlanFor`, has at most one payment fewer than the unsettled members, and each payment is at least 0.01, from a net below -0.01 to a net above 0.01 |
| Settlement.Partition | app/index.tsx:223-229 | the partition loop builds exactly `Debtors` and `Creditors` |
| Settlement.PartitionStep | app/index.tsx:226-229 | each entry adds at most one party, at the end of its list |
| Settlement.Settle | app/context/AppContext.tsx:138-147 | the `while` loop emits exactly `Plan` of the two lists |
| Settlement.Round | app/index.tsx:233-248 | one pass emits the first payment of the plan and leaves lists whose plan is the rest, with at least one party fewer |
| Settlement.Decrease | app/index.tsx:244-248 | the in-place decrement and conditional `shift` compute `Reduce` |
| Settlement.PlanStep | app/context/AppContext.tsx:139-146 | the plan is the first round's payment followed by the plan of the reduced lists |
| Settlement.SortPending | app/context/AppContext.tsx:139-140 | sorting keeps every amount at least 0.01 and keeps the set of names |
| Settlement.ReducePending | app/context/AppContext.tsx:144-146 | after a round every remaining amount is still at least 0.01, and no new name appears |
| Settlement.PlanLength | app/context/AppContext.tsx:138-147 | a non-empty plan has at most one payment fewer than there are parties |
| Settlement.PlanParties | app/context/AppContext.tsx:141-143 | each payment goes from a debtor to a creditor of the lists, for at least 0.01 |
| Settlement.PlanHead | app/index.tsx:235-242 | the first payment matches the earliest largest debtor with the earliest largest creditor, for the smaller amount |
| Settlement.ReduceSum | app/context/AppContext.tsx:144-146 | a round takes exactly the amount off, plus under 0.01 when the head is shifted off |
| Settlement.PlanOutflowWithinDebts | app/context/AppContext.tsx:141-146 | no group of debtors pays more than it owed |
| Settlement.PlanInflowWithinCredits | app/context/AppContext.tsx:141-146 | no group of creditors receives more than it was owed |
| Settlement.SumNonNegative | app/context/AppContext.tsx:134-135 | outstanding amounts of at least 0.01 have a non-negative sum |
| Settlement.PlanNearlyComplete | app/context/AppContext.tsx:138-147 | on one side, the plan moves all that was owed except under 0.01 per party of that side |
| Settlement.PartiesAreUnsettled | app/context/AppContext.tsx:133-136 | the debtors and creditors together number exactly the members outside the settled band |
| Settlement.PartiesPending | app/context/AppContext.tsx:133-136 | every debtor and creditor starts with an amount of at least 0.01 |
| Settlement.PlanForLength | app/index.tsx:222-252 | the plan has at most one payment fewer than the members outside the settled band |
| Settlement.PlanForParties | app/index.tsx:222-252 | each payment runs from a member with net below -0.01 to one with net above 0.01, for at least 0.01 |
| Settlement.SettledPlanIsEmpty | app/context/AppContext.tsx:133-138 | when every net is within 0.01 of zero, the plan is empty |
| Settlement.PartiesAreUnsettledZero | app/context/AppContext.tsx:133-136 | with every net in the settled band, nobody is unsettled |
| Settlement.DebtorSum | app/context/AppContext.tsx:134 | with distinct keys, a name's debtor amount is the magnitude of its net if that is below -0.01, and zero otherwise |
| Settlement.CreditorSum | app/context/AppContext.tsx:135 | with distinct keys, a name's creditor amount is its net if that is above 0.01, and zero otherwise |
| Settlement.PlanForWithinBalances | app/context/AppContext.tsx:130-149 | no member pays more than the magnitude of a net below -0.01 or receives more than a net above 0.01; everybody else neither pays nor receives |
| Settlement.PlanStepSorted | app/index.tsx:233-248 | on lists already in descending order, a round works on the heads as given |
| Settlement.PlanStepAfterSort | app/index.tsx:233-248 | a round, stated in terms of what the two lists sort to |
| Settlement.OneToOne | app/index.tsx:233-249 | one debtor and one creditor with equal amounts settle in a single payment |
| Settlement.OneCreditorTwoDebtors | app/index.tsx:233-249 | two equal debtors pay one creditor in list order |
| Settlement.FourMembers | app/index.tsx:233-249 | with debtors B 5, C 45, D 25 and creditor A 75, the plan is C pays 45, D pays 25, B pays 5 |
| Settlement.FourMembersFirstRound | app/index.tsx:233-249 | in that example the first round is C paying A 45 |
| Settlement.TwoDebtorsLeft | app/index.tsx:233-249 | in that example the remaining rounds are D paying 25, then B paying 5 |
| Settlement.SortThree | app/index.tsx:235 | the three debtors of that example sort to C, D, B |
| Settlement.OneExpense | app/index.tsx:202-217 | with one expense, a net is what the name paid minus its portion |
| Settlement.TeaNets | app/index.tsx:202-217 | when A pays 0.05 split between five others, A's net is 0.05 and each other's is -0.01 |
| Settlement.TeaSheet | app/index.tsx:196-220 | the balance record of that example has those nets |
| Settlement.NoDebtors | app/index.tsx:227 | with no net below -0.01 there are no debtors |
| Settlement.BandHidesDebt | app/index.tsx:222-252 | in that example the nets sum to zero, A is still owed 0.05, and the plan is empty |
| Store.AddMember | app/context/AppContext.tsx:84-92 | `true` exactly when the trimmed name is non-empty; the name is appended exactly when no member matches it ignoring case; expenses are untouched |
| Store.DuplicateAccepted | app/context/AppContext.tsx:84-92 | a non-blank trimmed name always gets `true`, so the tab screen's "Duplicate" branch is never taken; a name already known leaves the state unchanged |
| Store.Known | app/context/AppContext.tsx:88 | some member's name matches ignoring case; `KnownIgnoresCase` states its property |
| Store.KnownIgnoresCase | app/context/AppContext.tsx:88 | two names that match ignoring case are known to the same roster |
| Store.WithoutMember | app/context/AppContext.tsx:95 | the filter never lengthens the list |
| Store.WithoutMemberMembers | app/context/AppContext.tsx:95 | the filter keeps exactly the members with another id, and keeps them all when none has the id |
| Store.WithoutMemberConcat | app/context/AppContext.tsx:95 | the filter distributes over concatenation, so the surviving members keep their order |
| Store.RemoveMember | app/context/AppContext.tsx:94-96 | exactly the members with another id remain, in their order (the list is `WithoutMember`, see `WithoutMemberConcat`); expenses are untouched |
| Store.Record | app/context/AppContext.tsx:101 | the record carries the draft's fields unchanged, with the given id and date |
| Store.AddExpense | app/context/AppContext.tsx:98-103 | exactly one record, the draft with the given id and date, is appended; members are untouched |
| Store.RemoveExpense | app/context/AppContext.tsx:105-107 | exactly the expenses with another id remain; members are untouched |
| Store.ClearAll | app/context/AppContext.tsx:109-112 | both lists are empty |
| Store.NamesOf | app/context/AppContext.tsx:116 | the names are the members' names, in list order |
| Store.CaseUniqueSnoc | app/context/AppContext.tsx:88-89 | appending a name keeps the names distinct ignoring case exactly when it matches no member |
| Store.AddMemberKeepsRoster | app/context/AppContext.tsx:84-92 | `addMember` keeps the names trimmed, non-empty and distinct ignoring case |
| Store.AddMemberMakesKnown | app/context/AppContext.tsx:84-92 | after an accepted `addMember` some member matches the name ignoring case |
| Store.AddMemberThenRemove | app/context/AppContext.tsx:84-96 | adding under a fresh id, then removing that id, restores the state |
| Store.WithoutMemberCaseUnique | app/context/AppContext.tsx:95 | removing members keeps the names distinct ignoring case |
| Store.RemoveMemberKeepsRoster | app/context/AppContext.tsx:94-96 | `removeMember` keeps the roster's shape |
| Store.AddExpenseTotal | app/context/AppContext.tsx:98-103 | `addExpense` grows `totalExpense` by exactly the amount |
| Store.AddExpenseThenRemove | app/context/AppContext.tsx:98-107 | adding under a fresh id, then removing that id, restores the state |
| Store.RemoveExpenseTotal | app/context/AppContext.tsx:105-107 | `removeExpense` lowers `totalExpense` by the removed amounts |
| Store.AddExpenseBalances | app/context/AppContext.tsx:117-123 | a new expense adds the amount to its payer's `paid` and its portion to each participant's `split`; every other member's entry stays as it was |
| Store.MemberBalances | app/context/AppContext.tsx:114-128 | the record is well formed and has an entry for exactly the member names |
| Store.BalanceOf | app/context/AppContext.tsx:114-128 | every member has an entry, computed from the expenses |
| Store.ClearAllSettles | app/context/AppContext.tsx:109-112 | after `clearAll` there are no balances, no plan and a zero total |
| Screen.NamesOf | app/index.tsx:392 | the names are the members' names, in list order |
| Screen.Known | app/index.tsx:86 | some member's name matches ignoring case |
| Screen.Credit | app/index.tsx:138-144 | the map keeps the list's length |
| Screen.Description | app/index.tsx:129 | the description is the trimmed text if that is non-empty, and "Untitled Expense" otherwise |
| Screen.WithoutName | app/index.tsx:107 | the filter never lengthens the list |
| Screen.WithoutNameConcat | app/index.tsx:107 | the filter distributes over concatenation, so the surviving members keep their order |
| Screen.Unselect | app/index.tsx:108 | the filter never lengthens the list |
| Screen.UnselectConcat | app/index.tsx:108 | the filter distributes over concatenation, so the remaining selected names keep their order |
| Screen.WithoutNameMembers | app/index.tsx:107 | removing by name keeps exactly the members with another name |
| Screen.UnselectMembers | app/index.tsx:413 | unselecting keeps exactly the other names, and changes nothing when the name is not selected |
| Screen.SplitScreen.constructor | app/index.tsx:41-47 | every list and text field starts empty, and the invariant holds |
| Screen.SplitScreen.SetNewMemberName | app/index.tsx:300 | only the member-name field changes |
| Screen.SplitScreen.SetNewExpenseDesc | app/index.tsx:340 | only the description field changes |
| Screen.SplitScreen.SetNewExpenseAmount | app/index.tsx:347 | only the amount field changes |
| Screen.SplitScreen.ChoosePayer | app/index.tsx:362 | only the payer changes, to the chosen member |
| Screen.SplitScreen.ToggleSplit | app/index.tsx:411-414 | a selected name is removed and an unselected one appended, so the name's selection flips; nothing else changes |
| Screen.SplitScreen.ToggleAll | app/index.tsx:388-394 | a selection as long as the member list is cleared; otherwise every member is selected, in list order |
| Screen.SplitScreen.AddMember | app/index.tsx:83-94 | a blank name does nothing; a name matching a member ignoring case is refused and the field kept; otherwise the trimmed name joins with nothing spent and the field is cleared |
| Screen.SplitScreen.Join | app/index.tsx:91-92 | the member is appended, the name field cleared, and the invariant kept |
| Screen.SplitScreen.RemoveMember | app/index.tsx:105-110 | every member with the name goes, the name leaves the selection, the payer is cleared if it was that member, and the invariant is kept |
| Screen.SplitScreen.Drop | app/index.tsx:107-109 | the three updates of the confirming branch, keeping the invariant |
| Screen.SplitScreen.AddExpense | app/index.tsx:116-153 | missing details or an amount that is not a positive number change nothing; otherwise the expense is recorded, each selected member's `totalSpent` grows by one share, and the form is reset |
| Screen.SplitScreen.Commit | app/index.tsx:125-149 | the expense is recorded, the selected members are charged an equal share, and the form is reset |
| Screen.SplitScreen.Charge | app/index.tsx:136-144 | the expense is appended and the selected members are charged one share each |
| Screen.SplitScreen.ResetForm | app/index.tsx:146-149 | the amount, description, selection and payer are emptied |
| Screen.SplitScreen.RemoveExpense | app/index.tsx:164-166 | exactly the expenses with another id remain; nothing else changes |
| Screen.SplitScreen.ClearAll | app/index.tsx:182-190 | members, expenses, selection, payer and form are emptied; the member-name field is kept |
| Screen.SplitScreen.MemberBalances | app/index.tsx:196-220 | the balance record is `Sheet` of the member names and the expenses |
| Screen.SplitScreen.SettlementPlan | app/index.tsx:222-252 | the plan is `PlanFor` of that record |
| Screen.CaseUniqueSnoc | app/index.tsx:86-91 | appending a name keeps the names distinct ignoring case exactly when it matches no member |
| Screen.UnselectDistinct | app/index.tsx:413 | unselecting keeps the selection free of repeats and shortens it by one exactly when the name was selected |
| Screen.DistinctSnoc | app/index.tsx:413 | appending an unselected name keeps the selection free of repeats |
| Screen.WithoutNameNames | app/index.tsx:107 | after removal the name is gone and no new name appears |
| Screen.WithoutNameCaseUnique | app/index.tsx:107 | removing by name keeps the names distinct ignoring case |
| Screen.WithoutNameKeeps | app/index.tsx:107 | every other member name survives the removal |
| Screen.CreditEffect | app/index.tsx:138-144 | crediting changes only `totalSpent`, and only of selected members, each by exactly the share |
| Screen.CreditKeepsNames | app/index.tsx:138-144 | crediting keeps the member names |
| Screen.CreditTotal | app/index.tsx:138-144 | the total spending grows by one share per selected member |
| Screen.CountInAgrees | app/index.tsx:140 | two selections that agree on every member name select equally many members |
| Screen.CountInSelection | app/index.tsx:140 | with distinct names, a selection of distinct member names selects as many members as it has names |
| Screen.CreditSharesOut | app/index.tsx:125-144 | on a valid screen, an accepted expense grows the members' total spending by exactly its amount |
| Screen.CreditKeepsSpending | app/index.tsx:141 | a non-negative share keeps every `totalSpent` non-negative |
| Screen.CreditKeepsRoster | app/index.tsx:138-144 | crediting keeps the names trimmed, non-empty and distinct ignoring case |
| Screen.RemoveKeepsValid | app/index.tsx:105-110 | removing a member keeps the roster, keeps the selection made of distinct remaining names, and keeps the payer empty or a remaining member |
| Screen.ExpenseKeepsValid | app/index.tsx:125-149 | recording a valid expense and charging its participants keeps the roster and the records valid |
| Screen.RecordsSnoc | app/index.tsx:136 | appending an expense with a positive amount, a payer and participants keeps every record valid |

## Left out

- Loading from and saving to `AsyncStorage`, with their JSON encoding, the readiness flag and the loading screen. These are I/O.
- The rendering, navigation, `Alert` dialogs and `Haptics` feedback. A handler behind a confirmation dialog is modelled as its confirming branch; the "Cancel" branch changes nothing.
- `Date.now()` ids and ISO dates are parameters. Two ids created in the same millisecond could collide; the round-trip lemmas require a fresh id instead.
- `Number(newExpenseAmount)` is a parameter `parsed: Option<real>`, with `None` for `NaN`. Parsing itself is not modelled.
- IEEE-754 rounding. Amounts are exact reals, so the zero-sum property holds exactly rather than up to floating-point drift.
- `toLowerCase` maps only the ASCII letters. Other scripts' case mappings are not modelled.
- JavaScript orders integer-like keys (such as a member named "2") before other keys in a record. The model lists keys in first-assignment order. Names that clash with `Object.prototype` members are not modelled either.
- React's deferred state updates and stale closures. Each handler is modelled as applying its updates to the state it was rendered with, which is what the updaters compute when no other update is pending.
- The expense categories of the provider are carried as an opaque string. The `(tabs)` screens, `_layout.tsx` and currency formatting are not part of this model.
- Balances.Share: an expense with no participants makes the source divide by zero but never use the quotient. The model uses a share of 0, which gives the same balances.
- Screen.SplitScreen.AddExpense: its `ensures` describes the new `totalSpent` through `Credit`. The fact that the total grows by exactly the amount is proved separately in Screen.CreditSharesOut, not restated in the method.
- Screen.Credit, Screen.WithoutName, Screen.Unselect, Store.WithoutMember, Ledger.WithoutExpense, Ledger.OnlyExpense: each function's own `ensures` gives only a length. The membership and order facts are in the lemmas named after them (`CreditEffect`, `WithoutNameMembers`, `WithoutNameConcat`, `UnselectMembers`, `UnselectConcat`, `WithoutMemberMembers`, `WithoutMemberConcat`, `WithoutExpenseMembers`, `WithoutExpenseConcat`, `OnlyExpenseMembers`). Keeping them out of the functions keeps the proofs that use these functions small.
- Sorting.Insert: its own `ensures` gives only the length. That it adds exactly the one element is `Sorting.InsertPermutes`, for the same reason.
- Settlement.Plan, Settlement.PlanFor, Balances.Paid, Balances.Split, Store.Known, Text.SameName: these definitions carry no `ensures` of their own. What they satisfy is stated by the lemmas named in their rows.
- Screen.Known: a one-line predicate with no `ensures` and no lemma of its own; its definition, "some member's name matches ignoring case", is what it states.
- Settlement.PlanNearlyComplete: this is weaker than "every net ends within 0.01 of zero", because the code does not guarantee that. Members whose net is within 0.01 of zero are dropped before planning, however many there are, and their amounts are never paid. Settlement.BandHidesDebt gives an example: A pays 0.05 split between five others. Each of them owes exactly 0.01, so the plan is empty, though the nets sum to zero and A is still owed 0.05. The model follows the code here.

