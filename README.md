# Volunteer firefighter payroll — a Dafny model

This project models the calculation logic behind four screens for paying
volunteer firefighters (消防団員報酬):

- `payment-management-system.tsx` — payment batches that move from editing to
  confirmed to paid. The screen computes dispatch stipends (base pay and risk
  pay only) and annual stipends. It keeps per-incident reward records and
  re-derives their income-tax withholding (10.21 %) and bank transfer amount.
- `firefighter-payroll-system.tsx` — batches with four statuses (draft,
  confirmed, paid, cancelled). The dispatch stipend here also pays a
  leadership allowance and a special-equipment allowance.
- `firefighter-payroll-calculator.tsx` — a stand-alone dispatch calculator
  with the same four-part stipend.
- `payroll-calculator.tsx` — a general monthly payslip: gross pay, four
  percentage deductions each rounded down, and net pay.

Modules:

- `Tables` — the rank and incident-type tables.
- `Roster` — members, incidents and the `find` lookups.
- `Seqs` — `filter` over sequences.
- `Activity` and `Reward` — the two kinds of activity record and their
  upsert.
- `Dispatch` — one dispatch engine for all three screens. The
  `AllowancePolicy` parameter says whether a screen pays the leadership and
  equipment allowances.
- `Annual` — the annual stipend and the annual-record upsert.
- `Selection` — the incident and member checkboxes.
- `Ledger` — the three-status batch list.
- `BatchBook` — the four-status batch list.
- `Payslip` — the general payslip.
- `Calculations` — the shared calculation record.

Money, hours, rates and multipliers are exact `real` numbers, and
`Math.floor` is `.Floor`. React state setters become functions or methods
that return the new value of the state they set. The `forEach` loops with
`let` accumulators, and the loop that fills a `Set`, become `for` loops. Each
loop is proved equal to a recursive specification function, and the
properties are proved about that function. Today's date, `Date.now()`-based
ids and the text a user types are parameters.

## Model

| member | source | states |
|---|---|---|
| Tables.Multiplier | payment-management-system.tsx:122-129 | every rank multiplier is between 1.0 and 2.0 |
| Tables.AnnualBase | payment-management-system.tsx:122-129 | every annual base is between 40,000 and 120,000 yen |
| Tables.BaseRate | payment-management-system.tsx:112-119 | every incident base rate is between 800 and 3,000 yen per hour |
| Tables.RiskMultiplier | payment-management-system.tsx:112-119 | the risk multiplier is at least 1.0, and exactly 1.0 for every type except fire and rescue |
| Tables.RanksOrderedBySeniority | payment-management-system.tsx:122-129 | the rank order by seniority is the same as the order by multiplier and by annual base; distinct ranks differ in both |
| Roster.FindMember | firefighter-payroll-calculator.tsx:183 | `members.find` gives None exactly when no member has the id; otherwise it gives a member with that id |
| Roster.FindMemberIsFirst | firefighter-payroll-calculator.tsx:183 | the member `find` gives is the first one in the list with that id |
| Roster.FindIncident | firefighter-payroll-calculator.tsx:195 | `incidents.find` gives None exactly when no incident has the id; otherwise it gives a listed incident with that id |
| Roster.FindIncidentIsFirst | firefighter-payroll-calculator.tsx:195 | the incident `find` gives is the first one in the list with that id |
| Roster.KnownIds | firefighter-payroll-calculator.tsx:182-184 | the selected ids that name a known member: an id is kept exactly when it is selected and found |
| Roster.KnownIdsStep | firefighter-payroll-calculator.tsx:182-184 | one more selected id adds that id at the end exactly when it names a known member, so the known ids keep selection order |
| Seqs.Filter | firefighter-payroll-calculator.tsx:136 | `filter` keeps exactly the elements that satisfy the test, and keeps nothing else; a test every element passes returns the input |
| Seqs.FilterAppend | firefighter-payroll-calculator.tsx:136 | filtering distributes over concatenation, so the kept elements stay in their original order |
| Seqs.FirstIndex | firefighter-payroll-calculator.tsx:153-155 | `findIndex` gives None exactly when no element passes the test; otherwise it gives the position of the first element that does |
| Seqs.FilterNoDuplicates | firefighter-payroll-calculator.tsx:136 | filtering a list without duplicates gives a list without duplicates |
| Activity.ApplyEdit | firefighter-payroll-calculator.tsx:159 | editing one field keeps the record's key (member and incident) |
| Activity.IndexOfRecord | firefighter-payroll-calculator.tsx:153-155 | `findIndex` gives None exactly when no record has the pair; otherwise it gives the first position holding it |
| Activity.GetActivityRecord | firefighter-payroll-calculator.tsx:175-177 | `find` gives None exactly when no record has the pair; otherwise it gives a listed record with that pair, the only one when keys are unique |
| Activity.GetActivityRecordIsFirst | firefighter-payroll-calculator.tsx:175-177 | the record `find` gives is the first one in the list with that pair |
| Activity.UniqueAfterReplace | firefighter-payroll-calculator.tsx:157-160 | replacing a record by one with the same key keeps the keys unique |
| Activity.UniqueAfterAppend | firefighter-payroll-calculator.tsx:161-171 | appending a record with a new key keeps the keys unique |
| Activity.UpdateActivityRecord | firefighter-payroll-calculator.tsx:152-173 | upsert: if a record has the pair, only the first such record gets the edit and the length is unchanged; otherwise one blank record (0 hours, both flags off, empty notes) with the edit is appended; unique keys stay unique; the pair is present afterwards |
| Activity.WithoutIncident | firefighter-payroll-calculator.tsx:138 | as a set, exactly the records of other incidents remain |
| Activity.WithoutMember | firefighter-payroll-calculator.tsx:148 | as a set, exactly the records of other members remain |
| Reward.WithholdingTax | payment-management-system.tsx:606 | the tax is 10.21 % of the reward rounded down: at most that amount and less than one yen below it |
| Reward.WithholdingWithinReward | payment-management-system.tsx:606 | for a non-negative reward, the tax is between 0 and the reward |
| Reward.WithholdingMonotone | payment-management-system.tsx:606 | a larger reward never has a smaller tax |
| Reward.Settle | payment-management-system.tsx:606-609 | re-deriving leaves a record settled, meaning tax = floor(10.21 % of reward) and transfer = reward − tax − deductions; no other field changes |
| Reward.ApplyEdit | payment-management-system.tsx:602-604 | editing one field keeps the record's key |
| Reward.EditSettles | payment-management-system.tsx:601-610 | editing the reward or the deductions of an existing record settles it, and only the edited field, the tax and the transfer change |
| Reward.TransferMayBeNegative | payment-management-system.tsx:608-609 | nothing clamps the transfer: a reward of 1,000 with deductions of 2,000 gives tax 102 and transfer −1,102 |
| Reward.NewRecordFromDeductionsUnsettled | payment-management-system.tsx:613-631 | a new record is re-derived only for a reward edit: one created by a non-zero deduction edit is not settled |
| Reward.IndexOfRecord | payment-management-system.tsx:597-599 | `findIndex`: None exactly when no record has the pair; otherwise the first position holding it |
| Reward.UniqueAfterReplace | payment-management-system.tsx:601-610 | replacing a record by one with the same pair keeps the pairs unique |
| Reward.UniqueAfterAppend | payment-management-system.tsx:613-631 | appending a record whose pair is absent keeps the pairs unique |
| Reward.UpdateRewardRecord | payment-management-system.tsx:596-635 | upsert: an existing first record gets the edit, re-derived for reward and deduction edits; otherwise a new default record with the edit is appended, re-derived only for a reward edit; the pair is present afterwards and unique pairs stay unique |
| Reward.WithoutIncident | payment-management-system.tsx:593 | as a set, exactly the records of other incidents remain |
| Reward.AsActivity | payment-management-system.tsx:686-690 | the dispatch engine sees the record's pair and hours, with both allowance flags off |
| Reward.AsActivities | payment-management-system.tsx:686-690 | the same projection applied to each record, in order |
| Calculations.SumTotalsAppend | payment-management-system.tsx:773 | the `reduce` sum of totals distributes over concatenation |
| Calculations.SumTotalsNonNegative | payment-management-system.tsx:773 | non-negative totals have a non-negative sum |
| Calculations.MemberIds | payment-management-system.tsx:714-729 | the member id of each calculation, in order |
| Dispatch.RiskFreeTypePaysNoRisk | payment-management-system.tsx:700 | emergency, training, patrol and meeting pay no risk pay, whatever the base and the risk level |
| Dispatch.ContributionsStep | firefighter-payroll-system.tsx:415-452 | one more selected incident adds its contribution, if it has one |
| Dispatch.SumsStep | firefighter-payroll-system.tsx:425-450 | adding a contribution adds to each accumulator and appends one breakdown row |
| Dispatch.AccumulatedStep | firefighter-payroll-system.tsx:425-450 | accumulators that hold a list of contributions, plus one more contribution, hold the longer list |
| Dispatch.AddIncident | firefighter-payroll-system.tsx:421-450 | one worked incident adds its hours, its base pay, its risk pay, 0.2 × base for leadership and 1000 × hours for equipment (each only when the policy and the record allow it), and appends a row with their sum |
| Dispatch.VisitIncident | firefighter-payroll-system.tsx:415-451 | one pass of the inner loop: it keeps the accumulators equal to the sums over the contributions so far, skipping unknown incidents, missing records and 0 hours |
| Dispatch.CalculateMember | firefighter-payroll-system.tsx:405-452 | the inner `forEach` gives exactly the specified member calculation |
| Dispatch.CalculateDispatchPayroll | firefighter-payroll-system.tsx:401-472 | the outer `forEach` gives exactly one specified calculation per known selected member, in order |
| Dispatch.LinePaysSumToAccumulators | firefighter-payroll-system.tsx:440-450 | the pay column of the breakdown adds up to base + risk + leadership + equipment |
| Dispatch.TotalIsBreakdownSum | firefighter-payroll-system.tsx:453 | a member's total is the sum of the four accumulators and also the sum of the breakdown's pay column |
| Dispatch.BaseAndRiskOnlyPaysNoAllowances | payment-management-system.tsx:672-733 | on the payment-management screen the leadership and equipment allowances stay 0, so the total is base + risk |
| Dispatch.ContributionSource | payment-management-system.tsx:686-690 | an incident contributes only when a listed incident and a listed record back it |
| Dispatch.ContributionNonNegative | payment-management-system.tsx:692-703 | non-negative hours and a non-negative risk level give non-negative shares |
| Dispatch.ContributionRiskFree | payment-management-system.tsx:696-703 | an incident whose type has risk multiplier 1.0 contributes no risk pay |
| Dispatch.RiskFreeIncidentsPayNoRisk | payment-management-system.tsx:696-703 | when every incident has risk multiplier 1.0, the risk allowance is 0 |
| Dispatch.SelectingOneMoreIncident | firefighter-payroll-system.tsx:415-451 | selecting one more incident changes nothing if it is unknown, has no record or has 0 hours; otherwise it adds exactly the record's hours and the incident's base, risk, leadership and equipment shares (`ContributionOf`, the same shares `AddIncident` adds), and one row named after the incident |
| Dispatch.MemberCalculationStep | firefighter-payroll-system.tsx:415-451 | one more selected id adds its contribution, if it has one, to every accumulator and one row to the breakdown |
| Dispatch.OneCalculationPerKnownMember | firefighter-payroll-calculator.tsx:179-252 | the calculations are for exactly the selected known member ids, in selection order, and each one is that member's calculation |
| Dispatch.CalculationIdsAreKnownIds | firefighter-payroll-calculator.tsx:179-252 | the ids of the calculations are the known selected ids, in order |
| Dispatch.CalculationsAreMemberCalculations | firefighter-payroll-calculator.tsx:182-250 | every calculation is the calculation of the member its id names |
| Dispatch.NonNegativeInputsGiveNonNegativePay | firefighter-payroll-system.tsx:415-453 | non-negative hours and risk levels give non-negative accumulators and a non-negative total |
| Dispatch.ChiefAtFireExample | firefighter-payroll-calculator.tsx:204-226 | a chief working 4 hours at a fire of risk level 3, with both flags set, gets base 19,200, risk 2,880, leadership 3,840, equipment 4,000 and incident pay 29,920 |
| Annual.ApplyEdit | firefighter-payroll-system.tsx:377-378 | editing one field keeps the member and the year |
| Annual.IndexOfRecord | firefighter-payroll-system.tsx:371-373 | `findIndex` on (member, year): None exactly when no record has the pair; otherwise the first position holding it |
| Annual.GetAnnualPaymentRecord | firefighter-payroll-system.tsx:396-398 | `find` on (member, year): None exactly when no record has the pair; otherwise a listed record with it |
| Annual.GetAnnualPaymentRecordIsFirst | firefighter-payroll-system.tsx:396-398 | the record `find` gives is the first one in the list for that member and year |
| Annual.MemberAnnualCalculation | firefighter-payroll-system.tsx:481-501 | the loop body for a known member gives exactly that member's specified annual calculation |
| Annual.CalculateAnnualPayroll | firefighter-payroll-system.tsx:475-506 | the `forEach` gives exactly one specified annual calculation per known selected member, in order |
| Annual.FallbackRule | firefighter-payroll-system.tsx:482-488 | each part is the record's value unless the record is missing or the value is 0; then it is the rank's annual base, 2,000 × years of service, or 0; the total is the sum of the parts |
| Annual.NoRecordPaysDefaults | firefighter-payroll-system.tsx:482-488 | with no record for the year, the total is annual base + 2,000 × years of service |
| Annual.DefaultRecordPaysDefaults | firefighter-payroll-system.tsx:370-394 | a default record pays what no record pays |
| Annual.OneCalculationPerKnownMember | firefighter-payroll-system.tsx:475-506 | the calculations are for exactly the selected known member ids, in order, and each one is that member's annual calculation |
| Annual.UpdateAnnualPaymentRecord | firefighter-payroll-system.tsx:370-394 | if a record exists for (member, year), only that record gets the edit; otherwise a known member gets one default record with the edit appended, and an unknown member leaves the list unchanged |
| Annual.EditedBaseIsPaid | firefighter-payroll-system.tsx:370-506 | after either outcome of the update with a non-zero base amount (the member's first record for the year edited, or a default record with the edit appended), the annual calculation pays exactly that base amount |
| Selection.Toggle | firefighter-payroll-calculator.tsx:133-136 | checking appends the id; unchecking removes the id and, as a set, keeps every other id |
| Selection.ToggleRoundTrip | firefighter-payroll-calculator.tsx:133-136 | checking a new id and then unchecking it restores the list |
| Selection.UncheckKeepsNoDuplicates | firefighter-payroll-calculator.tsx:136 | unchecking keeps a list without duplicates free of duplicates |
| Selection.AddAllFacts | firefighter-payroll-system.tsx:320-324 | adding members to a set keeps the old ones first, gives their union and adds no duplicate |
| Selection.InSomeIncidentStep | firefighter-payroll-system.tsx:318-325 | with one more remaining incident id, one is a participant of the remaining incidents exactly when one was before or is a participant of that incident |
| Selection.ParticipantUnionFacts | firefighter-payroll-system.tsx:316-327 | the rebuilt member list has no duplicates and holds exactly the participants of the known remaining incidents |
| Selection.RemainingParticipants | firefighter-payroll-system.tsx:316-327 | the nested `forEach` that fills the `Set` gives exactly the participant union: no duplicates, and exactly the participants of the known remaining incidents |
| Selection.PickIncident | firefighter-payroll-system.tsx:299-328 | checking appends the incident and only the participants not yet selected; unchecking removes the incident and, for a known incident, selects the participants of the remaining incidents in the order the `Set` received them, each once and nobody else; an unknown incident leaves the members unchanged |
| Selection.CheckKeepsMembersUnique | firefighter-payroll-system.tsx:303-306 | after checking, the members are the old members plus the incident's participants, with no duplicates |
| Selection.HandleIncidentSelection | firefighter-payroll-system.tsx:299-332 | the new incident and member selection as `PickIncident` states it, and on unchecking the removal of exactly that incident's activity records |
| Selection.HandleRewardIncidentSelection | payment-management-system.tsx:568-595 | the same incident and member selection over the payment-management screen, and on unchecking the removal of exactly that incident's reward records |
| Selection.ToggleIncident | firefighter-payroll-calculator.tsx:132-140 | checking appends the incident; unchecking removes it and, as a set, exactly the records of that incident |
| Selection.ToggleMember | firefighter-payroll-calculator.tsx:142-150 | checking appends the member; unchecking removes it and, as a set, exactly the records of that member |
| Ledger.UpdateWhere | payment-management-system.tsx:470 | `map` by id: only batches with that id change, and the length is unchanged |
| Ledger.CreatePaymentBatch | payment-management-system.tsx:428-443 | appends one batch, editing, with the form's name, type and description, today's date, no other dates and zero totals; the earlier batches are kept |
| Ledger.UpdatePaymentBatch | payment-management-system.tsx:445-456 | without a selection nothing changes; otherwise only the name and description of the selected batch change |
| Ledger.WithStatus | payment-management-system.tsx:458-468 | sets the status; confirming stamps today's confirmation date and, if one is given, the scheduled date; paying stamps today's payment date; no other field changes |
| Ledger.UpdatePaymentBatchStatus | payment-management-system.tsx:458-471 | only the batch with the id changes, and it changes as `WithStatus` says |
| Ledger.HandleConfirmStatus | payment-management-system.tsx:474-487 | nothing happens without a selected batch or with an empty scheduled date; otherwise the list entry and the shown copy are both confirmed with that date, and the date input is cleared |
| Ledger.HandleMarkAsPaid | payment-management-system.tsx:490-499 | nothing happens without a selected batch; otherwise the list entry and the shown copy are both stamped as paid |
| Ledger.ConfirmKeepsDetailInSync | payment-management-system.tsx:474-487 | if the shown copy was in the list, it is still in the list after confirming |
| Ledger.MarkAsPaidKeepsDetailInSync | payment-management-system.tsx:490-499 | if the shown copy was in the list, it is still in the list after marking paid |
| Ledger.DeleteBatch | payment-management-system.tsx:506-508 | as a set, exactly the batches with other ids remain; deleting an absent id changes nothing |
| Ledger.CreateThenDelete | payment-management-system.tsx:428-508 | deleting a batch just created with a new id restores the list |
| Ledger.SaveCalculation | payment-management-system.tsx:768-788 | without a selection nothing changes; otherwise the selected batch gets the sum and the number of calculations and goes back to editing, and no other batch changes |
| Ledger.FilterMatchesCount | payment-management-system.tsx:796-808 | the status filter keeps as many batches as are counted in that status |
| Ledger.FilteredBatches | payment-management-system.tsx:796-801 | "all" gives the whole list; a status gives exactly the batches in that status, as many as are counted in it |
| Ledger.CountsPartitionBatches | payment-management-system.tsx:804-811 | every batch is editing, confirmed or paid, so the three counts add up to the number of batches |
| Ledger.GetSummaryStats | payment-management-system.tsx:804-811 | the total is the number of batches and equals editing + confirmed + paid |
| Ledger.CreateAddsOneEditing | payment-management-system.tsx:428-443 | creating a batch adds one to the editing count and leaves the other counts unchanged |
| Ledger.CountAppend | payment-management-system.tsx:806-808 | counting by status distributes over concatenation |
| Ledger.StatusChangeMovesOneBatch | payment-management-system.tsx:458-471 | with unique ids, a status change moves exactly one batch from its old status count to its new one |
| Ledger.OfferedActions | payment-management-system.tsx:1356-1811 | confirm, delete and save are offered exactly when the batch is editing; mark-as-paid exactly when it is confirmed; a paid batch offers nothing |
| Ledger.OfferedActionsMoveForward | payment-management-system.tsx:1356-1811 | no offered action moves a batch back in the editing → confirmed → paid lifecycle |
| BatchBook.UpdateWhere | firefighter-payroll-system.tsx:276 | `map` by id: only batches with that id change |
| BatchBook.CreatePaymentBatch | firefighter-payroll-system.tsx:259-273 | appends one draft batch with the form's fields, today's date, no payment date and zero totals |
| BatchBook.UpdatePaymentBatchStatus | firefighter-payroll-system.tsx:275-277 | only the status of the batch with the id changes; no date is stamped |
| BatchBook.StatusChangeUndone | firefighter-payroll-system.tsx:275-277 | setting a batch back to its old status restores the list |
| BatchBook.DeleteBatch | firefighter-payroll-system.tsx:279-281 | as a set, exactly the batches with other ids remain; deleting an absent id changes nothing |
| BatchBook.CreateThenDelete | firefighter-payroll-system.tsx:259-281 | deleting a batch just created with a new id restores the list |
| BatchBook.SaveCalculation | firefighter-payroll-system.tsx:508-525 | the selected batch gets the sum and the number of calculations; no status and no other batch changes |
| BatchBook.SavedTotalNonNegative | firefighter-payroll-system.tsx:515-516 | non-negative calculation totals give a non-negative saved total, and the member count is the number of calculations |
| BatchBook.SaveOverwritesSettledBatch | firefighter-payroll-system.tsx:508-525 | saving does not check the status: a paid or cancelled batch gets the new total and keeps its status |
| BatchBook.StatusActions | firefighter-payroll-system.tsx:527-578 | confirmed and cancelled are offered exactly from draft; paid and draft exactly from confirmed; paid and cancelled offer nothing; no status offers itself |
| BatchBook.TerminalStatuses | firefighter-payroll-system.tsx:527-578 | paid and cancelled offer no transition and no delete, and a batch that enters either can no longer be deleted |
| BatchBook.TerminalStatusEndsPath | firefighter-payroll-system.tsx:527-578 | along a sequence of offered transitions, paid or cancelled can only come last |
| BatchBook.PressStatusButton | firefighter-payroll-system.tsx:527-578 | pressing a button changes the batch exactly when the card offers that status; any other status gives `InvalidTransition` |
| Payslip.HandleInputChange | payroll-calculator.tsx:50-55 | only the named field changes, and it becomes the parsed number, or 0 when the text is not a number |
| Payslip.SameFieldsSameData | payroll-calculator.tsx:11-22 | two forms that agree on every field are equal |
| Payslip.InputChangeUndone | payroll-calculator.tsx:50-55 | typing a field's old value back restores the form |
| Payslip.Deduction | payroll-calculator.tsx:64-67 | a deduction is its percentage of gross rounded down: at most the exact amount and less than one yen below it |
| Payslip.CalculatePayroll | payroll-calculator.tsx:57-83 | overtime is (base / 160) × hours × rate; gross is base + overtime + allowances; each of the four deductions is its rate of gross rounded down (`Deduction`); total deductions is their sum; net is gross − total deductions |
| Payslip.NetSalaryBounds | payroll-calculator.tsx:64-70 | net pay is at least gross × (1 − total rate / 100) and less than that plus 4 yen |
| Payslip.NonNegativePayslip | payroll-calculator.tsx:57-70 | non-negative entries with rates adding up to at most 100 % give non-negative gross, deductions and net |
| Payslip.InitialPayslip | payroll-calculator.tsx:25-83 | the initial form gives overtime 46,875, gross 381,875, deductions 38,989 + 38,187 + 57,281 + 2,291 = 136,748 and net 245,127 |

## Left out

- Rendering (JSX), `formatCurrency`, dialogs, tabs and the page navigation flags (`isCreatingBatch`, `isConfirmingStatus`, `isSaving`, `currentPage`): these are presentation, not calculation.
- `fetchIncidents`, the `setTimeout` delay, `alert`, the CSV import and export stubs, `handleBulkExport` and `userRole`: these do I/O, timing or are unimplemented stubs.
- `Date.now()` and `new Date()`: the new batch id and today's date are parameters.
- `useEffect` recalculation triggers, including selecting all members when an annual batch is opened: the calculations are explicit calls to `CalculateDispatchPayroll` and `CalculateAnnualPayroll`.
- `openCalculation`, `closeCalculation` and the other page openers: they only reset or copy UI state.
- IEEE-754 rounding: all arithmetic is exact, so results that JavaScript would round (0.1 × …, 1.6 × …) are their exact decimal values.
- `Number.parseFloat` and `parseInt` on text inputs: the payslip takes an already-parsed `Option<real>`; elsewhere the value an edit carries is already a number.
- The payslip's `parseFloat(value) || 0`: a parsed value of 0 stores 0, the same as the `|| 0` fallback, so nothing is lost; `NaN` is the `None` case.
- Editing a record's key fields (`memberId`, `incidentId`, `year`) through the generic `[field]: value` edit: the screens never do it.
- `joinDate`, `date`, `duration`, `description` and `activityType` labels: no calculation reads them.
- The sample data, `paymentDetails`, `getBatchPaymentDetails`, `getMemberPaymentHistory` and the display-only averages and summaries: they recompute figures for display.
- The incidents of the calculator screen have no participants. Its flat calculation record (`totalPay` plus the five accumulators) is represented by the same `DispatchDetails` record the other screens use.
- Read-only batches: neither screen makes a confirmed, paid or cancelled batch read-only, and the model follows the code. The calculation page opens for every status and its inputs have no status condition. On the payment-management screen only the save button is hidden unless the batch is editing, which `Ledger.OfferedActions` states. The firefighter system saves for any status, which `BatchBook.SaveOverwritesSettledBatch` shows.
- `BatchBook.UpdatePaymentBatchStatus` itself accepts any status, as the code does. The rule that only the offered transitions happen is stated by `BatchBook.PressStatusButton` and `BatchBook.StatusActions`, which describe the buttons.
- `Reward.UpdateRewardRecord` and the other amounts do not clamp negative values: the code does not clamp them either. `Reward.TransferMayBeNegative` shows a negative transfer.
