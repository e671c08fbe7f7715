/**
 * The payment-batch list of the payment-management screen: batches move
 * from editing to confirmed to paid, are created, renamed, deleted and
 * receive the totals of a saved calculation.  Today's date and the new
 * batch id are parameters.
 */
module Ledger {
  import opened Maybe
  import opened Seqs
  import Calculations

  datatype PaymentType = DispatchPayment | AnnualPayment

  datatype PaymentStatus = Editing | Confirmed | Paid

  datatype PaymentBatch = PaymentBatch(
    id: string,
    name: string,
    kind: PaymentType,
    status: PaymentStatus,
    createdDate: string,
    confirmedDate: Option<string>,
    scheduledPaymentDate: Option<string>,
    paymentDate: Option<string>,
    description: string,
    totalAmount: real,
    memberCount: int,
    createdBy: string)

  /** The create/edit form: name, payment type and description. */
  datatype BatchForm = BatchForm(name: string, kind: PaymentType, description: string)

  /** No two batches share an id. */
  predicate UniqueIds(batches: seq<PaymentBatch>)
  {
    forall i, j :: 0 <= i < j < |batches| ==> batches[i].id != batches[j].id
  }

  /** `batches.map(b => b.id === id ? patch(b) : b)`. */
  function UpdateWhere(batches: seq<PaymentBatch>, id: string, patch: PaymentBatch -> PaymentBatch): (r: seq<PaymentBatch>)
    ensures |r| == |batches|
    ensures forall i :: 0 <= i < |batches| ==> r[i] == if batches[i].id == id then patch(batches[i]) else batches[i]
  {
    if batches == [] then []
    else [if batches[0].id == id then patch(batches[0]) else batches[0]] + UpdateWhere(batches[1..], id, patch)
  }

  /** Appends a new editing batch with zero totals, created today by "admin". */
  function CreatePaymentBatch(batches: seq<PaymentBatch>, form: BatchForm, newId: string, today: string): (r: seq<PaymentBatch>)
    ensures |r| == |batches| + 1 && r[..|batches|] == batches
    ensures var b := r[|batches|];
      && b.id == newId && b.name == form.name && b.kind == form.kind && b.description == form.description
      && b.status == Editing && b.createdDate == today
      && b.confirmedDate.None? && b.scheduledPaymentDate.None? && b.paymentDate.None?
      && b.totalAmount == 0.0 && b.memberCount == 0
  {
    batches + [PaymentBatch(newId, form.name, form.kind, Editing, today, None, None, None, form.description, 0.0, 0, "admin")]
  }

  /** Renames the selected batch (name and description); without a selection nothing happens. */
  function UpdatePaymentBatch(batches: seq<PaymentBatch>, selected: Option<PaymentBatch>, form: BatchForm): (r: seq<PaymentBatch>)
    ensures selected.None? ==> r == batches
    ensures |r| == |batches|
    ensures selected.Some? ==> forall i :: 0 <= i < |batches| ==>
      r[i] == if batches[i].id == selected.value.id
              then batches[i].(name := form.name, description := form.description)
              else batches[i]
  {
    match selected
    case None => batches
    case Some(sel) => UpdateWhere(batches, sel.id, (b: PaymentBatch) => b.(name := form.name, description := form.description))
  }

  /**
   * The fields `updatePaymentBatchStatus` merges into a batch: the status,
   * and on confirming today's confirmation date plus the scheduled payment
   * date when one is given (`""` counts as none), on paying today's payment date.
   */
  function WithStatus(b: PaymentBatch, status: PaymentStatus, scheduled: string, today: string): (r: PaymentBatch)
    ensures r.status == status
    ensures r.id == b.id && r.name == b.name && r.kind == b.kind && r.createdDate == b.createdDate
    ensures r.description == b.description && r.totalAmount == b.totalAmount && r.memberCount == b.memberCount
    ensures r.confirmedDate == (if status == Confirmed then Some(today) else b.confirmedDate)
    ensures r.scheduledPaymentDate == (if status == Confirmed && scheduled != "" then Some(scheduled) else b.scheduledPaymentDate)
    ensures r.paymentDate == (if status == Paid then Some(today) else b.paymentDate)
  {
    match status
    case Confirmed =>
      var stamped := b.(status := Confirmed, confirmedDate := Some(today));
      if scheduled != "" then stamped.(scheduledPaymentDate := Some(scheduled)) else stamped
    case Paid => b.(status := Paid, paymentDate := Some(today))
    case Editing => b.(status := Editing)
  }

  /** Sets the status of the batch with this id, stamping dates as `WithStatus` says. */
  function UpdatePaymentBatchStatus(
    batches: seq<PaymentBatch>, batchId: string, status: PaymentStatus, scheduled: string, today: string)
    : (r: seq<PaymentBatch>)
    ensures |r| == |batches|
    ensures forall i :: 0 <= i < |batches| ==>
      r[i] == if batches[i].id == batchId then WithStatus(batches[i], status, scheduled, today) else batches[i]
  {
    UpdateWhere(batches, batchId, (b: PaymentBatch) => WithStatus(b, status, scheduled, today))
  }

  /** The batch list, the batch shown in the detail view, and the scheduled-date input. */
  datatype DetailView = DetailView(batches: seq<PaymentBatch>, selected: Option<PaymentBatch>, scheduledInput: string)

  /**
   * Confirming from the detail view: only with a selected batch and a
   * non-empty scheduled date; the list entry and the shown copy are both
   * stamped and the date input is cleared.
   */
  function HandleConfirmStatus(view: DetailView, today: string): (r: DetailView)
    ensures view.selected.None? || view.scheduledInput == "" ==> r == view
    ensures view.selected.Some? && view.scheduledInput != "" ==>
      var sel := view.selected.value;
      && r.scheduledInput == ""
      && r.batches == UpdatePaymentBatchStatus(view.batches, sel.id, Confirmed, view.scheduledInput, today)
      && r.selected == Some(WithStatus(sel, Confirmed, view.scheduledInput, today))
      && r.selected.value.scheduledPaymentDate == Some(view.scheduledInput)
  {
    if view.selected.Some? && view.scheduledInput != "" then
      var sel := view.selected.value;
      DetailView(
        UpdatePaymentBatchStatus(view.batches, sel.id, Confirmed, view.scheduledInput, today),
        Some(sel.(status := Confirmed, confirmedDate := Some(today), scheduledPaymentDate := Some(view.scheduledInput))),
        "")
    else view
  }

  /** Marking as paid from the detail view: both the list entry and the shown copy are stamped. */
  function HandleMarkAsPaid(view: DetailView, today: string): (r: DetailView)
    ensures view.selected.None? ==> r == view
    ensures view.selected.Some? ==>
      && r.scheduledInput == view.scheduledInput
      && r.batches == UpdatePaymentBatchStatus(view.batches, view.selected.value.id, Paid, "", today)
      && r.selected == Some(WithStatus(view.selected.value, Paid, "", today))
  {
    match view.selected
    case None => view
    case Some(sel) =>
      DetailView(
        UpdatePaymentBatchStatus(view.batches, sel.id, Paid, "", today),
        Some(sel.(status := Paid, paymentDate := Some(today))),
        view.scheduledInput)
  }

  /** The shown copy, when it was the list entry, is still the list entry after confirming. */
  lemma ConfirmKeepsDetailInSync(view: DetailView, today: string)
    requires view.selected.Some? && view.selected.value in view.batches
    ensures HandleConfirmStatus(view, today).selected.value in HandleConfirmStatus(view, today).batches
  {
    var r := HandleConfirmStatus(view, today);
    var k :| 0 <= k < |view.batches| && view.batches[k] == view.selected.value;
    if view.scheduledInput != "" {
      assert r.batches[k] == r.selected.value;
    }
  }

  /** The shown copy, when it was the list entry, is still the list entry after marking paid. */
  lemma MarkAsPaidKeepsDetailInSync(view: DetailView, today: string)
    requires view.selected.Some? && view.selected.value in view.batches
    ensures HandleMarkAsPaid(view, today).selected.value in HandleMarkAsPaid(view, today).batches
  {
    var r := HandleMarkAsPaid(view, today);
    var k :| 0 <= k < |view.batches| && view.batches[k] == view.selected.value;
    assert r.batches[k] == r.selected.value;
  }

  /** Removes every batch with this id and keeps the others in order. */
  function DeleteBatch(batches: seq<PaymentBatch>, batchId: string): (r: seq<PaymentBatch>)
    ensures forall b :: b in r <==> b in batches && b.id != batchId
    ensures (forall b :: b in batches ==> b.id != batchId) ==> r == batches
  {
    Filter(batches, (b: PaymentBatch) => b.id != batchId)
  }

  /** Deleting a batch just created (with a fresh id) restores the list. */
  lemma CreateThenDelete(batches: seq<PaymentBatch>, form: BatchForm, newId: string, today: string)
    requires forall b :: b in batches ==> b.id != newId
    ensures DeleteBatch(CreatePaymentBatch(batches, form, newId, today), newId) == batches
  {
    var created := CreatePaymentBatch(batches, form, newId, today);
    var keep := (b: PaymentBatch) => b.id != newId;
    FilterAppend(batches, [created[|batches|]], keep);
  }

  /**
   * Saving a calculation writes the sum of the calculation totals and their
   * number into the selected batch and puts it back to editing.
   */
  function SaveCalculation(
    batches: seq<PaymentBatch>, selected: Option<PaymentBatch>, calculations: seq<Calculations.PayrollCalculation>)
    : (r: seq<PaymentBatch>)
    ensures selected.None? ==> r == batches
    ensures |r| == |batches|
    ensures selected.Some? ==> forall i :: 0 <= i < |batches| ==>
      r[i] == if batches[i].id == selected.value.id
              then batches[i].(totalAmount := Calculations.SumTotals(calculations),
                               memberCount := |calculations|, status := Editing)
              else batches[i]
  {
    match selected
    case None => batches
    case Some(sel) =>
      var totalAmount := Calculations.SumTotals(calculations);
      var memberCount := |calculations|;
      UpdateWhere(batches, sel.id, (b: PaymentBatch) => b.(totalAmount := totalAmount, memberCount := memberCount, status := Editing))
  }

  // ---------------------------------------------------------------------------
  // Filtering and summary counts
  // ---------------------------------------------------------------------------

  datatype StatusFilter = All | Only(status: PaymentStatus)

  function HasStatus(status: PaymentStatus): PaymentBatch -> bool
  {
    (b: PaymentBatch) => b.status == status
  }

  /** The number of batches in this status. */
  function Count(batches: seq<PaymentBatch>, status: PaymentStatus): nat
  {
    if batches == [] then 0
    else (if batches[0].status == status then 1 else 0) + Count(batches[1..], status)
  }

  /** The status filter keeps as many batches as the count of that status. */
  lemma {:induction false} FilterMatchesCount(batches: seq<PaymentBatch>, status: PaymentStatus)
    ensures |Filter(batches, HasStatus(status))| == Count(batches, status)
  {
    if batches != [] {
      FilterMatchesCount(batches[1..], status);
    }
  }

  /** The batch list shown under a status filter. */
  function FilteredBatches(batches: seq<PaymentBatch>, filter: StatusFilter): (r: seq<PaymentBatch>)
    ensures filter.All? ==> r == batches
    ensures filter.Only? ==> |r| == Count(batches, filter.status)
    ensures filter.Only? ==> forall b :: b in r <==> b in batches && b.status == filter.status
  {
    match filter
    case All => batches
    case Only(status) =>
      FilterMatchesCount(batches, status);
      Filter(batches, HasStatus(status))
  }

  /** Every batch is editing, confirmed or paid. */
  lemma {:induction false} CountsPartitionBatches(batches: seq<PaymentBatch>)
    ensures Count(batches, Editing) + Count(batches, Confirmed) + Count(batches, Paid) == |batches|
  {
    if batches != [] {
      CountsPartitionBatches(batches[1..]);
    }
  }

  datatype SummaryStats = SummaryStats(total: nat, editing: nat, confirmed: nat, paid: nat)

  /** The counts on the management page; the three status counts add up to the total. */
  function GetSummaryStats(batches: seq<PaymentBatch>): (r: SummaryStats)
    ensures r.total == |batches|
    ensures r.editing == |FilteredBatches(batches, Only(Editing))|
    ensures r.confirmed == |FilteredBatches(batches, Only(Confirmed))|
    ensures r.paid == |FilteredBatches(batches, Only(Paid))|
    ensures r.total == r.editing + r.confirmed + r.paid
  {
    CountsPartitionBatches(batches);
    SummaryStats(|batches|, Count(batches, Editing), Count(batches, Confirmed), Count(batches, Paid))
  }

  /** A new batch counts as one more editing batch. */
  lemma CreateAddsOneEditing(batches: seq<PaymentBatch>, form: BatchForm, newId: string, today: string, status: PaymentStatus)
    ensures Count(CreatePaymentBatch(batches, form, newId, today), status)
         == Count(batches, status) + (if status == Editing then 1 else 0)
  {
    var created := CreatePaymentBatch(batches, form, newId, today);
    assert created == batches + [created[|batches|]];
    CountAppend(batches, [created[|batches|]], status);
  }

  /** Counting distributes over concatenation. */
  lemma {:induction false} CountAppend(a: seq<PaymentBatch>, b: seq<PaymentBatch>, s: PaymentStatus)
    ensures Count(a + b, s) == Count(a, s) + Count(b, s)
  {
    if a == [] {
      assert a + b == b;
    } else {
      assert (a + b)[1..] == a[1..] + b;
      CountAppend(a[1..], b, s);
    }
  }

  /**
   * Changing the status of the one batch with this id moves exactly one
   * batch from its old status count to the new one.
   */
  lemma StatusChangeMovesOneBatch(
    batches: seq<PaymentBatch>, k: nat, status: PaymentStatus, scheduled: string, today: string, s: PaymentStatus)
    requires UniqueIds(batches) && k < |batches|
    ensures Count(UpdatePaymentBatchStatus(batches, batches[k].id, status, scheduled, today), s)
            + (if batches[k].status == s then 1 else 0)
         == Count(batches, s) + (if status == s then 1 else 0)
  {
    var r := UpdatePaymentBatchStatus(batches, batches[k].id, status, scheduled, today);
    assert r[..k] == batches[..k];
    assert r[k + 1..] == batches[k + 1..];
    assert batches == batches[..k] + ([batches[k]] + batches[k + 1..]);
    assert r == r[..k] + ([r[k]] + r[k + 1..]);
    CountAppend(batches[..k], [batches[k]] + batches[k + 1..], s);
    CountAppend([batches[k]], batches[k + 1..], s);
    CountAppend(r[..k], [r[k]] + r[k + 1..], s);
    CountAppend([r[k]], r[k + 1..], s);
  }

  // ---------------------------------------------------------------------------
  // Actions the detail view offers
  // ---------------------------------------------------------------------------

  datatype BatchAction = Confirm | Delete | SaveResult | MarkAsPaid

  /**
   * Editing batches can be confirmed, deleted and have a calculation saved;
   * confirmed batches can be marked paid; paid batches offer nothing.
   */
  function OfferedActions(status: PaymentStatus): (r: seq<BatchAction>)
    ensures Confirm in r <==> status == Editing
    ensures Delete in r <==> status == Editing
    ensures SaveResult in r <==> status == Editing
    ensures MarkAsPaid in r <==> status == Confirmed
    ensures status == Paid <==> r == []
  {
    match status
    case Editing => [Confirm, Delete, SaveResult]
    case Confirmed => [MarkAsPaid]
    case Paid => []
  }

  /** The position of a status in the lifecycle. */
  function Stage(status: PaymentStatus): nat
  {
    match status
    case Editing => 0
    case Confirmed => 1
    case Paid => 2
  }

  /** The status a batch has after the action, or `None` when the action removes it. */
  function StatusAfter(status: PaymentStatus, action: BatchAction): Option<PaymentStatus>
  {
    match action
    case Confirm => Some(Confirmed)
    case Delete => None
    case SaveResult => Some(Editing)
    case MarkAsPaid => Some(Paid)
  }

  /** Following the offered actions, a batch never moves back in the lifecycle. */
  lemma OfferedActionsMoveForward(status: PaymentStatus, action: BatchAction)
    requires action in OfferedActions(status) && StatusAfter(status, action).Some?
    ensures Stage(status) <= Stage(StatusAfter(status, action).value)
  {
  }
}
