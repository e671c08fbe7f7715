/**
 * The payment-batch list of the firefighter payroll system, with its four
 * statuses (draft, confirmed, paid, cancelled), the transitions its batch
 * cards offer and the rule for when a batch may be deleted.
 */
module BatchBook {
  import opened Maybe
  import opened Seqs
  import Calculations

  datatype PaymentType = DispatchPayment | AnnualPayment

  datatype PaymentStatus = Draft | Confirmed | Paid | Cancelled

  datatype PaymentBatch = PaymentBatch(
    id: string,
    name: string,
    kind: PaymentType,
    status: PaymentStatus,
    createdDate: string,
    paymentDate: Option<string>,
    description: string,
    totalAmount: real,
    memberCount: int)

  datatype BatchForm = BatchForm(name: string, kind: PaymentType, description: string)

  /** `batches.map(b => b.id === id ? patch(b) : b)`. */
  function UpdateWhere(batches: seq<PaymentBatch>, id: string, patch: PaymentBatch -> PaymentBatch): (r: seq<PaymentBatch>)
    ensures |r| == |batches|
    ensures forall i :: 0 <= i < |batches| ==> r[i] == if batches[i].id == id then patch(batches[i]) else batches[i]
  {
    if batches == [] then []
    else [if batches[0].id == id then patch(batches[0]) else batches[0]] + UpdateWhere(batches[1..], id, patch)
  }

  /** Appends a new draft batch with zero totals, created today. */
  function CreatePaymentBatch(batches: seq<PaymentBatch>, form: BatchForm, newId: string, today: string): (r: seq<PaymentBatch>)
    ensures |r| == |batches| + 1 && r[..|batches|] == batches
    ensures var b := r[|batches|];
      && b.id == newId && b.name == form.name && b.kind == form.kind && b.description == form.description
      && b.status == Draft && b.createdDate == today && b.paymentDate.None?
      && b.totalAmount == 0.0 && b.memberCount == 0
  {
    batches + [PaymentBatch(newId, form.name, form.kind, Draft, today, None, form.description, 0.0, 0)]
  }

  /** Sets the status of the batch with this id; nothing else changes (no date is stamped). */
  function UpdatePaymentBatchStatus(batches: seq<PaymentBatch>, batchId: string, status: PaymentStatus)
    : (r: seq<PaymentBatch>)
    ensures |r| == |batches|
    ensures forall i :: 0 <= i < |batches| ==>
      r[i] == if batches[i].id == batchId then batches[i].(status := status) else batches[i]
  {
    UpdateWhere(batches, batchId, (b: PaymentBatch) => b.(status := status))
  }

  /** Setting a batch back to the status it had restores the list. */
  lemma StatusChangeUndone(batches: seq<PaymentBatch>, k: nat, status: PaymentStatus)
    requires k < |batches|
    requires forall i :: 0 <= i < |batches| && batches[i].id == batches[k].id ==> batches[i].status == batches[k].status
    ensures UpdatePaymentBatchStatus(UpdatePaymentBatchStatus(batches, batches[k].id, status), batches[k].id, batches[k].status)
         == batches
  {
    var id := batches[k].id;
    var r := UpdatePaymentBatchStatus(UpdatePaymentBatchStatus(batches, id, status), id, batches[k].status);
    forall i | 0 <= i < |batches| ensures r[i] == batches[i] {
    }
  }

  /** Removes every batch with this id and keeps the others in order. */
  function DeleteBatch(batches: seq<PaymentBatch>, batchId: string): (r: seq<PaymentBatch>)
    ensures forall b :: b in r <==> b in batches && b.id != batchId
    ensures (forall b :: b in batches ==> b.id != batchId) ==> r == batches
  {
    Filter(batches, (b: PaymentBatch) => b.id != batchId)
  }

  /** Deleting a batch just created (with a fresh id) restores the list. */
  lemma CreateThenDelete(batches: seq<PaymentBatch>, form: BatchForm, newId: string, today: string)
    requires forall b :: b in batches ==> b.id != newId
    ensures DeleteBatch(CreatePaymentBatch(batches, form, newId, today), newId) == batches
  {
    var created := CreatePaymentBatch(batches, form, newId, today);
    var keep := (b: PaymentBatch) => b.id != newId;
    FilterAppend(batches, [created[|batches|]], keep);
  }

  /**
   * Saving a calculation writes the sum of the calculation totals and their
   * number into the selected batch; its status is left as it was.
   */
  function SaveCalculation(
    batches: seq<PaymentBatch>, selected: Option<PaymentBatch>, calculations: seq<Calculations.PayrollCalculation>)
    : (r: seq<PaymentBatch>)
    ensures selected.None? ==> r == batches
    ensures |r| == |batches|
    ensures forall i :: 0 <= i < |batches| ==> r[i].status == batches[i].status && r[i].id == batches[i].id
    ensures selected.Some? ==> forall i :: 0 <= i < |batches| ==>
      r[i] == if batches[i].id == selected.value.id
              then batches[i].(totalAmount := Calculations.SumTotals(calculations), memberCount := |calculations|)
              else batches[i]
  {
    match selected
    case None => batches
    case Some(sel) =>
      var totalAmount := Calculations.SumTotals(calculations);
      var memberCount := |calculations|;
      UpdateWhere(batches, sel.id, (b: PaymentBatch) => b.(totalAmount := totalAmount, memberCount := memberCount))
  }

  /** Non-negative calculation totals give a non-negative saved total. */
  lemma SavedTotalNonNegative(
    batches: seq<PaymentBatch>, selected: Option<PaymentBatch>, calculations: seq<Calculations.PayrollCalculation>, k: nat)
    requires selected.Some? && k < |batches| && batches[k].id == selected.value.id
    requires forall i :: 0 <= i < |calculations| ==> calculations[i].totalAmount >= 0.0
    ensures SaveCalculation(batches, selected, calculations)[k].totalAmount >= 0.0
    ensures SaveCalculation(batches, selected, calculations)[k].memberCount == |calculations|
  {
    Calculations.SumTotalsNonNegative(calculations);
  }

  /**
   * Saving does not look at the status: the totals of a paid (or cancelled)
   * batch are overwritten like those of a draft, and the status stays.
   */
  lemma SaveOverwritesSettledBatch(batches: seq<PaymentBatch>, k: nat, calculations: seq<Calculations.PayrollCalculation>)
    requires k < |batches| && (batches[k].status == Paid || batches[k].status == Cancelled)
    requires Calculations.SumTotals(calculations) != batches[k].totalAmount
    ensures var r := SaveCalculation(batches, Some(batches[k]), calculations);
      && r[k] != batches[k] && r[k].status == batches[k].status
      && r[k].totalAmount == Calculations.SumTotals(calculations)
  {
  }

  // ---------------------------------------------------------------------------
  // Transitions and the delete guard
  // ---------------------------------------------------------------------------

  /**
   * The status buttons of a batch card: a draft can be confirmed or
   * cancelled, a confirmed batch paid or sent back to draft; paid and
   * cancelled batches offer none.
   */
  function StatusActions(status: PaymentStatus): (r: seq<PaymentStatus>)
    ensures status.Paid? || status.Cancelled? <==> r == []
    ensures Draft in r <==> status == Confirmed
    ensures Confirmed in r <==> status == Draft
    ensures Cancelled in r <==> status == Draft
    ensures Paid in r <==> status == Confirmed
    ensures status !in r
  {
    match status
    case Draft => [Confirmed, Cancelled]
    case Confirmed => [Paid, Draft]
    case Paid => []
    case Cancelled => []
  }

  /** The delete button is shown unless the batch is paid or cancelled. */
  predicate CanDelete(status: PaymentStatus)
  {
    status != Paid && status != Cancelled
  }

  /** A status change a batch card can perform. */
  predicate Offered(from: PaymentStatus, to: PaymentStatus)
  {
    to in StatusActions(from)
  }

  /**
   * Paid and cancelled are terminal and not deletable: once reached by
   * offered transitions, a batch stays there and stays in the list.
   */
  lemma TerminalStatuses(from: PaymentStatus, to: PaymentStatus)
    ensures (from == Paid || from == Cancelled) ==> !Offered(from, to) && !CanDelete(from)
    ensures Offered(from, to) && (to == Paid || to == Cancelled) ==> !CanDelete(to)
  {
  }

  /** A chain of statuses each reached from the previous one by an offered button. */
  predicate OfferedPath(path: seq<PaymentStatus>)
  {
    forall i :: 0 <= i < |path| - 1 ==> Offered(path[i], path[i + 1])
  }

  /** Along a path of offered status changes, paid and cancelled can only come last. */
  lemma {:induction false} TerminalStatusEndsPath(path: seq<PaymentStatus>)
    requires OfferedPath(path)
    ensures forall i :: 0 <= i < |path| - 1 ==> path[i] != Paid && path[i] != Cancelled
  {
    forall i | 0 <= i < |path| - 1
      ensures path[i] != Paid && path[i] != Cancelled
    {
      assert Offered(path[i], path[i + 1]);
    }
  }

  /**
   * The result of pressing a button on a card: the offered status change,
   * or `InvalidTransition` for one the card does not show.
   */
  datatype Outcome = Changed(batches: seq<PaymentBatch>) | InvalidTransition

  function PressStatusButton(batches: seq<PaymentBatch>, k: nat, to: PaymentStatus): (r: Outcome)
    requires k < |batches|
    ensures r.Changed? <==> Offered(batches[k].status, to)
    ensures r.Changed? ==> r.batches == UpdatePaymentBatchStatus(batches, batches[k].id, to)
  {
    if Offered(batches[k].status, to) then Changed(UpdatePaymentBatchStatus(batches, batches[k].id, to))
    else InvalidTransition
  }
}
