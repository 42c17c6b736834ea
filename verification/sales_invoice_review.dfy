/** The review step of the sales-invoice wizard: which drafts may reach it,
    the total that is submitted, the submission payload, and what follows
    the submission. */
module SalesInvoiceReview {
  import opened Wrappers
  import opened Js
  import opened LineItems
  import SalesInvoiceBuyer

  /** The sales-invoice draft, every field optional as the draft store keeps
      it. */
  datatype SalesDraft = SalesDraft(
    buyer: Option<SalesInvoiceBuyer.Party>, items: Option<seq<LineItem>>,
    subtotal: Option<real>, tax: Option<real>, total: Option<real>)

  /** What the step does on load: show the draft, or send the user back. */
  datatype Guard = Proceed(draft: SalesDraft) | Redirect(path: string)

  const DetailsStep: string := "/etims/sales-invoice/details"
  const SuccessStep: string := "/etims/sales-invoice/success"

  predicate HasItems(d: SalesDraft) {
    d.items.Some? && |d.items.value| > 0
  }

  /** The redirect guard: only a saved draft with at least one item may be
      reviewed. */
  function Load(saved: Option<SalesDraft>): (g: Guard)
    ensures g.Proceed? <==> saved.Some? && HasItems(saved.value)
    ensures g.Proceed? ==> g.draft == saved.value
    ensures g.Redirect? ==> g.path == DetailsStep
  {
    if saved.None? || saved.value.items.None? || |saved.value.items.value| == 0 then Redirect(DetailsStep)
    else Proceed(saved.value)
  }

  /** `invoice.total || Σ unitPrice * quantity`: a missing or zero total
      falls back to the items' sum. */
  function SubmittedTotal(d: SalesDraft): (t: real)
    requires d.items.Some?
    ensures NonZero(d.total) ==> t == d.total.value
    ensures !NonZero(d.total) ==> t == Subtotal(d.items.value)
  {
    if NonZero(d.total) then d.total.value else Subtotal(d.items.value)
  }

  /** The totals card is shown when subtotal, tax and total are all set,
      whatever their values, zero included. */
  function ShowsTotalsCard(d: SalesDraft): (shown: bool)
    ensures shown <==> d.subtotal.Some? && d.tax.Some? && d.total.Some?
  {
    d.subtotal.Some? && d.tax.Some? && d.total.Some?
  }

  /** The card and the submission read the total differently: a stored
      total of 0 is displayed as 0, yet the submission sends the items'
      sum instead. */
  lemma ZeroTotalDisplayedButNotSubmitted(d: SalesDraft)
    requires d.items.Some? && d.subtotal.Some? && d.tax.Some? && d.total == Some(0.0)
    ensures ShowsTotalsCard(d)
    ensures SubmittedTotal(d) == Subtotal(d.items.value)
  {
  }

  /** With well-formed items the submitted total is never negative unless a
      negative total was stored. */
  lemma SubmittedTotalNonNegative(d: SalesDraft)
    requires d.items.Some?
    requires forall i :: 0 <= i < |d.items.value| ==> ValidItem(d.items.value[i])
    requires d.total.Some? ==> d.total.value >= 0.0
    ensures SubmittedTotal(d) >= 0.0
  {
    SubtotalNonNegative(d.items.value);
  }

  datatype InvoiceRequest = InvoiceRequest(msisdn: string, total_amount: real, items: seq<PayloadItem>)

  /** The submission's reply: its result, or the message of the error it
      threw. */
  datatype SubmitReply = Submitted(success: bool, error: Option<string>) | SubmitThrew(message: Option<string>)

  /** What `handleGenerate` did: the request it sent, where it navigated,
      and the alert it raised. */
  datatype GenerateOutcome = GenerateOutcome(request: Option<InvoiceRequest>, next: Option<string>, alert: Option<string>)

  /** `handleGenerate`. `msisdn` is the session's phone number. */
  function Generate(msisdn: Option<string>, invoice: Option<SalesDraft>, reply: SubmitReply): (r: GenerateOutcome)
    ensures r.request.Some? <==> Filled(msisdn) && invoice.Some? && invoice.value.items.Some?
    ensures r.request.Some? ==>
      && r.request.value.msisdn == msisdn.value
      && r.request.value.total_amount == SubmittedTotal(invoice.value)
      && r.request.value.items == ToPayload(invoice.value.items.value)
    ensures r.next.Some? <==> r.request.Some? && reply.Submitted? && reply.success
    ensures r.next.Some? ==> r.next.value == SuccessStep && r.alert.None?
    ensures !Filled(msisdn) ==> r.alert == Some("User session not found. Please go back to home page.")
    ensures Filled(msisdn) && !(invoice.Some? && invoice.value.items.Some?) ==> r.alert == Some("Invalid invoice data")
    ensures r.request.Some? && reply.Submitted? && !reply.success ==>
      r.alert == Some(TextOr(reply.error, "Failed to submit invoice"))
    ensures r.request.Some? && reply.SubmitThrew? ==>
      r.alert == Some(TextOr(reply.message, "An error occurred while submitting the invoice"))
  {
    if !Filled(msisdn) then GenerateOutcome(None, None, Some("User session not found. Please go back to home page."))
    else if invoice.None? || invoice.value.items.None? then GenerateOutcome(None, None, Some("Invalid invoice data"))
    else
      var d := invoice.value;
      var request := InvoiceRequest(msisdn.value, SubmittedTotal(d), ToPayload(d.items.value));
      match reply
      case Submitted(success, error) =>
        if success then GenerateOutcome(Some(request), Some(SuccessStep), None)
        else GenerateOutcome(Some(request), None, Some(TextOr(error, "Failed to submit invoice")))
      case SubmitThrew(message) =>
        GenerateOutcome(Some(request), None, Some(TextOr(message, "An error occurred while submitting the invoice")))
  }

  /** A draft that passed the guard is always submitted once a session
      exists, and the amounts the service receives add up to the items'
      sum whenever no total was stored. */
  lemma GuardedDraftIsSubmitted(msisdn: Option<string>, saved: Option<SalesDraft>, reply: SubmitReply)
    requires Filled(msisdn) && Load(saved).Proceed?
    ensures Generate(msisdn, Some(Load(saved).draft), reply).request.Some?
    ensures !NonZero(saved.value.total) ==>
      var req := Generate(msisdn, Some(Load(saved).draft), reply).request.value;
      req.total_amount == PayloadSubtotal(req.items)
  {
    PayloadPreservesSubtotal(saved.value.items.value);
  }
}
