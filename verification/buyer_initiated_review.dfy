/** The review step of the buyer-initiated invoice wizard: which drafts may
    reach it, the checks before submission, the submission payload, and the
    document delivery that follows a successful submission. */
module BuyerInitiatedReview {
  import opened Wrappers
  import opened Js
  import opened LineItems

  /** The buyer-initiated draft, every field optional. */
  datatype BuyerInitiatedDraft = BuyerInitiatedDraft(
    sellerName: Option<string>, sellerPin: Option<string>,
    sellerPhone: Option<string>, items: Option<seq<LineItem>>)

  /** The signed-in user's session. */
  datatype Session = Session(msisdn: Option<string>, name: Option<string>)

  datatype Guard = Proceed(draft: BuyerInitiatedDraft) | Redirect(path: string)

  const DetailsStep: string := "/etims/buyer-initiated/buyer/details"
  const SuccessStep: string := "/etims/buyer-initiated/buyer/success"

  predicate Reviewable(d: BuyerInitiatedDraft) {
    d.items.Some? && |d.items.value| > 0 && Filled(d.sellerName)
  }

  /** The redirect guard: a draft with at least one item and a seller name. */
  function Load(saved: Option<BuyerInitiatedDraft>): (g: Guard)
    ensures g.Proceed? <==> saved.Some? && Reviewable(saved.value)
    ensures g.Proceed? ==> g.draft == saved.value
    ensures g.Redirect? ==> g.path == DetailsStep
  {
    if saved.None? || saved.value.items.None? || |saved.value.items.value| == 0 || !Filled(saved.value.sellerName) then
      Redirect(DetailsStep)
    else Proceed(saved.value)
  }

  datatype InvoiceRequest = InvoiceRequest(
    msisdn: string, seller_pin: string, seller_msisdn: string,
    total_amount: real, items: seq<PayloadItem>)

  /** The submission's reply: its result, or the message of the error it
      threw. */
  datatype SubmitReply =
    | Submitted(success: bool, invoice_pdf_url: Option<string>, error: Option<string>)
    | SubmitThrew(message: Option<string>)

  /** How the document delivery went: delivered (whatever it answered), or
      the message of the error it threw. */
  datatype DeliveryReply = Delivered | DeliveryThrew(message: Option<string>)

  /** The document sent to the user: recipient and document link. */
  datatype DocumentRequest = DocumentRequest(recipientPhone: string, documentUrl: string)

  datatype SubmitOutcome = SubmitOutcome(
    error: string, request: Option<InvoiceRequest>,
    document: Option<DocumentRequest>, next: Option<string>)

  predicate Submittable(invoice: Option<BuyerInitiatedDraft>) {
    invoice.Some? && invoice.value.items.Some? && Filled(invoice.value.sellerPin)
  }

  /** `handleSubmit`. `totalOf` stands for the draft store's
      `calculateTotals(items).total`, which is not part of this model. */
  function Submit(
    session: Option<Session>, invoice: Option<BuyerInitiatedDraft>, totalOf: seq<LineItem> -> real,
    reply: SubmitReply, delivery: DeliveryReply): (r: SubmitOutcome)
    ensures r.request.Some? <==> session.Some? && Filled(session.value.msisdn) && Submittable(invoice)
    ensures !(session.Some? && Filled(session.value.msisdn)) ==> r.error == "Session not found"
    ensures session.Some? && Filled(session.value.msisdn) && !Submittable(invoice) ==> r.error == "Invalid data"
    ensures r.request.Some? ==>
      var d := invoice.value;
      r.request.value == InvoiceRequest(session.value.msisdn.value, d.sellerPin.value, TextOr(d.sellerPhone, ""),
                                        totalOf(d.items.value), ToPayload(d.items.value))
    ensures r.document.Some? <==> r.request.Some? && reply.Submitted? && reply.success && Filled(reply.invoice_pdf_url)
    ensures r.document.Some? ==>
      r.document.value == DocumentRequest(session.value.msisdn.value, reply.invoice_pdf_url.value)
    ensures r.next.Some? <==>
      r.request.Some? && reply.Submitted? && reply.success && (r.document.None? || delivery.Delivered?)
    ensures r.next.Some? ==> r.next.value == SuccessStep && r.error == ""
    ensures r.request.Some? && reply.Submitted? && !reply.success ==> r.error == TextOr(reply.error, "Submission failed")
    ensures r.request.Some? && reply.SubmitThrew? ==> r.error == TextOr(reply.message, "Error")
    ensures r.document.Some? && delivery.DeliveryThrew? ==> r.error == TextOr(delivery.message, "Error")
  {
    if session.None? || !Filled(session.value.msisdn) then SubmitOutcome("Session not found", None, None, None)
    else if !Submittable(invoice) then SubmitOutcome("Invalid data", None, None, None)
    else
      var msisdn := session.value.msisdn.value;
      var d := invoice.value;
      var request := InvoiceRequest(msisdn, d.sellerPin.value, TextOr(d.sellerPhone, ""),
                                    totalOf(d.items.value), ToPayload(d.items.value));
      match reply
      case Submitted(success, url, error) =>
        if !success then SubmitOutcome(TextOr(error, "Submission failed"), Some(request), None, None)
        else if Filled(url) then
          var doc := DocumentRequest(msisdn, url.value);
          match delivery
          case Delivered => SubmitOutcome("", Some(request), Some(doc), Some(SuccessStep))
          case DeliveryThrew(message) => SubmitOutcome(TextOr(message, "Error"), Some(request), Some(doc), None)
        else SubmitOutcome("", Some(request), None, Some(SuccessStep))
      case SubmitThrew(message) => SubmitOutcome(TextOr(message, "Error"), Some(request), None, None)
  }

  /** Nothing is submitted or sent while a check fails, and the message
      names the first failing check. */
  lemma ChecksPrecedeSubmission(
    session: Option<Session>, invoice: Option<BuyerInitiatedDraft>, totalOf: seq<LineItem> -> real,
    reply: SubmitReply, delivery: DeliveryReply)
    requires !(session.Some? && Filled(session.value.msisdn) && Submittable(invoice))
    ensures var r := Submit(session, invoice, totalOf, reply, delivery);
      r.request.None? && r.document.None? && r.next.None? && r.error in {"Session not found", "Invalid data"}
  {
  }

  /** A reviewable draft may still fail the submission check: the guard
      asks for a seller name, the submission for a seller PIN. */
  lemma GuardDoesNotCheckSellerPin()
    ensures var d := BuyerInitiatedDraft(Some("Seller"), None, None, Some([LineItem("1", "Tea", 10.0, 1, None)]));
      Load(Some(d)).Proceed? && !Submittable(Some(d))
  {
  }
}
