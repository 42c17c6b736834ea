/** The full-credit-note step: which drafts may reach it and how the
    credit reason is displayed. */
module CreditNoteFull {
  import opened Wrappers
  import opened Js

  datatype CreditedInvoice = CreditedInvoice(invoiceNumber: string, total: real)

  /** The credit-note draft, every field optional. */
  datatype CreditNoteDraft = CreditNoteDraft(invoice: Option<CreditedInvoice>, kind: Option<string>, reason: Option<string>)

  datatype Guard = Proceed(draft: CreditNoteDraft) | Redirect(path: string)

  const SearchStep: string := "/etims/credit-note/search"

  /** The display labels of the known reason codes. */
  const ReasonLabels: map<string, string> := map[
    "missing_quantity" := "Missing Quantity",
    "missing_data" := "Missing Data",
    "damaged" := "Damaged",
    "wasted" := "Wasted",
    "raw_material_shortage" := "Raw Material Shortage",
    "refund" := "Refund"
  ]

  /** The redirect guard: a draft with an invoice, of the full kind, with a
      reason. */
  function Load(saved: Option<CreditNoteDraft>): (g: Guard)
    ensures g.Proceed? <==>
      saved.Some? && saved.value.invoice.Some? && saved.value.kind == Some("full") && Filled(saved.value.reason)
    ensures g.Proceed? ==> g.draft == saved.value
    ensures g.Redirect? ==> g.path == SearchStep
  {
    if saved.None? || saved.value.invoice.None? || saved.value.kind != Some("full") || !Filled(saved.value.reason) then
      Redirect(SearchStep)
    else Proceed(saved.value)
  }

  /** `reason ? (reasonLabels[reason] || reason) : 'N/A'`. */
  function ReasonDisplay(reason: Option<string>): (shown: string)
    ensures !Filled(reason) ==> shown == "N/A"
    ensures Filled(reason) && reason.value in ReasonLabels ==> shown == ReasonLabels[reason.value]
    ensures Filled(reason) && reason.value !in ReasonLabels ==> shown == reason.value
  {
    if !Filled(reason) then "N/A"
    else if reason.value in ReasonLabels && ReasonLabels[reason.value] != "" then ReasonLabels[reason.value]
    else reason.value
  }

  /** The six known codes show their labels. */
  lemma KnownReasonLabels()
    ensures ReasonDisplay(Some("missing_quantity")) == "Missing Quantity"
    ensures ReasonDisplay(Some("missing_data")) == "Missing Data"
    ensures ReasonDisplay(Some("damaged")) == "Damaged"
    ensures ReasonDisplay(Some("wasted")) == "Wasted"
    ensures ReasonDisplay(Some("raw_material_shortage")) == "Raw Material Shortage"
    ensures ReasonDisplay(Some("refund")) == "Refund"
  {
  }

  /** On a draft that passed the guard the reason is never shown as "N/A",
      unless "N/A" is literally the stored code. */
  lemma GuardedReasonIsShown(saved: Option<CreditNoteDraft>)
    requires Load(saved).Proceed?
    ensures ReasonDisplay(Load(saved).draft.reason) != "N/A" || saved.value.reason == Some("N/A")
    ensures ReasonDisplay(Load(saved).draft.reason) != ""
  {
  }
}
