/** The buyer step of the sales-invoice wizard: validating a buyer PIN,
    the name-override notice, and the confirm / skip / edit actions. */
module SalesInvoiceBuyer {
  import opened Wrappers
  import opened Text
  import opened Js

  /** A buyer's identity as the draft stores it. */
  datatype Party = Party(pin: string, name: string)

  /** The step's form state. */
  datatype BuyerForm = BuyerForm(
    buyerPin: string, buyerName: string, buyerInfo: Option<Party>,
    error: string, nameOverridden: bool, originalName: string)

  /** The outcome of the customer lookup by PIN: its result, or the message
      of the error it threw. */
  datatype CustomerLookup =
    | Looked(success: bool, customer: Option<Party>, error: Option<string>)
    | LookupThrew(message: Option<string>)

  /** Where a step action leads: nowhere, or a draft update followed by
      navigation. `buyer` is the value written to the draft's buyer field. */
  datatype Step = Stay | SaveAndGo(buyer: Option<Party>, next: string)

  const DetailsStep: string := "/etims/sales-invoice/details"

  /** The form as the step opens it: a buyer saved in the draft fills in
      the identity and the PIN and name fields; otherwise the form is as it
      was. */
  function Prefill(st: BuyerForm, saved: Option<Party>): (r: BuyerForm)
    ensures saved.None? ==> r == st
    ensures saved.Some? ==>
      r == st.(buyerInfo := saved, buyerName := saved.value.name, buyerPin := saved.value.pin)
  {
    match saved
    case Some(b) => st.(buyerInfo := Some(b), buyerName := b.name, buyerPin := b.pin)
    case None => st
  }

  /** A prefilled form confirms the saved buyer unchanged. */
  lemma PrefillThenConfirm(st: BuyerForm, saved: Party)
    ensures Confirm(Prefill(st, Some(saved))) == SaveAndGo(Some(saved), DetailsStep)
  {
  }

  predicate LookupFound(reply: CustomerLookup) {
    reply.Looked? && reply.success && reply.customer.Some?
  }

  /** The typed name differs from the validated one, ignoring letter case,
      and is not blank. */
  predicate NameDiffers(typed: string, validated: string) {
    Trim(typed) != "" && Lower(Trim(typed)) != Lower(validated)
  }

  /** `handleValidate`. */
  function Validate(st: BuyerForm, reply: CustomerLookup): (r: BuyerForm)
    ensures r.buyerPin == st.buyerPin && r.buyerName == st.buyerName
    ensures LookupFound(reply) ==>
      && r.buyerInfo == Some(Party(reply.customer.value.pin, reply.customer.value.name))
      && r.error == ""
      && (r.nameOverridden <==> NameDiffers(st.buyerName, reply.customer.value.name))
      && r.originalName == (if r.nameOverridden then Trim(st.buyerName) else st.originalName)
    ensures !LookupFound(reply) ==> r.buyerInfo == st.buyerInfo && !r.nameOverridden && r.originalName == st.originalName
    ensures reply.Looked? && !LookupFound(reply) ==>
      r.error == TextOr(reply.error, "Buyer not found. Please check the PIN and try again.")
    ensures reply.LookupThrew? ==> r.error == TextOr(reply.message, "An error occurred while validating buyer.")
  {
    var reset := st.(error := "", nameOverridden := false);
    match reply
    case Looked(success, customer, error) =>
      if success && customer.Some? then
        var validated := customer.value.name;
        var entered := Trim(st.buyerName);
        var flagged := reset.(
          originalName := if entered != "" && Lower(entered) != Lower(validated) then entered else reset.originalName,
          nameOverridden := entered != "" && Lower(entered) != Lower(validated));
        flagged.(buyerInfo := Some(Party(customer.value.pin, validated)))
      else reset.(error := TextOr(error, "Buyer not found. Please check the PIN and try again."))
    case LookupThrew(message) => reset.(error := TextOr(message, "An error occurred while validating buyer."))
  }

  /** Whatever name was typed, a successful validation stores the looked-up
      name: typing a different spelling only raises the notice. */
  lemma ValidatedNameWins(st: BuyerForm, reply: CustomerLookup, typed: string)
    requires LookupFound(reply)
    ensures Validate(st.(buyerName := typed), reply).buyerInfo == Validate(st, reply).buyerInfo
  {
  }

  /** A name that differs only in letter case, or only by surrounding
      spaces, raises no notice. */
  lemma CaseAndSpacesAreNotAnOverride(st: BuyerForm, reply: CustomerLookup)
    requires LookupFound(reply)
    requires Lower(Trim(st.buyerName)) == Lower(reply.customer.value.name)
    ensures !Validate(st, reply).nameOverridden
  {
  }

  /** `handleConfirmAndContinue`: saves the validated buyer and moves on;
      without one it does nothing. */
  function Confirm(st: BuyerForm): (s: Step)
    ensures st.buyerInfo.None? <==> s.Stay?
    ensures s.SaveAndGo? ==> s.buyer == st.buyerInfo && s.next == DetailsStep
  {
    match st.buyerInfo
    case Some(info) => SaveAndGo(Some(info), DetailsStep)
    case None => Stay
  }

  /** `handleSkip`: clears the draft's buyer and moves on. */
  function Skip(): (s: Step)
    ensures s.SaveAndGo? && s.buyer.None? && s.next == DetailsStep
  {
    SaveAndGo(None, DetailsStep)
  }

  /** `handleEditBuyer`: back to an empty form. */
  function Edit(st: BuyerForm): (r: BuyerForm)
    ensures r.buyerInfo.None? && r.buyerPin == "" && r.buyerName == ""
    ensures r.error == "" && !r.nameOverridden && r.originalName == ""
  {
    BuyerForm("", "", None, "", false, "")
  }

  /** Validate then confirm saves exactly the looked-up buyer, and a failed
      validation never makes confirm save anything new. */
  lemma ValidateThenConfirm(st: BuyerForm, reply: CustomerLookup)
    ensures LookupFound(reply) ==>
      Confirm(Validate(st, reply)) == SaveAndGo(Some(Party(reply.customer.value.pin, reply.customer.value.name)), DetailsStep)
    ensures !LookupFound(reply) ==> Confirm(Validate(st, reply)) == Confirm(st)
  {
  }

  /** Editing forgets everything the form held, so confirming right after
      saves nothing. */
  lemma EditThenConfirmStays(st: BuyerForm)
    ensures Confirm(Edit(st)) == Stay
  {
  }
}
