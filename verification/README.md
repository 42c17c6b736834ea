# eTIMS / PIN-registration wizard decisions in Dafny

This project models the pure decision logic inside the screens and server
actions of a multi-step tax-invoice and PIN-registration web app. The app is
built for a revenue authority's e-invoicing portal (eTIMS) and its
passenger-declaration service. The model covers:

- **Phone normalisation** (`cleanPhoneNumber`): strip non-digits, turn a
  leading `0` into the country code `254`, and prepend `254` when it is
  still missing.
- **Upstream-reply normalisation** in the PIN-registration server actions
  (`generateOTP`, `validateOTP`, `lookupById`, `submitPinRegistration`,
  `initiateSession`). Each action builds its result from the upstream service's
  loosely typed JSON, or from the error it threw. `validateOTP` also decides
  when the 600-second session cookie is set.
- **The seller's invoice list**: the status filter, the page title, the row
  identifier chain, the selection set with its toggle and select-all, and how
  a fetch updates the list.
- **The saved-items route**: stored declaration rows flattened into items,
  with the currency-item special case, and the numbered multi-line text.
- **Wizard steps**:
  - the sales-invoice buyer step (validate / confirm / skip / edit and the
    name-override notice);
  - the sales-invoice review step (redirect guard, total fallback, payload,
    totals card);
  - the buyer-initiated review step (guard, checks, payload, document
    delivery);
  - the full credit note step (guard, reason labels).
- **The cash-value route**: status 200 or 500 from the currency conversion
  and the 10000 threshold.

JavaScript's loose semantics are modelled explicitly (module `Js`):

- A `JsValue` datatype with `Truthy`, and `Or` for `a || b`.
- Property reads on parsed JSON, where a missing key reads as `undefined`.
- `parseInt` with sign, `0x` prefix and leading whitespace.
- The numeric conversion behind `value < 10000`.

Typed draft fields are `Option<T>`. A string field is truthy when it is
present and non-empty (`Js.Filled`). A number field is truthy when it is
present and non-zero (`Js.NonZero`).

Every outbound call is an input to the model: a `Reply` value for the
upstream response or the thrown error. This covers axios/fetch, the
`app/actions/etims` actions (`lookupCustomer`, `fetchInvoices`,
`submitInvoice`, `submitBuyerInitiatedInvoice`, `sendWhatsAppDocument`) and
the database transaction. These are the other inputs:

- `Date.now()` in the PIN-registration receipt fallback is the `now`
  parameter.
- The deployment environment (the cookie's `secure` flag) is the
  `production` parameter.
- The draft store's `calculateTotals` is the function parameter `totalOf`.
  It is uninterpreted.

Navigation is modelled as a returned next-step path.

Files: `wrappers.dfy` (Option), `text.dfy`, `js_values.dfy`, `phone.dfy`,
`pin_registration.dfy`, `pending_invoices.dfy`, `saved_items.dfy`,
`line_items.dfy`, `sales_invoice_buyer.dfy`, `sales_invoice_review.dfy`,
`buyer_initiated_review.dfy`, `credit_note_full.dfy`, `cash_value.dfy`.

## Model

| member | source | states |
|---|---|---|
| Text.TrimEmptyIffBlank | app/etims/buyer-initiated/seller/pending/page.tsx:45 | `phone.trim()` is empty exactly when the phone consists only of JavaScript whitespace, so "blank" means all-whitespace |
| Text.LowerCharEqual | app/etims/sales-invoice/buyer/page.tsx:44 | two characters lower-case alike iff they are equal or the same ASCII letter in opposite case |
| Text.LowerEqualIffSameUpToCase | app/etims/sales-invoice/buyer/page.tsx:44 | two names lower-case to the same string iff they have the same length and differ at most in the case of ASCII letters, so the override test ignores exactly letter case |
| Js.OrProperties | app/actions/pin-registration.ts:286-287 | `a \|\| b` is truthy iff either operand is, and a `\|\|` chain selects the first truthy operand however it is grouped |
| Js.ParsedCodeOr | app/actions/pin-registration.ts:220 | `parseInt(x) \|\| d` is the parsed integer when that parse is a non-zero number, else the fallback `d` |
| Js.ParseInt | app/actions/pin-registration.ts:220 | a number is truncated toward zero; a string is parsed as text; `undefined`, `null`, booleans and objects parse to NaN |
| Js.NoLeadingDigitIsNaN | app/actions/pin-registration.ts:220 | text starting with neither whitespace, a sign nor a decimal digit parses to NaN |
| Js.ParseIntOfRendered | app/actions/pin-registration.ts:220 | `parseInt` reads back the decimal rendering of every integer (parser and renderer are inverse) |
| Phone.StripNonDigits | app/actions/pin-registration.ts:39 | the stripped string holds only ASCII digits, is no longer than the input, and leaves an all-digit input unchanged |
| Phone.StripNonDigitsKeepsDigits | app/actions/pin-registration.ts:39 | a character survives stripping iff it occurs in the input and is a digit |
| Phone.StripNonDigitsAppend | app/actions/pin-registration.ts:39 | stripping distributes over concatenation, so the digits keep their order |
| Phone.CleanPhoneNumber | app/actions/pin-registration.ts:38-47 | the cleaned number is all decimal digits and always begins with "254" |
| Phone.CleanPhoneNumberCases | app/actions/pin-registration.ts:39-46 | a leading "0" becomes "254"; digits already starting with "254" come back unchanged; any other digits get "254" prepended |
| Phone.CleanPhoneNumberIdempotent | app/actions/pin-registration.ts:43-46 | cleaning a cleaned number changes nothing |
| Phone.CleanLocalNumber | app/actions/pin-registration.ts:39-42 | any all-digit number written with a leading "0" trades that "0" for "254" and keeps the rest |
| Phone.CleanLocalMobileNumber | app/actions/pin-registration.ts:39-42 | "0712345678" cleans to "254712345678" |
| PinRegistration.GenerateOtp | app/actions/pin-registration.ts:83-95 | success iff the call returned; the message is the upstream `message` when truthy, else "OTP sent successfully" / the error body's `message` or "Failed to send OTP"; the code is passed through |
| PinRegistration.ValidateOtp | app/actions/pin-registration.ts:123-153 | success iff the call returned and upstream `success` is not literally `false`; the cookie (`etims_auth_token`, httpOnly, maxAge 600, path "/") is set iff success holds and a truthy token is present; message fallbacks "OTP validated successfully" / "Invalid OTP" |
| PinRegistration.ValidateOtpLenientSuccess | app/actions/pin-registration.ts:123-138 | a missing, null, zero or empty `success` still validates, and with no token no cookie is set |
| PinRegistration.GuiLookup | app/actions/pin-registration.ts:217-240 | success iff `Status=='OK'`, `ResponseCode=='30000'` or `Message=='Valid ID'`; code = parsed `ResponseCode`, or 200 / 400 when that is NaN or 0; name, PIN and id only on success (undefined on a failed or thrown call); a thrown call fails with the error body's message or "Failed to lookup ID" |
| PinRegistration.LookupById | app/actions/pin-registration.ts:168-198 | the id-lookup reply decides (success, its name and pin, the queried id) only when a phone number is supplied and the reply's `name` or `success` is truthy; otherwise the GUI lookup's result is returned |
| PinRegistration.LookupIgnoresPrimaryWithoutMsisdn | app/actions/pin-registration.ts:168 | without a phone number the id-lookup reply cannot affect the result |
| PinRegistration.LookupSuccessCarriesIdNumber | app/actions/pin-registration.ts:186-225 | every successful lookup reports the id number that was queried |
| PinRegistration.ParseResponseCode30000 | app/actions/pin-registration.ts:220 | `parseInt("30000")` is 30000 |
| PinRegistration.GuiResponseCodeIsStrict | app/actions/pin-registration.ts:217-220 | a numeric `ResponseCode` 30000 is not the marker; the string "30000" is, and yields code 30000 |
| PinRegistration.SubmitPinRegistration | app/actions/pin-registration.ts:280-296 | success = (`success !== false` and no truthy `error`); pin = `pin` else `kra_pin`; receipt = `receipt_number`, else `receiptNumber`, else "REG-" + now; a thrown call fails with message from `message`, then `error`, then "Failed to submit PIN registration" |
| PinRegistration.RegistrationErrorOverridesSuccess | app/actions/pin-registration.ts:283 | a reply with `success: true` and a truthy `error` is a failure |
| PinRegistration.InitiateSession | app/actions/pin-registration.ts:327-339 | success iff the call returned; session id passed through; message fallbacks "Session initiated" / "Failed to initiate session" |
| PinRegistration.FailuresAreUniform | app/actions/pin-registration.ts:88-95 | for every action a thrown call yields `success = false` with a truthy message and no cookie (also at lines 146-153, 233-240, 289-296, 332-339) |
| PendingInvoices.StatusFilter | app/etims/buyer-initiated/seller/pending/page.tsx:14 | a non-empty `status` parameter is the filter as given; a missing or empty one means "pending", so the filter is never empty |
| PendingInvoices.PageTitle | app/etims/buyer-initiated/seller/pending/page.tsx:25-31 | "approved" is titled Approved, "rejected" Rejected, every other filter Pending |
| PendingInvoices.ApiStatus | app/etims/buyer-initiated/seller/pending/page.tsx:50-53 | "approved" requests "accepted", "rejected" requests "rejected", every other filter requests "awaiting_approval" |
| PendingInvoices.TitleMatchesApiStatus | app/etims/buyer-initiated/seller/pending/page.tsx:25-53 | "approved"→"accepted"/Approved, "rejected"→"rejected"/Rejected, anything else→"awaiting_approval"/Pending; title and requested status always agree |
| PendingInvoices.ViewId | app/etims/buyer-initiated/seller/pending/page.tsx:73 | the view id is the first truthy of `uuid`, `invoice_number`, `invoice_id`, else `reference` as it stands |
| PendingInvoices.RowId | app/etims/buyer-initiated/seller/pending/page.tsx:164 | a row id is the truthy view id, else the row index in decimal; it is never empty |
| PendingInvoices.AllIds | app/etims/buyer-initiated/seller/pending/page.tsx:99 | one id per row, in row order, each the row's `RowId` |
| PendingInvoices.AnonymousRowUsesIndex | app/etims/buyer-initiated/seller/pending/page.tsx:99 | a row whose id fields are all missing or empty is known by its index |
| PendingInvoices.Toggle | app/etims/buyer-initiated/seller/pending/page.tsx:86-91 | the toggled id flips membership; every other id keeps its membership |
| PendingInvoices.ToggleTwice | app/etims/buyer-initiated/seller/pending/page.tsx:86-91 | toggling the same id twice restores the selection |
| PendingInvoices.AllSelected | app/etims/buyer-initiated/seller/pending/page.tsx:104 | holds only for a non-empty list; for a selection of row ids it holds only when the ids are distinct and all selected, and with distinct ids selecting all of them makes it hold |
| PendingInvoices.SizeTestMeaning | app/etims/buyer-initiated/seller/pending/page.tsx:94-104 | a selection of row ids as large as the list is every row id, with no id repeated; with distinct ids, every row id is as many ids as rows |
| PendingInvoices.ToggleSelectAll | app/etims/buyer-initiated/seller/pending/page.tsx:93-102 | the empty set when the selection size equals the row count, otherwise exactly the set of all row ids |
| PendingInvoices.SelectAllSize | app/etims/buyer-initiated/seller/pending/page.tsx:99-104 | the set of row ids has at most as many ids as rows, and exactly as many iff the ids are pairwise distinct |
| PendingInvoices.SelectAllWithDistinctIds | app/etims/buyer-initiated/seller/pending/page.tsx:93-104 | with distinct ids, select-all from a partial selection makes `allSelected` hold and a second press clears the selection |
| PendingInvoices.SelectAllStuckWithRepeatedIds | app/etims/buyer-initiated/seller/pending/page.tsx:93-104 | with a repeated id, select-all never makes `allSelected` hold and pressing again re-selects the same non-empty set |
| PendingInvoices.RepeatedInvoiceNumberExample | app/etims/buyer-initiated/seller/pending/page.tsx:99-104 | two rows with invoice number "INV-1": select-all yields {"INV-1"}, the box stays unchecked, a second press yields {"INV-1"} again |
| PendingInvoices.ToggleSelectAllBySet | app/etims/buyer-initiated/seller/pending/page.tsx:93-102 | corrected select-all: clears when every row id is selected, otherwise selects every row id |
| PendingInvoices.SelectAllBySetAlternates | app/etims/buyer-initiated/seller/pending/page.tsx:93-104 | the corrected select-all always reaches "all selected" and then clears, whatever the ids |
| PendingInvoices.SelectAllBySetAgreesWhenDistinct | app/etims/buyer-initiated/seller/pending/page.tsx:104 | with distinct ids and a selection of row ids, the size test and the set test agree |
| PendingInvoices.FetchInvoicesData | app/etims/buyer-initiated/seller/pending/page.tsx:44-68 | a blank phone sends nothing and changes nothing; otherwise the query carries the mapped status, actor "supplier" and `name \|\| userName`; a success with invoices replaces the list; a success without them clears it and sets the error; a failure or throw keeps the list and sets the upstream error or its fallback |
| SavedItems.RowValue | app/api/saved_items/route.ts:19-26 | the currency item's value is `valueOfFund` unless null (a 0 is kept), else `amount`; every other row's value is `amount` |
| SavedItems.ToItem | app/api/saved_items/route.ts:18-40 | type, HS code, quantity and currency are copied from category, hsCode, quantity and currency; description is the row's item name; value is `RowValue` |
| SavedItems.ToItems | app/api/saved_items/route.ts:18-41 | the items have the same length and order as the rows |
| SavedItems.SpecialCasesAreNarrow | app/api/saved_items/route.ts:25-31 | the re-importation item keeps its amount, and a zero fund value is not replaced by the amount |
| SavedItems.Blocks | app/api/saved_items/route.ts:43-51 | block k renders item k counted from 1 |
| SavedItems.ItemsString | app/api/saved_items/route.ts:43-52 | no items give ""; otherwise the text opens with the block of item 1 |
| SavedItems.ItemsStringSnoc | app/api/saved_items/route.ts:43-52 | the first item's text is its block alone; each further item appends "\n" and its numbered block |
| SavedItems.ItemsStringEmptyIffNoItems | app/api/saved_items/route.ts:43-52 | the text is "" iff there are no rows; otherwise it begins with "Item 1:\n" |
| SavedItems.JoinParts | app/api/saved_items/route.ts:52 | joining the parts one at a time, with the separator before every part but the first, gives the separator-joined text |
| SavedItems.Respond | app/api/saved_items/route.ts:54-60 | a failed transaction gives the error reply; otherwise the reply carries "Success", the items and their text |
| LineItems.SubtotalNonNegative | app/etims/sales-invoice/review/page.tsx:42 | the sum of items with non-negative price and quantity ≥ 1 is non-negative, and 0 for no items |
| LineItems.SubtotalAppend | app/etims/sales-invoice/review/page.tsx:42 | the items' sum splits over concatenation |
| LineItems.SumLineAmounts | app/etims/sales-invoice/review/page.tsx:42 | the left-to-right `reduce` loop computes the items' sum |
| LineItems.ToPayload | app/etims/sales-invoice/review/page.tsx:47-51 | payload lines correspond 1:1 and in order: `item_name=name`, `taxable_amount=unitPrice`, `quantity=quantity` |
| LineItems.PayloadPreservesSubtotal | app/etims/buyer-initiated/buyer/review/page.tsx:41 | recomputing the sum from the payload lines gives the draft items' sum |
| SalesInvoiceBuyer.Prefill | app/etims/sales-invoice/buyer/page.tsx:23-30 | a saved buyer fills in identity, PIN and name; with none the form is unchanged |
| SalesInvoiceBuyer.PrefillThenConfirm | app/etims/sales-invoice/buyer/page.tsx:23-66 | confirming a prefilled form saves the saved buyer unchanged |
| SalesInvoiceBuyer.Validate | app/etims/sales-invoice/buyer/page.tsx:32-59 | on a found customer: buyer = (looked-up pin, looked-up name), error cleared, `nameOverridden` iff the trimmed typed name is non-empty and differs case-insensitively, `originalName` = trimmed typed name when flagged; otherwise buyer untouched, flag reset, error = upstream text or its fallback |
| SalesInvoiceBuyer.ValidatedNameWins | app/etims/sales-invoice/buyer/page.tsx:49-50 | the stored buyer after a successful lookup does not depend on the typed name |
| SalesInvoiceBuyer.CaseAndSpacesAreNotAnOverride | app/etims/sales-invoice/buyer/page.tsx:40-47 | a typed name equal up to case and surrounding spaces raises no override notice |
| SalesInvoiceBuyer.Confirm | app/etims/sales-invoice/buyer/page.tsx:61-66 | saves the buyer and moves to details iff a buyer is present; otherwise nothing happens |
| SalesInvoiceBuyer.Skip | app/etims/sales-invoice/buyer/page.tsx:68-71 | saves an undefined buyer and moves to details |
| SalesInvoiceBuyer.Edit | app/etims/sales-invoice/buyer/page.tsx:73-80 | clears buyer, PIN, name, error, override flag and original name |
| SalesInvoiceBuyer.ValidateThenConfirm | app/etims/sales-invoice/buyer/page.tsx:32-66 | after a successful validation confirm saves exactly the looked-up buyer; after a failed one confirm does what it did before |
| SalesInvoiceBuyer.EditThenConfirmStays | app/etims/sales-invoice/buyer/page.tsx:61-80 | confirm right after edit saves nothing |
| SalesInvoiceReview.Load | app/etims/sales-invoice/review/page.tsx:16-24 | the step proceeds iff a saved draft has a non-empty item list, else redirects to details |
| SalesInvoiceReview.SubmittedTotal | app/etims/sales-invoice/review/page.tsx:42 | the stored total when present and non-zero, otherwise the sum of unitPrice × quantity |
| SalesInvoiceReview.ShowsTotalsCard | app/etims/sales-invoice/review/page.tsx:128 | the card shows iff subtotal, tax and total are all defined, whatever their values |
| SalesInvoiceReview.ZeroTotalDisplayedButNotSubmitted | app/etims/sales-invoice/review/page.tsx:128 | a stored total of 0 still shows the totals card (all three fields defined) while the submission sends the items' sum |
| SalesInvoiceReview.SubmittedTotalNonNegative | app/etims/sales-invoice/review/page.tsx:42 | with well-formed items and no negative stored total the submitted total is non-negative |
| SalesInvoiceReview.Generate | app/etims/sales-invoice/review/page.tsx:26-64 | a request is sent iff the session has a phone and the draft has items; it carries that phone, `SubmittedTotal` and the 1:1 payload; navigation to success iff the reply succeeds; otherwise the alert text follows the reply or the missing precondition |
| SalesInvoiceReview.GuardedDraftIsSubmitted | app/etims/sales-invoice/review/page.tsx:36-52 | a draft that passed the guard is submitted once a session exists, and with no stored total the sent total equals the payload's own sum |
| BuyerInitiatedReview.Load | app/etims/buyer-initiated/buyer/review/page.tsx:17-25 | the step proceeds iff the draft has a non-empty item list and a truthy seller name |
| BuyerInitiatedReview.Submit | app/etims/buyer-initiated/buyer/review/page.tsx:27-63 | no phone → "Session not found"; missing items or seller PIN → "Invalid data"; else the request carries seller PIN, `sellerPhone \|\| ""`, `calculateTotals` total and the 1:1 payload; the document goes to the session phone iff the reply succeeds with a PDF url; success navigates unless delivery throws; failures set the upstream error or "Submission failed" / "Error" |
| BuyerInitiatedReview.ChecksPrecedeSubmission | app/etims/buyer-initiated/buyer/review/page.tsx:32-33 | while a check fails nothing is submitted, sent or navigated, and the error is one of the two check messages |
| BuyerInitiatedReview.GuardDoesNotCheckSellerPin | app/etims/buyer-initiated/buyer/review/page.tsx:20-33 | a draft with a seller name but no seller PIN passes the guard yet fails the submission check |
| CreditNoteFull.Load | app/etims/credit-note/full/page.tsx:22-30 | the step proceeds iff the draft has an invoice, `type == 'full'` and a truthy reason, else redirects to search |
| CreditNoteFull.ReasonDisplay | app/etims/credit-note/full/page.tsx:63 | a missing or empty reason shows "N/A", a known code shows its label, an unknown code shows the raw code |
| CreditNoteFull.KnownReasonLabels | app/etims/credit-note/full/page.tsx:8-15 | the six known codes show their fixed labels |
| CreditNoteFull.GuardedReasonIsShown | app/etims/credit-note/full/page.tsx:25-63 | after the guard the shown reason is non-empty and is "N/A" only when that is the stored code |
| CashValue.Decide | app/api/validate_cash_value/route.ts:9-29 | status is 200 or 500; 200 iff the fetch was ok, its body parsed and the amount is not below 10000, and then the body is returned unchanged; a non-ok fetch gives "Failed to fetch data", a low amount "Value is less than 10000" |
| Js.LessThan | app/api/validate_cash_value/route.ts:22 | `v < k`: a number compares as itself, `null` and blank strings as 0, booleans as 0 or 1; `undefined` and objects are never less |
| Js.LessThanDigitString | app/api/validate_cash_value/route.ts:22 | a string of decimal digits compares by the number it spells |
| CashValue.NumericThreshold | app/api/validate_cash_value/route.ts:22-26 | for a numeric amount x the route answers 200 iff x ≥ 10000 |
| CashValue.ThresholdExamples | app/api/validate_cash_value/route.ts:22-26 | exactly 10000 is accepted; 5000 is rejected with "Value is less than 10000" |
| CashValue.MissingAmountIsAccepted | app/api/validate_cash_value/route.ts:22 | a body without `converted_amount` is accepted and returned unchanged |
| CashValue.NullAmountIsRejected | app/api/validate_cash_value/route.ts:22 | a `null` amount compares as 0 and is rejected |

## Findings

| source | as written | input that shows it | evidently intended | confidence | as-written member | corrected member |
|---|---|---|---|---|---|---|
| app/etims/buyer-initiated/seller/pending/page.tsx:93-104 | "all selected" is decided by `selectedInvoices.size === invoices.length`, a size comparison | two listed invoices that both have invoice number "INV-1": select-all yields {"INV-1"} (size 1 ≠ 2), the header box stays unchecked, and pressing again re-selects instead of deselecting | "all selected" means every row id is in the selection, so select-all alternates between all and none | medium, not executed | PendingInvoices.SelectAllStuckWithRepeatedIds | PendingInvoices.SelectAllBySetAlternates |

## Left out

- All outbound I/O: the axios and fetch calls, their 30 s / 60 s timeouts, the request bodies and `getAuthHeaders` bearer header, the cookie-store read, the Prisma read-and-delete transaction. Their outcomes are inputs. The cookie write is returned as a value.
- The actions in `app/actions/etims` and the draft store in `app/etims/_lib/store` are not part of this model. `calculateTotals` is the uninterpreted parameter `totalOf`, so no 16% VAT rule is asserted.
- React rendering, hooks, `useEffect` timing, loading flags (`loading`, `isGenerating`, `isSending`), alerts as UI, and router mechanics. Navigation is a returned path.
- The pending page's fetch-on-mount from the session (lines 33-42), and `handleFetchInvoices` (line 70), which only wire the modelled fetch to the page and its button. Also `handleDownloadInvoice` (lines 77-84), which opens the invoice's PDF URL in a new window or alerts that no URL is available: window handling is I/O.
- The caption and filename of the delivered document (buyer-initiated review lines 47-52). They depend on the current date and locale formatting.
- `toLocaleString` formatting, console logging, and the presentational files (terms page, both layouts, both success pages).
- A `null` JSON body of a successful upstream response. Reading a field of it throws a TypeError that the action's catch would handle. A string, number or boolean body (axios keeps a non-JSON reply as a string) is covered: every field read gives `undefined`, exactly as for the empty record, so for example `validateOTP` reports success with "OTP validated successfully".
- Floating-point arithmetic: prices, totals and amounts are exact reals. NaN and the infinities are not representable as numbers, so `JsValue.Num` carries a finite real.
- Saved-item columns: the database schema is not part of this model. Quantity, amount and fund value are integers, and text columns are never null.
- Js.ParseInt: for a number whose `String` form uses exponent notation (magnitude ≥ 1e21 or below 1e-6), the model truncates the number instead of reading the digits before the exponent.
- Js.StringToNumber: strings in exponent notation ("1e4") and with `0o` / `0b` prefixes read as NaN in the model, whereas JavaScript reads their value. An array operand of `<` is treated like any object, as NaN.
- CreditNoteFull.ReasonDisplay: a reason code naming an inherited object property (such as "constructor") would show that property in JavaScript. The model shows the raw code.
- Text.Lower: only ASCII letters are lower-cased. `toLowerCase` also maps non-ASCII letters.
