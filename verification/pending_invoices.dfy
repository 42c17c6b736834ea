/** The decision logic of the seller's invoice list (pending / approved /
    rejected): the status filter, the row identifiers, the selection set and
    its select-all button, and how a fetch updates the list. */
module PendingInvoices {
  import opened Wrappers
  import opened Js
  import opened Text

  /** An invoice row as listed; only the identifying fields matter here. */
  datatype FetchedInvoice = FetchedInvoice(
    uuid: Option<string>, invoice_number: Option<string>,
    invoice_id: Option<string>, reference: Option<string>)

  // ------------------------------------------------------------ status filter

  /** `searchParams.get('status') || 'pending'`. */
  function StatusFilter(param: Option<string>): (f: string)
    ensures f != ""
    ensures Filled(param) ==> f == param.value
    ensures !Filled(param) ==> f == "pending"
  {
    TextOr(param, "pending")
  }

  /** The page title for a status filter. */
  function PageTitle(statusFilter: string): (title: string)
    ensures statusFilter == "approved" ==> title == "Approved"
    ensures statusFilter == "rejected" ==> title == "Rejected"
    ensures statusFilter != "approved" && statusFilter != "rejected" ==> title == "Pending"
  {
    match statusFilter
    case "approved" => "Approved"
    case "rejected" => "Rejected"
    case _ => "Pending"
  }

  /** The status the invoice service is asked for. */
  function ApiStatus(statusFilter: string): (status: string)
    ensures statusFilter == "approved" ==> status == "accepted"
    ensures statusFilter == "rejected" ==> status == "rejected"
    ensures statusFilter != "approved" && statusFilter != "rejected" ==> status == "awaiting_approval"
  {
    if statusFilter == "approved" then "accepted"
    else if statusFilter == "rejected" then "rejected"
    else if statusFilter == "pending" then "awaiting_approval"
    else "awaiting_approval"
  }

  /** The title and the requested status always agree, and every filter
      other than "approved" and "rejected" (including unknown ones) lists
      the invoices awaiting approval. */
  lemma TitleMatchesApiStatus(statusFilter: string)
    ensures PageTitle(statusFilter) == "Approved" <==> ApiStatus(statusFilter) == "accepted"
    ensures PageTitle(statusFilter) == "Rejected" <==> ApiStatus(statusFilter) == "rejected"
    ensures PageTitle(statusFilter) == "Pending" <==> ApiStatus(statusFilter) == "awaiting_approval"
    ensures ApiStatus(statusFilter) == "accepted" <==> statusFilter == "approved"
    ensures ApiStatus(statusFilter) == "rejected" <==> statusFilter == "rejected"
    ensures statusFilter != "approved" && statusFilter != "rejected" ==>
      PageTitle(statusFilter) == "Pending" && ApiStatus(statusFilter) == "awaiting_approval"
  {
  }

  // -------------------------------------------------------------- identifiers

  /** The identifier a row is viewed by: the first truthy of `uuid`,
      `invoice_number`, `invoice_id`, else `reference` as it is (possibly
      empty or missing). */
  function ViewId(inv: FetchedInvoice): (id: Option<string>)
    ensures Filled(inv.uuid) ==> id == inv.uuid
    ensures !Filled(inv.uuid) && Filled(inv.invoice_number) ==> id == inv.invoice_number
    ensures !Filled(inv.uuid) && !Filled(inv.invoice_number) && Filled(inv.invoice_id) ==> id == inv.invoice_id
    ensures !Filled(inv.uuid) && !Filled(inv.invoice_number) && !Filled(inv.invoice_id) ==> id == inv.reference
  {
    if Filled(inv.uuid) then inv.uuid
    else if Filled(inv.invoice_number) then inv.invoice_number
    else if Filled(inv.invoice_id) then inv.invoice_id
    else inv.reference
  }

  /** The identifier of row `idx` in the list and in the selection: the view
      identifier when it is truthy, otherwise the row index in decimal. */
  function RowId(inv: FetchedInvoice, idx: nat): (id: string)
    ensures id != ""
    ensures Filled(ViewId(inv)) ==> id == ViewId(inv).value
    ensures !Filled(ViewId(inv)) ==> id == NatToString(idx)
  {
    TextOr(ViewId(inv), NatToString(idx))
  }

  /** `invoices.map((inv, idx) => id)`. */
  function AllIds(invoices: seq<FetchedInvoice>): (ids: seq<string>)
    ensures |ids| == |invoices|
    ensures forall i :: 0 <= i < |invoices| ==> ids[i] == RowId(invoices[i], i)
  {
    seq(|invoices|, i requires 0 <= i < |invoices| => RowId(invoices[i], i))
  }

  /** A row with no identifying field at all is known by its index. */
  lemma AnonymousRowUsesIndex(idx: nat)
    ensures RowId(FetchedInvoice(None, None, None, None), idx) == NatToString(idx)
    ensures RowId(FetchedInvoice(Some(""), Some(""), None, Some("")), idx) == NatToString(idx)
  {
  }

  // ---------------------------------------------------------------- selection

  /** `toggleInvoiceSelection`: removes `id` when selected, adds it when
      not, and leaves every other id as it was. */
  function Toggle(selected: set<string>, id: string): (r: set<string>)
    ensures id in r <==> id !in selected
    ensures forall x :: x != id ==> (x in r <==> x in selected)
  {
    if id in selected then selected - {id} else selected + {id}
  }

  /** Toggling the same id twice restores the selection. */
  lemma ToggleTwice(selected: set<string>, id: string)
    ensures Toggle(Toggle(selected, id), id) == selected
  {
  }

  /** `allSelected`: a non-empty list whose selection has as many ids as the
      list has rows. For a selection of row ids this holds only when the
      ids are distinct and every one of them is selected. */
  function AllSelected(selected: set<string>, invoices: seq<FetchedInvoice>): (b: bool)
    ensures b ==> |invoices| > 0
    ensures b && selected <= (set x | x in AllIds(invoices)) ==>
      selected == (set x | x in AllIds(invoices)) && DistinctIds(invoices)
    ensures |invoices| > 0 && DistinctIds(invoices) && selected == (set x | x in AllIds(invoices)) ==> b
  {
    SizeTestMeaning(selected, invoices);
    |invoices| > 0 && |selected| == |invoices|
  }

  /** What the size test says about a selection of row ids. */
  lemma SizeTestMeaning(selected: set<string>, invoices: seq<FetchedInvoice>)
    ensures |selected| == |invoices| && selected <= (set x | x in AllIds(invoices)) ==>
      selected == (set x | x in AllIds(invoices)) && DistinctIds(invoices)
    ensures DistinctIds(invoices) && selected == (set x | x in AllIds(invoices)) ==> |selected| == |invoices|
  {
    SelectAllSize(invoices);
    var all := set x | x in AllIds(invoices);
    if selected < all {
      ProperSubsetSmaller(selected, all);
    }
  }

  /** `toggleSelectAll` as written: deselect everything when the selection
      has as many ids as the list has rows, otherwise select every row id. */
  function ToggleSelectAll(selected: set<string>, invoices: seq<FetchedInvoice>): (r: set<string>)
    ensures |selected| == |invoices| ==> r == {}
    ensures |selected| != |invoices| ==> forall i :: 0 <= i < |invoices| ==> RowId(invoices[i], i) in r
    ensures forall x :: x in r ==> exists i :: 0 <= i < |invoices| && x == RowId(invoices[i], i)
  {
    if |selected| == |invoices| then {}
    else
      var ids := AllIds(invoices);
      set x | x in ids
  }

  /** The rows' identifiers are pairwise distinct. */
  predicate DistinctIds(invoices: seq<FetchedInvoice>) {
    forall i, j :: 0 <= i < j < |invoices| ==> RowId(invoices[i], i) != RowId(invoices[j], j)
  }

  predicate Distinct(s: seq<string>) {
    forall i, j :: 0 <= i < j < |s| ==> s[i] != s[j]
  }

  /** A sequence has as many distinct elements as entries exactly when no
      entry repeats. */
  lemma {:induction false} SetOfSeqSize(s: seq<string>)
    ensures |set x | x in s| <= |s|
    ensures |set x | x in s| == |s| <==> Distinct(s)
    decreases |s|
  {
    if s != [] {
      var tail := s[1..];
      SetOfSeqSize(tail);
      var whole := set x | x in s;
      var rest := set x | x in tail;
      assert whole == rest + {s[0]};
      if s[0] in tail {
        assert whole == rest;
        var k :| 0 <= k < |tail| && tail[k] == s[0];
        assert s[0] == s[k + 1];
      } else {
        assert |whole| == |rest| + 1;
        if Distinct(s) {
          assert Distinct(tail) by {
            forall i, j | 0 <= i < j < |tail| ensures tail[i] != tail[j] {
              assert tail[i] == s[i + 1] && tail[j] == s[j + 1];
            }
          }
        } else {
          var i, j :| 0 <= i < j < |s| && s[i] == s[j];
          if i > 0 {
            assert s[i] == tail[i - 1] && s[j] == tail[j - 1];
          }
        }
      }
    }
  }

  lemma SelectAllSize(invoices: seq<FetchedInvoice>)
    ensures |set x | x in AllIds(invoices)| <= |invoices|
    ensures |set x | x in AllIds(invoices)| == |invoices| <==> DistinctIds(invoices)
  {
    var ids := AllIds(invoices);
    SetOfSeqSize(ids);
    if Distinct(ids) {
      assert DistinctIds(invoices) by {
        forall i, j | 0 <= i < j < |invoices| ensures RowId(invoices[i], i) != RowId(invoices[j], j) {
          assert ids[i] != ids[j];
        }
      }
    }
    if DistinctIds(invoices) {
      assert Distinct(ids) by {
        forall i, j | 0 <= i < j < |ids| ensures ids[i] != ids[j] {
          assert ids[i] == RowId(invoices[i], i);
        }
      }
    }
  }

  /** With distinct row ids the button behaves as labelled: from any partial
      selection it selects every row, and pressing it again clears the
      selection. */
  lemma SelectAllWithDistinctIds(selected: set<string>, invoices: seq<FetchedInvoice>)
    requires DistinctIds(invoices) && |invoices| > 0
    requires |selected| != |invoices|
    ensures AllSelected(ToggleSelectAll(selected, invoices), invoices)
    ensures ToggleSelectAll(ToggleSelectAll(selected, invoices), invoices) == {}
  {
    SelectAllSize(invoices);
  }

  /** With a repeated row id the selection can never reach the list's length
      by selecting all: the box never shows as checked, and pressing the
      button again selects the same ids instead of clearing them. */
  lemma SelectAllStuckWithRepeatedIds(selected: set<string>, invoices: seq<FetchedInvoice>)
    requires !DistinctIds(invoices)
    requires |selected| != |invoices|
    ensures !AllSelected(ToggleSelectAll(selected, invoices), invoices)
    ensures ToggleSelectAll(ToggleSelectAll(selected, invoices), invoices) == ToggleSelectAll(selected, invoices)
    ensures ToggleSelectAll(selected, invoices) != {}
  {
    SelectAllSize(invoices);
  }

  /** Two rows sharing an invoice number: the smallest list that shows the
      stuck button. */
  lemma RepeatedInvoiceNumberExample()
    ensures var invoices := [FetchedInvoice(None, Some("INV-1"), None, None), FetchedInvoice(None, Some("INV-1"), None, None)];
      && !DistinctIds(invoices)
      && ToggleSelectAll({}, invoices) == {"INV-1"}
      && !AllSelected(ToggleSelectAll({}, invoices), invoices)
      && ToggleSelectAll(ToggleSelectAll({}, invoices), invoices) == {"INV-1"}
  {
    var invoices := [FetchedInvoice(None, Some("INV-1"), None, None), FetchedInvoice(None, Some("INV-1"), None, None)];
    assert RowId(invoices[0], 0) == "INV-1" && RowId(invoices[1], 1) == "INV-1";
    assert AllIds(invoices) == ["INV-1", "INV-1"];
  }

  /** The intended select-all: it compares the selection with the set of row
      ids rather than with the row count. */
  predicate AllSelectedBySet(selected: set<string>, invoices: seq<FetchedInvoice>) {
    |invoices| > 0 && (set x | x in AllIds(invoices)) <= selected
  }

  function ToggleSelectAllBySet(selected: set<string>, invoices: seq<FetchedInvoice>): (r: set<string>)
    ensures (set x | x in AllIds(invoices)) <= selected ==> r == {}
    ensures !((set x | x in AllIds(invoices)) <= selected) ==> r == set x | x in AllIds(invoices)
  {
    var all := set x | x in AllIds(invoices);
    if all <= selected then {} else all
  }

  /** The intended behaviour holds whatever the ids: from a selection that
      misses some row, select-all checks the box, and a second press clears
      it. */
  lemma SelectAllBySetAlternates(selected: set<string>, invoices: seq<FetchedInvoice>)
    requires |invoices| > 0
    requires !AllSelectedBySet(selected, invoices)
    ensures AllSelectedBySet(ToggleSelectAllBySet(selected, invoices), invoices)
    ensures ToggleSelectAllBySet(ToggleSelectAllBySet(selected, invoices), invoices) == {}
  {
  }

  /** With distinct row ids and a selection made of row ids only, the
      intended and the written test agree. */
  lemma SelectAllBySetAgreesWhenDistinct(selected: set<string>, invoices: seq<FetchedInvoice>)
    requires DistinctIds(invoices)
    requires selected <= set x | x in AllIds(invoices)
    ensures AllSelected(selected, invoices) <==> AllSelectedBySet(selected, invoices)
  {
    SelectAllSize(invoices);
    var all := set x | x in AllIds(invoices);
    assert |all| == |invoices|;
    if |selected| == |invoices| && selected != all {
      ProperSubsetSmaller(selected, all);
    }
    if all <= selected {
      assert selected == all;
    }
  }

  lemma ProperSubsetSmaller(a: set<string>, b: set<string>)
    requires a < b
    ensures |a| < |b|
  {
    assert b - a != {};
    var x :| x in b - a;
    assert a <= b - {x};
    assert |b - {x}| == |b| - 1;
    SubsetNoLarger(a, b - {x});
  }

  lemma {:induction false} SubsetNoLarger(a: set<string>, b: set<string>)
    requires a <= b
    ensures |a| <= |b|
    decreases |a|
  {
    if a != {} {
      var x :| x in a;
      SubsetNoLarger(a - {x}, b - {x});
    }
  }

  // -------------------------------------------------------------------- fetch

  /** The reply of the invoice-listing call: its result, or the message of
      the error it threw. */
  datatype ListReply =
    | Listed(success: bool, invoices: Option<seq<FetchedInvoice>>, error: Option<string>)
    | ListThrew(message: Option<string>)

  /** The request the page sends. */
  datatype ListQuery = ListQuery(phone: string, name: string, status: string, actor: string)

  /** The part of the page state a fetch changes. */
  datatype ListState = ListState(invoices: seq<FetchedInvoice>, error: string)

  /** `fetchInvoicesData(phone, name)`: a blank phone sends nothing and
      changes nothing; otherwise the query is sent and its reply replaces the
      list or sets the error. */
  function FetchInvoicesData(
    st: ListState, phone: string, name: Option<string>, userName: string,
    statusFilter: string, reply: ListReply): (r: (Option<ListQuery>, ListState))
    ensures AllWhitespace(phone) ==> r.0 == None && r.1 == st
    ensures !AllWhitespace(phone) ==>
      r.0 == Some(ListQuery(phone, TextOr(name, userName), ApiStatus(statusFilter), "supplier"))
    ensures !AllWhitespace(phone) && reply.Listed? && reply.success && reply.invoices.Some? ==>
      r.1 == ListState(reply.invoices.value, "")
    ensures !AllWhitespace(phone) && reply.Listed? && reply.success && reply.invoices.None? ==>
      r.1 == ListState([], TextOr(reply.error, "No invoices found"))
    ensures !AllWhitespace(phone) && reply.Listed? && !reply.success ==>
      r.1 == ListState(st.invoices, TextOr(reply.error, "No invoices found"))
    ensures !AllWhitespace(phone) && reply.ListThrew? ==>
      r.1 == ListState(st.invoices, TextOr(reply.message, "Failed to fetch"))
  {
    TrimEmptyIffBlank(phone);
    if Trim(phone) == "" then (None, st)
    else
      var query := ListQuery(phone, TextOr(name, userName), ApiStatus(statusFilter), "supplier");
      var next :=
        match reply
        case Listed(success, invoices, error) =>
          if success && invoices.Some? then ListState(invoices.value, "")
          else ListState(if success then [] else st.invoices, TextOr(error, "No invoices found"))
        case ListThrew(message) => ListState(st.invoices, TextOr(message, "Failed to fetch"));
      (Some(query), next)
  }
}
