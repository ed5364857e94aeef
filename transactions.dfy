/**
 * The transactions page: every "donateSubmissions" document, newest first, read
 * with defaults and split into a pending and a done list.
 */
module Transactions {
  import opened Wrappers
  import Seqs
  import opened Backend

  /** A submission as the page holds it: every text field present, the status never empty. */
  datatype Transaction = Transaction(
    id: string,
    pickupLocation: string,
    notes: string,
    imageUrl: string,
    extractedText: string,
    status: string,
    createdAt: Option<Timestamp>)

  /** `value || fallback` on an optional string: a missing or empty string gives the fallback. */
  function OrElse(value: Option<string>, fallback: string): (r: string)
    ensures value.Some? && value.value != "" ==> r == value.value
    ensures value.None? || value.value == "" ==> r == fallback
  {
    if value.Some? && value.value != "" then value.value else fallback
  }

  /**
   * Reading a document: the four text fields default to "" and the status to
   * "pending" when missing or empty; a non-empty status is kept whatever it is.
   */
  function ToTransaction(id: string, d: SubmissionDoc): (t: Transaction)
    ensures t.id == id && t.createdAt == d.createdAt
    ensures t.status != ""
    ensures t.status == "pending" <==> d.status.None? || d.status.value in {"", "pending"}
    ensures d.status.Some? && d.status.value != "" ==> t.status == d.status.value
    ensures d.pickupLocation.Some? ==> t.pickupLocation == d.pickupLocation.value
    ensures d.notes.Some? ==> t.notes == d.notes.value
    ensures d.imageUrl.Some? ==> t.imageUrl == d.imageUrl.value
    ensures d.extractedText.Some? ==> t.extractedText == d.extractedText.value
    ensures d.pickupLocation.None? ==> t.pickupLocation == ""
    ensures d.notes.None? ==> t.notes == ""
    ensures d.imageUrl.None? ==> t.imageUrl == ""
    ensures d.extractedText.None? ==> t.extractedText == ""
  {
    Transaction(id, OrElse(d.pickupLocation, ""), OrElse(d.notes, ""), OrElse(d.imageUrl, ""),
                OrElse(d.extractedText, ""), OrElse(d.status, "pending"), d.createdAt)
  }

  /**
   * The `forEach` loop that builds the page's list: one transaction per document,
   * in the order the query returned them.
   */
  method CollectTransactions(snap: seq<(string, SubmissionDoc)>) returns (data: seq<Transaction>)
    ensures |data| == |snap|
    ensures forall i :: 0 <= i < |snap| ==> data[i] == ToTransaction(snap[i].0, snap[i].1)
  {
    data := [];
    var i := 0;
    while i < |snap|
      invariant 0 <= i <= |snap|
      invariant |data| == i
      invariant forall k :: 0 <= k < i ==> data[k] == ToTransaction(snap[k].0, snap[k].1)
    {
      data := data + [ToTransaction(snap[i].0, snap[i].1)];
      i := i + 1;
    }
  }

  predicate IsPending(t: Transaction)
  {
    t.status == "pending"
  }

  predicate IsDone(t: Transaction)
  {
    t.status == "done"
  }

  function Pending(ts: seq<Transaction>): seq<Transaction>
  {
    Seqs.Filter(IsPending, ts)
  }

  function Done(ts: seq<Transaction>): seq<Transaction>
  {
    Seqs.Filter(IsDone, ts)
  }

  /**
   * The two lists: exactly the "pending" and exactly the "done" transactions,
   * each as often as fetched and in fetch order; no transaction is in both, one
   * with any other status is in neither, and together they are no longer than
   * the whole list.
   */
  lemma Partition(ts: seq<Transaction>)
    ensures forall t :: t in Pending(ts) <==> t in ts && t.status == "pending"
    ensures forall t :: t in Done(ts) <==> t in ts && t.status == "done"
    ensures forall t :: !(t in Pending(ts) && t in Done(ts))
    ensures forall t :: t in ts && t.status !in {"pending", "done"} ==> t !in Pending(ts) && t !in Done(ts)
    ensures forall t: Transaction :: t.status == "pending" ==> multiset(Pending(ts))[t] == multiset(ts)[t]
    ensures forall t: Transaction :: t.status == "done" ==> multiset(Done(ts))[t] == multiset(ts)[t]
    ensures Seqs.IsSubsequence(Pending(ts), ts) && Seqs.IsSubsequence(Done(ts), ts)
    ensures |Pending(ts)| + |Done(ts)| <= |ts|
  {
    Seqs.FilterMultiset(IsPending, ts);
    Seqs.FilterMultiset(IsDone, ts);
    Seqs.FilterKeepsOrder(IsPending, ts);
    Seqs.FilterKeepsOrder(IsDone, ts);
    Seqs.FilterDisjointLength(IsPending, IsDone, ts);
  }

  /** A document stored without a status, or with an empty one, is listed as pending and never as done. */
  lemma UnsetStatusIsPending(ts: seq<Transaction>, snap: seq<(string, SubmissionDoc)>, i: nat)
    requires i < |snap| && |ts| == |snap|
    requires forall k :: 0 <= k < |snap| ==> ts[k] == ToTransaction(snap[k].0, snap[k].1)
    requires snap[i].1.status.None? || snap[i].1.status == Some("")
    ensures ts[i] in Pending(ts) && ts[i] !in Done(ts)
  {
    assert ts[i] in ts;
  }

  /** The badge: "Completed" for "done" and "Pending" for anything else. */
  function StatusBadge(status: string): (caption: string)
    ensures status == "done" ==> caption == "Completed"
    ensures status != "done" ==> caption == "Pending"
  {
    if status == "done" then "Completed" else "Pending"
  }

  const LoadError := "Failed to load transactions. Please try again."

  /** What the page shows: a spinner while auth or the data loads, a sign-in prompt, or the two lists with the error, if any. */
  datatype View = Loading | SignInPrompt | Lists(pending: seq<Transaction>, done: seq<Transaction>, error: Option<string>)

  function PageView(loading: bool, loadingData: bool, user: bool, ts: seq<Transaction>, error: Option<string>): (v: View)
    ensures v == Loading <==> loading || loadingData
    ensures v == SignInPrompt <==> !loading && !loadingData && !user
    ensures v.Lists? <==> !loading && !loadingData && user
    ensures v.Lists? ==> v.pending == Pending(ts) && v.done == Done(ts) && v.error == error
  {
    if loading || loadingData then Loading
    else if !user then SignInPrompt
    else Lists(Pending(ts), Done(ts), error)
  }

  /** The page's state; `loadingData` starts true. */
  class TransactionsPage {
    var transactions: seq<Transaction>
    var loadingData: bool
    var error: Option<string>

    constructor ()
      ensures transactions == [] && loadingData && error == None
    {
      transactions := [];
      loadingData := true;
      error := None;
    }

    /**
     * `fetchTransactions`: without a user it returns at once and changes nothing,
     * `loadingData` included. Otherwise the whole collection, not only the user's
     * submissions, is read into the list, or the error is set on failure; either
     * way `loadingData` is then false.
     */
    method FetchTransactions(user: Option<string>, snap: Option<seq<(string, SubmissionDoc)>>)
      modifies this
      ensures user.None? ==> transactions == old(transactions) && loadingData == old(loadingData) && error == old(error)
      ensures user.Some? ==> !loadingData
      ensures user.Some? && snap.Some? ==>
        && |transactions| == |snap.value| && error == old(error)
        && forall i :: 0 <= i < |snap.value| ==> transactions[i] == ToTransaction(snap.value[i].0, snap.value[i].1)
      ensures user.Some? && snap.None? ==> transactions == old(transactions) && error == Some(LoadError)
    {
      if user.None? {
        return;
      }
      if snap.Some? {
        var data := CollectTransactions(snap.value);
        transactions := data;
      } else {
        error := Some(LoadError);
      }
      loadingData := false;
    }
  }

  /**
   * The early return keeps `loadingData` true, so a visit that starts signed out
   * shows the spinner, not the sign-in prompt, once auth has loaded.
   */
  lemma SignedOutVisitShowsSpinner(ts: seq<Transaction>, error: Option<string>)
    ensures PageView(false, true, false, ts, error) == Loading
    ensures PageView(false, true, false, ts, error) != SignInPrompt
  {
  }
}
