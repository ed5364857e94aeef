/**
 * The "My Listings" page: reading listing documents into cards, the simulated
 * processing step (grade, then complete), deletion, the shared busy flag, and
 * the labels a card shows. Status and grade are the raw strings read from the
 * store: the code casts them without checking, so any string can appear.
 */
module MyListings {
  import opened Wrappers
  import opened Backend
  import opened AuthContext
  import Seqs

  /** A listing as the page holds it after reading a document. */
  datatype Listing = Listing(
    id: string,
    ownerId: Option<string>,
    kind: Option<string>,
    fileName: Option<string>,
    fileUrl: Option<string>,
    pickupLocation: Option<string>,
    status: string,
    grade: Option<string>,
    priceOffered: Option<int>,
    createdAt: Option<Timestamp>,
    gradedAt: Option<Timestamp>)

  /**
   * The snapshot mapping: a missing status reads as "Processing"; grade, price
   * and both instants read as missing when missing; every present field is kept
   * as it is, and `completedAt` is not read.
   */
  function FromSnapshot(id: string, d: ListingDoc): (l: Listing)
    ensures l.id == id
    ensures d.status.None? ==> l.status == "Processing"
    ensures d.status.Some? ==> l.status == d.status.value
    ensures l.ownerId == d.ownerId && l.kind == d.kind && l.fileName == d.fileName
    ensures l.fileUrl == d.fileUrl && l.pickupLocation == d.pickupLocation
    ensures l.grade == d.grade && l.priceOffered == d.priceOffered
    ensures l.createdAt == d.createdAt && l.gradedAt == d.gradedAt
  {
    Listing(id, d.ownerId, d.kind, d.fileName, d.fileUrl, d.pickupLocation,
            d.status.GetOr("Processing"), d.grade, d.priceOffered, d.createdAt, d.gradedAt)
  }

  /** A listing written out with every field present; `completedAt` is not part of a listing. */
  function ToDoc(l: Listing, completedAt: Option<Timestamp>): ListingDoc
  {
    ListingDoc(l.ownerId, l.kind, l.fileName, l.fileUrl, l.pickupLocation, Some(l.status),
               l.grade, l.priceOffered, l.createdAt, l.gradedAt, completedAt)
  }

  /** Reading loses nothing a listing holds: reading a written listing gives it back. */
  lemma ReadWrittenListing(l: Listing, completedAt: Option<Timestamp>)
    ensures FromSnapshot(l.id, ToDoc(l, completedAt)) == l
  {
  }

  /** The three grades in the order the random index picks them. */
  const Grades: seq<string> := ["A", "B", "C"]

  /** The lowest price of a grade's band. */
  function BandLow(grade: string): nat
  {
    if grade == "A" then 1200 else if grade == "B" then 600 else 150
  }

  /** How many integer prices a grade's band holds: `Math.floor(low + r * width)` for `0 <= r < 1`. */
  function BandWidth(grade: string): nat
  {
    if grade == "A" then 800 else if grade == "B" then 400 else 350
  }

  /** The intended bands: A is 1200..1999, B is 600..999, C is 150..499. */
  predicate InBand(grade: string, price: int)
  {
    || (grade == "A" && 1200 <= price <= 1999)
    || (grade == "B" && 600 <= price <= 999)
    || (grade == "C" && 150 <= price <= 499)
  }

  /** The document update one processing click sends. */
  datatype Update =
    | CompleteUpdate(completedAt: Timestamp)
    | GradeUpdate(grade: string, price: Option<int>, gradedAt: Timestamp)

  /**
   * `simulateProcessing`'s choice: a "Graded" listing is completed; any other
   * status, "Completed" and "Cancelled" included, is graded again with the grade
   * at `gradeIndex`, and a sell listing gets a price `priceDraw` above its band's
   * low end. `gradeIndex` and `priceDraw` stand for the two `Math.random()` draws.
   */
  function ProcessUpdate(status: string, kind: Option<string>, gradeIndex: nat, priceDraw: nat, now: Timestamp): (u: Update)
    requires gradeIndex < |Grades| && priceDraw < BandWidth(Grades[gradeIndex])
    ensures u.CompleteUpdate? <==> status == "Graded"
    ensures u.CompleteUpdate? ==> u.completedAt == now
    ensures u.GradeUpdate? ==> u.grade in Grades && u.grade == Grades[gradeIndex] && u.gradedAt == now
    ensures u.GradeUpdate? ==> (u.price.Some? <==> kind == Some("sell"))
    ensures u.GradeUpdate? && u.price.Some? ==> InBand(u.grade, u.price.value)
  {
    if status == "Graded" then CompleteUpdate(now)
    else
      var chosen := Grades[gradeIndex];
      var price := if kind == Some("sell") then Some(BandLow(chosen) + priceDraw) else None;
      GradeUpdate(chosen, price, now)
  }

  /** The prices `BandLow + draw` for the possible draws are exactly the intended band, so every band price can be offered. */
  lemma BandsAreExact(grade: string, price: int)
    requires grade in Grades
    ensures InBand(grade, price) <==> BandLow(grade) <= price < BandLow(grade) + BandWidth(grade)
  {
  }

  /** A donation is graded without a price, whatever the grade. */
  lemma DonationHasNoPrice(status: string, gradeIndex: nat, priceDraw: nat, now: Timestamp)
    requires gradeIndex < |Grades| && priceDraw < BandWidth(Grades[gradeIndex])
    requires status != "Graded"
    ensures ProcessUpdate(status, Some("donate"), gradeIndex, priceDraw, now).price == None
  {
  }

  /** `updateDoc`: the named fields are replaced and every other field is kept. */
  function ApplyUpdate(d: ListingDoc, u: Update): (r: ListingDoc)
    ensures u.CompleteUpdate? ==> r == d.(status := Some("Completed"), completedAt := Some(u.completedAt))
    ensures u.GradeUpdate? ==>
      r == d.(status := Some("Graded"), grade := Some(u.grade), priceOffered := u.price, gradedAt := Some(u.gradedAt))
  {
    match u
    case CompleteUpdate(at) => d.(status := Some("Completed"), completedAt := Some(at))
    case GradeUpdate(g, p, at) => d.(status := Some("Graded"), grade := Some(g), priceOffered := p, gradedAt := Some(at))
  }

  /**
   * The lifecycle as the page sees it after the next snapshot: completing keeps
   * grade, price and grading instant; grading sets all three; the card then reads
   * "Completed" or "Graded".
   */
  lemma ProcessedListing(id: string, d: ListingDoc, gradeIndex: nat, priceDraw: nat, now: Timestamp)
    requires gradeIndex < |Grades| && priceDraw < BandWidth(Grades[gradeIndex])
    ensures var l := FromSnapshot(id, d);
      var l' := FromSnapshot(id, ApplyUpdate(d, ProcessUpdate(l.status, l.kind, gradeIndex, priceDraw, now)));
      && (l.status == "Graded" ==>
            l' == l.(status := "Completed") && ApplyUpdate(d, ProcessUpdate(l.status, l.kind, gradeIndex, priceDraw, now)).completedAt == Some(now))
      && (l.status != "Graded" ==>
            && l'.status == "Graded" && l'.grade == Some(Grades[gradeIndex]) && l'.gradedAt == Some(now)
            && (l.kind == Some("sell") ==> l'.priceOffered.Some? && InBand(Grades[gradeIndex], l'.priceOffered.value))
            && (l.kind != Some("sell") ==> l'.priceOffered == None)
            && l' == l.(status := l'.status, grade := l'.grade, priceOffered := l'.priceOffered, gradedAt := l'.gradedAt))
  {
  }

  /** Completed is not terminal: processing a completed listing grades it again, and a second click completes it again. */
  lemma {:induction false} CompletedIsRegraded(id: string, d: ListingDoc, i1: nat, p1: nat, t1: Timestamp, i2: nat, p2: nat, t2: Timestamp)
    requires d.status == Some("Completed")
    requires i1 < |Grades| && p1 < BandWidth(Grades[i1])
    requires i2 < |Grades| && p2 < BandWidth(Grades[i2])
    ensures var d1 := ApplyUpdate(d, ProcessUpdate("Completed", d.kind, i1, p1, t1));
      && d1.status == Some("Graded")
      && ApplyUpdate(d1, ProcessUpdate("Graded", d1.kind, i2, p2, t2)).status == Some("Completed")
  {
    var d1 := ApplyUpdate(d, ProcessUpdate("Completed", d.kind, i1, p1, t1));
    assert d1.status == Some("Graded");
    assert ProcessUpdate("Graded", d1.kind, i2, p2, t2).CompleteUpdate?;
  }

  /** What a card shows as the price. */
  datatype PriceText = Rupees(amount: int) | Dash | Free

  /** A sell listing shows its price when it is truthy (present and not 0) and a dash otherwise; a donation shows "Free". */
  function PriceDisplay(kind: Option<string>, price: Option<int>): (t: PriceText)
    ensures t.Free? <==> kind != Some("sell")
    ensures t.Rupees? <==> kind == Some("sell") && price.Some? && price.value != 0
    ensures t.Rupees? ==> t.amount == price.value
  {
    if kind == Some("sell") then
      if price.Some? && price.value != 0 then Rupees(price.value) else Dash
    else Free
  }

  /** A graded sell listing always shows a price from its band. */
  lemma GradedSaleShowsPrice(id: string, d: ListingDoc, gradeIndex: nat, priceDraw: nat, now: Timestamp)
    requires gradeIndex < |Grades| && priceDraw < BandWidth(Grades[gradeIndex])
    requires d.kind == Some("sell") && d.status != Some("Graded")
    ensures var l := FromSnapshot(id, ApplyUpdate(d, ProcessUpdate(FromSnapshot(id, d).status, d.kind, gradeIndex, priceDraw, now)));
      PriceDisplay(l.kind, l.priceOffered).Rupees? && InBand(Grades[gradeIndex], PriceDisplay(l.kind, l.priceOffered).amount)
  {
    var l0 := FromSnapshot(id, d);
    assert l0.status != "Graded";
  }

  /** The processing button reads "Complete" on a graded listing and "Process" on any other. */
  function ActionLabel(status: string): (caption: string)
    ensures caption == "Complete" <==> status == "Graded"
    ensures caption == "Complete" || caption == "Process"
  {
    if status == "Graded" then "Complete" else "Process"
  }

  /** The button's label names the step `ProcessUpdate` takes. */
  lemma LabelMatchesStep(status: string, kind: Option<string>, gradeIndex: nat, priceDraw: nat, now: Timestamp)
    requires gradeIndex < |Grades| && priceDraw < BandWidth(Grades[gradeIndex])
    ensures ActionLabel(status) == "Complete" <==> ProcessUpdate(status, kind, gradeIndex, priceDraw, now).CompleteUpdate?
  {
  }

  /** The status badge shows the status, or "Processing" when it is empty. */
  function StatusBadge(status: string): (caption: string)
    ensures caption != ""
    ensures status != "" ==> caption == status
    ensures status == "" ==> caption == "Processing"
  {
    if status == "" then "Processing" else status
  }

  /** The grade badge: a dash for a missing or empty grade, "Grade X" otherwise. */
  function GradeBadge(grade: Option<string>): (caption: string)
    ensures grade.None? || grade.value == "" <==> caption == "—"
    ensures grade.Some? && grade.value != "" ==> caption == "Grade " + grade.value
  {
    if grade.None? || grade.value == "" then "—" else "Grade " + grade.value
  }

  /** The "New Donation" and "Make Donation" buttons appear for every role but `ngo`. */
  predicate ShowsDonationButtons(user: UserData)
  {
    user.role != Some(Ngo)
  }

  /** The page itself. */
  datatype View = Loading | SignInPrompt | NoListings | Cards(cards: seq<Listing>)

  function PageView(loading: bool, user: Option<UserData>, listings: seq<Listing>): (v: View)
    ensures v == Loading <==> loading
    ensures v == SignInPrompt <==> !loading && user.None?
    ensures v.Cards? <==> !loading && user.Some? && listings != []
    ensures v.Cards? ==> v.cards == listings
    ensures v == NoListings <==> !loading && user.Some? && listings == []
  {
    if loading then Loading
    else if user.None? then SignInPrompt
    else if listings == [] then NoListings
    else Cards(listings)
  }

  /** Reads one snapshot entry. */
  function ReadEntry(e: (string, ListingDoc)): Listing
  {
    FromSnapshot(e.0, e.1)
  }

  /**
   * The page state: the "listings" collection (document id to document), the
   * cards of the last snapshot, and the id of the listing being worked on.
   */
  class ListingsPage {
    var docs: map<string, ListingDoc>
    var listings: seq<Listing>
    var busyId: Option<string>

    constructor (store: map<string, ListingDoc>)
      ensures docs == store && listings == [] && busyId == None
    {
      docs := store;
      listings := [];
      busyId := None;
    }

    /** `!!busyId`: every Process and Delete button is disabled while a non-empty id is busy. */
    predicate ActionsDisabled()
      reads this
    {
      busyId.Some? && busyId.value != ""
    }

    /**
     * The listings effect: nothing while auth loads, no cards without a user, and
     * otherwise the cards of the snapshot, in the order the query returned it.
     */
    method OnSnapshot(loading: bool, user: Option<UserData>, snapshot: seq<(string, ListingDoc)>)
      modifies this
      ensures docs == old(docs) && busyId == old(busyId)
      ensures loading ==> listings == old(listings)
      ensures !loading && user.None? ==> listings == []
      ensures !loading && user.Some? ==> listings == Seqs.Map(ReadEntry, snapshot)
    {
      if loading {
        return;
      }
      if user.None? {
        listings := [];
        return;
      }
      listings := Seqs.Map(ReadEntry, snapshot);
    }

    /**
     * `simulateProcessing`: marks the listing busy, sends the update, and frees the
     * flag whether or not the write succeeded. The write succeeds when the store
     * accepts it and the document exists.
     */
    method SimulateProcessing(l: Listing, gradeIndex: nat, priceDraw: nat, now: Timestamp, writeOk: bool)
      requires gradeIndex < |Grades| && priceDraw < BandWidth(Grades[gradeIndex])
      modifies this
      ensures busyId == None && listings == old(listings)
      ensures writeOk && l.id in old(docs) ==>
        docs == old(docs)[l.id := ApplyUpdate(old(docs)[l.id], ProcessUpdate(l.status, l.kind, gradeIndex, priceDraw, now))]
      ensures !(writeOk && l.id in old(docs)) ==> docs == old(docs)
    {
      busyId := Some(l.id);
      var u := ProcessUpdate(l.status, l.kind, gradeIndex, priceDraw, now);
      if writeOk && l.id in docs {
        docs := docs[l.id := ApplyUpdate(docs[l.id], u)];
      }
      busyId := None;
    }

    /**
     * `handleDelete`: a declined confirmation changes nothing; a confirmed one
     * removes that document alone when the store accepts it, and frees the flag.
     */
    method HandleDelete(id: string, confirmed: bool, deleteOk: bool)
      modifies this
      ensures !confirmed ==> docs == old(docs) && listings == old(listings) && busyId == old(busyId)
      ensures confirmed ==> busyId == None && listings == old(listings)
      ensures confirmed && deleteOk ==> docs == old(docs) - {id}
      ensures confirmed && !deleteOk ==> docs == old(docs)
    {
      if !confirmed {
        return;
      }
      busyId := Some(id);
      if deleteOk {
        docs := docs - {id};
      }
      busyId := None;
    }
  }

  /** Removing a document keeps every other document as it was. */
  lemma DeleteRemovesOnlyThat(docs: map<string, ListingDoc>, id: string)
    ensures id !in docs - {id}
    ensures forall k :: k != id ==> (k in docs - {id} <==> k in docs)
    ensures forall k :: k != id && k in docs ==> (docs - {id})[k] == docs[k]
  {
  }

  /** While a listing with a non-empty id is being worked on, no card's buttons can start another action. */
  lemma BusyDisablesActions(p: ListingsPage, l: Listing)
    requires p.busyId == Some(l.id) && l.id != ""
    ensures p.ActionsDisabled()
  {
  }
}
