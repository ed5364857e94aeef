/**
 * The dashboard: the statistics and recent activity of a seller, the NGO view
 * with its donation requests, and posting a new request. Query results are
 * inputs; the store's own filtering (`where`) is written out, its ordering
 * (`orderBy`) is a property of the input sequence.
 */
module Dashboard {
  import opened Wrappers
  import opened Text
  import Seqs
  import opened Backend
  import opened AuthContext

  /** A document of the "transactions" collection, each field as read. */
  datatype TransactionDoc = TransactionDoc(
    sellerId: Option<string>,
    kind: Option<string>,
    itemName: Option<string>,
    status: Option<string>,
    createdAt: Option<Timestamp>)

  /** A document of the "donations" collection; only its owner is read. */
  datatype DonationDoc = DonationDoc(ownerId: Option<string>)

  datatype ActivityKind = Sale | Donation
  datatype ActivityStatus = Pending | Completed

  /** One row of the recent-activity table; the date is the instant it is rendered from, when there is one. */
  datatype ActivityRow = ActivityRow(id: string, kind: ActivityKind, itemName: string, date: Option<Timestamp>, status: ActivityStatus)

  /**
   * Mapping a transaction to a row: the exact string "Donation" makes a donation
   * and anything else a sale, the exact string "completed" a completed row and
   * anything else a pending one; a missing item name reads "Item" (an empty one
   * is kept).
   */
  function RowFor(id: string, d: TransactionDoc): (r: ActivityRow)
    ensures r.id == id
    ensures r.kind == Donation <==> d.kind == Some("Donation")
    ensures r.status == Completed <==> d.status == Some("completed")
    ensures d.itemName.Some? ==> r.itemName == d.itemName.value
    ensures d.itemName.None? ==> r.itemName == "Item"
    ensures r.date == d.createdAt
  {
    ActivityRow(id,
      if d.kind == Some("Donation") then Donation else Sale,
      d.itemName.GetOr("Item"),
      d.createdAt,
      if d.status == Some("completed") then Completed else Pending)
  }

  /** Case matters and near misses are sales and pending rows: nothing but the exact strings changes a row. */
  lemma RowTestsAreExact(id: string, d: TransactionDoc)
    ensures d.kind == Some("donation") ==> RowFor(id, d).kind == Sale
    ensures d.status == Some("Completed") ==> RowFor(id, d).status == Pending
    ensures d.itemName == Some("") ==> RowFor(id, d).itemName == ""
  {
  }

  /** The badge of an activity row. */
  function ActivityBadge(s: ActivityStatus): (caption: string)
    ensures s == Completed ==> caption == "Completed"
    ensures s == Pending ==> caption == "Pending"
  {
    if s == Completed then "Completed" else "Pending"
  }

  datatype DashboardStats = DashboardStats(listed: nat, sold: nat, donated: nat, pending: nat)

  /** The collections the dashboard reads: transactions are given newest first, as `orderBy("createdAt", "desc")` returns them. */
  datatype Store = Store(
    listings: seq<ListingDoc>,
    transactions: seq<(string, TransactionDoc)>,
    donations: seq<DonationDoc>)

  predicate SoldBy(uid: string, t: (string, TransactionDoc))
  {
    t.1.sellerId == Some(uid)
  }

  /** Sold by `uid` with the given status, exactly. */
  predicate SoldWithStatus(uid: string, status: string, t: (string, TransactionDoc))
  {
    SoldBy(uid, t) && t.1.status == Some(status)
  }

  predicate HasStatus(status: string, t: (string, TransactionDoc))
  {
    t.1.status == Some(status)
  }

  function SellerTransactions(uid: string, txs: seq<(string, TransactionDoc)>): seq<(string, TransactionDoc)>
  {
    Seqs.Filter(t => SoldBy(uid, t), txs)
  }

  /** The dashboard's test for the NGO branch: the role, lower-cased, is "ngo". */
  predicate IsNgoUser(user: UserData)
  {
    user.role.Some? && ToLower(RoleName(user.role.value)) == "ngo"
  }

  /** The inner test before counting donations: the role is not "ngo". */
  predicate CountsDonations(user: UserData)
  {
    !(user.role.Some? && RoleName(user.role.value) == "ngo")
  }

  /** Roles are normalised on sign-in, so the two tests agree: outside the NGO branch donations are always counted. */
  lemma DonationsCountedOutsideNgo(user: UserData)
    ensures CountsDonations(user) <==> !IsNgoUser(user)
  {
    if user.role.Some? {
      var n := RoleName(user.role.value);
      assert ToLower(n) == n;
    }
  }

  /**
   * The four counts: listings owned, transactions sold with status exactly
   * "completed", donations owned (only when the role is not "ngo"), and
   * transactions sold with status exactly "pending".
   */
  function ComputeStats(user: UserData, store: Store): DashboardStats
  {
    var uid := user.uid;
    DashboardStats(
      |Seqs.Filter((d: ListingDoc) => d.ownerId == Some(uid), store.listings)|,
      |Seqs.Filter(t => SoldWithStatus(uid, "completed", t), store.transactions)|,
      if CountsDonations(user) then |Seqs.Filter((d: DonationDoc) => d.ownerId == Some(uid), store.donations)| else 0,
      |Seqs.Filter(t => SoldWithStatus(uid, "pending", t), store.transactions)|)
  }

  /**
   * `sold` and `pending` count the seller's transactions in each of the two
   * statuses; no transaction is in both, so together they never exceed the
   * seller's transactions, and the role gate passes exactly what a non-NGO
   * user owns.
   */
  lemma StatsBounds(user: UserData, store: Store)
    ensures var s := ComputeStats(user, store); var mine := SellerTransactions(user.uid, store.transactions);
      && s.sold == |Seqs.Filter(t => HasStatus("completed", t), mine)|
      && s.pending == |Seqs.Filter(t => HasStatus("pending", t), mine)|
      && s.sold + s.pending <= |mine|
      && s.listed <= |store.listings| && s.donated <= |store.donations|
      && (CountsDonations(user) <==> !IsNgoUser(user))
  {
    var uid := user.uid;
    var txs := store.transactions;
    var mine := SellerTransactions(uid, txs);
    Seqs.FilterFilter(t => SoldBy(uid, t), t => HasStatus("completed", t), t => SoldWithStatus(uid, "completed", t), txs);
    Seqs.FilterFilter(t => SoldBy(uid, t), t => HasStatus("pending", t), t => SoldWithStatus(uid, "pending", t), txs);
    Seqs.FilterDisjointLength(t => HasStatus("completed", t), t => HasStatus("pending", t), mine);
    DonationsCountedOutsideNgo(user);
  }

  /** The recent-activity query: the seller's transactions that have a creation instant, newest first, at most five. */
  function RecentActivity(uid: string, txs: seq<(string, TransactionDoc)>): (rows: seq<ActivityRow>)
    ensures |rows| <= 5
  {
    var picked := Seqs.Take(Seqs.Filter(t => SoldBy(uid, t) && t.1.createdAt.Some?, txs), 5);
    Seqs.Map((t: (string, TransactionDoc)) => RowFor(t.0, t.1), picked)
  }

  predicate NewerOrSame(a: (string, TransactionDoc), b: (string, TransactionDoc))
  {
    a.1.createdAt.Some? && b.1.createdAt.Some? ==> a.1.createdAt.value >= b.1.createdAt.value
  }

  /**
   * When the collection comes newest first, the rows are the seller's five newest
   * dated transactions (all of them when there are fewer), newest first.
   */
  lemma RecentActivityIsNewestFirst(uid: string, txs: seq<(string, TransactionDoc)>)
    requires Seqs.Pairwise(NewerOrSame, txs)
    ensures var rows := RecentActivity(uid, txs);
      var dated := Seqs.Filter(t => SoldBy(uid, t) && t.1.createdAt.Some?, txs);
      && |rows| == (if |dated| < 5 then |dated| else 5)
      && (forall i :: 0 <= i < |rows| ==> rows[i] == RowFor(dated[i].0, dated[i].1) && rows[i].date.Some?)
      && (forall i, j :: 0 <= i < j < |rows| ==> rows[i].date.value >= rows[j].date.value)
  {
    var dated := Seqs.Filter(t => SoldBy(uid, t) && t.1.createdAt.Some?, txs);
    Seqs.FilterKeepsPairwise(NewerOrSame, t => SoldBy(uid, t) && t.1.createdAt.Some?, txs);
    var rows := RecentActivity(uid, txs);
    forall i | 0 <= i < |rows| ensures rows[i] == RowFor(dated[i].0, dated[i].1) && rows[i].date.Some? {
      assert dated[i] in dated;
    }
    forall i, j | 0 <= i < j < |rows| ensures rows[i].date.value >= rows[j].date.value {
      assert NewerOrSame(dated[i], dated[j]);
    }
  }

  /** A document of the "donationRequests" collection as the NGO form writes it. */
  datatype RequestDoc = RequestDoc(ngoId: string, ngoName: string, comment: string, status: string, createdAt: Timestamp)

  /** A fetched request: its document id and its fields. */
  datatype DonationRequest = DonationRequest(id: string, doc: RequestDoc)

  /** The request an NGO posts: its own id, its name or "NGO", the trimmed comment, status "pending". */
  function NewRequest(user: UserData, comment: string, now: Timestamp): (r: RequestDoc)
    ensures r.ngoId == user.uid && r.status == "pending" && r.createdAt == now
    ensures r.comment == Trim(comment)
    ensures IsTrimmed(r.comment) && (Trim(comment) != [] ==> r.comment != [])
    ensures user.name.Some? && user.name.value != "" ==> r.ngoName == user.name.value
    ensures user.name.None? || user.name.value == "" ==> r.ngoName == "NGO"
  {
    RequestDoc(user.uid, if user.name.Some? && user.name.value != "" then user.name.value else "NGO",
               Trim(comment), "pending", now)
  }

  /** A posted comment is the typed one with surrounding space removed: posting it again as typed gives the same text. */
  lemma PostedCommentIsStable(user: UserData, comment: string, now: Timestamp)
    ensures NewRequest(user, NewRequest(user, comment, now).comment, now) == NewRequest(user, comment, now)
  {
    TrimIdempotent(comment);
  }

  /** The badge of a request: its status with the first character upper-cased. */
  function Capitalise(s: string): (r: string)
    ensures |r| == |s|
    ensures s != [] ==> r[0] == UpperChar(s[0]) && r[1..] == s[1..]
  {
    if s == [] then [] else [UpperChar(s[0])] + s[1..]
  }

  /** Capitalising changes only the case of the first letter, and the three request statuses read "Pending", "Accepted", "Rejected". */
  lemma CapitaliseLabels(s: string)
    ensures ToLower(Capitalise(s)) == ToLower(s)
    ensures Capitalise("pending") == "Pending"
    ensures Capitalise("accepted") == "Accepted"
    ensures Capitalise("rejected") == "Rejected"
  {
    if s != [] {
      assert ToLower(Capitalise(s))[0] == LowerChar(UpperChar(s[0]));
    }
  }

  const LoadRequestsError := "Failed to load donation requests. Please try again."
  const SubmitRequestError := "Failed to submit request. Please try again."
  const LoadDashboardError := "Failed to load dashboard data. Please check your connection and try again."
  const RequestPosted := "Your request has been posted and you will be contacted once accepted."

  /** What the dashboard shows. */
  datatype View =
    | Loading
    | SignInPrompt
    | NgoView(requests: seq<DonationRequest>)
    | MemberView(stats: DashboardStats, recent: seq<ActivityRow>, showsDonated: bool, showsDonateCard: bool)

  /**
   * A spinner while auth or the fetch runs, a prompt without a user, the
   * requests for an NGO, and otherwise the member view, whose donation card and
   * donate action are shown when the role is not "ngo".
   */
  function PageView(loading: bool, fetching: bool, user: Option<UserData>, stats: DashboardStats,
                    recent: seq<ActivityRow>, requests: seq<DonationRequest>): (v: View)
    ensures v == Loading <==> loading || fetching
    ensures v == SignInPrompt <==> !loading && !fetching && user.None?
    ensures v.NgoView? <==> !loading && !fetching && user.Some? && user.value.role == Some(Ngo)
    ensures v.NgoView? ==> v.requests == requests
    ensures v.MemberView? <==> !loading && !fetching && user.Some? && user.value.role != Some(Ngo)
    ensures v.MemberView? ==> v.showsDonated && v.showsDonateCard && v.stats == stats && v.recent == recent
  {
    if loading || fetching then Loading
    else if user.None? then SignInPrompt
    else if user.value.role == Some(Ngo) then NgoView(requests)
    else MemberView(stats, recent, user.value.role != Some(Ngo), user.value.role != Some(Ngo))
  }

  /**
   * A loaded user who is not an NGO gets the member view, and its donated card
   * counts every donation that user owns: the inner role test never zeroes it.
   */
  lemma MemberViewCountsDonations(user: UserData, store: Store, recent: seq<ActivityRow>, requests: seq<DonationRequest>)
    requires user.role != Some(Ngo)
    ensures var v := PageView(false, false, Some(user), ComputeStats(user, store), recent, requests);
      && v.MemberView? && v.showsDonated && v.recent == recent
      && v.stats.donated == |Seqs.Filter((d: DonationDoc) => d.ownerId == Some(user.uid), store.donations)|
  {
  }

  /** The NGO button: disabled while submitting or while the trimmed comment is empty. */
  predicate PostDisabled(submitting: bool, comment: string)
  {
    submitting || Trim(comment) == []
  }

  /**
   * An enabled button means the comment passes the submit handler's blank test
   * and the stored comment is non-empty; the cleared comment after a post
   * disables the button again.
   */
  lemma PostButtonMatchesGuard(user: UserData, submitting: bool, comment: string, now: Timestamp)
    ensures !PostDisabled(submitting, comment) ==> Trim(comment) != [] && NewRequest(user, comment, now).comment != []
    ensures PostDisabled(submitting, comment) <==> submitting || AllSpace(comment)
    ensures PostDisabled(submitting, "")
  {
    if AllSpace(comment) {
      TrimAllSpace(comment);
    } else {
      TrimShape(comment);
    }
  }

  /** The dashboard's state, with the "donationRequests" collection it writes to. */
  class DashboardPage {
    var stats: DashboardStats
    var recent: seq<ActivityRow>
    var fetching: bool
    var error: Option<string>
    var ngoComment: string
    var donationRequests: seq<DonationRequest>
    var submitting: bool
    var successMessage: Option<string>
    var requestStore: seq<RequestDoc>

    constructor (store: seq<RequestDoc>)
      ensures stats == DashboardStats(0, 0, 0, 0) && recent == [] && fetching && error == None
      ensures ngoComment == "" && donationRequests == [] && !submitting && successMessage == None
      ensures requestStore == store
    {
      stats := DashboardStats(0, 0, 0, 0);
      recent := [];
      fetching := true;
      error := None;
      ngoComment := "";
      donationRequests := [];
      submitting := false;
      successMessage := None;
      requestStore := store;
    }

    method SetComment(value: string)
      modifies this
      ensures ngoComment == value
      ensures stats == old(stats) && recent == old(recent) && fetching == old(fetching) && error == old(error)
      ensures donationRequests == old(donationRequests) && submitting == old(submitting)
      ensures successMessage == old(successMessage) && requestStore == old(requestStore)
    {
      ngoComment := value;
    }

    /** `fetchNgoRequests`: without a user nothing; otherwise the fetched requests, or the load error. */
    method FetchNgoRequests(user: Option<UserData>, fetched: Option<seq<DonationRequest>>)
      modifies this
      ensures stats == old(stats) && recent == old(recent) && fetching == old(fetching)
      ensures ngoComment == old(ngoComment) && submitting == old(submitting)
      ensures successMessage == old(successMessage) && requestStore == old(requestStore)
      ensures user.None? ==> donationRequests == old(donationRequests) && error == old(error)
      ensures user.Some? && fetched.Some? ==> donationRequests == fetched.value && error == old(error)
      ensures user.Some? && fetched.None? ==> donationRequests == old(donationRequests) && error == Some(LoadRequestsError)
    {
      if user.None? {
        return;
      }
      if fetched.Some? {
        donationRequests := fetched.value;
      } else {
        error := Some(LoadRequestsError);
      }
    }

    /**
     * `handleNgoSubmit`: nothing without a user or with a blank comment.
     * Otherwise the request is written when the store accepts it, then the
     * comment is cleared, the success message set and the requests fetched
     * again; a failed write sets the submit error. `submitting` ends false.
     */
    method HandleNgoSubmit(user: Option<UserData>, now: Timestamp, writeOk: bool, refetched: Option<seq<DonationRequest>>)
      modifies this
      ensures stats == old(stats) && recent == old(recent) && fetching == old(fetching)
      ensures user.None? || Trim(old(ngoComment)) == [] ==>
        && ngoComment == old(ngoComment) && error == old(error) && submitting == old(submitting)
        && donationRequests == old(donationRequests) && successMessage == old(successMessage)
        && requestStore == old(requestStore)
      ensures user.Some? && Trim(old(ngoComment)) != [] ==> !submitting
      ensures user.Some? && Trim(old(ngoComment)) != [] && writeOk ==>
        && requestStore == old(requestStore) + [NewRequest(user.value, old(ngoComment), now)]
        && ngoComment == "" && successMessage == Some(RequestPosted)
        && (refetched.Some? ==> donationRequests == refetched.value && error == None)
        && (refetched.None? ==> donationRequests == old(donationRequests) && error == Some(LoadRequestsError))
      ensures user.Some? && Trim(old(ngoComment)) != [] && !writeOk ==>
        && requestStore == old(requestStore) && ngoComment == old(ngoComment)
        && successMessage == old(successMessage) && donationRequests == old(donationRequests)
        && error == Some(SubmitRequestError)
    {
      if user.None? || Trim(ngoComment) == [] {
        return;
      }
      submitting := true;
      PostRequest(user.value, now, writeOk, refetched);
      submitting := false;
    }

    /** The body of `handleNgoSubmit`'s `try`: the write, then the clean-up and refetch on success or the error on failure. */
    method PostRequest(user: UserData, now: Timestamp, writeOk: bool, refetched: Option<seq<DonationRequest>>)
      modifies this
      ensures stats == old(stats) && recent == old(recent) && fetching == old(fetching) && submitting == old(submitting)
      ensures writeOk ==>
        && requestStore == old(requestStore) + [NewRequest(user, old(ngoComment), now)]
        && ngoComment == "" && successMessage == Some(RequestPosted)
        && (refetched.Some? ==> donationRequests == refetched.value && error == None)
        && (refetched.None? ==> donationRequests == old(donationRequests) && error == Some(LoadRequestsError))
      ensures !writeOk ==>
        && requestStore == old(requestStore) && ngoComment == old(ngoComment)
        && successMessage == old(successMessage) && donationRequests == old(donationRequests)
        && error == Some(SubmitRequestError)
    {
      error := None;
      if writeOk {
        requestStore := requestStore + [NewRequest(user, ngoComment, now)];
        ngoComment := "";
        successMessage := Some(RequestPosted);
        FetchNgoRequests(Some(user), refetched);
      } else {
        error := Some(SubmitRequestError);
      }
    }

    /**
     * `fetchDashboardData`: without a user the fetch just ends. An NGO fetches its
     * requests. Anyone else gets the counts and then the recent rows; a failed
     * query sets the dashboard error and leaves what it would have set.
     * `fetching` ends false in every case.
     */
    method FetchDashboardData(user: Option<UserData>, store: Store, countsOk: bool, recentOk: bool,
                              fetched: Option<seq<DonationRequest>>)
      modifies this
      ensures !fetching
      ensures ngoComment == old(ngoComment) && submitting == old(submitting)
      ensures successMessage == old(successMessage) && requestStore == old(requestStore)
      ensures user.None? ==>
        stats == old(stats) && recent == old(recent) && error == old(error) && donationRequests == old(donationRequests)
      ensures user.Some? && IsNgoUser(user.value) ==>
        && stats == old(stats) && recent == old(recent)
        && (fetched.Some? ==> donationRequests == fetched.value && error == None)
        && (fetched.None? ==> donationRequests == old(donationRequests) && error == Some(LoadRequestsError))
      ensures user.Some? && !IsNgoUser(user.value) ==>
        && donationRequests == old(donationRequests)
        && stats == (if countsOk then ComputeStats(user.value, store) else old(stats))
        && recent == (if countsOk && recentOk then RecentActivity(user.value.uid, store.transactions) else old(recent))
        && error == (if countsOk && recentOk then None else Some(LoadDashboardError))
    {
      if user.None? {
        fetching := false;
        return;
      }
      fetching := true;
      error := None;
      if IsNgoUser(user.value) {
        FetchNgoRequests(user, fetched);
      } else if countsOk {
        stats := ComputeStats(user.value, store);
        if recentOk {
          recent := RecentActivity(user.value.uid, store.transactions);
        } else {
          error := Some(LoadDashboardError);
        }
      } else {
        error := Some(LoadDashboardError);
      }
      fetching := false;
    }
  }
}
