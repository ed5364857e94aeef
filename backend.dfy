/**
 * What the pages exchange with the hosted backend: the shapes of the stored
 * documents that more than one page touches, the outcome of the
 * upload-recognise-save pipeline, and the blob path an upload is written to.
 * The services themselves (authentication, document store, blob store, OCR)
 * are not modelled; their answers are inputs.
 */
module Backend {
  import opened Wrappers
  import opened Text

  /** An instant as the clients or the store give it (`Date.now()`, `Timestamp.now()`, `serverTimestamp()`). */
  type Timestamp = int

  /** A document of the "listings" collection, each field as read: `None` stands for a missing or null field. */
  datatype ListingDoc = ListingDoc(
    ownerId: Option<string>,
    kind: Option<string>,
    fileName: Option<string>,
    fileUrl: Option<string>,
    pickupLocation: Option<string>,
    status: Option<string>,
    grade: Option<string>,
    priceOffered: Option<int>,
    createdAt: Option<Timestamp>,
    gradedAt: Option<Timestamp>,
    completedAt: Option<Timestamp>)

  /**
   * A document of the "donateSubmissions" collection. The donation form writes
   * every field but `status`; the transactions page reads them all.
   */
  datatype SubmissionDoc = SubmissionDoc(
    userId: Option<string>,
    pickupLocation: Option<string>,
    notes: Option<string>,
    imageUrl: Option<string>,
    extractedText: Option<string>,
    status: Option<string>,
    createdAt: Option<Timestamp>)

  /** A file chosen in a form's file input. */
  datatype File = File(name: string)

  /**
   * What the services answer, step by step, during one submission: whether the
   * blob upload succeeded, the download URL, the recognised text, whether the
   * document write succeeded. A failed step ends the pipeline; later answers are
   * then never asked for.
   */
  datatype Steps = Steps(uploaded: bool, downloadUrl: Option<string>, recognisedText: Option<string>, saved: bool)
  {
    /** Every step succeeded, so the submission record was written. */
    predicate Succeeded()
    {
      uploaded && downloadUrl.Some? && recognisedText.Some? && saved
    }
  }

  /** The blob path of an upload: `<folder>/<uid>/<Date.now()>-<file name>`. */
  function UploadPath(folder: string, uid: string, now: nat, fileName: string): (path: string)
    ensures |path| > |folder| + |uid| + 2
    ensures path[..|folder|] == folder && path[|folder|] == '/'
    ensures path[|folder| + 1..|folder| + 1 + |uid|] == uid && path[|folder| + 1 + |uid|] == '/'
    ensures path[|folder| + |uid| + 2..] == Decimal(now) + "-" + fileName
  {
    folder + "/" + uid + "/" + Decimal(now) + "-" + fileName
  }

  /** Two uploads of the same file by the same user at different instants go to different paths. */
  lemma UploadPathsDistinct(folder: string, uid: string, now1: nat, now2: nat, fileName: string)
    requires now1 != now2
    ensures UploadPath(folder, uid, now1, fileName) != UploadPath(folder, uid, now2, fileName)
  {
    var head := folder + "/" + uid + "/";
    var d1, d2 := Decimal(now1), Decimal(now2);
    DecimalRoundTrip(now1);
    DecimalRoundTrip(now2);
    DigitsThenDashDistinct(d1, d2, fileName);
    PrefixCancels(head, d1 + "-" + fileName, d2 + "-" + fileName);
    assert UploadPath(folder, uid, now1, fileName) == head + (d1 + "-" + fileName);
    assert UploadPath(folder, uid, now2, fileName) == head + (d2 + "-" + fileName);
  }

  /** Different digit strings stay different with a dash and the same text after them. */
  lemma DigitsThenDashDistinct(d1: string, d2: string, rest: string)
    requires AllDigits(d1) && AllDigits(d2) && d1 != d2
    ensures d1 + "-" + rest != d2 + "-" + rest
  {
    var t1, t2 := d1 + "-" + rest, d2 + "-" + rest;
    if |d1| < |d2| {
      assert t1[|d1|] == '-' && IsDigit(t2[|d1|]);
    } else if |d2| < |d1| {
      assert t2[|d2|] == '-' && IsDigit(t1[|d2|]);
    } else {
      assert t1[..|d1|] == d1 && t2[..|d1|] == d2;
    }
  }

  /** A common prefix does not make different strings equal. */
  lemma PrefixCancels(head: string, a: string, b: string)
    requires a != b
    ensures head + a != head + b
  {
    assert (head + a)[|head|..] == a && (head + b)[|head|..] == b;
  }
}
