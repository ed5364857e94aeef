/**
 * The donation page: the NGO gate, the submit guard, and the
 * upload-recognise-save pipeline that writes a "donateSubmissions" document.
 */
module DonatePage {
  import opened Wrappers
  import opened Backend
  import opened AuthContext
  import Transactions

  /**
   * The document the form writes: the user, the typed pickup location and notes,
   * the download URL, the recognised text and the store's instant. It has no
   * status and no parsed items.
   */
  function DonationRecord(uid: string, pickupLocation: string, notes: string, imageUrl: string,
                          text: string, serverTime: Timestamp): (d: SubmissionDoc)
    ensures d.status.None?
    ensures d.userId == Some(uid) && d.createdAt == Some(serverTime)
    ensures d.pickupLocation == Some(pickupLocation) && d.notes == Some(notes)
    ensures d.imageUrl == Some(imageUrl) && d.extractedText == Some(text)
  {
    SubmissionDoc(Some(uid), Some(pickupLocation), Some(notes), Some(imageUrl), Some(text), None, Some(serverTime))
  }

  /** The transactions page lists a stored donation as pending, with what was typed and recognised. */
  lemma StoredDonationIsPending(id: string, uid: string, pickupLocation: string, notes: string,
                                imageUrl: string, text: string, serverTime: Timestamp)
    ensures var t := Transactions.ToTransaction(id, DonationRecord(uid, pickupLocation, notes, imageUrl, text, serverTime));
      && t.status == "pending" && Transactions.IsPending(t) && !Transactions.IsDone(t)
      && t.pickupLocation == pickupLocation && t.notes == notes
      && t.imageUrl == imageUrl && t.extractedText == text && t.createdAt == Some(serverTime)
  {
  }

  /** What the page shows; an NGO is stopped before the form. */
  datatype View = Loading | SignInPrompt | NgoBlocked | Confirmation | Form

  function PageView(loading: bool, user: Option<UserData>, submitted: bool): (v: View)
    ensures v == Loading <==> loading
    ensures v == SignInPrompt <==> !loading && user.None?
    ensures v == NgoBlocked <==> !loading && user.Some? && user.value.role == Some(Ngo)
    ensures v == Form <==> !loading && user.Some? && user.value.role != Some(Ngo) && !submitted
    ensures v == Confirmation <==> !loading && user.Some? && user.value.role != Some(Ngo) && submitted
  {
    if loading then Loading
    else if user.None? then SignInPrompt
    else if user.value.role == Some(Ngo) then NgoBlocked
    else if submitted then Confirmation
    else Form
  }

  /** An NGO signed in sees the blocking message, never the form or its confirmation. */
  lemma NgoNeverGetsForm(loading: bool, user: UserData, submitted: bool)
    requires user.role == Some(Ngo)
    ensures PageView(loading, Some(user), submitted) !in {Form, Confirmation}
  {
  }

  class DonateForm {
    var file: Option<File>
    var pickupLocation: string
    var notes: string
    var submitted: bool
    var uploading: bool
    var blobs: seq<string>
    var store: seq<SubmissionDoc>

    constructor ()
      ensures file == None && pickupLocation == "" && notes == "" && !submitted && !uploading
      ensures blobs == [] && store == []
    {
      file := None;
      pickupLocation := "";
      notes := "";
      submitted := false;
      uploading := false;
      blobs := [];
      store := [];
    }

    /** The submit button is enabled when no upload runs, a file is chosen and a pickup location is typed; notes are optional. */
    predicate SubmitEnabled()
      reads this
    {
      !(uploading || file.None? || pickupLocation == "")
    }

    method ChooseFile(f: Option<File>)
      modifies this
      ensures file == f
      ensures pickupLocation == old(pickupLocation) && notes == old(notes)
      ensures submitted == old(submitted) && uploading == old(uploading)
      ensures blobs == old(blobs) && store == old(store)
    {
      file := f;
    }

    method SetPickupLocation(value: string)
      modifies this
      ensures pickupLocation == value
      ensures file == old(file) && notes == old(notes)
      ensures submitted == old(submitted) && uploading == old(uploading)
      ensures blobs == old(blobs) && store == old(store)
    {
      pickupLocation := value;
    }

    method SetNotes(value: string)
      modifies this
      ensures notes == value
      ensures file == old(file) && pickupLocation == old(pickupLocation)
      ensures submitted == old(submitted) && uploading == old(uploading)
      ensures blobs == old(blobs) && store == old(store)
    {
      notes := value;
    }

    /**
     * `handleSubmit`: without a user or a file nothing happens. Otherwise the
     * file is uploaded under "donations/", its text recognised and the record
     * saved; `submitted` is set only when every step succeeded, and `uploading`
     * is false again afterwards whatever failed.
     */
    method HandleSubmit(user: Option<UserData>, now: nat, serverTime: Timestamp, steps: Steps)
      modifies this
      ensures user.None? || old(file).None? ==>
        && file == old(file) && pickupLocation == old(pickupLocation) && notes == old(notes)
        && submitted == old(submitted) && uploading == old(uploading)
        && blobs == old(blobs) && store == old(store)
      ensures user.Some? && old(file).Some? ==>
        && !uploading
        && file == old(file) && pickupLocation == old(pickupLocation) && notes == old(notes)
        && submitted == (old(submitted) || steps.Succeeded())
        && blobs == old(blobs) + (if steps.uploaded then [UploadPath("donations", user.value.uid, now, old(file).value.name)] else [])
        && store == old(store) + (if steps.Succeeded() then
             [DonationRecord(user.value.uid, old(pickupLocation), old(notes), steps.downloadUrl.value,
                             steps.recognisedText.value, serverTime)]
           else [])
    {
      if user.None? || file.None? {
        return;
      }
      uploading := true;
      if steps.uploaded {
        blobs := blobs + [UploadPath("donations", user.value.uid, now, file.value.name)];
        if steps.downloadUrl.Some? && steps.recognisedText.Some? && steps.saved {
          store := store + [DonationRecord(user.value.uid, pickupLocation, notes, steps.downloadUrl.value,
                                           steps.recognisedText.value, serverTime)];
          submitted := true;
        }
      }
      uploading := false;
    }

    /** `resetForm`: back to an empty, unsubmitted form, notes included. */
    method ResetForm()
      modifies this
      ensures !submitted && file == None && pickupLocation == "" && notes == ""
      ensures uploading == old(uploading) && blobs == old(blobs) && store == old(store)
    {
      submitted := false;
      file := None;
      pickupLocation := "";
      notes := "";
    }
  }

  /** The enabled button and the submit guard agree on the file, and the button also asks for a pickup location. */
  lemma EnabledSubmitPassesGuard(f: DonateForm)
    ensures f.SubmitEnabled() <==> !f.uploading && f.file.Some? && f.pickupLocation != ""
  {
  }
}
