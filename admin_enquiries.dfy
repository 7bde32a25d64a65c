/**
 * The admin "Customer Enquiries" page: the status badge styles, the
 * "Contacted" / "Close" buttons and the reply dialog.
 */
module AdminEnquiries {
  import opened Wrappers
  import opened Records
  import opened Backend

  /** `statusStyles`: the badge classes, one per enquiry status. */
  const StatusStyles: map<string, string> := map[
    NEW := "bg-blue-100 text-blue-700",
    CONTACTED := "bg-yellow-100 text-yellow-700",
    CLOSED := "bg-green-100 text-green-700"]

  const REPLY_SUBJECT: string := "Response to Your Enquiry"

  /** The table has an entry for exactly the three enquiry statuses. */
  lemma StylesCoverExactlyTheStatuses()
    ensures StatusStyles.Keys == {NEW, CONTACTED, CLOSED}
    ensures |StatusStyles| == 3
  {
  }

  /** The two status buttons of every enquiry row or card. */
  datatype StatusButton = ContactedButton | CloseButton

  /** The status a button writes. */
  function Target(button: StatusButton): (s: string)
    ensures s == CONTACTED || s == CLOSED
    ensures s in StatusStyles
  {
    match button
    case ContactedButton => CONTACTED
    case CloseButton => CLOSED
  }

  /** No status button writes `New`: an enquiry, once handled, never becomes new again. */
  lemma NoActionWritesNew(button: StatusButton)
    ensures Target(button) != NEW
  {
  }

  /** A message handed to `sendEmail`. */
  datatype Email = Email(to: string, subject: string, message: string)

  class EnquiriesPage {
    var enquiries: seq<Enquiry>
    var selected: Option<Enquiry>
    var replyMessage: string
    var outbox: seq<Email>   // every reply handed to `sendEmail`, in order

    constructor ()
      ensures enquiries == [] && selected == None && replyMessage == "" && outbox == []
    {
      enquiries := [];
      selected := None;
      replyMessage := "";
      outbox := [];
    }

    /** `fetchEnquiries`: on failure the previous list is kept. */
    method FetchEnquiries(store: Store, ok: bool)
      modifies this`enquiries
      ensures enquiries == if ok then store.enquiries else old(enquiries)
    {
      if ok {
        enquiries := store.enquiries;
      }
    }

    /** `updateStatus`: refetch only after the write succeeded; a failed write changes nothing. */
    method UpdateStatus(store: Store, id: string, status: string, writeOk: bool, fetchOk: bool)
      modifies store`enquiries, this`enquiries
      ensures store.enquiries == if writeOk then SetEnquiryStatus(old(store.enquiries), id, status)
                                 else old(store.enquiries)
      ensures enquiries == if writeOk && fetchOk then store.enquiries else old(enquiries)
    {
      if writeOk {
        store.PutEnquiryStatus(id, status);
        FetchEnquiries(store, fetchOk);
      }
    }

    /** A status button of the row of `e`. */
    method Press(store: Store, e: Enquiry, button: StatusButton, writeOk: bool, fetchOk: bool)
      modifies store`enquiries, this`enquiries
      ensures store.enquiries == if writeOk then SetEnquiryStatus(old(store.enquiries), e.id, Target(button))
                                 else old(store.enquiries)
      ensures enquiries == if writeOk && fetchOk then store.enquiries else old(enquiries)
    {
      UpdateStatus(store, e.id, Target(button), writeOk, fetchOk);
    }

    /** "View / Reply". */
    method Select(e: Enquiry)
      modifies this`selected
      ensures selected == Some(e)
    {
      selected := Some(e);
    }

    /** The dialog's "Close" button. */
    method Deselect()
      modifies this`selected
      ensures selected == None
    {
      selected := None;
    }

    method SetReplyMessage(text: string)
      modifies this`replyMessage
      ensures replyMessage == text
    {
      replyMessage := text;
    }

    /**
     * `handleReply`. An empty message does nothing; so does a missing
     * selection (reading `selected.email` throws, and the error is caught).
     * Otherwise the reply is sent, the enquiry is marked `Contacted`, and the
     * text and the selection are cleared, whether or not the status write
     * succeeded (`updateStatus` swallows its own errors).
     */
    method HandleReply(store: Store, writeOk: bool, fetchOk: bool)
      modifies store`enquiries, this`enquiries, this`outbox, this`replyMessage, this`selected
      ensures old(replyMessage) == "" || old(selected).None? ==>
        && store.enquiries == old(store.enquiries) && enquiries == old(enquiries)
        && outbox == old(outbox) && replyMessage == old(replyMessage) && selected == old(selected)
      ensures old(replyMessage) != "" && old(selected).Some? ==>
        && outbox == old(outbox) + [Email(old(selected).value.email, REPLY_SUBJECT, old(replyMessage))]
        && store.enquiries == (if writeOk then SetEnquiryStatus(old(store.enquiries), old(selected).value.id, CONTACTED)
                               else old(store.enquiries))
        && enquiries == (if writeOk && fetchOk then store.enquiries else old(enquiries))
        && replyMessage == "" && selected == None
    {
      if replyMessage == "" {
        return;
      }
      if selected.None? {
        return;
      }
      var e := selected.value;
      outbox := outbox + [Email(e.email, REPLY_SUBJECT, replyMessage)];
      UpdateStatus(store, e.id, CONTACTED, writeOk, fetchOk);
      replyMessage := "";
      selected := None;
    }
  }
}
