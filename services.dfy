/**
 * The services page: the image URL rule, the booking modal and the
 * booking it posts. A fetched booking keeps the fields it was posted with;
 * the server's handler is not part of this model.
 */
module Services {
  import opened Wrappers
  import opened Text
  import opened Records
  import Dashboard

  const BASE_URL: string := "http://localhost:4000"
  const NO_IMAGE: string := "/no-image.png"

  /** `getImageUrl`. */
  function GetImageUrl(image: Option<string>): (url: string)
    ensures image.None? || image == Some("") ==> url == NO_IMAGE
    ensures image.Some? && image.value != "" && StartsWith(image.value, "http") ==> url == image.value
    ensures image.Some? && image.value != "" && !StartsWith(image.value, "http") ==>
      url == BASE_URL + image.value && StartsWith(url, BASE_URL)
  {
    if image.None? || image.value == "" then NO_IMAGE
    else if StartsWith(image.value, "http") then image.value
    else
      StartsWithConcat(BASE_URL, image.value);
      BASE_URL + image.value
  }

  lemma BaseUrlIsHttp()
    ensures StartsWith(BASE_URL, "http")
  {
    assert BASE_URL[0] == 'h' && BASE_URL[1] == 't' && BASE_URL[2] == 't' && BASE_URL[3] == 'p';
    assert BASE_URL[..4] == "http";
  }

  /** A present image always resolves to an absolute `http` URL, which the rule then leaves alone. */
  lemma PresentImageIsAbsolute(image: string)
    requires image != ""
    ensures StartsWith(GetImageUrl(Some(image)), "http")
    ensures GetImageUrl(Some(GetImageUrl(Some(image)))) == GetImageUrl(Some(image))
  {
    if !StartsWith(image, "http") {
      BaseUrlIsHttp();
      StartsWithPrefix(BASE_URL + image, BASE_URL, "http");
    }
  }

  /** The placeholder is a relative path: resolving it again would prefix it. */
  lemma PlaceholderIsRelative()
    ensures GetImageUrl(Some(GetImageUrl(None))) == BASE_URL + NO_IMAGE
  {
    assert NO_IMAGE[0] == '/';
    assert !StartsWith(NO_IMAGE, "http");
  }

  /** The booking form. */
  datatype Form = Form(name: string, phone: string, date: string, time: string)

  const EMPTY_FORM: Form := Form("", "", "", "")

  /** The body of `POST /api/bookings`. */
  datatype BookingPayload = BookingPayload(
    serviceTitle: string,
    price: nat,
    customerName: string,
    phone: string,
    date: string,
    time: string,
    status: string)

  function Payload(s: Service, f: Form): (p: BookingPayload)
    ensures p.status == PENDING
    ensures p.serviceTitle == s.name && p.price == s.price
    ensures p.customerName == f.name && p.phone == f.phone && p.date == f.date && p.time == f.time
  {
    BookingPayload(s.name, s.price, f.name, f.phone, f.date, f.time, PENDING)
  }

  /**
   * The booking as it is later fetched, given the id the server assigns
   * and the date it parses: the fields posted, and no `servicePrice`,
   * because the page posts the price under `price`.
   */
  function StoredBooking(p: BookingPayload, id: string, date: int): (b: Booking)
    ensures b.servicePrice == None
    ensures b.serviceTitle == p.serviceTitle && b.status == p.status
  {
    Booking(id, p.customerName, p.phone, p.serviceTitle, None, date, p.time, p.status)
  }

  /** A booking made on this page adds nothing to the dashboard's revenue, even once completed. */
  lemma BookedServiceEarnsNothing(bs: seq<Booking>, s: Service, f: Form, id: string, date: int,
                                  monthOf: int -> nat, month: nat)
    ensures Dashboard.MonthRevenue(bs + [StoredBooking(Payload(s, f), id, date).(status := COMPLETED)], monthOf, month)
         == Dashboard.MonthRevenue(bs, monthOf, month)
  {
    Dashboard.RevenueOfOneMore(bs, StoredBooking(Payload(s, f), id, date).(status := COMPLETED), monthOf, month);
  }

  class ServicesPage {
    var services: seq<Service>
    var loading: bool
    var selected: Option<Service>
    var showModal: bool
    var showSuccess: bool
    var form: Form

    /** The modal is only ever opened together with the service it books. */
    ghost predicate Valid()
      reads this
    {
      showModal ==> selected.Some?
    }

    constructor ()
      ensures Valid()
      ensures services == [] && loading && selected == None
      ensures !showModal && !showSuccess && form == EMPTY_FORM
    {
      services := [];
      loading := true;
      selected := None;
      showModal := false;
      showSuccess := false;
      form := EMPTY_FORM;
    }

    /** `fetchServices`: the list is replaced on success; loading ends either way. */
    method FetchServices(fetched: seq<Service>, ok: bool)
      modifies this`services, this`loading
      ensures services == if ok then fetched else old(services)
      ensures !loading
    {
      if ok {
        services := fetched;
      }
      loading := false;
    }

    /** The booking modal is on screen, `showModal && selectedService`: under `Valid()` it is `showModal` alone. */
    function ModalShown(): (shown: bool)
      requires Valid()
      reads this
      ensures shown <==> showModal
      ensures shown ==> selected.Some?
    {
      showModal && selected.Some?
    }

    /** `openBooking`. */
    method OpenBooking(s: Service)
      requires Valid()
      modifies this`selected, this`showModal
      ensures Valid()
      ensures selected == Some(s) && showModal
      ensures ModalShown()
    {
      selected := Some(s);
      showModal := true;
    }

    /** `closeBooking`. */
    method CloseBooking()
      requires Valid()
      modifies this`selected, this`showModal, this`form
      ensures Valid()
      ensures selected == None && !showModal && form == EMPTY_FORM
      ensures !ModalShown()
    {
      showModal := false;
      selected := None;
      form := EMPTY_FORM;
    }

    method SetName(v: string)
      modifies this`form
      ensures form == old(form).(name := v)
    {
      form := form.(name := v);
    }

    method SetPhone(v: string)
      modifies this`form
      ensures form == old(form).(phone := v)
    {
      form := form.(phone := v);
    }

    method SetDate(v: string)
      modifies this`form
      ensures form == old(form).(date := v)
    {
      form := form.(date := v);
    }

    method SetTime(v: string)
      modifies this`form
      ensures form == old(form).(time := v)
    {
      form := form.(time := v);
    }

    /**
     * `handleBooking`: with a service selected, post the payload; on
     * success close the modal and show the toast, on failure raise the
     * alert and keep the form. `postOk` is the outcome of the post.
     */
    method HandleBooking(postOk: bool) returns (posted: Option<BookingPayload>, alert: bool)
      requires Valid()
      modifies this`selected, this`showModal, this`form, this`showSuccess
      ensures Valid()
      ensures posted.Some? <==> old(selected).Some?
      ensures posted.Some? ==> posted.value == Payload(old(selected).value, old(form))
      ensures alert <==> posted.Some? && !postOk
      ensures posted.Some? && postOk ==>
        selected == None && !showModal && form == EMPTY_FORM && showSuccess
      ensures !(posted.Some? && postOk) ==>
        selected == old(selected) && showModal == old(showModal) && form == old(form) && showSuccess == old(showSuccess)
    {
      if selected.None? {
        return None, false;
      }
      posted := Some(Payload(selected.value, form));
      alert := false;
      if postOk {
        CloseBooking();
        showSuccess := true;
      } else {
        alert := true;
      }
    }
  }
}
