/**
 * The server's collections as the admin pages see them over HTTP. The
 * route handlers are not part of this model: a `PUT {status}` on a record
 * is taken to be a partial update that sets the status of the record with
 * that id and changes nothing else, and a `GET` to return the collection.
 */
module Backend {
  import opened Records

  class Store {
    var bookings: seq<Booking>
    var orders: seq<Order>
    var enquiries: seq<Enquiry>

    constructor (bookings: seq<Booking>, orders: seq<Order>, enquiries: seq<Enquiry>)
      ensures this.bookings == bookings && this.orders == orders && this.enquiries == enquiries
    {
      this.bookings := bookings;
      this.orders := orders;
      this.enquiries := enquiries;
    }

    /** `PUT /api/bookings/:id { status }`. */
    method PutBookingStatus(id: string, status: string)
      modifies this`bookings
      ensures bookings == SetBookingStatus(old(bookings), id, status)
    {
      bookings := SetBookingStatus(bookings, id, status);
    }

    /** `PUT /api/orders/:id { status }`. */
    method PutOrderStatus(id: string, status: string)
      modifies this`orders
      ensures orders == SetOrderStatus(old(orders), id, status)
    {
      orders := SetOrderStatus(orders, id, status);
    }

    /** `PUT /api/enquiries/:id { status }`. */
    method PutEnquiryStatus(id: string, status: string)
      modifies this`enquiries
      ensures enquiries == SetEnquiryStatus(old(enquiries), id, status)
    {
      enquiries := SetEnquiryStatus(enquiries, id, status);
    }
  }
}
