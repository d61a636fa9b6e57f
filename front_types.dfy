/**
 * The records the web client receives from the two services. A weekly rule's start and end,
 * "HH:mm" text on the wire, are read here as minutes since midnight.
 */
module FrontTypes {
  import opened Wrappers

  type Minute = m: int | 0 <= m < 1440

  datatype Availability = Availability(day: string, startTime: Minute, endTime: Minute)

  datatype Review = Review(userId: string, rating: int, comment: string, createdAt: string)

  datatype Provider = Provider(
    id: string,
    name: string,
    email: string,
    phone: string,
    serviceType: string,
    address: string,
    isVerified: bool,
    availability: seq<Availability>,
    reviews: seq<Review>)

  /** The client's appointment statuses: the backend's three and COMPLETED. */
  datatype Status = Booked | Cancelled | Rescheduled | Completed

  datatype Appointment = Appointment(
    id: string,
    customerId: string,
    providerId: string,
    date: string,
    time: string,
    status: Status)

  /** The signed-in user; its id may be missing. */
  datatype User = User(id: Option<string>)
}
