/** The records the handlers read and write. Event, User and Venue carry the
    fields the data-access layer reads and writes, including the organizer
    listing's `registrationCount` and a loaded user's `createdAt`; Registration and
    RegistrationDetails follow their model classes. A null reference field
    is None; Java `int` fields are never null. */
module Entities {
  import opened JavaText

  /** A java.sql.Date, only ever compared or stored. */
  datatype Date = Date(year: int, month: int, day: int)

  /** A java.sql.Timestamp as milliseconds since the epoch. */
  type Timestamp = int

  datatype Venue = Venue(
    venueId: int,
    name: Option<string>,
    location: Option<string>,
    capacity: int,
    createdBy: int)

  datatype Event = Event(
    eventId: int,
    title: Option<string>,
    description: Option<string>,
    eventDate: Option<Date>,
    venueId: int,
    createdBy: int,
    createdAt: Option<Timestamp>,
    venue: Option<Venue>,
    registrationCount: int)

  datatype User = User(
    userId: int,
    fullName: Option<string>,
    email: Option<string>,
    password: Option<string>,
    role: Option<string>,
    createdAt: Option<Timestamp>)

  datatype Registration = Registration(
    regId: int,
    userId: int,
    eventId: int,
    registeredAt: Option<Timestamp>)

  datatype RegistrationDetails = RegistrationDetails(
    regId: int,
    registeredAt: Option<Timestamp>,
    eventId: int,
    title: Option<string>,
    description: Option<string>,
    eventDate: Option<Date>,
    userId: int,
    fullName: Option<string>,
    email: Option<string>)
}
