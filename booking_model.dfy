/**
 * The booking document: its fields, the status enumeration with its default,
 * the required fields, and the `date` setter that stores the start of the UTC
 * day of whatever instant it is given. Instants are integer milliseconds since
 * the epoch.
 */
module BookingModel {
  import opened Wrappers

  /** Milliseconds in a UTC day. */
  const MsPerDay: int := 86400000
  /** 23:59:59.999 as an offset from the start of a day (`setUTCHours(23, 59, 59, 999)`). */
  const EndOfDayOffset: int := 86399999

  datatype BookingStatus = Confirmed | Cancelled

  /** The schema default for `status`. */
  const DefaultStatus: BookingStatus := Confirmed

  datatype Booking = Booking(
    userId: Option<string>,
    gym: string,
    facility: string,
    date: int,
    timeSlot: string,
    name: string,
    email: string,
    phone: string,
    status: BookingStatus,
    createdAt: int)

  /**
   * `setUTCHours(0, 0, 0, 0)`: the start of the UTC day containing `t`. The
   * divisor is positive, so Dafny's `%` is the floor remainder JavaScript's day
   * arithmetic uses, for instants before the epoch too.
   */
  function DayStart(t: int): (d: int)
    ensures d <= t < d + MsPerDay
    ensures d % MsPerDay == 0
  {
    t - t % MsPerDay
  }

  /** The day start is the only multiple of a day within a day below `t`. */
  lemma DayStartUnique(t: int, d: int)
    requires d % MsPerDay == 0
    requires d <= t < d + MsPerDay
    ensures DayStart(t) == d
  {
    var e := DayStart(t);
    assert d == (d / MsPerDay) * MsPerDay;
    assert e == (e / MsPerDay) * MsPerDay;
    assert -MsPerDay < (d / MsPerDay - e / MsPerDay) * MsPerDay < MsPerDay;
  }

  /** Re-normalising an already normalised date leaves it unchanged. */
  lemma DayStartIdempotent(t: int)
    ensures DayStart(DayStart(t)) == DayStart(t)
  {
    DayStartUnique(DayStart(t), DayStart(t));
  }

  /** Two instants of the same UTC day (the same floor quotient by a day) normalise alike. */
  lemma SameDaySameStart(t1: int, t2: int)
    requires t1 / MsPerDay == t2 / MsPerDay
    ensures DayStart(t1) == DayStart(t2)
  {
    var d := (t1 / MsPerDay) * MsPerDay;
    DayStartUnique(t1, d);
    DayStartUnique(t2, d);
  }

  /** The day window `[start, start + 86399999]` holds exactly the instants whose day start is `start`. */
  lemma InWindowIffSameDay(t: int, u: int)
    ensures DayStart(u) <= t <= DayStart(u) + EndOfDayOffset <==> DayStart(t) == DayStart(u)
  {
    if DayStart(u) <= t <= DayStart(u) + EndOfDayOffset {
      DayStartUnique(t, DayStart(u));
    }
  }

  /** Mongoose's `required` checks: a required string may be neither absent nor empty. */
  predicate SchemaValid(b: Booking) {
    b.gym != "" && b.facility != "" && b.timeSlot != "" &&
    b.name != "" && b.email != "" && b.phone != ""
  }

  /**
   * `new bookingModel({...})` as the booking controller calls it: the `date`
   * setter runs on the given date and `status` takes its default.
   */
  function NewBooking(userId: Option<string>, gym: string, facility: string, date: int, timeSlot: string,
                      name: string, email: string, phone: string, createdAt: int): (b: Booking)
    ensures b.status == Confirmed
    ensures DayStart(b.date) == b.date && b.date <= date < b.date + MsPerDay
    ensures b.gym == gym && b.facility == facility && b.timeSlot == timeSlot && b.email == email
  {
    DayStartIdempotent(date);
    Booking(userId, gym, facility, DayStart(date), timeSlot, name, email, phone, DefaultStatus, createdAt)
  }

  /** Two bookings that claim the same gym, facility, UTC day and time slot. */
  predicate SameSlot(a: Booking, b: Booking) {
    a.gym == b.gym && a.facility == b.facility && a.timeSlot == b.timeSlot &&
    DayStart(a.date) == DayStart(b.date)
  }

  /** At most one confirmed booking per (gym, facility, day, timeSlot). */
  ghost predicate NoDoubleBooking(bs: seq<Booking>) {
    forall i, j :: 0 <= i < j < |bs| && bs[i].status == Confirmed && bs[j].status == Confirmed ==>
      !SameSlot(bs[i], bs[j])
  }

  /**
   * The compound index on (gym, facility, date, timeSlot, status) is not
   * unique, so the schema alone admits a collection with two confirmed bookings
   * of one slot: exclusivity rests on the controller's check.
   */
  lemma SchemaAdmitsDoubleBooking()
    ensures exists bs: seq<Booking> ::
      (forall i :: 0 <= i < |bs| ==> SchemaValid(bs[i])) && !NoDoubleBooking(bs)
  {
    var b := NewBooking(None, "gym", "pool", 0, "18:00-19:00", "name", "a@b.c", "1", 0);
    var bs := [b, b];
    assert SchemaValid(bs[0]) && SchemaValid(bs[1]);
    assert SameSlot(bs[0], bs[1]);
  }
}
