/**
 * The booking handlers over an in-memory booking collection. Bookings are never
 * deleted, so a booking's id is its position in the collection. Each handler is
 * one atomic step; the check-then-insert race between concurrent requests is
 * not modelled.
 */
module BookingController {
  import opened Wrappers
  import opened BookingModel
  import Query

  /**
   * The request's `date`: absent or empty, present but not a date (`new Date(date)`
   * gives NaN), or a parsed instant. How date strings parse is not modelled.
   */
  datatype DateInput = Absent | Unparseable | Instant(ms: int)

  /** The body of a booking request; an empty string stands for an absent field. */
  datatype BookingRequest = BookingRequest(
    userId: Option<string>,
    gym: string,
    facility: string,
    date: DateInput,
    timeSlot: string,
    name: string,
    email: string,
    phone: string)

  /** Some field the handler insists on is absent or empty; `userId` is not among them. */
  predicate MissingRequired(req: BookingRequest) {
    req.gym == "" || req.facility == "" || req.date.Absent? || req.timeSlot == "" ||
    req.name == "" || req.email == "" || req.phone == ""
  }

  datatype CreateError =
    | MissingFields
    | InvalidDateFormat
    | SlotAlreadyBooked(id: nat, date: int, timeSlot: string)

  /** The query window `{ $gte: start, $lte: start + 86399999 }`. */
  predicate InWindow(t: int, start: int) {
    start <= t <= start + EndOfDayOffset
  }

  /** The conflict query: a confirmed booking of the gym, facility and slot inside the day window. */
  predicate Occupies(b: Booking, gym: string, facility: string, start: int, timeSlot: string) {
    b.gym == gym && b.facility == facility && InWindow(b.date, start) &&
    b.timeSlot == timeSlot && b.status == Confirmed
  }

  ghost predicate SlotTaken(bs: seq<Booking>, gym: string, facility: string, start: int, timeSlot: string) {
    exists i :: 0 <= i < |bs| && Occupies(bs[i], gym, facility, start, timeSlot)
  }

  /** `findOne(...)` for the conflict query: the first matching booking, if any. */
  method FindConflict(bs: seq<Booking>, gym: string, facility: string, start: int, timeSlot: string)
    returns (found: Option<nat>)
    ensures found.Some? ==> found.value < |bs| && Occupies(bs[found.value], gym, facility, start, timeSlot)
    ensures found.Some? ==> forall i :: 0 <= i < found.value ==> !Occupies(bs[i], gym, facility, start, timeSlot)
    ensures found.None? <==> !SlotTaken(bs, gym, facility, start, timeSlot)
  {
    var i := 0;
    while i < |bs|
      invariant 0 <= i <= |bs|
      invariant forall j :: 0 <= j < i ==> !Occupies(bs[j], gym, facility, start, timeSlot)
    {
      if Occupies(bs[i], gym, facility, start, timeSlot) {
        return Some(i);
      }
      i := i + 1;
    }
    return None;
  }

  /**
   * The conflict query asks exactly "is there a confirmed booking of the same
   * slot as the one about to be stored?".
   */
  lemma OccupiesIffSameSlot(b: Booking, nb: Booking, t: int)
    requires nb.date == DayStart(t)
    ensures Occupies(b, nb.gym, nb.facility, DayStart(t), nb.timeSlot) <==>
            b.status == Confirmed && SameSlot(b, nb)
  {
    InWindowIffSameDay(b.date, t);
    DayStartIdempotent(t);
  }

  /** Appending a booking that clashes with no confirmed one keeps the collection free of double bookings. */
  lemma AppendKeepsNoDoubleBooking(bs: seq<Booking>, nb: Booking)
    requires NoDoubleBooking(bs)
    requires forall i :: 0 <= i < |bs| ==> !(bs[i].status == Confirmed && SameSlot(bs[i], nb))
    ensures NoDoubleBooking(bs + [nb])
  {
    var cs := bs + [nb];
    forall i, j | 0 <= i < j < |cs| && cs[i].status == Confirmed && cs[j].status == Confirmed
      ensures !SameSlot(cs[i], cs[j])
    {
      if j == |bs| {
        assert cs[i] == bs[i] && cs[j] == nb;
      } else {
        assert cs[i] == bs[i] && cs[j] == bs[j];
      }
    }
  }

  /** Cancelling a booking only removes a confirmed booking, so it cannot create a double booking. */
  lemma CancelKeepsNoDoubleBooking(bs: seq<Booking>, id: nat)
    requires NoDoubleBooking(bs)
    requires id < |bs|
    ensures NoDoubleBooking(bs[id := bs[id].(status := Cancelled)])
  {
    var cs := bs[id := bs[id].(status := Cancelled)];
    forall i, j | 0 <= i < j < |cs| && cs[i].status == Confirmed && cs[j].status == Confirmed
      ensures !SameSlot(cs[i], cs[j])
    {
      assert cs[i] == bs[i] && cs[j] == bs[j];
    }
  }

  // ---------------------------------------------------------------------------
  // getBranchMembers: one entry per distinct email among the gym's bookings.

  datatype Member = Member(name: string, email: string, phone: string, firstBooking: int, bookingCount: nat)

  function EmailOf(m: Member): string { m.email }

  function FirstBookingOf(m: Member): int { m.firstBooking }

  function CreatedAtOf(b: Booking): int { b.createdAt }

  /** `find({ gym })`. */
  function GymBookings(bs: seq<Booking>, gym: string): (r: seq<Booking>)
    ensures forall b :: b in r <==> b in bs && b.gym == gym
  {
    Query.Filter(bs, (b: Booking) => b.gym == gym)
  }

  /** The number of bookings made under email `e`. */
  function CountEmail(s: seq<Booking>, e: string): (n: nat)
    ensures n <= |s|
    ensures n > 0 <==> exists i :: 0 <= i < |s| && s[i].email == e
    decreases |s|
  {
    if s == [] then 0
    else
      var p := s[..|s| - 1];
      assert forall i :: 0 <= i < |p| ==> p[i] == s[i];
      CountEmail(p, e) + (if s[|s| - 1].email == e then 1 else 0)
  }

  /** The earliest `createdAt` among the bookings made under email `e`. */
  function FirstCreated(s: seq<Booking>, e: string): (t: int)
    requires CountEmail(s, e) > 0
    ensures exists i :: 0 <= i < |s| && s[i].email == e && s[i].createdAt == t
    ensures forall i :: 0 <= i < |s| && s[i].email == e ==> t <= s[i].createdAt
    decreases |s|
  {
    var p := s[..|s| - 1];
    var last := s[|s| - 1];
    assert forall i :: 0 <= i < |p| ==> p[i] == s[i];
    if last.email != e then FirstCreated(p, e)
    else if CountEmail(p, e) == 0 then last.createdAt
    else if last.createdAt < FirstCreated(p, e) then last.createdAt
    else FirstCreated(p, e)
  }

  /** The position of the first booking made under email `e`. */
  function FirstIndex(s: seq<Booking>, e: string): (k: nat)
    requires CountEmail(s, e) > 0
    ensures k < |s| && s[k].email == e
    ensures forall j :: 0 <= j < k ==> s[j].email != e
    decreases |s|
  {
    var p := s[..|s| - 1];
    assert forall i :: 0 <= i < |p| ==> p[i] == s[i];
    if CountEmail(p, e) > 0 then FirstIndex(p, e) else |s| - 1
  }

  /** A member entry describes the bookings under its email: their number, the earliest, and the first one's name and phone. */
  ghost predicate Summarises(s: seq<Booking>, m: Member) {
    CountEmail(s, m.email) > 0 &&
    m.bookingCount == CountEmail(s, m.email) &&
    m.firstBooking == FirstCreated(s, m.email) &&
    m.name == s[FirstIndex(s, m.email)].name &&
    m.phone == s[FirstIndex(s, m.email)].phone
  }

  ghost predicate HasEntry(ms: seq<Member>, e: string) {
    exists k :: 0 <= k < |ms| && ms[k].email == e
  }

  ghost predicate AllSummarise(s: seq<Booking>, ms: seq<Member>) {
    forall k :: 0 <= k < |ms| ==> Summarises(s, ms[k])
  }

  ghost predicate Covers(s: seq<Booking>, ms: seq<Member>) {
    forall i :: 0 <= i < |s| ==> HasEntry(ms, s[i].email)
  }

  /** One entry per distinct email of `s`, each summarising that email's bookings. */
  ghost predicate GroupedBy(s: seq<Booking>, ms: seq<Member>) {
    Query.DistinctBy(ms, EmailOf) && AllSummarise(s, ms) && Covers(s, ms)
  }

  /** The position of the first booking under `e`, or `|s|` when there is none. */
  function FirstSeen(s: seq<Booking>, e: string): int {
    if CountEmail(s, e) > 0 then FirstIndex(s, e) else |s|
  }

  /** The entries follow the order in which their emails first occur in `s`, as a Map's keys do. */
  ghost predicate InFirstSeenOrder(s: seq<Booking>, ms: seq<Member>) {
    Query.RankIncreasing(ms, (m: Member) => FirstSeen(s, m.email))
  }

  /**
   * The members list of a gym: grouped by email, latest first booking first,
   * and entries with the same first booking in the order their emails first occur.
   */
  ghost predicate MembersOf(bs: seq<Booking>, gym: string, ms: seq<Member>) {
    && GroupedBy(GymBookings(bs, gym), ms)
    && Query.SortedDesc(ms, FirstBookingOf)
    && Query.TiesByRank(ms, FirstBookingOf, (m: Member) => FirstSeen(GymBookings(bs, gym), m.email))
  }

  /** `membersMap.has(email)` / `get(email)`: the entry for `e`, or `|acc|` when there is none. */
  method IndexOfEmail(acc: seq<Member>, e: string) returns (k: nat)
    ensures k <= |acc|
    ensures k < |acc| ==> acc[k].email == e
    ensures k == |acc| ==> forall j :: 0 <= j < |acc| ==> acc[j].email != e
  {
    k := 0;
    while k < |acc|
      invariant k <= |acc|
      invariant forall j :: 0 <= j < k ==> acc[j].email != e
    {
      if acc[k].email == e {
        return;
      }
      k := k + 1;
    }
  }

  lemma SnocFacts(s: seq<Booking>, b: Booking, e: string)
    ensures CountEmail(s + [b], e) == CountEmail(s, e) + (if b.email == e then 1 else 0)
    ensures CountEmail(s, e) > 0 ==> FirstIndex(s + [b], e) == FirstIndex(s, e)
    ensures CountEmail(s, e) > 0 && b.email != e ==> FirstCreated(s + [b], e) == FirstCreated(s, e)
    ensures CountEmail(s, e) > 0 && b.email == e ==>
      FirstCreated(s + [b], e) == (if b.createdAt < FirstCreated(s, e) then b.createdAt else FirstCreated(s, e))
    ensures CountEmail(s, e) == 0 && b.email == e ==>
      FirstCreated(s + [b], e) == b.createdAt && FirstIndex(s + [b], e) == |s|
  {
    assert (s + [b])[..|s|] == s;
  }

  /** The entry a booking with a new email opens. */
  function Opened(b: Booking): Member {
    Member(b.name, b.email, b.phone, b.createdAt, 1)
  }

  /** The entry `m` after a further booking `b` under its email. */
  function Counted(m: Member, b: Booking): Member {
    m.(bookingCount := m.bookingCount + 1,
       firstBooking := if b.createdAt < m.firstBooking then b.createdAt else m.firstBooking)
  }

  lemma SummarisesOther(s: seq<Booking>, b: Booking, m: Member)
    requires Summarises(s, m) && m.email != b.email
    ensures Summarises(s + [b], m)
  {
    SnocFacts(s, b, m.email);
    assert (s + [b])[FirstIndex(s, m.email)] == s[FirstIndex(s, m.email)];
  }

  lemma SummarisesSame(s: seq<Booking>, b: Booking, m: Member)
    requires Summarises(s, m) && m.email == b.email
    ensures Summarises(s + [b], Counted(m, b))
  {
    SnocFacts(s, b, m.email);
    assert (s + [b])[FirstIndex(s, m.email)] == s[FirstIndex(s, m.email)];
  }

  lemma SummarisesOpened(s: seq<Booking>, b: Booking)
    requires CountEmail(s, b.email) == 0
    ensures Summarises(s + [b], Opened(b))
  {
    SnocFacts(s, b, b.email);
    assert (s + [b])[|s|] == b;
  }

  /** The forEach body for a booking whose email has no entry yet. */
  lemma GroupNewEmail(s: seq<Booking>, acc: seq<Member>, b: Booking)
    requires GroupedBy(s, acc)
    requires forall j :: 0 <= j < |acc| ==> acc[j].email != b.email
    ensures GroupedBy(s + [b], acc + [Opened(b)])
  {
    NoEntryNoBooking(s, acc, b.email);
    SummariseNew(s, acc, b);
    CoversSnoc(s, acc, b, acc + [Opened(b)], |acc|);
    DistinctNew(acc, b);
  }

  lemma NoEntryNoBooking(s: seq<Booking>, acc: seq<Member>, e: string)
    requires Covers(s, acc)
    requires forall j :: 0 <= j < |acc| ==> acc[j].email != e
    ensures CountEmail(s, e) == 0
  {
    forall i | 0 <= i < |s| ensures s[i].email != e {
      assert HasEntry(acc, s[i].email);
      var j :| 0 <= j < |acc| && acc[j].email == s[i].email;
    }
  }

  lemma SummariseNew(s: seq<Booking>, acc: seq<Member>, b: Booking)
    requires AllSummarise(s, acc) && CountEmail(s, b.email) == 0
    requires forall j :: 0 <= j < |acc| ==> acc[j].email != b.email
    ensures AllSummarise(s + [b], acc + [Opened(b)])
  {
    var acc' := acc + [Opened(b)];
    forall k | 0 <= k < |acc'| ensures Summarises(s + [b], acc'[k]) {
      if k < |acc| {
        SummarisesOther(s, b, acc[k]);
      } else {
        SummarisesOpened(s, b);
      }
    }
  }

  lemma DistinctNew(acc: seq<Member>, b: Booking)
    requires Query.DistinctBy(acc, EmailOf)
    requires forall j :: 0 <= j < |acc| ==> acc[j].email != b.email
    ensures Query.DistinctBy(acc + [Opened(b)], EmailOf)
  {
    var acc' := acc + [Opened(b)];
    forall i, j | 0 <= i < j < |acc'| ensures EmailOf(acc'[i]) != EmailOf(acc'[j]) {
      assert acc'[i] == acc[i];
      if j < |acc| {
        assert acc'[j] == acc[j];
      }
    }
  }

  /** Extending the bookings by `b` keeps them covered by entries that keep their emails, one of them `b`'s. */
  lemma CoversSnoc(s: seq<Booking>, acc: seq<Member>, b: Booking, acc': seq<Member>, k: nat)
    requires Covers(s, acc)
    requires |acc| <= |acc'| && forall j :: 0 <= j < |acc| ==> acc'[j].email == acc[j].email
    requires k < |acc'| && acc'[k].email == b.email
    ensures Covers(s + [b], acc')
  {
    var s' := s + [b];
    forall i | 0 <= i < |s'| ensures HasEntry(acc', s'[i].email) {
      if i < |s| {
        assert s'[i] == s[i] && HasEntry(acc, s[i].email);
        var j :| 0 <= j < |acc| && acc[j].email == s[i].email;
        assert acc'[j].email == s'[i].email;
      } else {
        assert acc'[k].email == s'[i].email;
      }
    }
  }

  /** The forEach body for a booking whose email already has entry `k`. */
  lemma GroupKnownEmail(s: seq<Booking>, acc: seq<Member>, b: Booking, k: nat)
    requires GroupedBy(s, acc)
    requires k < |acc| && acc[k].email == b.email
    ensures GroupedBy(s + [b], acc[k := Counted(acc[k], b)])
  {
    var acc' := acc[k := Counted(acc[k], b)];
    SummariseKnown(s, acc, b, k);
    CoversSnoc(s, acc, b, acc', k);
    DistinctKnown(acc, b, k);
  }

  lemma DistinctKnown(acc: seq<Member>, b: Booking, k: nat)
    requires Query.DistinctBy(acc, EmailOf)
    requires k < |acc|
    ensures Query.DistinctBy(acc[k := Counted(acc[k], b)], EmailOf)
  {
    var acc' := acc[k := Counted(acc[k], b)];
    forall i, j | 0 <= i < j < |acc'| ensures EmailOf(acc'[i]) != EmailOf(acc'[j]) {
      assert EmailOf(acc'[i]) == EmailOf(acc[i]) && EmailOf(acc'[j]) == EmailOf(acc[j]);
    }
  }

  lemma SummariseKnown(s: seq<Booking>, acc: seq<Member>, b: Booking, k: nat)
    requires Query.DistinctBy(acc, EmailOf) && AllSummarise(s, acc)
    requires k < |acc| && acc[k].email == b.email
    ensures AllSummarise(s + [b], acc[k := Counted(acc[k], b)])
  {
    var acc' := acc[k := Counted(acc[k], b)];
    forall j | 0 <= j < |acc'| ensures Summarises(s + [b], acc'[j]) {
      if j == k {
        SummarisesSame(s, b, acc[k]);
      } else {
        assert EmailOf(acc[j]) != EmailOf(acc[k]);
        SummarisesOther(s, b, acc[j]);
      }
    }
  }

  /** One step of the fold over `g`: booking `g[i]`, whose entry is at `k` or missing when `k == |acc|`. */
  lemma GroupPrefix(g: seq<Booking>, i: nat, acc: seq<Member>, k: nat)
    requires i < |g| && GroupedBy(g[..i], acc)
    requires k <= |acc|
    requires k < |acc| ==> acc[k].email == g[i].email
    requires k == |acc| ==> forall j :: 0 <= j < |acc| ==> acc[j].email != g[i].email
    ensures k == |acc| ==> GroupedBy(g[..i + 1], acc + [Opened(g[i])])
    ensures k < |acc| ==> GroupedBy(g[..i + 1], acc[k := Counted(acc[k], g[i])])
  {
    assert g[..i + 1] == g[..i] + [g[i]];
    if k == |acc| {
      GroupNewEmail(g[..i], acc, g[i]);
    } else {
      GroupKnownEmail(g[..i], acc, g[i], k);
    }
  }

  /** One step of the fold over `g` keeps the entries in first-seen order. */
  lemma OrderPrefix(g: seq<Booking>, i: nat, acc: seq<Member>, k: nat)
    requires i < |g| && GroupedBy(g[..i], acc) && InFirstSeenOrder(g[..i], acc)
    requires k <= |acc|
    requires k < |acc| ==> acc[k].email == g[i].email
    requires k == |acc| ==> forall j :: 0 <= j < |acc| ==> acc[j].email != g[i].email
    ensures k == |acc| ==> InFirstSeenOrder(g[..i + 1], acc + [Opened(g[i])])
    ensures k < |acc| ==> InFirstSeenOrder(g[..i + 1], acc[k := Counted(acc[k], g[i])])
  {
    assert g[..i + 1] == g[..i] + [g[i]];
    if k == |acc| {
      NoEntryNoBooking(g[..i], acc, g[i].email);
      OrderNew(g[..i], acc, g[i]);
    } else {
      OrderKnown(g[..i], acc, g[i], k);
    }
  }

  /** A booking leaves the first-seen position of every email already present unchanged. */
  lemma FirstSeenSnoc(s: seq<Booking>, acc: seq<Member>, b: Booking)
    requires AllSummarise(s, acc)
    ensures forall j :: 0 <= j < |acc| ==> FirstSeen(s + [b], acc[j].email) == FirstSeen(s, acc[j].email) < |s|
  {
    forall j | 0 <= j < |acc| ensures FirstSeen(s + [b], acc[j].email) == FirstSeen(s, acc[j].email) < |s| {
      assert Summarises(s, acc[j]);
      SnocFacts(s, b, acc[j].email);
    }
  }

  lemma OrderNew(s: seq<Booking>, acc: seq<Member>, b: Booking)
    requires AllSummarise(s, acc) && InFirstSeenOrder(s, acc) && CountEmail(s, b.email) == 0
    ensures InFirstSeenOrder(s + [b], acc + [Opened(b)])
  {
    var acc' := acc + [Opened(b)];
    var rank := (m: Member) => FirstSeen(s + [b], m.email);
    FirstSeenSnoc(s, acc, b);
    SnocFacts(s, b, b.email);
    assert FirstSeen(s + [b], b.email) == |s|;
    forall i, j | 0 <= i < j < |acc'| ensures rank(acc'[i]) < rank(acc'[j]) {
      assert acc'[i] == acc[i];
      if j < |acc| {
        assert acc'[j] == acc[j];
        assert FirstSeen(s, acc[i].email) < FirstSeen(s, acc[j].email);
      }
    }
  }

  lemma OrderKnown(s: seq<Booking>, acc: seq<Member>, b: Booking, k: nat)
    requires AllSummarise(s, acc) && InFirstSeenOrder(s, acc)
    requires k < |acc| && acc[k].email == b.email
    ensures InFirstSeenOrder(s + [b], acc[k := Counted(acc[k], b)])
  {
    var acc' := acc[k := Counted(acc[k], b)];
    var rank := (m: Member) => FirstSeen(s + [b], m.email);
    FirstSeenSnoc(s, acc, b);
    forall i, j | 0 <= i < j < |acc'| ensures rank(acc'[i]) < rank(acc'[j]) {
      assert acc'[i].email == acc[i].email && acc'[j].email == acc[j].email;
      assert FirstSeen(s, acc[i].email) < FirstSeen(s, acc[j].email);
    }
  }

  /** Sorting the entries keeps them a grouping of the same bookings. */
  lemma GroupedBySorted(s: seq<Booking>, acc: seq<Member>)
    requires GroupedBy(s, acc)
    ensures GroupedBy(s, Query.SortDesc(acc, FirstBookingOf))
  {
    Query.SortKeepsDistinct(acc, FirstBookingOf, EmailOf);
    SummariseSorted(s, acc);
    CoversSorted(s, acc);
  }

  lemma SummariseSorted(s: seq<Booking>, acc: seq<Member>)
    requires AllSummarise(s, acc)
    ensures AllSummarise(s, Query.SortDesc(acc, FirstBookingOf))
  {
    SummariseSubset(s, acc, Query.SortDesc(acc, FirstBookingOf));
  }

  lemma SummariseSubset(s: seq<Booking>, acc: seq<Member>, ms: seq<Member>)
    requires AllSummarise(s, acc)
    requires forall k :: 0 <= k < |ms| ==> ms[k] in acc
    ensures AllSummarise(s, ms)
  {
    forall k | 0 <= k < |ms| ensures Summarises(s, ms[k]) {
      var j :| 0 <= j < |acc| && acc[j] == ms[k];
    }
  }

  lemma CoversSorted(s: seq<Booking>, acc: seq<Member>)
    requires Covers(s, acc)
    ensures Covers(s, Query.SortDesc(acc, FirstBookingOf))
  {
    var ms := Query.SortDesc(acc, FirstBookingOf);
    forall i | 0 <= i < |s| ensures HasEntry(ms, s[i].email) {
      assert HasEntry(acc, s[i].email);
      var j :| 0 <= j < |acc| && acc[j].email == s[i].email;
      assert acc[j] in multiset(ms);
      var k :| 0 <= k < |ms| && ms[k] == acc[j];
    }
  }

  /**
   * Lines 140-163: the gym's bookings folded into a map keyed by email (kept
   * here as an insertion-ordered sequence, as a JavaScript Map is), then sorted
   * by `firstBooking`, latest first.
   */
  method GroupMembers(bs: seq<Booking>, gym: string) returns (ms: seq<Member>)
    ensures MembersOf(bs, gym, ms)
  {
    var acc := GroupByEmail(GymBookings(bs, gym));
    GroupedBySorted(GymBookings(bs, gym), acc);
    Query.SortDescTies(acc, FirstBookingOf, (m: Member) => FirstSeen(GymBookings(bs, gym), m.email));
    ms := Query.SortDesc(acc, FirstBookingOf);
  }

  /** The forEach of lines 143-157: one entry per email, in order of first appearance. */
  method GroupByEmail(g: seq<Booking>) returns (acc: seq<Member>)
    ensures GroupedBy(g, acc)
    ensures InFirstSeenOrder(g, acc)
  {
    acc := [];
    for i := 0 to |g|
      invariant GroupedBy(g[..i], acc)
      invariant InFirstSeenOrder(g[..i], acc)
    {
      var b := g[i];
      var k := IndexOfEmail(acc, b.email);
      GroupPrefix(g, i, acc, k);
      OrderPrefix(g, i, acc, k);
      if k == |acc| {
        acc := acc + [Opened(b)];
      } else {
        acc := acc[k := Counted(acc[k], b)];
      }
    }
    assert g[..|g|] == g;
  }

  // ---------------------------------------------------------------------------
  // getBookedSlots: the confirmed bookings of a gym's day, grouped by facility.

  predicate BookedOn(b: Booking, gym: string, start: int) {
    b.gym == gym && InWindow(b.date, start) && b.status == Confirmed
  }

  /** `find({ gym, date: { $gte, $lte }, status: 'confirmed' })`. */
  function DayBookings(bs: seq<Booking>, gym: string, start: int): (r: seq<Booking>)
    ensures forall b :: b in r <==> b in bs && BookedOn(b, gym, start)
  {
    Query.Filter(bs, (b: Booking) => BookedOn(b, gym, start))
  }

  /** The time slots of the bookings in `q` for facility `f`, in order. */
  function SlotsFor(q: seq<Booking>, f: string): (ts: seq<string>)
    ensures forall t :: t in ts <==> exists i :: 0 <= i < |q| && q[i].facility == f && q[i].timeSlot == t
    decreases |q|
  {
    if q == [] then []
    else
      var p := q[..|q| - 1];
      assert forall i :: 0 <= i < |p| ==> p[i] == q[i];
      SlotsFor(p, f) + (if q[|q| - 1].facility == f then [q[|q| - 1].timeSlot] else [])
  }

  /** `slots` groups the time slots of `q[..i]` by facility. */
  ghost predicate CollectedUpTo(q: seq<Booking>, i: nat, slots: map<string, seq<string>>) {
    && i <= |q|
    && (forall j :: 0 <= j < i ==> q[j].facility in slots)
    && (forall f :: f in slots ==> slots[f] == SlotsFor(q[..i], f) && slots[f] != [])
    && (forall f :: f !in slots ==> SlotsFor(q[..i], f) == [])
  }

  lemma CollectStep(q: seq<Booking>, i: nat, slots: map<string, seq<string>>, cur: seq<string>)
    requires i < |q| && CollectedUpTo(q, i, slots)
    requires cur == if q[i].facility in slots then slots[q[i].facility] else []
    ensures CollectedUpTo(q, i + 1, slots[q[i].facility := cur + [q[i].timeSlot]])
  {
    var next := slots[q[i].facility := cur + [q[i].timeSlot]];
    forall f | f in next ensures next[f] == SlotsFor(q[..i + 1], f) && next[f] != [] {
      SlotsForStep(q, i, f);
    }
    forall f | f !in next ensures SlotsFor(q[..i + 1], f) == [] {
      SlotsForStep(q, i, f);
    }
  }

  lemma SlotsForStep(q: seq<Booking>, i: nat, f: string)
    requires i < |q|
    ensures SlotsFor(q[..i + 1], f) == SlotsFor(q[..i], f) + (if q[i].facility == f then [q[i].timeSlot] else [])
  {
    assert q[..i + 1][..i] == q[..i];
  }

  /**
   * The names a plain `{}` already answers with an inherited `Object.prototype`
   * member. Such a value is truthy and has no `push`, so line 204 throws a
   * TypeError for a booking whose facility is one of them.
   */
  const ObjectProtoKeys: set<string> := {
    "constructor", "__proto__", "__defineGetter__", "__defineSetter__", "__lookupGetter__",
    "__lookupSetter__", "hasOwnProperty", "isPrototypeOf", "propertyIsEnumerable",
    "toLocaleString", "toString", "valueOf"}

  predicate ObjectProtoKey(f: string) {
    f in ObjectProtoKeys
  }

  /** Some booking of `q` names its facility after an inherited member of `{}`. */
  predicate HasProtoFacility(q: seq<Booking>) {
    exists i :: 0 <= i < |q| && ObjectProtoKey(q[i].facility)
  }

  lemma ProtoFreeStep(q: seq<Booking>, i: nat)
    requires i < |q| && !HasProtoFacility(q[..i]) && !ObjectProtoKey(q[i].facility)
    ensures !HasProtoFacility(q[..i + 1])
  {
    var p := q[..i + 1];
    forall j | 0 <= j < |p| ensures !ObjectProtoKey(p[j].facility) {
      if j < i {
        assert p[j] == q[..i][j];
      }
    }
  }

  /**
   * Lines 199-205: `bookedSlots[facility].push(timeSlot)` over the query result;
   * None when the push throws on an inherited member.
   */
  method CollectBookedSlots(q: seq<Booking>) returns (r: Option<map<string, seq<string>>>)
    ensures r.None? <==> HasProtoFacility(q)
    ensures r.Some? ==> forall i :: 0 <= i < |q| ==> q[i].facility in r.value
    ensures r.Some? ==> forall f :: f in r.value ==> r.value[f] == SlotsFor(q, f) && r.value[f] != []
  {
    var slots := map[];
    for i := 0 to |q|
      invariant CollectedUpTo(q, i, slots)
      invariant !HasProtoFacility(q[..i])
    {
      var b := q[i];
      if ObjectProtoKey(b.facility) {
        return None;
      }
      var cur := if b.facility in slots then slots[b.facility] else [];
      CollectStep(q, i, slots, cur);
      ProtoFreeStep(q, i);
      slots := slots[b.facility := cur + [b.timeSlot]];
    }
    assert q[..|q|] == q;
    r := Some(slots);
  }

  /**
   * A slot is reported booked for a facility exactly when `createBooking`
   * would refuse that facility, day and slot as already booked.
   */
  lemma BookedSlotsAreConflicts(bs: seq<Booking>, gym: string, start: int, f: string, t: string)
    ensures t in SlotsFor(DayBookings(bs, gym, start), f) <==> SlotTaken(bs, gym, f, start, t)
  {
    var q := DayBookings(bs, gym, start);
    if t in SlotsFor(q, f) {
      var i :| 0 <= i < |q| && q[i].facility == f && q[i].timeSlot == t;
      var j :| 0 <= j < |bs| && bs[j] == q[i];
      assert Occupies(bs[j], gym, f, start, t);
    }
    if SlotTaken(bs, gym, f, start, t) {
      var j :| 0 <= j < |bs| && Occupies(bs[j], gym, f, start, t);
      assert bs[j] in q;
      var i :| 0 <= i < |q| && q[i] == bs[j];
    }
  }

  // ---------------------------------------------------------------------------
  // getUserBookings: which user id the handler looks up.

  /**
   * `req.body.userId || req.query.userId`, then `req.user._id` when that is
   * falsy and an authenticated user is attached; None when no id results.
   */
  function ResolveUserId(bodyId: Option<string>, queryId: Option<string>, authUserId: Option<string>): (r: Option<string>)
    ensures r.Some? <==> Present(bodyId) || Present(queryId) || Present(authUserId)
    ensures r.Some? ==> r.value != ""
    ensures Present(bodyId) ==> r == bodyId
    ensures !Present(bodyId) && Present(queryId) ==> r == queryId
    ensures !Present(bodyId) && !Present(queryId) && Present(authUserId) ==> r == authUserId
  {
    var first := if Present(bodyId) then bodyId else queryId;
    var id := if !Present(first) && authUserId.Some? then authUserId else first;
    if Present(id) then id else None
  }

  /** `find({ userId })`. */
  function UserBookings(bs: seq<Booking>, userId: string): (r: seq<Booking>)
    ensures forall b :: b in r <==> b in bs && b.userId == Some(userId)
  {
    Query.Filter(bs, (b: Booking) => b.userId == Some(userId))
  }

  // ---------------------------------------------------------------------------
  // The handlers over the booking collection.

  datatype CancelError = BookingNotFound | NotAuthorized | AlreadyCancelled

  datatype QueryError = MissingParameter | ServerError

  class BookingStore {
    /** The booking collection in insertion order; a booking's id is its position. */
    var bookings: seq<Booking>

    /** Every stored booking passed the schema's checks and setter, and no slot is double booked. */
    ghost predicate Valid()
      reads this
    {
      NoDoubleBooking(bookings) &&
      forall i :: 0 <= i < |bookings| ==> SchemaValid(bookings[i]) && DayStart(bookings[i].date) == bookings[i].date
    }

    constructor ()
      ensures Valid() && bookings == []
    {
      bookings := [];
    }

    /** createBooking (lines 5-77). */
    method CreateBooking(req: BookingRequest, now: int) returns (r: Result<nat, CreateError>)
      requires Valid()
      modifies this
      ensures Valid()
      ensures MissingRequired(req) ==> r == Err(MissingFields) && bookings == old(bookings)
      ensures !MissingRequired(req) && req.date.Unparseable? ==>
        r == Err(InvalidDateFormat) && bookings == old(bookings)
      ensures !MissingRequired(req) && req.date.Instant? &&
              SlotTaken(old(bookings), req.gym, req.facility, DayStart(req.date.ms), req.timeSlot) ==>
        && bookings == old(bookings)
        && r.Err? && r.error.SlotAlreadyBooked? && r.error.id < |bookings|
        && Occupies(bookings[r.error.id], req.gym, req.facility, DayStart(req.date.ms), req.timeSlot)
        && r.error.date == bookings[r.error.id].date
        && r.error.timeSlot == bookings[r.error.id].timeSlot
      ensures !MissingRequired(req) && req.date.Instant? &&
              !SlotTaken(old(bookings), req.gym, req.facility, DayStart(req.date.ms), req.timeSlot) ==>
        && r == Ok(|old(bookings)|)
        && bookings == old(bookings) + [NewBooking(req.userId, req.gym, req.facility, DayStart(req.date.ms),
                                                   req.timeSlot, req.name, req.email, req.phone, now)]
    {
      if MissingRequired(req) {
        return Err(MissingFields);
      }
      if req.date.Unparseable? {
        return Err(InvalidDateFormat);
      }
      var normalized := DayStart(req.date.ms);
      var existing := FindConflict(bookings, req.gym, req.facility, normalized, req.timeSlot);
      if existing.Some? {
        var b := bookings[existing.value];
        return Err(SlotAlreadyBooked(existing.value, b.date, b.timeSlot));
      }
      var nb := NewBooking(req.userId, req.gym, req.facility, normalized, req.timeSlot,
                           req.name, req.email, req.phone, now);
      assert nb.date == DayStart(req.date.ms) by {
        DayStartIdempotent(req.date.ms);
      }
      forall i | 0 <= i < |bookings| ensures !(bookings[i].status == Confirmed && SameSlot(bookings[i], nb)) {
        OccupiesIffSameSlot(bookings[i], nb, req.date.ms);
      }
      AppendKeepsNoDoubleBooking(bookings, nb);
      bookings := bookings + [nb];
      r := Ok(|bookings| - 1);
    }

    /**
     * cancelBooking (lines 215-292) for the branch whose gym is `branchGym`;
     * `mailSent` is whether the cancellation email went out. The response is
     * a success either way, carrying `mailSent`.
     */
    method CancelBooking(id: nat, branchGym: Option<string>, mailSent: bool) returns (r: Result<bool, CancelError>)
      requires Valid()
      modifies this
      ensures Valid()
      ensures id >= |old(bookings)| ==> r == Err(BookingNotFound) && bookings == old(bookings)
      ensures id < |old(bookings)| && branchGym != Some(old(bookings)[id].gym) ==>
        r == Err(NotAuthorized) && bookings == old(bookings)
      ensures id < |old(bookings)| && branchGym == Some(old(bookings)[id].gym) &&
              old(bookings)[id].status == Cancelled ==>
        r == Err(AlreadyCancelled) && bookings == old(bookings)
      ensures id < |old(bookings)| && branchGym == Some(old(bookings)[id].gym) &&
              old(bookings)[id].status == Confirmed ==>
        r == Ok(mailSent) && bookings == old(bookings)[id := old(bookings)[id].(status := Cancelled)]
    {
      if id >= |bookings| {
        return Err(BookingNotFound);
      }
      var b := bookings[id];
      if Some(b.gym) != branchGym {
        return Err(NotAuthorized);
      }
      if b.status == Cancelled {
        return Err(AlreadyCancelled);
      }
      CancelKeepsNoDoubleBooking(bookings, id);
      bookings := bookings[id := b.(status := Cancelled)];
      // The email is sent after the save; its failure changes only the message.
      r := Ok(mailSent);
    }

    /** getBranchMembers (lines 131-169) for the branch whose gym is `branchGym`. */
    method GetBranchMembers(branchGym: Option<string>) returns (r: Result<seq<Member>, QueryError>)
      ensures !Present(branchGym) ==> r == Err(MissingParameter)
      ensures Present(branchGym) ==> r.Ok? && MembersOf(bookings, branchGym.value, r.value)
    {
      if !Present(branchGym) {
        return Err(MissingParameter);
      }
      var ms := GroupMembers(bookings, branchGym.value);
      r := Ok(ms);
    }

    /**
     * getBookedSlots (lines 172-212). An unparseable date fails when the query
     * casts it; a queried booking whose facility is an inherited member of `{}`
     * makes the grouping throw. Both reach the handler's catch.
     */
    method GetBookedSlots(gym: string, date: DateInput) returns (r: Result<map<string, seq<string>>, QueryError>)
      ensures gym == "" || date.Absent? ==> r == Err(MissingParameter)
      ensures gym != "" && date.Unparseable? ==> r == Err(ServerError)
      ensures gym != "" && date.Instant? ==>
        (r == Err(ServerError) <==> HasProtoFacility(DayBookings(bookings, gym, DayStart(date.ms))))
      ensures gym != "" && date.Instant? && !HasProtoFacility(DayBookings(bookings, gym, DayStart(date.ms))) ==> (
        && r.Ok?
        && (forall f :: f in r.value ==> r.value[f] == SlotsFor(DayBookings(bookings, gym, DayStart(date.ms)), f))
        && (forall f :: f in r.value ==> r.value[f] != [])
        && (forall f, t :: t in SlotsFor(DayBookings(bookings, gym, DayStart(date.ms)), f) <==>
              f in r.value && t in r.value[f]))
    {
      if gym == "" || date.Absent? {
        return Err(MissingParameter);
      }
      if date.Unparseable? {
        return Err(ServerError);
      }
      var q := DayBookings(bookings, gym, DayStart(date.ms));
      var collected := CollectBookedSlots(q);
      if collected.None? {
        return Err(ServerError);
      }
      var slots := collected.value;
      forall f, t | t in SlotsFor(q, f) ensures f in slots {
        var i :| 0 <= i < |q| && q[i].facility == f && q[i].timeSlot == t;
      }
      r := Ok(slots);
    }

    /** getUserBookings (lines 92-112): the user's bookings, latest first. */
    method GetUserBookings(bodyId: Option<string>, queryId: Option<string>, authUserId: Option<string>)
      returns (r: Result<seq<Booking>, QueryError>)
      ensures ResolveUserId(bodyId, queryId, authUserId).None? ==> r == Err(MissingParameter)
      ensures ResolveUserId(bodyId, queryId, authUserId).Some? ==> (
        && r.Ok? && Query.SortedDesc(r.value, CreatedAtOf)
        && multiset(r.value) == multiset(UserBookings(bookings, ResolveUserId(bodyId, queryId, authUserId).value)))
    {
      var userId := ResolveUserId(bodyId, queryId, authUserId);
      if userId.None? {
        return Err(MissingParameter);
      }
      r := Ok(Query.SortDesc(UserBookings(bookings, userId.value), CreatedAtOf));
    }

    /** getBranchBookings (lines 114-128): the gym's bookings, latest first. */
    method GetBranchBookings(branchGym: Option<string>) returns (r: Result<seq<Booking>, QueryError>)
      ensures !Present(branchGym) ==> r == Err(MissingParameter)
      ensures Present(branchGym) ==> (
        && r.Ok? && Query.SortedDesc(r.value, CreatedAtOf)
        && multiset(r.value) == multiset(GymBookings(bookings, branchGym.value)))
    {
      if !Present(branchGym) {
        return Err(MissingParameter);
      }
      r := Ok(Query.SortDesc(GymBookings(bookings, branchGym.value), CreatedAtOf));
    }
  }
}
