/** The ticketing entities: the three closed enumerations, the rows of
    organisations, venues, categories, events, ticket tiers and bookings, the
    field defaults, the check and unique constraints the database enforces,
    and the PROTECT/CASCADE rules of a physical delete. Ids are indices into
    the tables. */
module Models {
  import opened Abstracts

  // ---------------------------------------------------------------------------
  // Enumerations and their stored codes
  // ---------------------------------------------------------------------------

  datatype EventStatus = Draft | Published | Cancelled

  datatype BookingStatus = Pending | Confirmed | Cancelled

  datatype TicketType = Standard | Vip | EarlyBird | Student | Group

  /** The value stored in the `status` column of an event. */
  function EventStatusCode(s: EventStatus): string {
    match s
    case Draft => "DRAFT"
    case Published => "PUBLISHED"
    case Cancelled => "CANCELLED"
  }

  /** Reading an event `status` column; anything but the three codes is not a choice. */
  function ParseEventStatus(c: string): (r: Option<EventStatus>)
    ensures r.Some? ==> EventStatusCode(r.value) == c
  {
    if c == "DRAFT" then Some(Draft)
    else if c == "PUBLISHED" then Some(Published)
    else if c == "CANCELLED" then Some(EventStatus.Cancelled)
    else None
  }

  /** The value stored in the `status` column of a booking. */
  function BookingStatusCode(s: BookingStatus): string {
    match s
    case Pending => "PENDING"
    case Confirmed => "CONFIRMED"
    case Cancelled => "CANCELLED"
  }

  /** Reading a booking `status` column. */
  function ParseBookingStatus(c: string): (r: Option<BookingStatus>)
    ensures r.Some? ==> BookingStatusCode(r.value) == c
  {
    if c == "PENDING" then Some(Pending)
    else if c == "CONFIRMED" then Some(Confirmed)
    else if c == "CANCELLED" then Some(BookingStatus.Cancelled)
    else None
  }

  /** The value stored in the `ticket_type` column. */
  function TicketTypeCode(t: TicketType): string {
    match t
    case Standard => "STANDARD"
    case Vip => "VIP"
    case EarlyBird => "EARLY_BIRD"
    case Student => "STUDENT"
    case Group => "GROUP"
  }

  /** The human-readable label of a ticket type (`get_ticket_type_display`). */
  function TicketTypeLabel(t: TicketType): string {
    match t
    case Standard => "Standard"
    case Vip => "VIP"
    case EarlyBird => "Early Bird"
    case Student => "Student"
    case Group => "Group"
  }

  /** Reading a `ticket_type` column. */
  function ParseTicketType(c: string): (r: Option<TicketType>)
    ensures r.Some? ==> TicketTypeCode(r.value) == c
  {
    if c == "STANDARD" then Some(Standard)
    else if c == "VIP" then Some(Vip)
    else if c == "EARLY_BIRD" then Some(EarlyBird)
    else if c == "STUDENT" then Some(Student)
    else if c == "GROUP" then Some(Group)
    else None
  }

  /** The choices of each enumeration, in declaration order. */
  const EventStatuses: seq<EventStatus> := [Draft, Published, EventStatus.Cancelled]
  const BookingStatuses: seq<BookingStatus> := [Pending, Confirmed, BookingStatus.Cancelled]
  const TicketTypes: seq<TicketType> := [Standard, Vip, EarlyBird, Student, Group]

  /** Every stored code reads back as the value it was written from, and the
      choice lists hold every value exactly once: the enumerations are
      closed sets of three, three and five. */
  lemma CodesRoundTrip(e: EventStatus, b: BookingStatus, t: TicketType)
    ensures ParseEventStatus(EventStatusCode(e)) == Some(e)
    ensures ParseBookingStatus(BookingStatusCode(b)) == Some(b)
    ensures ParseTicketType(TicketTypeCode(t)) == Some(t)
    ensures e in EventStatuses && b in BookingStatuses && t in TicketTypes
  {
  }

  /** The choice lists have no repeated value. */
  lemma ChoicesDistinct()
    ensures forall i, j :: 0 <= i < j < |EventStatuses| ==> EventStatuses[i] != EventStatuses[j]
    ensures forall i, j :: 0 <= i < j < |BookingStatuses| ==> BookingStatuses[i] != BookingStatuses[j]
    ensures forall i, j :: 0 <= i < j < |TicketTypes| ==> TicketTypes[i] != TicketTypes[j]
    ensures forall i, j :: 0 <= i < j < |TicketTypes| ==> TicketTypeCode(TicketTypes[i]) != TicketTypeCode(TicketTypes[j])
  {
  }

  // ---------------------------------------------------------------------------
  // Rows
  // ---------------------------------------------------------------------------

  datatype Organization = Organization(name: string, meta: Substrate)

  datatype Venue = Venue(name: string, capacity: nat, meta: Substrate)

  datatype Category = Category(name: string, meta: Substrate)

  /** An event: the ids of its organisation, venue and category, its title
      and description, its times, its lifecycle status and an optional
      capacity override. */
  datatype Event = Event(organization: nat, venue: nat, category: nat, title: string,
                         description: string, startsAt: Time, endsAt: Time, status: EventStatus,
                         capacity: Option<nat>, meta: Substrate)

  /** A ticket tier of an event. `price` is in cents. */
  datatype Tier = Tier(event: nat, ticketType: TicketType, price: int, quota: int, sold: int, meta: Substrate)

  /** A booking of some seats of one tier by one user. */
  datatype Booking = Booking(user: nat, tier: nat, quantity: int, status: BookingStatus,
                             expiresAt: Option<Time>, meta: Substrate)

  /** The roles of an organisation membership. Only OWNER and MANAGER are
      singled out by any rule; every other role is kept by its code. */
  datatype OrganizationRole = Owner | Manager | OtherOrganizationRole(code: string)

  /** The roles of a venue membership; only MANAGER is singled out. */
  datatype VenueRole = VenueManager | OtherVenueRole(code: string)

  /** The request user as the rules see it: its id, the authentication and
      staff flags and the names of its groups. */
  datatype User = User(id: nat, isAuthenticated: bool, isStaff: bool, isSuperuser: bool, groups: set<string>)

  datatype OrganizationMembership = OrganizationMembership(user: nat, organization: nat, role: OrganizationRole)

  datatype VenueMembership = VenueMembership(user: nat, venue: nat, role: VenueRole)

  // ---------------------------------------------------------------------------
  // Defaults
  // ---------------------------------------------------------------------------

  /** A new event with only its required fields given. */
  function NewEvent(organization: nat, venue: nat, category: nat, title: string,
                    startsAt: Time, endsAt: Time): Event {
    Event(organization, venue, category, title, "", startsAt, endsAt, Draft, None, NewSubstrate)
  }

  /** A new tier with only its required fields given. */
  function NewTier(event: nat, ticketType: TicketType, price: int): Tier {
    Tier(event, ticketType, price, 0, 0, NewSubstrate)
  }

  /** A new booking with only its required fields given. */
  function NewBooking(user: nat, tier: nat): Booking {
    Booking(user, tier, 1, Pending, None, NewSubstrate)
  }

  // ---------------------------------------------------------------------------
  // Constraints
  // ---------------------------------------------------------------------------

  /** The named constraints of the schema. */
  datatype Constraint =
    | EventEndsAfterStart
    | EventTitleUnique
    | EventTicketTypeUnique
    | PriceNonNegative
    | QuotaNonNegative
    | SoldNonNegative
    | BookingQuantityAboveOne

  /** `event_ends_after_start`. */
  predicate EventCheck(e: Event) {
    e.endsAt > e.startsAt
  }

  /** The three non-negativity checks of a tier (the positive-integer
      columns add nothing to them). There is no check tying `sold` to `quota`. */
  predicate TierCheck(t: Tier) {
    t.price >= 0 && t.quota >= 0 && t.sold >= 0
  }

  /** The first tier check that a row breaks, if any. */
  function TierViolation(t: Tier): (r: Option<Constraint>)
    ensures r.None? <==> TierCheck(t)
    ensures r.Some? ==> r.value in {PriceNonNegative, QuotaNonNegative, SoldNonNegative}
  {
    if t.price < 0 then Some(PriceNonNegative)
    else if t.quota < 0 then Some(QuotaNonNegative)
    else if t.sold < 0 then Some(SoldNonNegative)
    else None
  }

  /** `booking_quantity_ge_1`, which despite its name demands more than one seat. */
  predicate BookingCheck(b: Booking) {
    b.quantity > 1
  }

  /** `event_ticket_type_unique`: over every row of the table, soft-deleted
      ones included, no two tiers of one event share a ticket type. */
  predicate TierTypesUnique(tiers: seq<Tier>) {
    forall i, j :: 0 <= i < |tiers| && 0 <= j < |tiers| && i != j && tiers[i].event == tiers[j].event
      ==> tiers[i].ticketType != tiers[j].ticketType
  }

  /** Whether some tier of the event already has this ticket type. */
  predicate HasTierOfType(tiers: seq<Tier>, event: nat, tt: TicketType) {
    exists i :: 0 <= i < |tiers| && tiers[i].event == event && tiers[i].ticketType == tt
  }

  /** Titles are unique over the whole event table. */
  predicate TitlesUnique(events: seq<Event>) {
    forall i, j :: 0 <= i < |events| && 0 <= j < |events| && i != j ==> events[i].title != events[j].title
  }

  /** Whether some event already has this title. */
  predicate HasTitle(events: seq<Event>, title: string) {
    exists i :: 0 <= i < |events| && events[i].title == title
  }

  /** Whether a tier other than `t` has this event and ticket type. */
  predicate TypeTakenElsewhere(tiers: seq<Tier>, t: nat, event: nat, tt: TicketType) {
    exists i :: 0 <= i < |tiers| && i != t && tiers[i].event == event && tiers[i].ticketType == tt
  }

  /** Whether an event other than `self` (None for a new event) has this
      title, soft-deleted or not: what the unique index sees. */
  predicate TitleTakenElsewhere(events: seq<Event>, self: Option<nat>, title: string) {
    exists i :: 0 <= i < |events| && Some(i) != self && events[i].title == title
  }

  /** Whether a live event other than `self` has this title: what a
      uniqueness validator over the default manager sees. */
  predicate LiveTitleElsewhere(events: seq<Event>, self: Option<nat>, title: string) {
    exists i :: 0 <= i < |events| && Some(i) != self && IsAlive(events[i].meta) && events[i].title == title
  }

  /** Rewriting tier `t`, possibly onto another event or ticket type, keeps
      the unique constraint exactly when no other tier has that pair. */
  lemma RetierUnique(tiers: seq<Tier>, t: nat, x: Tier)
    requires TierTypesUnique(tiers) && t < |tiers|
    ensures TierTypesUnique(tiers[t := x]) <==> !TypeTakenElsewhere(tiers, t, x.event, x.ticketType)
  {
    var ts := tiers[t := x];
    if TypeTakenElsewhere(tiers, t, x.event, x.ticketType) {
      var k :| 0 <= k < |tiers| && k != t && tiers[k].event == x.event && tiers[k].ticketType == x.ticketType;
      assert ts[k] == tiers[k] && ts[t] == x;
    } else {
      forall i, j | 0 <= i < |ts| && 0 <= j < |ts| && i != j && ts[i].event == ts[j].event
        ensures ts[i].ticketType != ts[j].ticketType
      {
        if i == t {
          assert ts[j] == tiers[j];
        } else if j == t {
          assert ts[i] == tiers[i];
        } else {
          assert ts[i] == tiers[i] && ts[j] == tiers[j];
        }
      }
    }
  }

  /** Rewriting event `e`, possibly with a new title, keeps titles unique
      exactly when no other event has that title. */
  lemma RetitleUnique(events: seq<Event>, e: nat, x: Event)
    requires TitlesUnique(events) && e < |events|
    ensures TitlesUnique(events[e := x]) <==> !TitleTakenElsewhere(events, Some(e), x.title)
  {
    var es := events[e := x];
    if TitleTakenElsewhere(events, Some(e), x.title) {
      var k :| 0 <= k < |events| && Some(k) != Some(e) && events[k].title == x.title;
      assert es[k] == events[k] && es[e] == x;
    } else {
      forall i, j | 0 <= i < |es| && 0 <= j < |es| && i != j
        ensures es[i].title != es[j].title
      {
        if i == e {
          assert es[j] == events[j];
        } else if j == e {
          assert es[i] == events[i];
        } else {
          assert es[i] == events[i] && es[j] == events[j];
        }
      }
    }
  }

  /** A live clash is a clash, and the table has a title exactly when some
      event other than a new one has it. */
  lemma TitleClashKinds(events: seq<Event>, self: Option<nat>, title: string)
    ensures LiveTitleElsewhere(events, self, title) ==> TitleTakenElsewhere(events, self, title)
    ensures HasTitle(events, title) <==> TitleTakenElsewhere(events, None, title)
  {
  }

  /** Rewriting a tier without touching its event or type keeps the unique
      constraint. */
  lemma UpdateTierUnique(tiers: seq<Tier>, t: nat, x: Tier)
    requires TierTypesUnique(tiers) && t < |tiers|
    requires x.event == tiers[t].event && x.ticketType == tiers[t].ticketType
    ensures TierTypesUnique(tiers[t := x])
  {
  }

  /** Rewriting an event without touching its title keeps titles unique. */
  lemma UpdateEventUnique(events: seq<Event>, e: nat, x: Event)
    requires TitlesUnique(events) && e < |events| && x.title == events[e].title
    ensures TitlesUnique(events[e := x])
  {
  }

  /** Appending a tier keeps the unique constraint exactly when its event
      has no tier of that type yet. */
  lemma AppendTierUnique(tiers: seq<Tier>, t: Tier)
    requires TierTypesUnique(tiers)
    ensures TierTypesUnique(tiers + [t]) <==> !HasTierOfType(tiers, t.event, t.ticketType)
  {
    var ts := tiers + [t];
    if !HasTierOfType(tiers, t.event, t.ticketType) {
      forall i, j | 0 <= i < |ts| && 0 <= j < |ts| && i != j && ts[i].event == ts[j].event
        ensures ts[i].ticketType != ts[j].ticketType
      {
        if i == |tiers| {
          assert ts[j] == tiers[j];
        } else if j == |tiers| {
          assert ts[i] == tiers[i];
        }
      }
    } else {
      var k :| 0 <= k < |tiers| && tiers[k].event == t.event && tiers[k].ticketType == t.ticketType;
      assert ts[k] == tiers[k] && ts[|tiers|] == t;
    }
  }

  /** Appending an event keeps titles unique exactly when the title is new. */
  lemma AppendEventUnique(events: seq<Event>, e: Event)
    requires TitlesUnique(events)
    ensures TitlesUnique(events + [e]) <==> !HasTitle(events, e.title)
  {
    var es := events + [e];
    if HasTitle(events, e.title) {
      var k :| 0 <= k < |events| && events[k].title == e.title;
      assert es[k] == events[k] && es[|events|] == e;
    } else {
      forall i, j | 0 <= i < |es| && 0 <= j < |es| && i != j
        ensures es[i].title != es[j].title
      {
        if i == |events| {
          assert es[j] == events[j];
        } else if j == |events| {
          assert es[i] == events[i];
        }
      }
    }
  }

  /** What the defaults give: a new event is a DRAFT without a capacity
      override, a new tier has `quota = sold = 0` and meets its checks
      exactly when its price is not negative, and a new booking is PENDING
      with one seat, which its own table refuses. */
  lemma Defaults(o: nat, v: nat, c: nat, title: string, s: Time, e: Time, ev: nat, tt: TicketType, price: int, u: nat, t: nat)
    ensures NewEvent(o, v, c, title, s, e).status == Draft && NewEvent(o, v, c, title, s, e).capacity.None?
    ensures NewEvent(o, v, c, title, s, e).meta == NewSubstrate
    ensures NewTier(ev, tt, price).quota == 0 && NewTier(ev, tt, price).sold == 0
    ensures TierCheck(NewTier(ev, tt, price)) <==> price >= 0
    ensures NewBooking(u, t).status == Pending && NewBooking(u, t).quantity == 1
    ensures !BookingCheck(NewBooking(u, t))
  {
  }

  /** Nothing in the schema keeps `sold` within `quota`. */
  lemma NoSoldWithinQuotaCheck()
    ensures exists t :: TierCheck(t) && t.sold > t.quota
  {
    assert TierCheck(Tier(0, Standard, 0, 0, 1, NewSubstrate));
  }

  // ---------------------------------------------------------------------------
  // Physical delete: PROTECT and CASCADE
  // ---------------------------------------------------------------------------

  /** The bookings a user's deletion takes with it (CASCADE). */
  function UserCascade(bookings: seq<Booking>, user: nat): set<nat> {
    set i | 0 <= i < |bookings| && bookings[i].user == user
  }

  /** The tiers an event's deletion takes with it (CASCADE). */
  function EventCascade(tiers: seq<Tier>, event: nat): set<nat> {
    set i | 0 <= i < |tiers| && tiers[i].event == event
  }

  /** A tier can be removed only when no booking row, soft-deleted or not,
      refers to it (PROTECT). */
  predicate TierDeletable(bookings: seq<Booking>, tier: nat) {
    forall i :: 0 <= i < |bookings| ==> bookings[i].tier != tier
  }

  /** An event can be removed when none of the tiers it cascades to is protected. */
  predicate EventDeletable(tiers: seq<Tier>, bookings: seq<Booking>, event: nat) {
    forall i :: 0 <= i < |bookings| ==> bookings[i].tier !in EventCascade(tiers, event)
  }

  /** Organisations, venues and categories are protected by their events. */
  predicate OrganizationDeletable(events: seq<Event>, org: nat) {
    forall i :: 0 <= i < |events| ==> events[i].organization != org
  }

  predicate VenueDeletable(events: seq<Event>, venue: nat) {
    forall i :: 0 <= i < |events| ==> events[i].venue != venue
  }

  predicate CategoryDeletable(events: seq<Event>, category: nat) {
    forall i :: 0 <= i < |events| ==> events[i].category != category
  }

  /** What the collector leaves after a physical delete: nothing when a
      PROTECT reference refuses it, otherwise the three tables with the
      removed rows gone. Ids are positions, so every row after a removed
      one moves down and every reference to it follows
      (see `Abstracts.Shifted`). */
  datatype Deletion = Protected | Deleted(events: seq<Event>, tiers: seq<Tier>, bookings: seq<Booking>)

  /** The bookings with their tier references renumbered once the tiers in
      `gone` are removed. */
  function Rebooked(bookings: seq<Booking>, gone: set<nat>): seq<Booking> {
    seq(|bookings|, i requires 0 <= i < |bookings| => bookings[i].(tier := Shifted(gone, bookings[i].tier)))
  }

  /** The tiers with their event references renumbered once the events in
      `gone` are removed. */
  function Retargeted(tiers: seq<Tier>, gone: set<nat>): seq<Tier> {
    seq(|tiers|, i requires 0 <= i < |tiers| => tiers[i].(event := Shifted(gone, tiers[i].event)))
  }

  /** `hard_delete()` on tier `t`: refused while any booking row refers to
      it (PROTECT); otherwise the tier is removed. */
  function CollectTier(events: seq<Event>, tiers: seq<Tier>, bookings: seq<Booking>, t: nat): (r: Deletion)
    ensures r.Protected? <==> exists i :: 0 <= i < |bookings| && bookings[i].tier == t
  {
    if !TierDeletable(bookings, t) then Protected
    else Deleted(events, Without(tiers, {t}), Rebooked(bookings, {t}))
  }

  /** `hard_delete()` on event `e`: its tiers go with it (CASCADE), so a
      booking row on any of them refuses the whole delete (PROTECT);
      otherwise the event and those tiers are removed. */
  function CollectEvent(events: seq<Event>, tiers: seq<Tier>, bookings: seq<Booking>, e: nat): (r: Deletion)
    ensures r.Protected? <==> exists i :: 0 <= i < |bookings| && bookings[i].tier < |tiers| && tiers[bookings[i].tier].event == e
  {
    if !EventDeletable(tiers, bookings, e) then Protected
    else
      var gone := EventCascade(tiers, e);
      Deleted(Without(events, {e}), Retargeted(Without(tiers, gone), {e}), Rebooked(bookings, gone))
  }

  /** `hard_delete()` on a user: their bookings go with them (CASCADE); no
      row of these tables protects a user. */
  function CollectUser(events: seq<Event>, tiers: seq<Tier>, bookings: seq<Booking>, user: nat): (r: Deletion)
    ensures r.Deleted? && r.events == events && r.tiers == tiers
  {
    Deleted(events, tiers, Without(bookings, UserCascade(bookings, user)))
  }

  /** After an event's physical delete every booking row is kept, still
      on the same tier row, which is still on the same event row; every
      other event and every tier of another event is kept at its new id;
      and nothing else is left. */
  lemma {:induction false} CollectEventRows(events: seq<Event>, tiers: seq<Tier>, bookings: seq<Booking>, e: nat)
    requires forall t :: 0 <= t < |tiers| ==> tiers[t].event < |events|
    requires forall i :: 0 <= i < |bookings| ==> bookings[i].tier < |tiers|
    requires EventDeletable(tiers, bookings, e)
    ensures var r := CollectEvent(events, tiers, bookings, e);
            r.Deleted? && |r.bookings| == |bookings|
            && (forall k :: 0 <= k < |events| && k != e ==>
                  Shifted({e}, k) < |r.events| && r.events[Shifted({e}, k)] == events[k])
            && (forall t :: 0 <= t < |tiers| && tiers[t].event != e ==>
                  Shifted(EventCascade(tiers, e), t) < |r.tiers|
                  && r.tiers[Shifted(EventCascade(tiers, e), t)] == tiers[t].(event := Shifted({e}, tiers[t].event)))
            && (forall i :: 0 <= i < |bookings| ==>
                  r.bookings[i] == bookings[i].(tier := Shifted(EventCascade(tiers, e), bookings[i].tier))
                  && r.bookings[i].tier < |r.tiers| && r.tiers[r.bookings[i].tier].event < |r.events|
                  && r.tiers[r.bookings[i].tier] == tiers[bookings[i].tier].(event := r.tiers[r.bookings[i].tier].event)
                  && r.events[r.tiers[r.bookings[i].tier].event] == events[tiers[bookings[i].tier].event])
            && (forall j :: 0 <= j < |r.tiers| ==> KeptTier(tiers, e, r.tiers[j]))
  {
    var gone := EventCascade(tiers, e);
    var r := CollectEvent(events, tiers, bookings, e);
    var kept := Without(tiers, gone);
    forall k | 0 <= k < |events| && k != e
      ensures Shifted({e}, k) < |r.events| && r.events[Shifted({e}, k)] == events[k]
    {
      WithoutAt(events, {e}, k);
    }
    forall t | 0 <= t < |tiers| && tiers[t].event != e
      ensures Shifted(gone, t) < |r.tiers| && r.tiers[Shifted(gone, t)] == tiers[t].(event := Shifted({e}, tiers[t].event))
    {
      WithoutAt(tiers, gone, t);
    }
    forall i | 0 <= i < |bookings|
      ensures r.bookings[i].tier < |r.tiers| && r.tiers[r.bookings[i].tier].event < |r.events|
              && r.tiers[r.bookings[i].tier] == tiers[bookings[i].tier].(event := r.tiers[r.bookings[i].tier].event)
              && r.events[r.tiers[r.bookings[i].tier].event] == events[tiers[bookings[i].tier].event]
    {
      var t := bookings[i].tier;
      assert t !in gone;
      WithoutAt(tiers, gone, t);
      WithoutAt(events, {e}, tiers[t].event);
    }
    forall j | 0 <= j < |r.tiers|
      ensures KeptTier(tiers, e, r.tiers[j])
    {
      var t := WithoutOrigin(tiers, gone, j);
    }
  }

  /** After a tier's physical delete every booking row is kept, still on
      the same tier row; every other tier is kept at its new id; and every
      tier left is one of those. */
  lemma {:induction false} CollectTierRows(events: seq<Event>, tiers: seq<Tier>, bookings: seq<Booking>, t: nat)
    requires forall i :: 0 <= i < |bookings| ==> bookings[i].tier < |tiers|
    requires TierDeletable(bookings, t)
    ensures var r := CollectTier(events, tiers, bookings, t);
            r.Deleted? && r.events == events && |r.bookings| == |bookings|
            && (forall k :: 0 <= k < |tiers| && k != t ==>
                  Shifted({t}, k) < |r.tiers| && r.tiers[Shifted({t}, k)] == tiers[k])
            && (forall i :: 0 <= i < |bookings| ==>
                  r.bookings[i] == bookings[i].(tier := r.bookings[i].tier)
                  && r.bookings[i].tier < |r.tiers| && r.tiers[r.bookings[i].tier] == tiers[bookings[i].tier])
            && (t < |tiers| ==> forall j :: 0 <= j < |r.tiers| ==> r.tiers[j] in tiers[..t] + tiers[t + 1..])
  {
    var r := CollectTier(events, tiers, bookings, t);
    forall k | 0 <= k < |tiers| && k != t
      ensures Shifted({t}, k) < |r.tiers| && r.tiers[Shifted({t}, k)] == tiers[k]
    {
      WithoutAt(tiers, {t}, k);
    }
    forall j | 0 <= j < |r.tiers| && t < |tiers|
      ensures r.tiers[j] in tiers[..t] + tiers[t + 1..]
    {
      var k := WithoutOrigin(tiers, {t}, j);
      if k < t {
        assert (tiers[..t] + tiers[t + 1..])[k] == tiers[k];
      } else {
        assert (tiers[..t] + tiers[t + 1..])[k - 1] == tiers[k];
      }
    }
  }

  /** Whether a tier row is some tier of another event than `e`, with its
      event reference renumbered. */
  predicate KeptTier(tiers: seq<Tier>, e: nat, x: Tier) {
    exists t :: 0 <= t < |tiers| && tiers[t].event != e && x == tiers[t].(event := Shifted({e}, tiers[t].event))
  }

  /** After a user's physical delete exactly the user's bookings are gone:
      every other booking is kept at its new id, and every booking left is
      someone else's. */
  lemma CollectUserRows(events: seq<Event>, tiers: seq<Tier>, bookings: seq<Booking>, user: nat)
    ensures var r := CollectUser(events, tiers, bookings, user);
            (forall i :: 0 <= i < |bookings| && bookings[i].user != user ==>
               Shifted(UserCascade(bookings, user), i) < |r.bookings|
               && r.bookings[Shifted(UserCascade(bookings, user), i)] == bookings[i])
            && (forall j :: 0 <= j < |r.bookings| ==> r.bookings[j].user != user && r.bookings[j] in bookings)
  {
    var gone := UserCascade(bookings, user);
    var r := CollectUser(events, tiers, bookings, user);
    forall i | 0 <= i < |bookings| && bookings[i].user != user
      ensures Shifted(gone, i) < |r.bookings| && r.bookings[Shifted(gone, i)] == bookings[i]
    {
      WithoutAt(bookings, gone, i);
    }
    forall j | 0 <= j < |r.bookings|
      ensures r.bookings[j].user != user && r.bookings[j] in bookings
    {
      var i := WithoutOrigin(bookings, gone, j);
    }
  }

  /** A booking on a tier protects that tier and its event. */
  lemma BookingProtects(tiers: seq<Tier>, bookings: seq<Booking>, i: nat)
    requires i < |bookings| && bookings[i].tier < |tiers|
    ensures !TierDeletable(bookings, bookings[i].tier)
    ensures !EventDeletable(tiers, bookings, tiers[bookings[i].tier].event)
  {
  }
}
