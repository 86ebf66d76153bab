/** The request serializers of the booking lifecycle and of event and tier
    management. Each `validate` is a pure function from the instance, the
    submitted attributes and `now` to a verdict. Each `save`/`create` is one
    atomic method of `Database` that changes the rows in place; a failed
    database check undoes whatever the transaction had written. */
module Serializers {
  import opened Abstracts
  import opened Models
  import opened Ledger
  import opened Permissions

  /** Why a request is refused, one constructor per message of the serializers. */
  datatype Error =
    | TierNotFound                 // no live tier with that key
    | EventNotFound                // no live event with that key
    | UserNotFound                 // no user with that e-mail
    | QuantityMissing              // `attrs['quantity']` with the field left out
    | QuantityTooSmall             // 'Quantity must be at least 1.'
    | QuantityTooLarge             // 'Maximum 10 tickets per booking.'
    | NotAvailableForBooking       // the event is not PUBLISHED
    | EventStarted                 // 'This event has already started.'
    | OnlyAvailable(available: int) // 'Only {available} tickets available.'
    | BookingAlreadyCancelled      // cancel and refund of a CANCELLED booking
    | PastEvent                    // 'Cannot cancel booking for past events.'
    | NotPending                   // 'Only pending bookings can be confirmed.'
    | BookingExpired               // 'Booking has expired.'
    | EventAlreadyPublished
    | PublishCancelledEvent
    | PublishStartedEvent
    | NoTicketTier
    | EventAlreadyCancelled
    | TicketsOfCancelledEvent      // 'Cannot manage tickets for a cancelled event.'
    | QuotaBelowSold(sold: int)    // 'Quota cannot be less than already sold tickets'
    | NegativeQuota                // the quota field's own lower bound of 0
    | EndsNotAfterStarts           // 'Event end time must be after start time.'
    | StartsInPast                 // 'Event start time must be in the future.'
    | NotOwnerOrManager            // organisation or event field of a non-manager
    | AlreadyMember                // 'User is already a member of this organization.'
    | TitleTaken                   // the title field's uniqueness check: a live event has it
    | NegativeCapacity             // the capacity field's own lower bound of 0
    | NegativeQuantity             // the quantity field's own lower bound of 0
    | FieldRequired(field: string) // 'This field is required.'
    | FieldBlank(field: string)    // 'This field may not be blank.'
    | Fields(errors: seq<Error>)   // several field errors of one request, in field order
    | Integrity(c: Constraint)     // a check or unique constraint refused the write
    | ProtectedError               // a PROTECT reference refused a physical delete

  /** The outcome of a `validate`. */
  datatype Verdict = Accept | Reject(error: Error)

  /** The outcome of a `save`/`create`: a row id, or the error it raised. */
  datatype Result<T> = Ok(value: T) | Err(error: Error)

  /** Booking quantity bounds and the hold of a new booking, in seconds. */
  const MinQuantity: int := 1
  const MaxQuantity: int := 10
  const HoldSeconds: int := 15 * 60

  // ---------------------------------------------------------------------------
  // Read-only fields
  // ---------------------------------------------------------------------------

  /** `get_available`: the seats of a tier not yet sold. */
  function Available(t: Tier): int {
    t.quota - t.sold
  }

  /** Under the ledger invariant no tier shows negative availability or more
      than its quota, and what it shows is exactly what a booking may take. */
  lemma AvailableInRange(tiers: seq<Tier>, bookings: seq<Booking>, t: nat)
    requires LedgerOk(tiers, bookings) && t < |tiers|
    ensures 0 <= Available(tiers[t]) <= tiers[t].quota
    ensures Available(tiers[t]) == tiers[t].quota - tiers[t].sold
  {
  }

  /** `get_total_price`: the price of the booking's tier times its quantity, in cents. */
  function TotalPrice(t: Tier, b: Booking): int {
    t.price * b.quantity
  }

  /** A persisted booking of a persisted tier never costs less than one
      seat, and costs nothing only when the tier is free. */
  lemma TotalPriceBounds(t: Tier, b: Booking)
    requires TierCheck(t) && BookingCheck(b)
    ensures TotalPrice(t, b) >= t.price >= 0
    ensures TotalPrice(t, b) == 0 <==> t.price == 0
  {
  }

  // ---------------------------------------------------------------------------
  // Booking serializers: validation
  // ---------------------------------------------------------------------------

  /** BookingCreateSerializer.validate_quantity. */
  function ValidateQuantity(q: int): (r: Verdict)
    ensures r.Accept? <==> MinQuantity <= q <= MaxQuantity
    ensures q < MinQuantity ==> r == Reject(QuantityTooSmall)
    ensures q > MaxQuantity ==> r == Reject(QuantityTooLarge)
  {
    if q < 1 then Reject(QuantityTooSmall)
    else if q > 10 then Reject(QuantityTooLarge)
    else Accept
  }

  /** The errors of the quantity field of a booking request. The column's
      lower bound of 0 is checked first, and `validate_quantity` runs only
      when that passes. The model default makes the field optional, so a
      quantity left out has no field error. */
  function QuantityFieldErrors(quantity: Option<int>): (r: seq<Error>)
    ensures r == [] <==> (quantity.Some? ==> MinQuantity <= quantity.value <= MaxQuantity)
    ensures |r| <= 1
    ensures NegativeQuantity in r <==> quantity.Some? && quantity.value < 0
    ensures QuantityTooSmall in r <==> quantity.Some? && 0 <= quantity.value < MinQuantity
    ensures QuantityTooLarge in r <==> quantity.Some? && quantity.value > MaxQuantity
  {
    if quantity.None? then []
    else if quantity.value < 0 then [NegativeQuantity]
    else
      var v := ValidateQuantity(quantity.value);
      if v.Reject? then [v.error] else []
  }

  /** The field errors of a booking request, in field order: the
      `event_ticket` key names no live tier (the related field looks it up
      over the default manager), then the quantity field's errors. */
  function BookingFieldErrors(tiers: seq<Tier>, tier: nat, quantity: Option<int>): (r: seq<Error>)
    ensures r == [] <==> IsLiveTier(tiers, tier) && (quantity.Some? ==> MinQuantity <= quantity.value <= MaxQuantity)
    ensures TierNotFound in r <==> !IsLiveTier(tiers, tier)
    ensures r[if IsLiveTier(tiers, tier) then 0 else 1..] == QuantityFieldErrors(quantity)
  {
    (if IsLiveTier(tiers, tier) then [] else [TierNotFound]) + QuantityFieldErrors(quantity)
  }

  /** BookingCreateSerializer.validate: the tier's event must be PUBLISHED and
      not yet started, and the availability read before any lock must
      cover the quantity. The checks run in that order. */
  function ValidateBookingCreate(event: Event, tier: Tier, q: int, now: Time): (r: Verdict)
    ensures r.Accept? <==> event.status == Published && event.startsAt > now && Available(tier) >= q
    ensures event.status != Published ==> r == Reject(NotAvailableForBooking)
    ensures event.status == Published && event.startsAt <= now ==> r == Reject(EventStarted)
    ensures event.status == Published && event.startsAt > now && Available(tier) < q
            ==> r == Reject(OnlyAvailable(Available(tier)))
  {
    if event.status != Published then Reject(NotAvailableForBooking)
    else if event.startsAt <= now then Reject(EventStarted)
    else if Available(tier) < q then Reject(OnlyAvailable(Available(tier)))
    else Accept
  }

  /** BookingCancelSerializer.validate; `event` is the booking's tier's event. */
  function ValidateCancel(b: Booking, event: Event, now: Time): (r: Verdict)
    ensures r.Accept? <==> !b.status.Cancelled? && event.startsAt > now
    ensures b.status.Cancelled? ==> r == Reject(BookingAlreadyCancelled)
    ensures !b.status.Cancelled? && event.startsAt <= now ==> r == Reject(PastEvent)
  {
    if b.status == BookingStatus.Cancelled then Reject(BookingAlreadyCancelled)
    else if event.startsAt <= now then Reject(PastEvent)
    else Accept
  }

  /** BookingConfirmSerializer.validate: a booking whose expiry equals `now`
      has expired; one without an expiry never does. */
  function ValidateConfirm(b: Booking, now: Time): (r: Verdict)
    ensures r.Accept? <==> b.status.Pending? && (b.expiresAt.None? || b.expiresAt.value > now)
    ensures !b.status.Pending? ==> r == Reject(NotPending)
    ensures b.status.Pending? && b.expiresAt.Some? && b.expiresAt.value <= now ==> r == Reject(BookingExpired)
  {
    if b.status != Pending then Reject(NotPending)
    else if b.expiresAt.Some? && b.expiresAt.value <= now then Reject(BookingExpired)
    else Accept
  }

  /** BookingRefundSerializer.validate: anything but a CANCELLED booking. */
  function ValidateRefund(b: Booking): (r: Verdict)
    ensures r.Accept? <==> !b.status.Cancelled?
    ensures r.Reject? ==> r.error == BookingAlreadyCancelled
  {
    if b.status == BookingStatus.Cancelled then Reject(BookingAlreadyCancelled) else Accept
  }

  // ---------------------------------------------------------------------------
  // Event serializers: validation
  // ---------------------------------------------------------------------------

  /** Whether the event has a live tier (`event.tickets.exists()`, which goes
      through the default manager). */
  predicate HasLiveTier(tiers: seq<Tier>, e: nat) {
    exists t :: 0 <= t < |tiers| && tiers[t].event == e && IsAlive(tiers[t].meta)
  }

  /** EventPublishSerializer.validate; `hasTier` is whether the event has a live tier. */
  function ValidatePublish(e: Event, hasTier: bool, now: Time): (r: Verdict)
    ensures r.Accept? <==> e.status == Draft && e.startsAt > now && hasTier
    ensures e.status == Published ==> r == Reject(EventAlreadyPublished)
    ensures e.status == EventStatus.Cancelled ==> r == Reject(PublishCancelledEvent)
    ensures e.status == Draft && e.startsAt <= now ==> r == Reject(PublishStartedEvent)
    ensures e.status == Draft && e.startsAt > now && !hasTier ==> r == Reject(NoTicketTier)
  {
    match e.status
    case Published => Reject(EventAlreadyPublished)
    case Cancelled => Reject(PublishCancelledEvent)
    case Draft =>
      if e.startsAt <= now then Reject(PublishStartedEvent)
      else if !hasTier then Reject(NoTicketTier)
      else Accept
  }

  /** EventCancelEventSerializer.validate: anything not cancelled yet,
      published, draft, started or over. */
  function ValidateCancelEvent(e: Event): (r: Verdict)
    ensures r.Accept? <==> !e.status.Cancelled?
    ensures r.Reject? ==> r.error == EventAlreadyCancelled
  {
    if e.status == EventStatus.Cancelled then Reject(EventAlreadyCancelled) else Accept
  }

  /** EventCreateSerializer.validate: a start strictly before `now` is
      refused first, then an end not after the start. Absent times skip
      their check. */
  function ValidateEventCreate(starts: Option<Time>, ends: Option<Time>, now: Time): (r: Verdict)
    ensures r.Accept? <==> (starts.Some? ==> starts.value >= now)
                           && (starts.Some? && ends.Some? ==> ends.value > starts.value)
    ensures starts.Some? && starts.value < now ==> r == Reject(StartsInPast)
    ensures r.Reject? && (starts.None? || starts.value >= now) ==> r == Reject(EndsNotAfterStarts)
  {
    if starts.Some? && starts.value < now then Reject(StartsInPast)
    else if ends.Some? && starts.Some? && ends.value <= starts.value then Reject(EndsNotAfterStarts)
    else Accept
  }

  /** EventManageSerializer.validate. A time left out of the request falls
      back to the instance's; the order check comes first, and only a new
      event (no instance) has its start checked against `now`. */
  function ValidateEventManage(starts: Option<Time>, ends: Option<Time>, instance: Option<Event>, now: Time): (r: Verdict)
    ensures r.Accept? <==>
      var s := if starts.Some? then starts else if instance.Some? then Some(instance.value.startsAt) else None;
      var e := if ends.Some? then ends else if instance.Some? then Some(instance.value.endsAt) else None;
      (s.Some? && e.Some? ==> e.value > s.value) && (instance.None? && s.Some? ==> s.value >= now)
    ensures instance.Some? && r.Reject? ==> r.error == EndsNotAfterStarts
  {
    var s := if starts.Some? then starts else if instance.Some? then Some(instance.value.startsAt) else None;
    var e := if ends.Some? then ends else if instance.Some? then Some(instance.value.endsAt) else None;
    if s.Some? && e.Some? && e.value <= s.value then Reject(EndsNotAfterStarts)
    else if instance.None? && s.Some? && s.value < now then Reject(StartsInPast)
    else Accept
  }

  /** The two event validators accept the same new events, but report a
      different error when both checks fail: EventCreate the start, EventManage the end. */
  lemma EventValidatorsAgree(starts: Time, ends: Time, now: Time)
    ensures ValidateEventCreate(Some(starts), Some(ends), now).Accept?
            <==> ValidateEventManage(Some(starts), Some(ends), None, now).Accept?
    ensures starts < now && ends <= starts ==>
            ValidateEventCreate(Some(starts), Some(ends), now) == Reject(StartsInPast)
            && ValidateEventManage(Some(starts), Some(ends), None, now) == Reject(EndsNotAfterStarts)
  {
  }

  /** An update may move a start into the past: only the order of the two
      times is checked against the instance. */
  lemma UpdateMayStartInPast(instance: Event, starts: Time, now: Time)
    requires starts < now && instance.endsAt > starts
    ensures ValidateEventManage(Some(starts), None, Some(instance), now).Accept?
  {
  }

  /** EventManageSerializer.validate_organization, and
      TicketManageSerializer.validate_event with the event's organisation:
      staff and superusers pass, anyone else needs an OWNER or MANAGER
      membership of that organisation. */
  function ValidateOrganization(u: User, ms: seq<OrganizationMembership>, org: nat): (r: Verdict)
    ensures r.Accept? <==> IsOrganizationOwnerOrManager(u, ms, Some(org))
    ensures r.Reject? ==> r.error == NotOwnerOrManager
  {
    if IsStaffOrSuperuser(u) then Accept
    else if HasManagingRole(ms, u.id, org) then Accept
    else Reject(NotOwnerOrManager)
  }

  // ---------------------------------------------------------------------------
  // Tier serializer: validation
  // ---------------------------------------------------------------------------

  /** TicketManageSerializer.validate. `event` is the event the tier is or
      will be on; `instance` the tier being updated, None on create; `quota`
      the submitted quota, if any. */
  function ValidateTicketManage(event: Event, instance: Option<Tier>, quota: Option<int>): (r: Verdict)
    ensures r.Accept? <==> !event.status.Cancelled?
                           && (instance.Some? ==> (if quota.Some? then quota.value else instance.value.quota) >= instance.value.sold)
    ensures event.status.Cancelled? ==> r == Reject(TicketsOfCancelledEvent)
    ensures !event.status.Cancelled? && r.Reject? ==> instance.Some? && r == Reject(QuotaBelowSold(instance.value.sold))
  {
    if event.status == EventStatus.Cancelled then Reject(TicketsOfCancelledEvent)
    else if instance.Some? && (if quota.Some? then quota.value else instance.value.quota) < instance.value.sold
    then Reject(QuotaBelowSold(instance.value.sold))
    else Accept
  }

  /** The writable fields of TicketManageSerializer as a request sends
      them; a field left out is None. */
  datatype TierPatch = TierPatch(event: Option<nat>, ticketType: Option<TicketType>,
                                 price: Option<int>, quota: Option<int>)

  /** The field-level errors of TicketManageSerializer, in field order: the
      event field (a key of no live event, or `validate_event` on the
      event's organisation), the required fields a full write leaves out,
      and the quota field's bound. */
  function TierFieldErrors(u: User, ms: seq<OrganizationMembership>, events: seq<Event>, partial: bool, p: TierPatch)
    : (r: seq<Error>)
    ensures r == [] <==> (!partial ==> p.event.Some? && p.ticketType.Some? && p.price.Some?)
                         && (p.event.Some? ==> p.event.value < |events| && IsAlive(events[p.event.value].meta)
                                               && IsOrganizationOwnerOrManager(u, ms, Some(events[p.event.value].organization)))
                         && (p.quota.Some? ==> p.quota.value >= 0)
    ensures EventNotFound in r <==> p.event.Some? && !(p.event.value < |events| && IsAlive(events[p.event.value].meta))
    ensures NotOwnerOrManager in r <==> p.event.Some? && p.event.value < |events| && IsAlive(events[p.event.value].meta)
                                        && !IsOrganizationOwnerOrManager(u, ms, Some(events[p.event.value].organization))
    ensures NegativeQuota in r <==> p.quota.Some? && p.quota.value < 0
  {
    (if p.event.None? then (if partial then [] else [FieldRequired("event")])
     else if !(p.event.value < |events| && IsAlive(events[p.event.value].meta)) then [EventNotFound]
     else if ValidateOrganization(u, ms, events[p.event.value].organization).Reject? then [NotOwnerOrManager]
     else [])
    + (if !partial && p.ticketType.None? then [FieldRequired("ticket_type")] else [])
    + (if !partial && p.price.None? then [FieldRequired("price")] else [])
    + (if p.quota.Some? && p.quota.value < 0 then [NegativeQuota] else [])
  }

  /** The row a tier update saves: every field sent replaces the stored one. */
  function PatchTier(x: Tier, p: TierPatch): Tier {
    x.(event := ValueOr(p.event, x.event), ticketType := ValueOr(p.ticketType, x.ticketType),
       price := ValueOr(p.price, x.price), quota := ValueOr(p.quota, x.quota))
  }

  // ---------------------------------------------------------------------------
  // Event serializer: fields
  // ---------------------------------------------------------------------------

  /** The writable fields of EventManageSerializer as a request sends them;
      a field left out is None, and `capacity` may be sent as null. */
  datatype EventPatch = EventPatch(title: Option<string>, description: Option<string>, organization: Option<nat>,
                                   venue: Option<nat>, category: Option<nat>, startsAt: Option<Time>,
                                   endsAt: Option<Time>, status: Option<EventStatus>, capacity: Option<Option<int>>)

  /** Whether the capacity sent, if any, passes the field's lower bound. */
  predicate CapacityOk(p: EventPatch) {
    p.capacity.Some? && p.capacity.value.Some? ==> p.capacity.value.value >= 0
  }

  /** The errors of the title field: left out of a full write, blank, or
      the title of a live event other than `self` (the uniqueness validator
      runs over the default manager). */
  function TitleFieldErrors(events: seq<Event>, self: Option<nat>, partial: bool, title: Option<string>): (r: seq<Error>)
    ensures r == [] <==> (!partial ==> title.Some?)
                         && (title.Some? ==> title.value != "" && !LiveTitleElsewhere(events, self, title.value))
    ensures TitleTaken in r <==> title.Some? && title.value != "" && LiveTitleElsewhere(events, self, title.value)
    ensures NotOwnerOrManager !in r && NegativeCapacity !in r
  {
    if title.None? then (if partial then [] else [FieldRequired("title")])
    else if title.value == "" then [FieldBlank("title")]
    else if LiveTitleElsewhere(events, self, title.value) then [TitleTaken]
    else []
  }

  /** The errors of the organisation field: left out of a full write, or
      refused by `validate_organization`. */
  function OrganizationFieldErrors(u: User, ms: seq<OrganizationMembership>, partial: bool, org: Option<nat>): (r: seq<Error>)
    ensures r == [] <==> (!partial ==> org.Some?) && (org.Some? ==> IsOrganizationOwnerOrManager(u, ms, org))
    ensures NotOwnerOrManager in r <==> org.Some? && !IsOrganizationOwnerOrManager(u, ms, org)
    ensures TitleTaken !in r && NegativeCapacity !in r
  {
    if org.None? then (if partial then [] else [FieldRequired("organization")])
    else if ValidateOrganization(u, ms, org.value).Reject? then [NotOwnerOrManager]
    else []
  }

  /** The errors of the other required fields a full write leaves out. */
  function RequiredEventFieldErrors(partial: bool, p: EventPatch): (r: seq<Error>)
    ensures r == [] <==> (!partial ==> p.venue.Some? && p.category.Some? && p.startsAt.Some? && p.endsAt.Some?)
    ensures TitleTaken !in r && NotOwnerOrManager !in r && NegativeCapacity !in r
  {
    (if !partial && p.venue.None? then [FieldRequired("venue")] else [])
    + (if !partial && p.category.None? then [FieldRequired("category")] else [])
    + (if !partial && p.startsAt.None? then [FieldRequired("starts_at")] else [])
    + (if !partial && p.endsAt.None? then [FieldRequired("ends_at")] else [])
  }

  /** The field-level errors of EventManageSerializer, in field order: the
      title field, the organisation field, the other required fields a
      full write leaves out, and the capacity field's bound. `self` is the
      event updated, None on create. */
  function EventFieldErrors(u: User, ms: seq<OrganizationMembership>, events: seq<Event>, self: Option<nat>,
                            partial: bool, p: EventPatch): (r: seq<Error>)
    ensures r == [] <==> (!partial ==> p.title.Some? && p.organization.Some? && p.venue.Some?
                                       && p.category.Some? && p.startsAt.Some? && p.endsAt.Some?)
                         && (p.title.Some? ==> p.title.value != "" && !LiveTitleElsewhere(events, self, p.title.value))
                         && (p.organization.Some? ==> IsOrganizationOwnerOrManager(u, ms, p.organization))
                         && CapacityOk(p)
    ensures TitleTaken in r <==> p.title.Some? && p.title.value != "" && LiveTitleElsewhere(events, self, p.title.value)
    ensures NotOwnerOrManager in r <==> p.organization.Some? && !IsOrganizationOwnerOrManager(u, ms, p.organization)
    ensures NegativeCapacity in r <==> !CapacityOk(p)
  {
    var title := TitleFieldErrors(events, self, partial, p.title);
    var org := OrganizationFieldErrors(u, ms, partial, p.organization);
    var required := RequiredEventFieldErrors(partial, p);
    var capacity := if !CapacityOk(p) then [NegativeCapacity] else [];
    title + org + required + capacity
  }

  /** The row an event write saves: every field sent replaces the stored one. */
  function PatchEvent(x: Event, p: EventPatch): Event
    requires CapacityOk(p)
  {
    x.(title := ValueOr(p.title, x.title), description := ValueOr(p.description, x.description),
       organization := ValueOr(p.organization, x.organization), venue := ValueOr(p.venue, x.venue),
       category := ValueOr(p.category, x.category), startsAt := ValueOr(p.startsAt, x.startsAt),
       endsAt := ValueOr(p.endsAt, x.endsAt), status := ValueOr(p.status, x.status),
       capacity := if p.capacity.None? then x.capacity
                   else if p.capacity.value.None? then None
                   else Some(p.capacity.value.value))
  }

  /** The response to field errors: one is reported alone, several together. */
  function FieldError(errors: seq<Error>): Error
    requires errors != []
  {
    if |errors| == 1 then errors[0] else Fields(errors)
  }

  // ---------------------------------------------------------------------------
  // Membership serializer: validation
  // ---------------------------------------------------------------------------

  /** The user with this e-mail; e-mails are unique, so the first match is the only one. */
  function FindUser(emails: seq<string>, email: string): (r: Option<nat>)
    ensures r.Some? ==> r.value < |emails| && emails[r.value] == email
    ensures r.None? <==> email !in emails
    ensures r.Some? ==> forall k :: 0 <= k < r.value ==> emails[k] != email
  {
    if |emails| == 0 then None
    else if emails[0] == email then Some(0)
    else match FindUser(emails[1..], email)
      case None => None
      case Some(k) => Some(k + 1)
  }

  /** OrganizationMembershipCreateSerializer: `validate_user_email` turns the
      e-mail into a user, then `validate` refuses a user who already has a
      membership in that organisation, whatever its role. Returns the user. */
  function ValidateMembershipCreate(emails: seq<string>, ms: seq<OrganizationMembership>, email: string, org: nat): (r: Result<nat>)
    ensures r.Ok? <==> email in emails && !HasMembership(ms, FindUser(emails, email).value, org)
    ensures r.Ok? ==> r.value < |emails| && emails[r.value] == email
    ensures email !in emails ==> r == Err(UserNotFound)
    ensures email in emails && r.Err? ==> r == Err(AlreadyMember)
  {
    match FindUser(emails, email)
    case None => Err(UserNotFound)
    case Some(u) => if HasMembership(ms, u, org) then Err(AlreadyMember) else Ok(u)
  }

  // ---------------------------------------------------------------------------
  // The database and the saves
  // ---------------------------------------------------------------------------

  /** A pending booking as `create` writes it. */
  function PendingBooking(user: nat, tier: nat, quantity: int, now: Time): Booking {
    Booking(user, tier, quantity, Pending, Some(now + HoldSeconds), NewSubstrate)
  }

  /** Whether `t` names a tier the default manager returns. */
  predicate IsLiveTier(tiers: seq<Tier>, t: nat) {
    t < |tiers| && IsAlive(tiers[t].meta)
  }

  /** The event, tier and booking tables. */
  class Database {
    var events: seq<Event>
    var tiers: seq<Tier>
    var bookings: seq<Booking>

    /** What the database itself guarantees of its tables. */
    predicate Persisted()
      reads this
    {
      TablesPersisted(events, tiers, bookings)
    }

    /** The persisted constraints together with the ledger invariant. */
    predicate Valid()
      reads this
    {
      Persisted() && LedgerOk(tiers, bookings)
    }

    /** An empty database. */
    constructor ()
      ensures events == [] && tiers == [] && bookings == []
      ensures Valid()
    {
      events, tiers, bookings := [], [], [];
    }

    /** BookingCreateSerializer.create, with the validated tier and
        quantity: under the row lock the tier is read again and its
        availability checked again; `sold` is raised and saved, then the
        booking is inserted. A refused insert rolls the tier back. */
    method CreateBooking(user: nat, tier: nat, quantity: int, now: Time) returns (r: Result<nat>)
      requires Persisted()
      modifies this
      ensures Persisted() && events == old(events)
      ensures old(LedgerOk(tiers, bookings)) ==> LedgerOk(tiers, bookings)
      ensures r.Ok? <==> IsLiveTier(old(tiers), tier) && Available(old(tiers)[tier]) >= quantity && quantity > 1
      ensures r.Ok? ==> r.value == |old(bookings)|
                        && tiers == old(tiers)[tier := old(tiers)[tier].(sold := old(tiers)[tier].sold + quantity)]
                        && bookings == old(bookings) + [PendingBooking(user, tier, quantity, now)]
      ensures r.Err? ==> tiers == old(tiers) && bookings == old(bookings)
      ensures !IsLiveTier(old(tiers), tier) ==> r == Err(TierNotFound)
      ensures IsLiveTier(old(tiers), tier) && Available(old(tiers)[tier]) < quantity
              ==> r == Err(OnlyAvailable(Available(old(tiers)[tier])))
      ensures IsLiveTier(old(tiers), tier) && Available(old(tiers)[tier]) >= quantity && quantity <= 1
              ==> r == Err(Integrity(if old(tiers)[tier].sold + quantity < 0 then SoldNonNegative else BookingQuantityAboveOne))
    {
      if tier >= |tiers| || !IsAlive(tiers[tier].meta) {
        return Err(TierNotFound);
      }
      var ticket := tiers[tier];
      var available := ticket.quota - ticket.sold;
      if available < quantity {
        return Err(OnlyAvailable(available));
      }
      var snapshot := tiers;
      ticket := ticket.(sold := ticket.sold + quantity);
      var violation := TierViolation(ticket);
      if violation.Some? {
        return Err(Integrity(violation.value));
      }
      tiers := tiers[tier := ticket];
      var booking := PendingBooking(user, tier, quantity, now);
      if !BookingCheck(booking) {
        tiers := snapshot;
        return Err(Integrity(BookingQuantityAboveOne));
      }
      UpdateTierUnique(snapshot, tier, ticket);
      if LedgerOk(snapshot, bookings) {
        ReservePreserves(snapshot, bookings, booking);
      }
      bookings := bookings + [booking];
      r := Ok(|bookings| - 1);
    }

    /** A booking request: the tier and quantity field errors, collected
        together; then `validate`, whose `attrs['quantity']` fails when the
        quantity was left out; then `create`. Returns the new booking's id. */
    method Book(user: nat, tier: nat, quantity: Option<int>, now: Time) returns (r: Result<nat>)
      requires Persisted()
      modifies this
      ensures Persisted() && events == old(events)
      ensures old(LedgerOk(tiers, bookings)) ==> LedgerOk(tiers, bookings)
      ensures r.Ok? <==> IsLiveTier(old(tiers), tier) && quantity.Some?
                         && 2 <= quantity.value <= MaxQuantity
                         && old(events)[old(tiers)[tier].event].status == Published
                         && old(events)[old(tiers)[tier].event].startsAt > now
                         && Available(old(tiers)[tier]) >= quantity.value
      ensures r.Ok? ==> r.value == |old(bookings)|
                        && tiers == old(tiers)[tier := old(tiers)[tier].(sold := old(tiers)[tier].sold + quantity.value)]
                        && bookings == old(bookings) + [PendingBooking(user, tier, quantity.value, now)]
      ensures r.Err? ==> tiers == old(tiers) && bookings == old(bookings)
      ensures BookingFieldErrors(old(tiers), tier, quantity) != []
              ==> r == Err(FieldError(BookingFieldErrors(old(tiers), tier, quantity)))
      ensures BookingFieldErrors(old(tiers), tier, quantity) == [] && quantity.None? ==> r == Err(QuantityMissing)
      ensures BookingFieldErrors(old(tiers), tier, quantity) == [] && quantity.Some?
              && ValidateBookingCreate(old(events)[old(tiers)[tier].event], old(tiers)[tier], quantity.value, now).Reject?
              ==> r == Err(ValidateBookingCreate(old(events)[old(tiers)[tier].event], old(tiers)[tier], quantity.value, now).error)
      ensures quantity == Some(1) && IsLiveTier(old(tiers), tier)
              && ValidateBookingCreate(old(events)[old(tiers)[tier].event], old(tiers)[tier], 1, now).Accept?
              ==> r == Err(Integrity(BookingQuantityAboveOne))
    {
      var errors := BookingFieldErrors(tiers, tier, quantity);
      if errors != [] {
        return Err(FieldError(errors));
      }
      if quantity.None? {
        return Err(QuantityMissing);
      }
      var q := quantity.value;
      var v := ValidateBookingCreate(events[tiers[tier].event], tiers[tier], q, now);
      if v.Reject? {
        return Err(v.error);
      }
      r := CreateBooking(user, tier, q, now);
    }

    /** BookingConfirmSerializer: validate, then set CONFIRMED and clear the
        expiry; `sold` is not touched. */
    method ConfirmBooking(i: nat, now: Time) returns (v: Verdict)
      requires Persisted() && i < |bookings|
      modifies this
      ensures Persisted() && events == old(events) && tiers == old(tiers)
      ensures old(LedgerOk(tiers, bookings)) ==> LedgerOk(tiers, bookings)
      ensures v == ValidateConfirm(old(bookings)[i], now)
      ensures v.Accept? ==> bookings == old(bookings)[i := old(bookings)[i].(status := Confirmed, expiresAt := None)]
      ensures v.Reject? ==> bookings == old(bookings)
    {
      v := ValidateConfirm(bookings[i], now);
      if v.Accept? {
        if LedgerOk(tiers, bookings) {
          ConfirmPreserves(tiers, bookings, i);
        }
        bookings := bookings[i := bookings[i].(status := Confirmed, expiresAt := None)];
      }
    }

    /** BookingCancelSerializer: validate, then under the lock take the
        quantity off the tier's `sold` and set CANCELLED; `expires_at` is
        left as it was. The tier is read through the default manager, and
        the write of `sold` is subject to its non-negativity check. Under
        the ledger invariant neither of those can fail. */
    method CancelBooking(i: nat, now: Time) returns (r: Result<nat>)
      requires Persisted() && i < |bookings|
      modifies this
      ensures Persisted() && events == old(events)
      ensures old(LedgerOk(tiers, bookings)) ==> LedgerOk(tiers, bookings)
      ensures ValidateCancel(old(bookings)[i], old(events)[old(tiers)[old(bookings)[i].tier].event], now).Reject?
              ==> r == Err(ValidateCancel(old(bookings)[i], old(events)[old(tiers)[old(bookings)[i].tier].event], now).error)
      ensures old(LedgerOk(tiers, bookings)) ==>
              (r.Ok? <==> ValidateCancel(old(bookings)[i], old(events)[old(tiers)[old(bookings)[i].tier].event], now).Accept?)
      ensures r.Ok? ==> r.value == i
                        && tiers == old(tiers)[old(bookings)[i].tier := old(tiers)[old(bookings)[i].tier].(sold := old(tiers)[old(bookings)[i].tier].sold - old(bookings)[i].quantity)]
                        && bookings == old(bookings)[i := old(bookings)[i].(status := BookingStatus.Cancelled)]
      ensures r.Err? ==> tiers == old(tiers) && bookings == old(bookings)
    {
      var b := bookings[i];
      var v := ValidateCancel(b, events[tiers[b.tier].event], now);
      if v.Reject? {
        return Err(v.error);
      }
      if LedgerOk(tiers, bookings) {
        ReleasePreserves(tiers, bookings, i);
      }
      if !IsAlive(tiers[b.tier].meta) {
        return Err(TierNotFound);
      }
      var ticket := tiers[b.tier].(sold := tiers[b.tier].sold - b.quantity);
      var violation := TierViolation(ticket);
      if violation.Some? {
        return Err(Integrity(violation.value));
      }
      TierRewriteKeeps(events, tiers, bookings, b.tier, ticket);
      StatusRewriteKeeps(tiers[b.tier := ticket], bookings, i, BookingStatus.Cancelled);
      tiers, bookings := tiers[b.tier := ticket], bookings[i := b.(status := BookingStatus.Cancelled)];
      r := Ok(i);
    }

    /** BookingRefundSerializer: validate, then return the quantity to the
        tier only when the booking was CONFIRMED, and set CANCELLED in every
        case. A PENDING booking is cancelled with its seats still counted. */
    method RefundBooking(i: nat) returns (r: Result<nat>)
      requires Persisted() && i < |bookings|
      modifies this
      ensures Persisted() && events == old(events)
      ensures old(LedgerOk(tiers, bookings)) ==> LedgerOk(tiers, bookings)
      ensures old(bookings)[i].status.Cancelled? ==> r == Err(BookingAlreadyCancelled)
      ensures old(LedgerOk(tiers, bookings)) ==> (r.Ok? <==> !old(bookings)[i].status.Cancelled?)
      ensures r.Ok? ==> r.value == i && bookings == old(bookings)[i := old(bookings)[i].(status := BookingStatus.Cancelled)]
      ensures r.Ok? && old(bookings)[i].status.Confirmed? ==>
              tiers == old(tiers)[old(bookings)[i].tier := old(tiers)[old(bookings)[i].tier].(sold := old(tiers)[old(bookings)[i].tier].sold - old(bookings)[i].quantity)]
      ensures r.Ok? && old(bookings)[i].status.Pending? ==> tiers == old(tiers)
      ensures r.Err? ==> tiers == old(tiers) && bookings == old(bookings)
    {
      var b := bookings[i];
      var v := ValidateRefund(b);
      if v.Reject? {
        return Err(v.error);
      }
      if b.status == Confirmed {
        if LedgerOk(tiers, bookings) {
          ReleasePreserves(tiers, bookings, i);
        }
        if !IsAlive(tiers[b.tier].meta) {
          return Err(TierNotFound);
        }
        var ticket := tiers[b.tier].(sold := tiers[b.tier].sold - b.quantity);
        var violation := TierViolation(ticket);
        if violation.Some? {
          return Err(Integrity(violation.value));
        }
        TierRewriteKeeps(events, tiers, bookings, b.tier, ticket);
        StatusRewriteKeeps(tiers[b.tier := ticket], bookings, i, BookingStatus.Cancelled);
        tiers, bookings := tiers[b.tier := ticket], bookings[i := b.(status := BookingStatus.Cancelled)];
      } else {
        if LedgerOk(tiers, bookings) {
          ForfeitPreserves(tiers, bookings, i);
        }
        StatusRewriteKeeps(tiers, bookings, i, BookingStatus.Cancelled);
        bookings := bookings[i := b.(status := BookingStatus.Cancelled)];
      }
      r := Ok(i);
    }

    /** EventPublishSerializer: validate, then set PUBLISHED. */
    method PublishEvent(e: nat, now: Time) returns (v: Verdict)
      requires Persisted() && e < |events|
      modifies this`events
      ensures Persisted() && tiers == old(tiers) && bookings == old(bookings)
      ensures v == ValidatePublish(old(events)[e], HasLiveTier(tiers, e), now)
      ensures v.Accept? ==> events == old(events)[e := old(events)[e].(status := Published)]
      ensures v.Reject? ==> events == old(events)
    {
      v := ValidatePublish(events[e], HasLiveTier(tiers, e), now);
      if v.Accept? {
        UpdateEventUnique(events, e, events[e].(status := Published));
        events := events[e := events[e].(status := Published)];
      }
    }

    /** EventCancelEventSerializer: validate, then set CANCELLED. No tier
        and no booking changes: existing bookings keep their seats. */
    method CancelEvent(e: nat) returns (v: Verdict)
      requires Persisted() && e < |events|
      modifies this`events
      ensures Persisted() && tiers == old(tiers) && bookings == old(bookings)
      ensures v == ValidateCancelEvent(old(events)[e])
      ensures v.Accept? ==> events == old(events)[e := old(events)[e].(status := EventStatus.Cancelled)]
      ensures v.Reject? ==> events == old(events)
    {
      v := ValidateCancelEvent(events[e]);
      if v.Accept? {
        UpdateEventUnique(events, e, events[e].(status := EventStatus.Cancelled));
        events := events[e := events[e].(status := EventStatus.Cancelled)];
      }
    }

    /** TicketManageSerializer on create: the field errors, `validate` (not
        on a cancelled event), then the insert, which the price check and
        the per-event unique ticket type can refuse. The quota defaults to
        0. Returns the new tier's id. */
    method CreateTier(u: User, ms: seq<OrganizationMembership>, p: TierPatch) returns (r: Result<nat>)
      requires Persisted()
      modifies this`tiers
      ensures Persisted() && events == old(events) && bookings == old(bookings)
      ensures old(LedgerOk(tiers, bookings)) ==> LedgerOk(tiers, bookings)
      ensures r.Ok? <==> p.event.Some? && p.ticketType.Some? && p.price.Some?
                         && p.event.value < |events| && IsAlive(events[p.event.value].meta)
                         && IsOrganizationOwnerOrManager(u, ms, Some(events[p.event.value].organization))
                         && ValueOr(p.quota, 0) >= 0 && !events[p.event.value].status.Cancelled?
                         && p.price.value >= 0 && !HasTierOfType(old(tiers), p.event.value, p.ticketType.value)
      ensures r.Ok? ==> r.value == |old(tiers)|
                        && tiers == old(tiers) + [Tier(p.event.value, p.ticketType.value, p.price.value, ValueOr(p.quota, 0), 0, NewSubstrate)]
      ensures r.Err? ==> tiers == old(tiers)
      ensures TierFieldErrors(u, ms, events, false, p) != [] ==> r == Err(FieldError(TierFieldErrors(u, ms, events, false, p)))
      ensures TierFieldErrors(u, ms, events, false, p) == [] && events[p.event.value].status.Cancelled?
              ==> r == Err(TicketsOfCancelledEvent)
      ensures TierFieldErrors(u, ms, events, false, p) == [] && !events[p.event.value].status.Cancelled? && r.Err?
              ==> r.error.Integrity?
    {
      var errors := TierFieldErrors(u, ms, events, false, p);
      if errors != [] {
        return Err(FieldError(errors));
      }
      var e := p.event.value;
      var v := ValidateTicketManage(events[e], None, p.quota);
      if v.Reject? {
        return Err(v.error);
      }
      var t := Tier(e, p.ticketType.value, p.price.value, ValueOr(p.quota, 0), 0, NewSubstrate);
      var violation := TierViolation(t);
      if violation.Some? {
        return Err(Integrity(violation.value));
      }
      if HasTierOfType(tiers, e, t.ticketType) {
        return Err(Integrity(EventTicketTypeUnique));
      }
      AppendTierUnique(tiers, t);
      if LedgerOk(tiers, bookings) {
        AddTierPreserves(tiers, bookings, t);
      }
      tiers := tiers + [t];
      r := Ok(|tiers| - 1);
    }

    /** TicketManageSerializer on update of tier `t`: the field errors,
        `validate` (not on a cancelled event, the new one when the tier is
        moved; the new quota, or the old one when none is sent, not below
        `sold`), then the save, which the price check and the per-event
        unique ticket type can refuse. `partial` is a PATCH. */
    method UpdateTier(u: User, ms: seq<OrganizationMembership>, t: nat, partial: bool, p: TierPatch)
      returns (r: Result<nat>)
      requires Persisted() && t < |tiers|
      modifies this`tiers
      ensures Persisted() && events == old(events) && bookings == old(bookings)
      ensures old(LedgerOk(tiers, bookings)) ==> LedgerOk(tiers, bookings)
      ensures r.Ok? <==> TierFieldErrors(u, ms, events, partial, p) == []
                         && ValidateTicketManage(events[ValueOr(p.event, old(tiers)[t].event)], Some(old(tiers)[t]), p.quota).Accept?
                         && ValueOr(p.price, old(tiers)[t].price) >= 0
                         && !TypeTakenElsewhere(old(tiers), t, ValueOr(p.event, old(tiers)[t].event),
                                                ValueOr(p.ticketType, old(tiers)[t].ticketType))
      ensures r.Ok? ==> r.value == t && tiers == old(tiers)[t := PatchTier(old(tiers)[t], p)]
      ensures r.Err? ==> tiers == old(tiers)
      ensures TierFieldErrors(u, ms, events, partial, p) != [] ==> r == Err(FieldError(TierFieldErrors(u, ms, events, partial, p)))
      ensures TierFieldErrors(u, ms, events, partial, p) == []
              && ValidateTicketManage(events[ValueOr(p.event, old(tiers)[t].event)], Some(old(tiers)[t]), p.quota).Accept?
              && r.Err?
              ==> r.error.Integrity?
      ensures r.Ok? ==> tiers[t].sold == old(tiers)[t].sold && (tiers[t].sold <= tiers[t].quota || !old(LedgerOk(tiers, bookings)))
    {
      var errors := TierFieldErrors(u, ms, events, partial, p);
      if errors != [] {
        return Err(FieldError(errors));
      }
      var ticket := PatchTier(tiers[t], p);
      var v := ValidateTicketManage(events[ticket.event], Some(tiers[t]), p.quota);
      if v.Reject? {
        return Err(v.error);
      }
      var violation := TierViolation(ticket);
      if violation.Some? {
        return Err(Integrity(violation.value));
      }
      if TypeTakenElsewhere(tiers, t, ticket.event, ticket.ticketType) {
        return Err(Integrity(EventTicketTypeUnique));
      }
      RetierUnique(tiers, t, ticket);
      if LedgerOk(tiers, bookings) {
        RequotaPreserves(tiers, bookings, t, ticket);
      }
      tiers := tiers[t := ticket];
      r := Ok(t);
    }

    /** EventManageSerializer on create: the field errors, `validate`, then
        the insert, which the unique title can still refuse when only a
        soft-deleted event has it. The status field is writable, so a new
        event can be created already PUBLISHED, without a tier. Returns the
        new event's id. */
    method CreateEvent(u: User, ms: seq<OrganizationMembership>, p: EventPatch, now: Time) returns (r: Result<nat>)
      requires Persisted()
      modifies this`events
      ensures Persisted() && tiers == old(tiers) && bookings == old(bookings)
      ensures r.Ok? <==> EventFieldErrors(u, ms, old(events), None, false, p) == []
                         && ValidateEventManage(p.startsAt, p.endsAt, None, now).Accept?
                         && !HasTitle(old(events), p.title.value)
      ensures r.Ok? ==> r.value == |old(events)| && events == old(events) +
                        [PatchEvent(NewEvent(p.organization.value, p.venue.value, p.category.value, p.title.value,
                                             p.startsAt.value, p.endsAt.value), p)]
      ensures r.Err? ==> events == old(events)
      ensures EventFieldErrors(u, ms, old(events), None, false, p) != []
              ==> r == Err(FieldError(EventFieldErrors(u, ms, old(events), None, false, p)))
      ensures EventFieldErrors(u, ms, old(events), None, false, p) == []
              && ValidateEventManage(p.startsAt, p.endsAt, None, now).Reject?
              ==> r == Err(ValidateEventManage(p.startsAt, p.endsAt, None, now).error)
      ensures r == Err(Integrity(EventTitleUnique)) ==>
              exists i :: 0 <= i < |old(events)| && !IsAlive(old(events)[i].meta) && old(events)[i].title == p.title.value
    {
      var errors := EventFieldErrors(u, ms, events, None, false, p);
      if errors != [] {
        return Err(FieldError(errors));
      }
      var v := ValidateEventManage(p.startsAt, p.endsAt, None, now);
      if v.Reject? {
        return Err(v.error);
      }
      var ev := PatchEvent(NewEvent(p.organization.value, p.venue.value, p.category.value, p.title.value,
                                    p.startsAt.value, p.endsAt.value), p);
      if HasTitle(events, ev.title) {
        return Err(Integrity(EventTitleUnique));
      }
      AppendEventUnique(events, ev);
      events := events + [ev];
      r := Ok(|events| - 1);
    }

    /** EventManageSerializer on update of event `e`: the field errors,
        `validate`, then the save, which the unique title can still refuse
        when only a soft-deleted event has the new title. Nothing there
        consults the publication rules, so a status can be set that the
        publish action would refuse. `partial` is a PATCH. */
    method UpdateEvent(u: User, ms: seq<OrganizationMembership>, e: nat, partial: bool, p: EventPatch, now: Time)
      returns (v: Verdict)
      requires Persisted() && e < |events|
      modifies this`events
      ensures Persisted() && tiers == old(tiers) && bookings == old(bookings)
      ensures v.Accept? <==> EventFieldErrors(u, ms, old(events), Some(e), partial, p) == []
                             && ValidateEventManage(p.startsAt, p.endsAt, Some(old(events)[e]), now).Accept?
                             && !TitleTakenElsewhere(old(events), Some(e), ValueOr(p.title, old(events)[e].title))
      ensures v.Accept? ==> events == old(events)[e := PatchEvent(old(events)[e], p)]
      ensures v.Reject? ==> events == old(events)
      ensures EventFieldErrors(u, ms, old(events), Some(e), partial, p) != []
              ==> v == Reject(FieldError(EventFieldErrors(u, ms, old(events), Some(e), partial, p)))
      ensures EventFieldErrors(u, ms, old(events), Some(e), partial, p) == []
              && ValidateEventManage(p.startsAt, p.endsAt, Some(old(events)[e]), now).Reject?
              ==> v == ValidateEventManage(p.startsAt, p.endsAt, Some(old(events)[e]), now)
      ensures v == Reject(Integrity(EventTitleUnique)) ==>
              p.title.Some? && exists i :: 0 <= i < |old(events)| && i != e && !IsAlive(old(events)[i].meta)
                                           && old(events)[i].title == p.title.value
    {
      var errors := EventFieldErrors(u, ms, events, Some(e), partial, p);
      if errors != [] {
        return Reject(FieldError(errors));
      }
      v := ValidateEventManage(p.startsAt, p.endsAt, Some(events[e]), now);
      if v.Reject? {
        return;
      }
      var ev := PatchEvent(events[e], p);
      if TitleTakenElsewhere(events, Some(e), ev.title) {
        if p.title.None? {
          assert false;
        }
        return Reject(Integrity(EventTitleUnique));
      }
      assert EventCheck(ev);
      RetitleKeeps(events, tiers, bookings, e, ev);
      events := events[e := ev];
    }

    /** `hard_delete()` on event `e`: refused with ProtectedError while a
        booking row is on one of its tiers; otherwise the event and its
        tiers are removed and every later row and reference is renumbered
        (`CollectEventRows`). */
    method HardDeleteEvent(e: nat) returns (v: Verdict)
      requires Persisted()
      modifies this
      ensures Persisted() && (old(LedgerOk(tiers, bookings)) ==> LedgerOk(tiers, bookings))
      ensures v.Reject? <==> exists i :: 0 <= i < |old(bookings)| && old(tiers)[old(bookings)[i].tier].event == e
      ensures v.Reject? ==> v.error == ProtectedError
                            && events == old(events) && tiers == old(tiers) && bookings == old(bookings)
      ensures v.Accept? ==> Deleted(events, tiers, bookings) == CollectEvent(old(events), old(tiers), old(bookings), e)
    {
      var r := CollectEvent(events, tiers, bookings, e);
      if r.Protected? {
        return Reject(ProtectedError);
      }
      CollectEventPersists(events, tiers, bookings, e);
      if LedgerOk(tiers, bookings) {
        CollectEventPreserves(events, tiers, bookings, e);
      }
      events, tiers, bookings := r.events, r.tiers, r.bookings;
      v := Accept;
    }

    /** `hard_delete()` on tier `t`: refused with ProtectedError while any
        booking row refers to it; otherwise the tier is removed and the
        bookings' references renumbered. */
    method HardDeleteTier(t: nat) returns (v: Verdict)
      requires Persisted()
      modifies this`tiers, this`bookings
      ensures Persisted() && (old(LedgerOk(tiers, bookings)) ==> LedgerOk(tiers, bookings))
      ensures v.Reject? <==> exists i :: 0 <= i < |old(bookings)| && old(bookings)[i].tier == t
      ensures v.Reject? ==> v.error == ProtectedError && tiers == old(tiers) && bookings == old(bookings)
      ensures v.Accept? ==> Deleted(events, tiers, bookings) == CollectTier(events, old(tiers), old(bookings), t)
    {
      var r := CollectTier(events, tiers, bookings, t);
      if r.Protected? {
        return Reject(ProtectedError);
      }
      if LedgerOk(tiers, bookings) {
        CollectTierPreserves(events, tiers, bookings, t);
      } else {
        CollectTierPersists(events, tiers, bookings, t);
      }
      tiers, bookings := r.tiers, r.bookings;
      v := Accept;
    }

    /** `hard_delete()` on a user: their bookings are removed with them. */
    method HardDeleteUser(user: nat)
      requires Persisted()
      modifies this`bookings
      ensures Persisted() && (old(LedgerOk(tiers, bookings)) ==> LedgerOk(tiers, bookings))
      ensures Deleted(events, tiers, bookings) == CollectUser(events, tiers, old(bookings), user)
    {
      var r := CollectUser(events, tiers, bookings, user);
      if LedgerOk(tiers, bookings) {
        CollectUserPreserves(events, tiers, bookings, user);
      } else {
        CollectUserPersists(events, tiers, bookings, user);
      }
      bookings := r.bookings;
    }
  }

  /** The update path is not gated by the publication rules: a DRAFT event
      without any tier, which publish refuses, passes the update
      validation with a PUBLISHED status. */
  lemma UpdateBypassesPublishGate(ev: Event, now: Time)
    requires ev.status == Draft && ev.startsAt > now && EventCheck(ev)
    ensures ValidatePublish(ev, false, now) == Reject(NoTicketTier)
    ensures ValidateEventManage(None, None, Some(ev), now).Accept?
  {
  }
}
