/** The second copy of the booking serializers, used by the versioned API:
    create, cancel and confirm (it has no refund). Its code is written out
    again here as it stands in that copy, and the lemmas show it behaves
    exactly as the first copy does. */
module ApiBooking {
  import opened Abstracts
  import opened Models
  import opened Ledger
  import opened Serializers

  /** BookingCreateSerializer.validate_quantity of this copy. */
  function QuantityVerdict(value: int): (r: Verdict)
    ensures r.Accept? <==> 1 <= value <= 10
  {
    if value < 1 then Reject(QuantityTooSmall)
    else if value > 10 then Reject(QuantityTooLarge)
    else Accept
  }

  /** BookingCreateSerializer.validate of this copy. */
  function CreateVerdict(event: Event, tier: Tier, quantity: int, now: Time): (r: Verdict)
    ensures r.Accept? ==> event.status == Published && event.startsAt > now && tier.quota - tier.sold >= quantity
  {
    if event.status != Published then Reject(NotAvailableForBooking)
    else if event.startsAt <= now then Reject(EventStarted)
    else if tier.quota - tier.sold < quantity then Reject(OnlyAvailable(tier.quota - tier.sold))
    else Accept
  }

  /** BookingCancelSerializer.validate of this copy. */
  function CancelVerdict(b: Booking, event: Event, now: Time): (r: Verdict)
    ensures r.Accept? ==> !b.status.Cancelled? && event.startsAt > now
  {
    if b.status == BookingStatus.Cancelled then Reject(BookingAlreadyCancelled)
    else if event.startsAt <= now then Reject(PastEvent)
    else Accept
  }

  /** BookingConfirmSerializer.validate of this copy. */
  function ConfirmVerdict(b: Booking, now: Time): (r: Verdict)
    ensures r.Accept? ==> b.status.Pending?
  {
    if b.status != Pending then Reject(NotPending)
    else if b.expiresAt.Some? && b.expiresAt.value <= now then Reject(BookingExpired)
    else Accept
  }

  /** Every validator of this copy returns, on every input, the same verdict
      and the same error as the first copy. */
  lemma ValidatorsAgree(q: int, event: Event, tier: Tier, b: Booking, now: Time)
    ensures QuantityVerdict(q) == ValidateQuantity(q)
    ensures CreateVerdict(event, tier, q, now) == ValidateBookingCreate(event, tier, q, now)
    ensures CancelVerdict(b, event, now) == ValidateCancel(b, event, now)
    ensures ConfirmVerdict(b, now) == ValidateConfirm(b, now)
  {
  }

  /** BookingCreateSerializer.create of this copy. */
  method Create(db: Database, user: nat, tier: nat, quantity: int, now: Time) returns (r: Result<nat>)
    requires db.Persisted()
    modifies db
    ensures db.Persisted() && db.events == old(db.events)
    ensures old(LedgerOk(db.tiers, db.bookings)) ==> LedgerOk(db.tiers, db.bookings)
    ensures r.Ok? <==> IsLiveTier(old(db.tiers), tier) && Available(old(db.tiers)[tier]) >= quantity && quantity > 1
    ensures r.Ok? ==> r.value == |old(db.bookings)|
                      && db.tiers == old(db.tiers)[tier := old(db.tiers)[tier].(sold := old(db.tiers)[tier].sold + quantity)]
                      && db.bookings == old(db.bookings) + [PendingBooking(user, tier, quantity, now)]
    ensures r.Err? ==> db.tiers == old(db.tiers) && db.bookings == old(db.bookings)
    ensures !IsLiveTier(old(db.tiers), tier) ==> r == Err(TierNotFound)
    ensures IsLiveTier(old(db.tiers), tier) && Available(old(db.tiers)[tier]) < quantity
            ==> r == Err(OnlyAvailable(Available(old(db.tiers)[tier])))
    ensures IsLiveTier(old(db.tiers), tier) && Available(old(db.tiers)[tier]) >= quantity && quantity <= 1
            ==> r == Err(Integrity(if old(db.tiers)[tier].sold + quantity < 0 then SoldNonNegative else BookingQuantityAboveOne))
  {
    if tier >= |db.tiers| || !IsAlive(db.tiers[tier].meta) {
      return Err(TierNotFound);
    }
    var ticket := db.tiers[tier];
    var available := ticket.quota - ticket.sold;
    if available < quantity {
      return Err(OnlyAvailable(available));
    }
    ticket := ticket.(sold := ticket.sold + quantity);
    var violation := TierViolation(ticket);
    if violation.Some? {
      return Err(Integrity(violation.value));
    }
    var booking := Booking(user, tier, quantity, Pending, Some(now + 15 * 60), NewSubstrate);
    if !BookingCheck(booking) {
      return Err(Integrity(BookingQuantityAboveOne));
    }
    UpdateTierUnique(db.tiers, tier, ticket);
    if LedgerOk(db.tiers, db.bookings) {
      ReservePreserves(db.tiers, db.bookings, booking);
    }
    db.tiers := db.tiers[tier := ticket];
    db.bookings := db.bookings + [booking];
    r := Ok(|db.bookings| - 1);
  }

  /** BookingCancelSerializer of this copy: validate, then save. */
  method Cancel(db: Database, i: nat, now: Time) returns (r: Result<nat>)
    requires db.Persisted() && i < |db.bookings|
    modifies db
    ensures db.Persisted() && db.events == old(db.events)
    ensures old(LedgerOk(db.tiers, db.bookings)) ==> LedgerOk(db.tiers, db.bookings)
    ensures ValidateCancel(old(db.bookings)[i], old(db.events)[old(db.tiers)[old(db.bookings)[i].tier].event], now).Reject?
            ==> r == Err(ValidateCancel(old(db.bookings)[i], old(db.events)[old(db.tiers)[old(db.bookings)[i].tier].event], now).error)
    ensures old(LedgerOk(db.tiers, db.bookings)) ==>
            (r.Ok? <==> ValidateCancel(old(db.bookings)[i], old(db.events)[old(db.tiers)[old(db.bookings)[i].tier].event], now).Accept?)
    ensures r.Ok? ==> r.value == i
                      && db.tiers == old(db.tiers)[old(db.bookings)[i].tier := old(db.tiers)[old(db.bookings)[i].tier].(sold := old(db.tiers)[old(db.bookings)[i].tier].sold - old(db.bookings)[i].quantity)]
                      && db.bookings == old(db.bookings)[i := old(db.bookings)[i].(status := BookingStatus.Cancelled)]
    ensures r.Err? ==> db.tiers == old(db.tiers) && db.bookings == old(db.bookings)
  {
    var booking := db.bookings[i];
    var v := CancelVerdict(booking, db.events[db.tiers[booking.tier].event], now);
    ValidatorsAgree(0, db.events[db.tiers[booking.tier].event], db.tiers[booking.tier], booking, now);
    if v.Reject? {
      return Err(v.error);
    }
    if LedgerOk(db.tiers, db.bookings) {
      ReleasePreserves(db.tiers, db.bookings, i);
    }
    if !IsAlive(db.tiers[booking.tier].meta) {
      return Err(TierNotFound);
    }
    var ticket := db.tiers[booking.tier].(sold := db.tiers[booking.tier].sold - booking.quantity);
    var violation := TierViolation(ticket);
    if violation.Some? {
      return Err(Integrity(violation.value));
    }
    UpdateTierUnique(db.tiers, booking.tier, ticket);
    db.tiers := db.tiers[booking.tier := ticket];
    db.bookings := db.bookings[i := booking.(status := BookingStatus.Cancelled)];
    r := Ok(i);
  }

  /** BookingConfirmSerializer of this copy: validate, then save. */
  method Confirm(db: Database, i: nat, now: Time) returns (v: Verdict)
    requires db.Persisted() && i < |db.bookings|
    modifies db
    ensures db.Persisted() && db.events == old(db.events) && db.tiers == old(db.tiers)
    ensures old(LedgerOk(db.tiers, db.bookings)) ==> LedgerOk(db.tiers, db.bookings)
    ensures v == ValidateConfirm(old(db.bookings)[i], now)
    ensures v.Accept? ==> db.bookings == old(db.bookings)[i := old(db.bookings)[i].(status := Confirmed, expiresAt := None)]
    ensures v.Reject? ==> db.bookings == old(db.bookings)
  {
    var booking := db.bookings[i];
    v := ConfirmVerdict(booking, now);
    ValidatorsAgree(0, Event(0, 0, 0, "", "", 0, 0, Draft, None, NewSubstrate), Tier(0, Standard, 0, 0, 0, NewSubstrate), booking, now);
    if v.Accept? {
      if LedgerOk(db.tiers, db.bookings) {
        ConfirmPreserves(db.tiers, db.bookings, i);
      }
      db.bookings := db.bookings[i := booking.(status := Confirmed, expiresAt := None)];
    }
  }
}
