/** The seat ledger. A tier's `sold` counter is kept by hand, one step per
    booking operation, and each of the lemmas here is one such step. The
    invariant they keep, `LedgerOk`, is that `sold` stays within
    `0..quota` and never falls below the seats held by the tier's
    bookings that are not cancelled. It cannot be an equality: refunding a
    PENDING booking cancels it without returning its seats. */
module Ledger {
  import opened Abstracts
  import opened Models

  /** The seats a booking holds on tier `t`: its quantity when it is on that
      tier and not cancelled, otherwise none. */
  function Held(b: Booking, t: nat): int {
    if b.tier == t && !b.status.Cancelled? then b.quantity else 0
  }

  /** The seats all bookings of a table hold on tier `t`. */
  function HeldTotal(bs: seq<Booking>, t: nat): int
    decreases |bs|
  {
    if bs == [] then 0 else HeldTotal(bs[..|bs| - 1], t) + Held(bs[|bs| - 1], t)
  }

  /** Every booking row refers to an existing tier and passes its own check. */
  predicate BookingsWellFormed(tiers: seq<Tier>, bookings: seq<Booking>) {
    forall i :: 0 <= i < |bookings| ==> bookings[i].tier < |tiers| && BookingCheck(bookings[i])
  }

  /** The ledger invariant. */
  predicate LedgerOk(tiers: seq<Tier>, bookings: seq<Booking>) {
    BookingsWellFormed(tiers, bookings)
    && (forall t :: 0 <= t < |tiers| ==> 0 <= tiers[t].sold <= tiers[t].quota)
    && (forall t :: 0 <= t < |tiers| ==> HeldTotal(bookings, t) <= tiers[t].sold)
    && (forall t :: 0 <= t < |tiers| && !IsAlive(tiers[t].meta) ==> HeldTotal(bookings, t) == 0)
  }

  /** Rewriting a tier without moving it to another event or ticket type,
      in a way that passes the tier checks, keeps every tier constraint and
      every booking's reference. */
  lemma TierRewriteKeeps(events: seq<Event>, tiers: seq<Tier>, bookings: seq<Booking>, t: nat, x: Tier)
    requires forall k :: 0 <= k < |tiers| ==> tiers[k].event < |events| && TierCheck(tiers[k])
    requires TierTypesUnique(tiers) && BookingsWellFormed(tiers, bookings)
    requires t < |tiers| && x.event == tiers[t].event && x.ticketType == tiers[t].ticketType && TierCheck(x)
    ensures var u := tiers[t := x];
            (forall k :: 0 <= k < |u| ==> u[k].event < |events| && TierCheck(u[k]))
            && TierTypesUnique(u) && BookingsWellFormed(u, bookings)
  {
    UpdateTierUnique(tiers, t, x);
  }

  /** Rewriting a tier, possibly onto another existing event or ticket type
      that no other tier of that event has, in a way that passes the tier
      checks, keeps every tier constraint and every booking's reference. */
  lemma RetierKeeps(events: seq<Event>, tiers: seq<Tier>, bookings: seq<Booking>, t: nat, x: Tier)
    requires forall k :: 0 <= k < |tiers| ==> tiers[k].event < |events| && TierCheck(tiers[k])
    requires TierTypesUnique(tiers) && BookingsWellFormed(tiers, bookings)
    requires t < |tiers| && x.event < |events| && TierCheck(x)
    requires !TypeTakenElsewhere(tiers, t, x.event, x.ticketType)
    ensures var u := tiers[t := x];
            (forall k :: 0 <= k < |u| ==> u[k].event < |events| && TierCheck(u[k]))
            && TierTypesUnique(u) && BookingsWellFormed(u, bookings)
  {
    RetierUnique(tiers, t, x);
  }

  /** Rewriting an event so that its times pass the event check and its
      title is held by no other event keeps every table constraint. */
  lemma RetitleKeeps(events: seq<Event>, tiers: seq<Tier>, bookings: seq<Booking>, e: nat, x: Event)
    requires TablesPersisted(events, tiers, bookings) && e < |events|
    requires EventCheck(x) && !TitleTakenElsewhere(events, Some(e), x.title)
    ensures TablesPersisted(events[e := x], tiers, bookings)
  {
    RetitleUnique(events, e, x);
  }

  /** Changing a booking's status keeps it well formed. */
  lemma StatusRewriteKeeps(tiers: seq<Tier>, bookings: seq<Booking>, i: nat, s: BookingStatus)
    requires BookingsWellFormed(tiers, bookings) && i < |bookings|
    ensures BookingsWellFormed(tiers, bookings[i := bookings[i].(status := s)])
  {
  }

  // ---------------------------------------------------------------------------
  // Facts about the sum
  // ---------------------------------------------------------------------------

  /** A new booking row adds exactly what it holds. */
  lemma HeldTotalAppend(bs: seq<Booking>, b: Booking, t: nat)
    ensures HeldTotal(bs + [b], t) == HeldTotal(bs, t) + Held(b, t)
  {
    assert (bs + [b])[..|bs|] == bs;
  }

  /** Rewriting one booking row changes the sum by the difference of what
      the old and the new row hold. */
  lemma {:induction false} HeldTotalUpdate(bs: seq<Booking>, i: nat, b: Booking, t: nat)
    requires i < |bs|
    ensures HeldTotal(bs[i := b], t) == HeldTotal(bs, t) - Held(bs[i], t) + Held(b, t)
    decreases |bs|
  {
    var n := |bs|;
    if i == n - 1 {
      assert bs[i := b][..n - 1] == bs[..n - 1];
    } else {
      assert bs[i := b][..n - 1] == bs[..n - 1][i := b];
      HeldTotalUpdate(bs[..n - 1], i, b, t);
    }
  }

  /** With every quantity positive, the sum is never negative and is at least
      the quantity of any one live booking of the tier. */
  lemma {:induction false} HeldTotalAtLeast(bs: seq<Booking>, t: nat, i: int)
    requires forall k :: 0 <= k < |bs| ==> BookingCheck(bs[k])
    requires -1 <= i < |bs|
    ensures HeldTotal(bs, t) >= 0
    ensures 0 <= i && bs[i].tier == t && !bs[i].status.Cancelled? ==> HeldTotal(bs, t) >= bs[i].quantity
    decreases |bs|
  {
    if bs != [] {
      var n := |bs|;
      HeldTotalAtLeast(bs[..n - 1], t, if i < n - 1 then i else -1);
    }
  }

  /** A tier no booking refers to holds nothing. */
  lemma {:induction false} HeldTotalUnreferenced(bs: seq<Booking>, t: nat)
    requires forall k :: 0 <= k < |bs| ==> bs[k].tier != t
    ensures HeldTotal(bs, t) == 0
    decreases |bs|
  {
    if bs != [] {
      HeldTotalUnreferenced(bs[..|bs| - 1], t);
    }
  }

  /** Under the invariant a soft-deleted tier carries no booking that is not
      cancelled, so every such booking's tier is still found by the default
      manager. */
  lemma LiveBookingHasLiveTier(tiers: seq<Tier>, bookings: seq<Booking>, i: nat)
    requires LedgerOk(tiers, bookings)
    requires i < |bookings| && !bookings[i].status.Cancelled?
    ensures bookings[i].tier < |tiers| && IsAlive(tiers[bookings[i].tier].meta)
    ensures tiers[bookings[i].tier].sold >= HeldTotal(bookings, bookings[i].tier) >= bookings[i].quantity
  {
    HeldTotalAtLeast(bookings, bookings[i].tier, i);
  }

  // ---------------------------------------------------------------------------
  // One lemma per step of the ledger
  // ---------------------------------------------------------------------------

  /** Booking create: a new booking on a live tier, taking no more than the
      seats left, with `sold` raised by its quantity. */
  lemma ReservePreserves(tiers: seq<Tier>, bookings: seq<Booking>, b: Booking)
    requires LedgerOk(tiers, bookings)
    requires b.tier < |tiers| && IsAlive(tiers[b.tier].meta) && BookingCheck(b)
    requires b.quantity <= tiers[b.tier].quota - tiers[b.tier].sold
    ensures LedgerOk(tiers[b.tier := tiers[b.tier].(sold := tiers[b.tier].sold + b.quantity)], bookings + [b])
  {
    var t := b.tier;
    var ts := tiers[t := tiers[t].(sold := tiers[t].sold + b.quantity)];
    var bs := bookings + [b];
    forall u | 0 <= u < |ts|
      ensures HeldTotal(bs, u) <= ts[u].sold
      ensures !IsAlive(ts[u].meta) ==> HeldTotal(bs, u) == 0
    {
      HeldTotalAppend(bookings, b, u);
    }
    assert forall k :: 0 <= k < |bs| ==> bs[k] == if k < |bookings| then bookings[k] else b;
  }

  /** Booking confirm: a booking that is not cancelled becomes CONFIRMED;
      it holds the same seats as before, and `sold` is left alone. */
  lemma ConfirmPreserves(tiers: seq<Tier>, bookings: seq<Booking>, i: nat)
    requires LedgerOk(tiers, bookings)
    requires i < |bookings| && !bookings[i].status.Cancelled?
    ensures LedgerOk(tiers, bookings[i := bookings[i].(status := Confirmed, expiresAt := None)])
  {
    var b := bookings[i].(status := Confirmed, expiresAt := None);
    forall u | 0 <= u < |tiers|
      ensures HeldTotal(bookings[i := b], u) == HeldTotal(bookings, u)
    {
      HeldTotalUpdate(bookings, i, b, u);
    }
  }

  /** Booking cancel, and refund of a CONFIRMED booking: the booking becomes
      CANCELLED and its quantity goes back to its tier. The invariant
      guarantees the tier is alive and that `sold` does not go negative. */
  lemma ReleasePreserves(tiers: seq<Tier>, bookings: seq<Booking>, i: nat)
    requires LedgerOk(tiers, bookings)
    requires i < |bookings| && !bookings[i].status.Cancelled?
    ensures bookings[i].tier < |tiers| && IsAlive(tiers[bookings[i].tier].meta)
    ensures tiers[bookings[i].tier].sold - bookings[i].quantity >= 0
    ensures LedgerOk(tiers[bookings[i].tier := tiers[bookings[i].tier].(sold := tiers[bookings[i].tier].sold - bookings[i].quantity)],
                     bookings[i := bookings[i].(status := BookingStatus.Cancelled)])
  {
    var t := bookings[i].tier;
    var q := bookings[i].quantity;
    LiveBookingHasLiveTier(tiers, bookings, i);
    var ts := tiers[t := tiers[t].(sold := tiers[t].sold - q)];
    var bs := bookings[i := bookings[i].(status := BookingStatus.Cancelled)];
    forall u | 0 <= u < |ts|
      ensures HeldTotal(bs, u) <= ts[u].sold
      ensures !IsAlive(ts[u].meta) ==> HeldTotal(bs, u) == 0
    {
      HeldTotalUpdate(bookings, i, bs[i], u);
    }
  }

  /** Refund of a PENDING booking: it becomes CANCELLED and `sold` is left
      alone. The invariant survives, but the tier's `sold` is now strictly
      above the seats its bookings hold: those seats are lost to sale. */
  lemma ForfeitPreserves(tiers: seq<Tier>, bookings: seq<Booking>, i: nat)
    requires LedgerOk(tiers, bookings)
    requires i < |bookings| && bookings[i].status.Pending?
    ensures LedgerOk(tiers, bookings[i := bookings[i].(status := BookingStatus.Cancelled)])
    ensures HeldTotal(bookings[i := bookings[i].(status := BookingStatus.Cancelled)], bookings[i].tier)
            < tiers[bookings[i].tier].sold
  {
    var b := bookings[i].(status := BookingStatus.Cancelled);
    LiveBookingHasLiveTier(tiers, bookings, i);
    forall u | 0 <= u < |tiers|
      ensures HeldTotal(bookings[i := b], u) == HeldTotal(bookings, u) - Held(bookings[i], u)
    {
      HeldTotalUpdate(bookings, i, b, u);
    }
  }

  /** Tier create: a new tier whose counters satisfy `0 <= sold <= quota`
      starts with no bookings. */
  lemma AddTierPreserves(tiers: seq<Tier>, bookings: seq<Booking>, tier: Tier)
    requires LedgerOk(tiers, bookings)
    requires 0 <= tier.sold <= tier.quota
    ensures LedgerOk(tiers + [tier], bookings)
  {
    HeldTotalAtLeast(bookings, |tiers|, -1);
    HeldTotalUnreferenced(bookings, |tiers|);
  }

  /** Tier update: any new event, ticket type and price, and a new quota no
      smaller than `sold`; `sold` and the substrate stay as they were. */
  lemma RequotaPreserves(tiers: seq<Tier>, bookings: seq<Booking>, t: nat, x: Tier)
    requires LedgerOk(tiers, bookings)
    requires t < |tiers| && x.sold == tiers[t].sold && x.meta == tiers[t].meta && x.quota >= x.sold
    ensures LedgerOk(tiers[t := x], bookings)
  {
  }

  /** Tier destroy: only a tier with `sold == 0` is soft-deleted, and it
      then has nothing held on it. */
  lemma SoftDeleteTierPreserves(tiers: seq<Tier>, bookings: seq<Booking>, t: nat, now: Time)
    requires LedgerOk(tiers, bookings)
    requires t < |tiers| && tiers[t].sold == 0
    ensures LedgerOk(tiers[t := tiers[t].(meta := SoftDeletedRow(BaseEntityMixin, tiers[t].meta, now))], bookings)
  {
    HeldTotalAtLeast(bookings, t, -1);
  }

  // ---------------------------------------------------------------------------
  // Physical deletes
  // ---------------------------------------------------------------------------

  /** What the database itself guarantees of the three tables: every check
      and unique constraint, and every foreign key refers to an existing row. */
  predicate TablesPersisted(events: seq<Event>, tiers: seq<Tier>, bookings: seq<Booking>) {
    (forall e :: 0 <= e < |events| ==> EventCheck(events[e]))
    && TitlesUnique(events)
    && (forall t :: 0 <= t < |tiers| ==> tiers[t].event < |events| && TierCheck(tiers[t]))
    && TierTypesUnique(tiers)
    && BookingsWellFormed(tiers, bookings)
  }

  /** Renumbering the tier references of bookings none of which is on a
      removed tier moves each kept tier's sum to its new id unchanged. */
  lemma {:induction false} HeldTotalRebooked(bs: seq<Booking>, gone: set<nat>, t: nat)
    requires forall i :: 0 <= i < |bs| ==> bs[i].tier !in gone
    requires t !in gone
    ensures HeldTotal(Rebooked(bs, gone), Shifted(gone, t)) == HeldTotal(bs, t)
    decreases |bs|
  {
    if bs != [] {
      var n := |bs|;
      assert Rebooked(bs, gone)[..n - 1] == Rebooked(bs[..n - 1], gone);
      HeldTotalRebooked(bs[..n - 1], gone, t);
      if bs[n - 1].tier != t {
        ShiftedInjective(gone, bs[n - 1].tier, t);
      }
    }
  }

  /** Removing booking rows never raises what a tier holds. */
  lemma {:induction false} HeldTotalWithout(bs: seq<Booking>, gone: set<nat>, t: nat)
    requires forall i :: 0 <= i < |bs| ==> BookingCheck(bs[i])
    ensures 0 <= HeldTotal(Without(bs, gone), t) <= HeldTotal(bs, t)
    decreases |bs|
  {
    if bs != [] {
      var n := |bs|;
      HeldTotalWithout(bs[..n - 1], gone, t);
      if n - 1 !in gone {
        HeldTotalAppend(Without(bs[..n - 1], gone), bs[n - 1], t);
      } else {
        assert Without(bs, gone) == Without(bs[..n - 1], gone);
      }
    }
  }

  /** An event's physical delete keeps every constraint of what is left. */
  lemma {:induction false} CollectEventPersists(events: seq<Event>, tiers: seq<Tier>, bookings: seq<Booking>, e: nat)
    requires TablesPersisted(events, tiers, bookings) && EventDeletable(tiers, bookings, e)
    ensures var r := CollectEvent(events, tiers, bookings, e);
            r.Deleted? && TablesPersisted(r.events, r.tiers, r.bookings)
  {
    var gone := EventCascade(tiers, e);
    var r := CollectEvent(events, tiers, bookings, e);
    var kept := Without(tiers, gone);
    WithoutLength(events, {e});
    WithoutLength(tiers, gone);
    forall k | 0 <= k < |r.events|
      ensures EventCheck(r.events[k])
    {
      var o := WithoutOrigin(events, {e}, k);
    }
    forall i, j | 0 <= i < |r.events| && 0 <= j < |r.events| && i != j
      ensures r.events[i].title != r.events[j].title
    {
      var oi := WithoutOrigin(events, {e}, i);
      var oj := WithoutOrigin(events, {e}, j);
    }
    forall j | 0 <= j < |r.tiers|
      ensures r.tiers[j].event < |r.events| && TierCheck(r.tiers[j])
    {
      var t := WithoutOrigin(tiers, gone, j);
      ShiftedMonotone({e}, tiers[t].event, |events|);
    }
    forall i, j | 0 <= i < |r.tiers| && 0 <= j < |r.tiers| && i != j && r.tiers[i].event == r.tiers[j].event
      ensures r.tiers[i].ticketType != r.tiers[j].ticketType
    {
      var ti := WithoutOrigin(tiers, gone, i);
      var tj := WithoutOrigin(tiers, gone, j);
      if tiers[ti].event != tiers[tj].event {
        ShiftedInjective({e}, tiers[ti].event, tiers[tj].event);
      }
    }
    forall i | 0 <= i < |r.bookings|
      ensures r.bookings[i].tier < |r.tiers| && BookingCheck(r.bookings[i])
    {
      ShiftedMonotone(gone, bookings[i].tier, |tiers|);
    }
  }

  /** An event's physical delete keeps the ledger invariant: every tier left
      keeps its counters and exactly the seats held on it. */
  lemma {:induction false} CollectEventPreserves(events: seq<Event>, tiers: seq<Tier>, bookings: seq<Booking>, e: nat)
    requires TablesPersisted(events, tiers, bookings) && LedgerOk(tiers, bookings)
    requires CollectEvent(events, tiers, bookings, e).Deleted?
    ensures var r := CollectEvent(events, tiers, bookings, e);
            TablesPersisted(r.events, r.tiers, r.bookings) && LedgerOk(r.tiers, r.bookings)
  {
    var gone := EventCascade(tiers, e);
    var r := CollectEvent(events, tiers, bookings, e);
    CollectEventPersists(events, tiers, bookings, e);
    forall j | 0 <= j < |r.tiers|
      ensures 0 <= r.tiers[j].sold <= r.tiers[j].quota
      ensures HeldTotal(r.bookings, j) <= r.tiers[j].sold
      ensures !IsAlive(r.tiers[j].meta) ==> HeldTotal(r.bookings, j) == 0
    {
      var t := WithoutOrigin(tiers, gone, j);
      HeldTotalRebooked(bookings, gone, t);
    }
  }

  /** A tier's physical delete keeps every constraint of what is left. */
  lemma {:induction false} CollectTierPersists(events: seq<Event>, tiers: seq<Tier>, bookings: seq<Booking>, t: nat)
    requires TablesPersisted(events, tiers, bookings) && TierDeletable(bookings, t)
    ensures var r := CollectTier(events, tiers, bookings, t);
            r.Deleted? && r.events == events && |r.bookings| == |bookings|
            && TablesPersisted(r.events, r.tiers, r.bookings)
  {
    var r := CollectTier(events, tiers, bookings, t);
    WithoutLength(tiers, {t});
    forall j | 0 <= j < |r.tiers|
      ensures r.tiers[j].event < |events| && TierCheck(r.tiers[j])
    {
      var k := WithoutOrigin(tiers, {t}, j);
    }
    forall i, j | 0 <= i < |r.tiers| && 0 <= j < |r.tiers| && i != j && r.tiers[i].event == r.tiers[j].event
      ensures r.tiers[i].ticketType != r.tiers[j].ticketType
    {
      var ki := WithoutOrigin(tiers, {t}, i);
      var kj := WithoutOrigin(tiers, {t}, j);
    }
    forall i | 0 <= i < |r.bookings|
      ensures r.bookings[i].tier < |r.tiers| && BookingCheck(r.bookings[i])
    {
      ShiftedMonotone({t}, bookings[i].tier, |tiers|);
    }
  }

  /** A tier's physical delete keeps the ledger invariant: every tier left
      keeps its counters and exactly the seats held on it. */
  lemma {:induction false} CollectTierPreserves(events: seq<Event>, tiers: seq<Tier>, bookings: seq<Booking>, t: nat)
    requires TablesPersisted(events, tiers, bookings) && LedgerOk(tiers, bookings)
    requires CollectTier(events, tiers, bookings, t).Deleted?
    ensures var r := CollectTier(events, tiers, bookings, t);
            TablesPersisted(r.events, r.tiers, r.bookings) && LedgerOk(r.tiers, r.bookings)
  {
    var r := CollectTier(events, tiers, bookings, t);
    CollectTierPersists(events, tiers, bookings, t);
    forall j | 0 <= j < |r.tiers|
      ensures 0 <= r.tiers[j].sold <= r.tiers[j].quota
      ensures HeldTotal(r.bookings, j) <= r.tiers[j].sold
      ensures !IsAlive(r.tiers[j].meta) ==> HeldTotal(r.bookings, j) == 0
    {
      var k := WithoutOrigin(tiers, {t}, j);
      HeldTotalRebooked(bookings, {t}, k);
    }
  }

  /** A user's physical delete keeps every constraint of what is left. */
  lemma {:induction false} CollectUserPersists(events: seq<Event>, tiers: seq<Tier>, bookings: seq<Booking>, user: nat)
    requires TablesPersisted(events, tiers, bookings)
    ensures var r := CollectUser(events, tiers, bookings, user);
            TablesPersisted(r.events, r.tiers, r.bookings)
  {
    var r := CollectUser(events, tiers, bookings, user);
    forall i | 0 <= i < |r.bookings|
      ensures r.bookings[i].tier < |tiers| && BookingCheck(r.bookings[i])
    {
      var k := WithoutOrigin(bookings, UserCascade(bookings, user), i);
    }
  }

  /** A user's physical delete keeps the ledger invariant: the ledger is an
      inequality, so removing bookings, even ones that hold seats, cannot
      break it. */
  lemma {:induction false} CollectUserPreserves(events: seq<Event>, tiers: seq<Tier>, bookings: seq<Booking>, user: nat)
    requires TablesPersisted(events, tiers, bookings) && LedgerOk(tiers, bookings)
    ensures var r := CollectUser(events, tiers, bookings, user);
            TablesPersisted(r.events, r.tiers, r.bookings) && LedgerOk(r.tiers, r.bookings)
  {
    var r := CollectUser(events, tiers, bookings, user);
    CollectUserPersists(events, tiers, bookings, user);
    forall t | 0 <= t < |tiers|
      ensures 0 <= HeldTotal(r.bookings, t) <= HeldTotal(bookings, t)
    {
      HeldTotalWithout(bookings, UserCascade(bookings, user), t);
    }
  }

  /** An empty database satisfies the invariant. */
  lemma EmptyOk()
    ensures LedgerOk([], [])
  {
  }
}
