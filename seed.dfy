/** The development seeder. Its random choices are inputs here: a draw
    function gives the number the random source would return at each step,
    and a range `randint(a, b)` is `a + d % (b - a + 1)` of a draw `d`.
    `random.sample` and `random.shuffle` pick, draw by draw, one element of
    what is left of the pool. */
module Seed {
  import opened Abstracts
  import opened Models
  import opened Ledger
  import opened Serializers

  function Min(a: int, b: int): int { if a <= b then a else b }
  function Max(a: int, b: int): int { if a >= b then a else b }

  /** No element occurs twice. */
  predicate Distinct<T(==)>(s: seq<T>) {
    forall a, b :: 0 <= a < b < |s| ==> s[a] != s[b]
  }

  /** The pool without its element at `i`. */
  function RemoveAt<T>(pool: seq<T>, i: nat): (r: seq<T>)
    requires i < |pool|
    ensures |r| == |pool| - 1
    ensures forall k :: 0 <= k < |r| ==> r[k] == if k < i then pool[k] else pool[k + 1]
  {
    pool[..i] + pool[i + 1..]
  }

  /** The draws that follow the first one. */
  function Later(pick: nat -> nat): nat -> nat {
    (n: nat) => pick(n + 1)
  }

  /** `k` elements drawn one after another, each at the position `pick`
      gives it in what is left of the pool. */
  function Draw<T>(pool: seq<T>, k: nat, pick: nat -> nat): (r: seq<T>)
    requires k <= |pool|
    ensures |r| == k
    decreases k
  {
    if k == 0 then []
    else
      var i := pick(0) % |pool|;
      [pool[i]] + Draw(RemoveAt(pool, i), k - 1, Later(pick))
  }
  /** Taking one element out leaves the rest of the pool and nothing else. */
  lemma RemoveAtCount<T>(pool: seq<T>, i: nat)
    requires i < |pool|
    ensures multiset(pool) == multiset(RemoveAt(pool, i)) + multiset{pool[i]}
  {
    assert pool == pool[..i] + ([pool[i]] + pool[i + 1..]);
  }
  /** A draw takes each element of the pool at most as often as it is
      there, and a draw of the whole pool takes each exactly as often. */
  lemma {:induction false} DrawCount<T>(pool: seq<T>, k: nat, pick: nat -> nat)
    requires k <= |pool|
    ensures multiset(Draw(pool, k, pick)) <= multiset(pool)
    ensures k == |pool| ==> multiset(Draw(pool, k, pick)) == multiset(pool)
    decreases k
  {
    if k > 0 {
      var i := pick(0) % |pool|;
      var rest := RemoveAt(pool, i);
      DrawCount(rest, k - 1, Later(pick));
      RemoveAtCount(pool, i);
      assert Draw(pool, k, pick) == [pool[i]] + Draw(rest, k - 1, Later(pick));
    }
  }
  /** Nothing outside the pool is drawn. */
  lemma DrawWithin<T>(pool: seq<T>, k: nat, pick: nat -> nat)
    requires k <= |pool|
    ensures forall x :: x in Draw(pool, k, pick) ==> x in pool
  {
    DrawCount(pool, k, pick);
    forall x | x in Draw(pool, k, pick) ensures x in pool {
      assert x in multiset(Draw(pool, k, pick));
    }
  }
  /** Taking one element out of a pool without repeats leaves a pool
      without repeats that no longer holds it. */
  lemma RemoveAtDistinct<T>(pool: seq<T>, i: nat)
    requires i < |pool| && Distinct(pool)
    ensures pool[i] !in RemoveAt(pool, i) && Distinct(RemoveAt(pool, i))
  {
    var rest := RemoveAt(pool, i);
    forall k | 0 <= k < |rest| ensures rest[k] != pool[i] {
      if k < i { assert pool[k] != pool[i]; } else { assert pool[k + 1] != pool[i]; }
    }
    forall a, b | 0 <= a < b < |rest| ensures rest[a] != rest[b] {
      var a', b' := if a < i then a else a + 1, if b < i then b else b + 1;
      assert rest[a] == pool[a'] && rest[b] == pool[b'];
    }
  }
  /** A pool without repeats gives a draw without repeats. */
  lemma {:induction false} DrawDistinct<T>(pool: seq<T>, k: nat, pick: nat -> nat)
    requires k <= |pool| && Distinct(pool)
    ensures Distinct(Draw(pool, k, pick))
    decreases k
  {
    if k > 0 {
      var i := pick(0) % |pool|;
      var rest := RemoveAt(pool, i);
      var tail := Draw(rest, k - 1, Later(pick));
      RemoveAtDistinct(pool, i);
      DrawDistinct(rest, k - 1, Later(pick));
      DrawWithin(rest, k - 1, Later(pick));
      var r := [pool[i]] + tail;
      assert Draw(pool, k, pick) == r;
      forall a, b | 0 <= a < b < |r| ensures r[a] != r[b] {
        assert r[b] == tail[b - 1];
        if a > 0 { assert r[a] == tail[a - 1]; }
      }
    }
  }
  /** `random.sample(pool, k)`, and with `k == |pool|` a shuffle: `k`
      elements drawn from the pool, none from outside it, and none twice
      when the pool has no repeats. */
  function Sample<T>(pool: seq<T>, k: nat, pick: nat -> nat): (r: seq<T>)
    requires k <= |pool|
    ensures |r| == k
    ensures forall x :: x in r ==> x in pool
    ensures Distinct(pool) ==> Distinct(r)
  {
    DrawWithin(pool, k, pick);
    assert Distinct(pool) ==> Distinct(Draw(pool, k, pick)) by {
      if Distinct(pool) { DrawDistinct(pool, k, pick); }
    }
    Draw(pool, k, pick)
  }
  // ---------------------------------------------------------------------------
  // _ticket_codes_from_model
  // ---------------------------------------------------------------------------

  /** The codes used when the field declares no choices. */
  const FallbackTicketCodes: seq<string> := ["STANDARD", "VIP", "EARLY_BIRD", "STUDENT", "GROUP"]

  /** `_ticket_codes_from_model`: the codes of the `ticket_type` field's
      (code, label) choices, or the fallback list when there are none. */
  function TicketCodesFromModel(choices: seq<(string, string)>): (r: seq<string>)
    ensures choices != [] ==> |r| == |choices| && forall i :: 0 <= i < |choices| ==> r[i] == choices[i].0
    ensures choices == [] ==> r == FallbackTicketCodes
  {
    if choices == [] then FallbackTicketCodes
    else seq(|choices|, i requires 0 <= i < |choices| => choices[i].0)
  }

  /** The choices the tier model declares. */
  function TicketTypeChoices(): seq<(string, string)> {
    seq(|TicketTypes|, i requires 0 <= i < |TicketTypes| => (TicketTypeCode(TicketTypes[i]), TicketTypeLabel(TicketTypes[i])))
  }

  /** The model declares choices, and their codes are exactly the fallback
      list, in the same order: either way the seeder draws from the five
      ticket types. */
  lemma TicketCodesAgree()
    ensures TicketCodesFromModel(TicketTypeChoices()) == FallbackTicketCodes
  {
    var r := TicketCodesFromModel(TicketTypeChoices());
    assert r[0] == "STANDARD" && r[1] == "VIP" && r[2] == "EARLY_BIRD" && r[3] == "STUDENT" && r[4] == "GROUP";
  }

  // ---------------------------------------------------------------------------
  // _seed_event_tickets
  // ---------------------------------------------------------------------------

  /** The random draws of the ticket seeder, by event position and slot. */
  datatype TicketDraws = TicketDraws(count: nat -> nat, sample: (nat, nat) -> nat, quota: (nat, nat) -> nat)

  /** `min(max(2, randint(2, 4)), len(all_types))`. */
  function TicketCount(d: nat): (k: nat)
    ensures 2 <= k <= 4 && k <= |TicketTypes|
  {
    Min(Max(2, 2 + d % 3), |TicketTypes|)
  }

  /** The seeder's price list, in cents. */
  function SeedPrice(tt: TicketType): (p: int)
    ensures 2990_00 <= p <= 15990_00
  {
    match tt
    case Standard => 5990_00
    case Vip => 15990_00
    case EarlyBird => 3990_00
    case Student => 2990_00
    case Group => 4990_00
  }

  /** The ticket types drawn for the event at position `ei`. */
  function EventTicketTypes(ei: nat, d: TicketDraws): (r: seq<TicketType>)
    ensures 2 <= |r| <= 4 && Distinct(r)
  {
    ChoicesDistinct();
    Sample(TicketTypes, TicketCount(d.count(ei)), (j: nat) => d.sample(ei, j))
  }

  /** The tier the seeder creates: the price from the list, a quota of
      `randint(50, 500)`, nothing sold yet. */
  function SeedTier(e: nat, tt: TicketType, q: nat): (t: Tier)
    ensures t.event == e && t.ticketType == tt && t.sold == 0 && 50 <= t.quota <= 500
    ensures TierCheck(t) && t.meta == NewSubstrate
  {
    Tier(e, tt, SeedPrice(tt), 50 + q % 451, 0, NewSubstrate)
  }

  /** The tiers of the event at position `ei`, in the order drawn. */
  function EventBlock(ei: nat, e: nat, d: TicketDraws): (r: seq<Tier>)
    ensures |r| == |EventTicketTypes(ei, d)|
    ensures forall j :: 0 <= j < |r| ==> r[j] == SeedTier(e, EventTicketTypes(ei, d)[j], d.quota(ei, j))
  {
    var types := EventTicketTypes(ei, d);
    seq(|types|, j requires 0 <= j < |types| => SeedTier(e, types[j], d.quota(ei, j)))
  }

  /** The tiers of all events, event after event. */
  function EventsTickets(events: seq<nat>, d: TicketDraws): seq<Tier>
    decreases |events|
  {
    if events == [] then []
    else EventsTickets(events[..|events| - 1], d) + EventBlock(|events| - 1, events[|events| - 1], d)
  }

  /** A tier as the seeder creates it for one of `events`. */
  predicate FreshTier(t: Tier, events: seq<nat>) {
    t.event in events && t.sold == 0 && TierCheck(t) && t.meta == NewSubstrate && 50 <= t.quota <= 500
  }

  /** Every seeded tier belongs to one of the events, passes its checks and
      has nothing sold, and each event gets between two and four of them. */
  lemma {:induction false} EventsTicketsFacts(events: seq<nat>, d: TicketDraws)
    ensures forall k :: 0 <= k < |EventsTickets(events, d)| ==> FreshTier(EventsTickets(events, d)[k], events)
    ensures 2 * |events| <= |EventsTickets(events, d)| <= 4 * |events|
    decreases |events|
  {
    if events != [] {
      var n := |events|;
      var init := events[..n - 1];
      EventsTicketsFacts(init, d);
      var front: seq<Tier> := EventsTickets(init, d);
      var block: seq<Tier> := EventBlock(n - 1, events[n - 1], d);
      var all: seq<Tier> := front + block;
      assert EventsTickets(events, d) == all;
      forall k | 0 <= k < |all| ensures FreshTier(all[k], events) {
        if k < |front| {
          assert all[k] == front[k] && FreshTier(front[k], init);
          assert front[k].event in init;
        } else {
          assert all[k] == block[k - |front|];
        }
      }
    }
  }

  /** Two tables with unique ticket types per event, whose events are apart,
      together still have unique ticket types per event. */
  lemma UniqueTypesConcat(a: seq<Tier>, b: seq<Tier>)
    requires TierTypesUnique(a) && TierTypesUnique(b)
    requires forall i, j :: 0 <= i < |a| && 0 <= j < |b| ==> a[i].event != b[j].event
    ensures TierTypesUnique(a + b)
  {
    var ab := a + b;
    forall i, j | 0 <= i < |ab| && 0 <= j < |ab| && i != j && ab[i].event == ab[j].event
      ensures ab[i].ticketType != ab[j].ticketType
    {
      if i < |a| && j < |a| {
        assert ab[i] == a[i] && ab[j] == a[j];
      } else if i >= |a| && j >= |a| {
        assert ab[i] == b[i - |a|] && ab[j] == b[j - |a|];
      }
    }
  }

  /** With the events distinct, no event of the seeded tiers gets one ticket
      type twice: the `(event, ticket_type)` unique constraint holds. */
  lemma {:induction false} EventsTicketsUnique(events: seq<nat>, d: TicketDraws)
    requires Distinct(events)
    ensures TierTypesUnique(EventsTickets(events, d))
    decreases |events|
  {
    if events != [] {
      var n := |events|;
      assert Distinct(events[..n - 1]);
      EventsTicketsUnique(events[..n - 1], d);
      EventsTicketsFacts(events[..n - 1], d);
      var front: seq<Tier> := EventsTickets(events[..n - 1], d);
      var block: seq<Tier> := EventBlock(n - 1, events[n - 1], d);
      var types := EventTicketTypes(n - 1, d);
      assert TierTypesUnique(block) by {
        forall i, j | 0 <= i < |block| && 0 <= j < |block| && i != j
          ensures block[i].ticketType != block[j].ticketType
        {
          assert block[i].ticketType == types[i] && block[j].ticketType == types[j];
        }
      }
      forall i, j | 0 <= i < |front| && 0 <= j < |block| ensures front[i].event != block[j].event {
        var w :| 0 <= w < n - 1 && events[..n - 1][w] == front[i].event;
        assert events[w] != events[n - 1];
      }
      UniqueTypesConcat(front, block);
    }
  }

  /** The tiers of the first `i + 1` events are those of the first `i`
      followed by the block of event `i`. */
  lemma EventsTicketsStep(events: seq<nat>, i: nat, d: TicketDraws)
    requires i < |events|
    ensures EventsTickets(events[..i + 1], d) == EventsTickets(events[..i], d) + EventBlock(i, events[i], d)
  {
    var p := events[..i + 1];
    assert p[..|p| - 1] == events[..i] && p[|p| - 1] == events[i];
  }

  /** One event's turn: a tier for each drawn ticket type, in order. */
  method SeedEventBlock(i: nat, e: nat, d: TicketDraws) returns (block: seq<Tier>)
    ensures block == EventBlock(i, e, d)
  {
    var types := EventTicketTypes(i, d);
    ghost var full := EventBlock(i, e, d);
    block := [];
    var j := 0;
    while j < |types|
      invariant 0 <= j <= |types| && |block| == j
      invariant forall k :: 0 <= k < j ==> block[k] == full[k]
    {
      block := block + [SeedTier(e, types[j], d.quota(i, j))];
      j := j + 1;
    }
    assert block == full;
  }

  /** _seed_event_tickets: for each event in turn, the drawn ticket types,
      one tier each, collected into one list. */
  method SeedEventTickets(events: seq<nat>, d: TicketDraws) returns (created: seq<Tier>)
    ensures created == EventsTickets(events, d)
    ensures Distinct(events) ==> TierTypesUnique(created)
    ensures forall k :: 0 <= k < |created| ==> created[k].event in events && created[k].sold == 0 && TierCheck(created[k])
  {
    created := [];
    var i := 0;
    while i < |events|
      invariant 0 <= i <= |events|
      invariant created == EventsTickets(events[..i], d)
    {
      var block := SeedEventBlock(i, events[i], d);
      EventsTicketsStep(events, i, d);
      created := created + block;
      i := i + 1;
    }
    assert events[..i] == events;
    EventsTicketsFacts(events, d);
    if Distinct(events) {
      EventsTicketsUnique(events, d);
    }
  }

  // ---------------------------------------------------------------------------
  // _seed_bookings
  // ---------------------------------------------------------------------------

  /** The random draws of the booking seeder, by booking position. The
      status is drawn with weights 0.25, 0.65 and 0.10; here it is the
      draw itself. */
  datatype BookingDraws = BookingDraws(ticket: nat -> nat, user: nat -> nat, quantity: nat -> nat, status: nat -> BookingStatus)

  /** One day, in seconds. */
  const Day: int := 24 * 60 * 60

  /** Every ticket id names a tier whose event exists. */
  predicate TicketsExist(tickets: seq<nat>, tiers: seq<Tier>, events: seq<Event>) {
    forall k :: 0 <= k < |tickets| ==> tickets[k] < |tiers| && tiers[tickets[k]].event < |events|
  }

  /** The booking the seeder creates at position `j`: a drawn ticket and
      user, `randint(2, 5)` seats, the drawn status, and for a PENDING one
      an expiry one day before its event starts. */
  function SeedBooking(j: nat, users: seq<nat>, tickets: seq<nat>, tiers: seq<Tier>, events: seq<Event>, d: BookingDraws): (b: Booking)
    requires users != [] && tickets != [] && TicketsExist(tickets, tiers, events)
    ensures b.user in users && b.tier in tickets && b.status == d.status(j)
    ensures 2 <= b.quantity <= 5 && BookingCheck(b)
    ensures b.expiresAt.Some? <==> b.status == Pending
    ensures b.status == Pending ==> b.expiresAt == Some(events[tiers[b.tier].event].startsAt - Day)
    ensures b.meta == NewSubstrate
  {
    var t := tickets[d.ticket(j) % |tickets|];
    var status := d.status(j);
    Booking(users[d.user(j) % |users|], t, 2 + d.quantity(j) % 4, status,
            if status == Pending then Some(events[tiers[t].event].startsAt - Day) else None, NewSubstrate)
  }

  /** The bookings `_seed_bookings` creates when no draw fails: none
      without tickets (or without users, when a draw would fail unless
      `n` is zero), otherwise the bookings of positions `0` to `n - 1`. */
  function BookingPlan(n: nat, users: seq<nat>, tickets: seq<nat>, tiers: seq<Tier>, events: seq<Event>, d: BookingDraws): seq<Booking>
    requires TicketsExist(tickets, tiers, events)
  {
    if tickets == [] || users == [] then []
    else seq(n, j requires 0 <= j < n => SeedBooking(j, users, tickets, tiers, events, d))
  }

  /** _seed_bookings: nothing without tickets; otherwise `n` bookings, one
      after another. Drawing a user from an empty list raises, which is
      None here. */
  method SeedBookings(n: nat, users: seq<nat>, tickets: seq<nat>, tiers: seq<Tier>, events: seq<Event>, d: BookingDraws)
    returns (r: Option<seq<Booking>>)
    requires TicketsExist(tickets, tiers, events)
    ensures r.None? <==> tickets != [] && n > 0 && users == []
    ensures r.Some? ==> r.value == BookingPlan(n, users, tickets, tiers, events, d)
    ensures r.Some? ==> |r.value| == (if tickets == [] then 0 else n) && BookingsWellFormed(tiers, r.value)
  {
    if tickets == [] {
      return Some([]);
    }
    var created: seq<Booking> := [];
    var j := 0;
    while j < n
      invariant 0 <= j <= n
      invariant j > 0 ==> users != []
      invariant |created| == j
      invariant forall k :: 0 <= k < j ==> created[k] == SeedBooking(k, users, tickets, tiers, events, d)
    {
      if users == [] {
        return None;
      }
      created := created + [SeedBooking(j, users, tickets, tiers, events, d)];
      j := j + 1;
    }
    if n > 0 {
      assert created == BookingPlan(n, users, tickets, tiers, events, d);
    }
    return Some(created);
  }

  // ---------------------------------------------------------------------------
  // _recount_sold_per_ticket
  // ---------------------------------------------------------------------------

  /** The seats of the live CONFIRMED bookings of tier `t` (the default
      manager sees live rows only). */
  function ConfirmedTotal(bookings: seq<Booking>, t: nat): int
    decreases |bookings|
  {
    if bookings == [] then 0
    else
      var b := bookings[|bookings| - 1];
      ConfirmedTotal(bookings[..|bookings| - 1], t)
        + (if b.tier == t && b.status == Confirmed && IsAlive(b.meta) then b.quantity else 0)
  }

  /** A tier after the recount: a live tier's `sold` becomes its confirmed
      seats, capped at its quota; a soft-deleted tier is not loaded and
      keeps its count. */
  function Recounted(tier: Tier, t: nat, bookings: seq<Booking>): Tier {
    if IsAlive(tier.meta) then tier.(sold := Min(ConfirmedTotal(bookings, t), tier.quota)) else tier
  }

  /** The tier table after the recount. */
  function RecountAll(tiers: seq<Tier>, bookings: seq<Booking>): (r: seq<Tier>)
    ensures |r| == |tiers| && forall t :: 0 <= t < |r| ==> r[t] == Recounted(tiers[t], t, bookings)
  {
    seq(|tiers|, t requires 0 <= t < |tiers| => Recounted(tiers[t], t, bookings))
  }

  /** With every quantity positive the confirmed seats are never negative. */
  lemma {:induction false} ConfirmedTotalNonNegative(bookings: seq<Booking>, t: nat)
    requires forall k :: 0 <= k < |bookings| ==> BookingCheck(bookings[k])
    ensures ConfirmedTotal(bookings, t) >= 0
    decreases |bookings|
  {
    if bookings != [] {
      ConfirmedTotalNonNegative(bookings[..|bookings| - 1], t);
    }
  }

  /** Bookings that are PENDING or CANCELLED add nothing to the confirmed
      seats; a tier with no live CONFIRMED booking counts zero. */
  lemma {:induction false} ConfirmedTotalIgnoresOthers(bookings: seq<Booking>, t: nat)
    requires forall k :: 0 <= k < |bookings| ==> !(bookings[k].tier == t && bookings[k].status == Confirmed && IsAlive(bookings[k].meta))
    ensures ConfirmedTotal(bookings, t) == 0
    decreases |bookings|
  {
    if bookings != [] {
      ConfirmedTotalIgnoresOthers(bookings[..|bookings| - 1], t);
    }
  }

  /** After the recount a live tier's `sold` is within `0..quota`, and is
      the confirmed seat count whenever that fits the quota. */
  lemma RecountBounds(tier: Tier, t: nat, bookings: seq<Booking>)
    requires TierCheck(tier) && IsAlive(tier.meta)
    requires forall k :: 0 <= k < |bookings| ==> BookingCheck(bookings[k])
    ensures 0 <= Recounted(tier, t, bookings).sold <= tier.quota
    ensures ConfirmedTotal(bookings, t) <= tier.quota ==> Recounted(tier, t, bookings).sold == ConfirmedTotal(bookings, t)
    ensures Recounted(tier, t, bookings).quota == tier.quota && TierCheck(Recounted(tier, t, bookings))
  {
    ConfirmedTotalNonNegative(bookings, t);
  }

  /** _recount_sold_per_ticket: every live tier's `sold` recounted from the
      bookings, one tier after another; the table's checks still hold. */
  method RecountSold(db: Database)
    requires db.Persisted()
    modifies db`tiers
    ensures db.Persisted()
    ensures db.tiers == RecountAll(old(db.tiers), db.bookings)
  {
    var i := 0;
    while i < |db.tiers|
      invariant 0 <= i <= |db.tiers| == |old(db.tiers)|
      invariant forall t :: 0 <= t < i ==> db.tiers[t] == Recounted(old(db.tiers)[t], t, db.bookings)
      invariant forall t :: i <= t < |db.tiers| ==> db.tiers[t] == old(db.tiers)[t]
      invariant db.Persisted()
    {
      var tier := db.tiers[i];
      if IsAlive(tier.meta) {
        RecountBounds(tier, i, db.bookings);
        var updated := tier.(sold := Min(ConfirmedTotal(db.bookings, i), tier.quota));
        UpdateTierUnique(db.tiers, i, updated);
        db.tiers := db.tiers[i := updated];
      }
      i := i + 1;
    }
    assert db.tiers == RecountAll(old(db.tiers), db.bookings);
  }

  /** Without PENDING bookings the seats every live tier holds are its
      confirmed seats. */
  lemma {:induction false} HeldIsConfirmed(bookings: seq<Booking>, t: nat)
    requires forall k :: 0 <= k < |bookings| ==> IsAlive(bookings[k].meta) && !bookings[k].status.Pending?
    ensures HeldTotal(bookings, t) == ConfirmedTotal(bookings, t)
    decreases |bookings|
  {
    if bookings != [] {
      HeldIsConfirmed(bookings[..|bookings| - 1], t);
    }
  }

  /** The recount restores the seat ledger when every booking is live and
      none is PENDING, no tier is oversold by its confirmed seats, and no
      soft-deleted tier holds seats. */
  lemma RecountRestoresLedger(tiers: seq<Tier>, bookings: seq<Booking>)
    requires BookingsWellFormed(tiers, bookings)
    requires forall t :: 0 <= t < |tiers| ==> TierCheck(tiers[t])
    requires forall k :: 0 <= k < |bookings| ==> IsAlive(bookings[k].meta) && !bookings[k].status.Pending?
    requires forall t :: 0 <= t < |tiers| && IsAlive(tiers[t].meta) ==> ConfirmedTotal(bookings, t) <= tiers[t].quota
    requires forall t :: 0 <= t < |tiers| && !IsAlive(tiers[t].meta) ==> HeldTotal(bookings, t) == 0 && tiers[t].sold <= tiers[t].quota
    ensures LedgerOk(RecountAll(tiers, bookings), bookings)
  {
    var recounted := RecountAll(tiers, bookings);
    forall t | 0 <= t < |tiers|
      ensures 0 <= recounted[t].sold <= recounted[t].quota
      ensures HeldTotal(bookings, t) <= recounted[t].sold
    {
      HeldIsConfirmed(bookings, t);
      if IsAlive(tiers[t].meta) {
        RecountBounds(tiers[t], t, bookings);
      }
    }
  }

  /** A PENDING seeded booking holds seats the recount does not count: on a
      tier whose confirmed seats are fewer than its quantity, the recounted
      tier breaks the seat ledger, and cancelling the booking would take
      `sold` below zero, which the table refuses. */
  lemma {:induction false} PendingBreaksRecount(tiers: seq<Tier>, bookings: seq<Booking>, i: nat)
    requires BookingsWellFormed(tiers, bookings)
    requires i < |bookings| && bookings[i].status == Pending
    requires IsAlive(tiers[bookings[i].tier].meta) && TierCheck(tiers[bookings[i].tier])
    requires ConfirmedTotal(bookings, bookings[i].tier) < bookings[i].quantity
    ensures var t := bookings[i].tier;
            var r := Recounted(tiers[t], t, bookings);
            !LedgerOk(tiers[t := r], bookings)
            && TierViolation(r.(sold := r.sold - bookings[i].quantity)) == Some(SoldNonNegative)
  {
    var t := bookings[i].tier;
    HeldTotalAtLeast(bookings, t, i);
    RecountBounds(tiers[t], t, bookings);
  }

  /** The cancel that follows: with a booking on a tier whose `sold` is
      below the booking's quantity, the cancel never succeeds and leaves
      the tables as they were. */
  method CancelUndercounted(db: Database, i: nat, now: Time) returns (r: Result<nat>)
    requires db.Persisted() && i < |db.bookings|
    requires db.tiers[db.bookings[i].tier].sold < db.bookings[i].quantity
    modifies db
    ensures r.Err? && db.tiers == old(db.tiers) && db.bookings == old(db.bookings)
  {
    ghost var t := db.bookings[i].tier;
    r := db.CancelBooking(i, now);
    assert t < |db.tiers| && TierCheck(db.tiers[t]);
  }

  // ---------------------------------------------------------------------------
  // _seed_org_memberships
  // ---------------------------------------------------------------------------

  /** What one organisation takes from the front of the pool: the first
      user as OWNER, then `min(randint(1, 2), left)` more as MANAGERs;
      nothing when the pool is empty. */
  function OrgBlock(pool: seq<nat>, org: nat, draw: nat): (r: seq<OrganizationMembership>)
    ensures |r| <= |pool| && (pool == [] <==> r == [])
    ensures |r| == Min(2 + draw % 2, |pool|)
    ensures forall k :: 0 <= k < |r| ==> r[k].user == pool[k] && r[k].organization == org
    ensures forall k :: 0 <= k < |r| ==> (r[k].role.Owner? <==> k == 0) && (r[k].role.Manager? <==> k > 0)
  {
    if pool == [] then []
    else
      var n := 1 + Min(1 + draw % 2, |pool| - 1);
      seq(n, k requires 0 <= k < n => OrganizationMembership(pool[k], org, if k == 0 then Owner else Manager))
  }

  /** The memberships the organisations from position `i` on take, one
      block after another, from what the earlier ones left of the pool. */
  function OrgPlan(pool: seq<nat>, orgs: seq<nat>, managers: nat -> nat, i: nat): seq<OrganizationMembership>
    decreases |orgs| - i
  {
    if i >= |orgs| then []
    else
      var b := OrgBlock(pool, orgs[i], managers(i));
      b + OrgPlan(pool[|b|..], orgs, managers, i + 1)
  }

  /** Whether some membership makes `o` an OWNER. */
  predicate HasOwner(ms: seq<OrganizationMembership>, o: nat) {
    exists k :: 0 <= k < |ms| && ms[k].organization == o && ms[k].role.Owner?
  }

  /** The membership at `k` comes right after its organisation's OWNER, or
      right after a MANAGER that does. */
  predicate FollowsOwner(ms: seq<OrganizationMembership>, k: int)
    requires 0 <= k < |ms|
  {
    k > 0 && ms[k - 1].organization == ms[k].organization
    && (ms[k - 1].role.Owner? || (k > 1 && ms[k - 2].organization == ms[k].organization && ms[k - 2].role.Owner?))
  }

  /** Each MANAGER follows the OWNER of its organisation: one OWNER, then
      at most two MANAGERs. */
  predicate ManagersFollowOwner(ms: seq<OrganizationMembership>) {
    forall k :: 0 <= k < |ms| && ms[k].role.Manager? ==> FollowsOwner(ms, k)
  }

  /** No organisation has two OWNERs. */
  predicate OneOwnerEach(ms: seq<OrganizationMembership>) {
    forall a, b :: 0 <= a < b < |ms| && ms[a].role.Owner? && ms[b].role.Owner? ==> ms[a].organization != ms[b].organization
  }

  /** `o` is one of the organisations from position `i` on. */
  predicate OrgFrom(orgs: seq<nat>, i: nat, o: nat) {
    exists w :: i <= w < |orgs| && orgs[w] == o
  }

  /** The members are the front of the pool, in order, and each joins one
      of the organisations from position `i` on as OWNER or MANAGER. */
  lemma {:induction false} OrgPlanMembers(pool: seq<nat>, orgs: seq<nat>, managers: nat -> nat, i: nat)
    ensures var plan := OrgPlan(pool, orgs, managers, i);
            |plan| <= |pool|
            && (forall k :: 0 <= k < |plan| ==> plan[k].user == pool[k])
            && (forall k :: 0 <= k < |plan| ==> OrgFrom(orgs, i, plan[k].organization))
            && (forall k :: 0 <= k < |plan| ==> plan[k].role.Owner? || plan[k].role.Manager?)
    decreases |orgs| - i
  {
    if i < |orgs| {
      var b := OrgBlock(pool, orgs[i], managers(i));
      var left := pool[|b|..];
      var rest := OrgPlan(left, orgs, managers, i + 1);
      OrgPlanMembers(left, orgs, managers, i + 1);
      var plan := b + rest;
      assert OrgPlan(pool, orgs, managers, i) == plan;
      forall k | 0 <= k < |plan|
        ensures plan[k].user == pool[k] && OrgFrom(orgs, i, plan[k].organization)
        ensures plan[k].role.Owner? || plan[k].role.Manager?
      {
        if k < |b| {
          assert plan[k] == b[k];
        } else {
          var m := k - |b|;
          assert plan[k] == rest[m];
          assert rest[m].user == left[m];
          assert OrgFrom(orgs, i + 1, rest[m].organization);
          var w :| i + 1 <= w < |orgs| && orgs[w] == rest[m].organization;
          assert i <= w;
        }
      }
    }
  }

  /** Every MANAGER follows its organisation's OWNER. */
  lemma {:induction false} OrgPlanManagersFollowOwner(pool: seq<nat>, orgs: seq<nat>, managers: nat -> nat, i: nat)
    ensures ManagersFollowOwner(OrgPlan(pool, orgs, managers, i))
    decreases |orgs| - i
  {
    if i < |orgs| {
      var b := OrgBlock(pool, orgs[i], managers(i));
      var rest := OrgPlan(pool[|b|..], orgs, managers, i + 1);
      OrgPlanManagersFollowOwner(pool[|b|..], orgs, managers, i + 1);
      var plan := b + rest;
      assert OrgPlan(pool, orgs, managers, i) == plan;
      forall k | 0 <= k < |plan| && plan[k].role.Manager? ensures FollowsOwner(plan, k) {
        if k < |b| {
          assert plan[k] == b[k] && plan[k - 1] == b[k - 1];
          if k > 1 {
            assert plan[k - 2] == b[k - 2];
          }
        } else {
          var m := k - |b|;
          assert plan[k] == rest[m];
          assert FollowsOwner(rest, m);
          assert plan[k - 1] == rest[m - 1];
          if m > 1 {
            assert plan[k - 2] == rest[m - 2];
          }
        }
      }
    }
  }

  /** Two runs without a second OWNER each, whose OWNERs are of different
      organisations, join into one without a second OWNER. */
  lemma OneOwnerEachConcat(x: seq<OrganizationMembership>, y: seq<OrganizationMembership>)
    requires OneOwnerEach(x) && OneOwnerEach(y)
    requires forall a, c :: 0 <= a < |x| && 0 <= c < |y| && x[a].role.Owner? && y[c].role.Owner? ==> x[a].organization != y[c].organization
    ensures OneOwnerEach(x + y)
  {
    var z := x + y;
    forall a, c | 0 <= a < c < |z| && z[a].role.Owner? && z[c].role.Owner?
      ensures z[a].organization != z[c].organization
    {
      if c < |x| {
        assert z[a] == x[a] && z[c] == x[c];
      } else if a < |x| {
        assert z[a] == x[a] && z[c] == y[c - |x|];
      } else {
        assert z[a] == y[a - |x|] && z[c] == y[c - |x|];
      }
    }
  }

  /** With no organisation listed twice, no organisation gets two OWNERs. */
  lemma {:induction false} OrgPlanOneOwnerEach(pool: seq<nat>, orgs: seq<nat>, managers: nat -> nat, i: nat)
    requires Distinct(orgs)
    ensures OneOwnerEach(OrgPlan(pool, orgs, managers, i))
    decreases |orgs| - i
  {
    if i < |orgs| {
      var b := OrgBlock(pool, orgs[i], managers(i));
      var rest := OrgPlan(pool[|b|..], orgs, managers, i + 1);
      OrgPlanOneOwnerEach(pool[|b|..], orgs, managers, i + 1);
      OrgPlanMembers(pool[|b|..], orgs, managers, i + 1);
      forall c | 0 <= c < |rest| ensures rest[c].organization != orgs[i] {
        assert OrgFrom(orgs, i + 1, rest[c].organization);
        var w :| i + 1 <= w < |orgs| && orgs[w] == rest[c].organization;
        assert orgs[w] != orgs[i];
      }
      OneOwnerEachConcat(b, rest);
    }
  }

  /** When some user is still left at the end, every organisation from
      position `i` on has its OWNER. */
  lemma {:induction false} OrgPlanEveryOrgOwned(pool: seq<nat>, orgs: seq<nat>, managers: nat -> nat, i: nat)
    requires |OrgPlan(pool, orgs, managers, i)| < |pool|
    ensures forall j :: i <= j < |orgs| ==> HasOwner(OrgPlan(pool, orgs, managers, i), orgs[j])
    decreases |orgs| - i
  {
    if i < |orgs| {
      var b := OrgBlock(pool, orgs[i], managers(i));
      var rest := OrgPlan(pool[|b|..], orgs, managers, i + 1);
      OrgPlanEveryOrgOwned(pool[|b|..], orgs, managers, i + 1);
      var plan := b + rest;
      forall j | i <= j < |orgs| ensures HasOwner(plan, orgs[j]) {
        if j == i {
          assert plan[0] == b[0];
        } else {
          var k :| 0 <= k < |rest| && rest[k].organization == orgs[j] && rest[k].role.Owner?;
          assert plan[|b| + k] == rest[k];
        }
      }
    }
  }

  /** The plan seeded from a shuffle of `users`: the members are those
      users in shuffled order, each once when no user is listed twice;
      every MANAGER follows its OWNER; no organisation gets two OWNERs
      when none is listed twice; and while users are left over every
      organisation has its OWNER. */
  lemma OrgPlanFacts(users: seq<nat>, orgs: seq<nat>, shuffle: nat -> nat, managers: nat -> nat)
    ensures var plan := OrgPlan(Sample(users, |users|, shuffle), orgs, managers, 0);
            |plan| <= |users|
            && (forall k :: 0 <= k < |plan| ==> plan[k].user == Sample(users, |users|, shuffle)[k] && plan[k].organization in orgs)
            && (forall k :: 0 <= k < |plan| ==> plan[k].role.Owner? || plan[k].role.Manager?)
            && ManagersFollowOwner(plan)
            && (Distinct(users) ==> forall a, b :: 0 <= a < b < |plan| ==> plan[a].user != plan[b].user)
            && (Distinct(orgs) ==> OneOwnerEach(plan))
            && (|plan| < |users| ==> forall o :: o in orgs ==> HasOwner(plan, o))
  {
    var shuffled := Sample(users, |users|, shuffle);
    var plan := OrgPlan(shuffled, orgs, managers, 0);
    OrgPlanMembers(shuffled, orgs, managers, 0);
    OrgPlanManagersFollowOwner(shuffled, orgs, managers, 0);
    if Distinct(orgs) {
      OrgPlanOneOwnerEach(shuffled, orgs, managers, 0);
    }
    if |plan| < |users| {
      OrgPlanEveryOrgOwned(shuffled, orgs, managers, 0);
      forall o | o in orgs ensures HasOwner(plan, o) {
        var j :| 0 <= j < |orgs| && orgs[j] == o;
      }
    }
    forall k | 0 <= k < |plan| ensures plan[k].organization in orgs {
      var w :| 0 <= w < |orgs| && orgs[w] == plan[k].organization;
    }
  }

  /** One organisation's turn: pop an OWNER when a user is left, then
      `min(randint(1, 2), left)` MANAGERs. */
  method TakeBlock(pool: seq<nat>, org: nat, draw: nat) returns (block: seq<OrganizationMembership>, left: seq<nat>)
    ensures block == OrgBlock(pool, org, draw) && left == pool[|block|..]
  {
    ghost var full := OrgBlock(pool, org, draw);
    block := [];
    left := pool;
    if left != [] {
      block := block + [OrganizationMembership(left[0], org, Owner)];
      left := left[1..];
    }
    var count := Min(1 + draw % 2, |left|);
    var j := 0;
    while j < count
      invariant 0 <= j <= count && count <= |left| + j
      invariant |block| == (if pool == [] then 0 else 1) + j
      invariant |block| <= |pool| && left == pool[|block|..]
      invariant block == full[..|block|]
    {
      if left != [] {
        block := block + [OrganizationMembership(left[0], org, Manager)];
        left := left[1..];
      }
      j := j + 1;
    }
  }

  /** The plan from position `i` on is the block of organisation `i`
      followed by the plan of the rest from what it leaves: so once the
      memberships taken so far and the plan of the remaining pool make up
      `whole`, they still do after organisation `i` takes its block. */
  lemma OrgPlanStep(pool: seq<nat>, orgs: seq<nat>, managers: nat -> nat, i: nat,
                    done: seq<OrganizationMembership>, whole: seq<OrganizationMembership>,
                    block: seq<OrganizationMembership>, left: seq<nat>)
    requires i < |orgs| && block == OrgBlock(pool, orgs[i], managers(i)) && left == pool[|block|..]
    requires done + OrgPlan(pool, orgs, managers, i) == whole
    ensures (done + block) + OrgPlan(left, orgs, managers, i + 1) == whole
  {
    var tail := OrgPlan(left, orgs, managers, i + 1);
    assert OrgPlan(pool, orgs, managers, i) == block + tail;
    assert done + (block + tail) == (done + block) + tail;
  }

  /** The organisations in turn, each taking its block from the front of
      the pool. */
  method BuildOrgPlan(pool: seq<nat>, orgs: seq<nat>, managers: nat -> nat) returns (ms: seq<OrganizationMembership>)
    ensures ms == OrgPlan(pool, orgs, managers, 0)
  {
    ghost var plan := OrgPlan(pool, orgs, managers, 0);
    var left := pool;
    ms := [];
    var i := 0;
    while i < |orgs|
      invariant 0 <= i <= |orgs|
      invariant ms + OrgPlan(left, orgs, managers, i) == plan
    {
      var block, rest := TakeBlock(left, orgs[i], managers(i));
      OrgPlanStep(left, orgs, managers, i, ms, plan, block, rest);
      ms, left := ms + block, rest;
      i := i + 1;
    }
  }

  /** The organisation memberships a run seeds from its users. */
  function OrgSeeded(users: seq<nat>, orgs: seq<nat>, shuffle: nat -> nat, managers: nat -> nat): seq<OrganizationMembership> {
    OrgPlan(Sample(users, |users|, shuffle), orgs, managers, 0)
  }

  /** _seed_org_memberships: nothing without users or organisations;
      otherwise the users shuffled into a pool from whose front each
      organisation in turn takes its block. It builds exactly the plan,
      whose properties `OrgPlanFacts` states. */
  method SeedOrgMemberships(users: seq<nat>, orgs: seq<nat>, shuffle: nat -> nat, managers: nat -> nat)
    returns (ms: seq<OrganizationMembership>)
    ensures ms == OrgSeeded(users, orgs, shuffle, managers)
    ensures ManagersFollowOwner(ms) && (Distinct(orgs) ==> OneOwnerEach(ms))
    ensures Distinct(users) ==> forall a, b :: 0 <= a < b < |ms| ==> ms[a].user != ms[b].user
    ensures |ms| < |users| ==> forall o :: o in orgs ==> HasOwner(ms, o)
  {
    if users == [] || orgs == [] {
      OrgPlanFacts(users, orgs, shuffle, managers);
      return [];
    }
    var pool := Sample(users, |users|, shuffle);
    ms := BuildOrgPlan(pool, orgs, managers);
    OrgPlanFacts(users, orgs, shuffle, managers);
  }

  // ---------------------------------------------------------------------------
  // _seed_venue_memberships
  // ---------------------------------------------------------------------------

  /** The users outside `orgUsers`, in their order. */
  function NonMembers(users: seq<nat>, orgUsers: set<nat>): (r: seq<nat>)
    ensures |r| <= |users|
    ensures forall x :: x in r <==> x in users && x !in orgUsers
    ensures Distinct(users) ==> Distinct(r)
  {
    if users == [] then []
    else
      var rest := NonMembers(users[1..], orgUsers);
      if users[0] in orgUsers then
        assert Distinct(users) ==> Distinct(users[1..]) by {
          if Distinct(users) {
            forall a, b | 0 <= a < b < |users[1..]| ensures users[1..][a] != users[1..][b] {
              assert users[1..][a] == users[a + 1] && users[1..][b] == users[b + 1];
            }
          }
        }
        rest
      else
        assert Distinct(users) ==> Distinct([users[0]] + rest) by {
          if Distinct(users) {
            forall a, b | 0 <= a < b < |users[1..]| ensures users[1..][a] != users[1..][b] {
              assert users[1..][a] == users[a + 1] && users[1..][b] == users[b + 1];
            }
            assert users[0] !in users[1..] by {
              forall k | 0 <= k < |users[1..]| ensures users[1..][k] != users[0] {
                assert users[1..][k] == users[k + 1];
              }
            }
            var z := [users[0]] + rest;
            forall a, b | 0 <= a < b < |z| ensures z[a] != z[b] {
              if a == 0 {
                assert z[b] == rest[b - 1];
              } else {
                assert z[a] == rest[a - 1] && z[b] == rest[b - 1];
              }
            }
          }
        }
        [users[0]] + rest
  }

  /** The candidates for venue manager: the users in no organisation, or,
      when every user is in one, all users. */
  function VenuePool(users: seq<nat>, orgUsers: set<nat>): (r: seq<nat>)
    ensures |r| <= |users| && (r == [] <==> users == [])
    ensures forall x :: x in r ==> x in users
    ensures (exists u :: u in users && u !in orgUsers) ==> forall x :: x in r ==> x !in orgUsers
    ensures (forall u :: u in users ==> u in orgUsers) ==> r == users
    ensures Distinct(users) ==> Distinct(r)
  {
    var outside := NonMembers(users, orgUsers);
    if outside != [] then
      assert outside[0] in users && outside[0] !in orgUsers;
      outside
    else
      assert forall u :: u in users ==> u in orgUsers;
      users
  }

  /** The venue managers seeded from a shuffle of the pool: the venues in
      order take the shuffled candidates in order, as long as any are left. */
  function VenuePlan(users: seq<nat>, venues: seq<nat>, orgUsers: set<nat>, shuffle: nat -> nat): (ms: seq<VenueMembership>)
    ensures var pool := VenuePool(users, orgUsers);
            var shuffled := Sample(pool, |pool|, shuffle);
            |ms| == Min(|venues|, |pool|)
            && forall k :: 0 <= k < |ms| ==> ms[k] == VenueMembership(shuffled[k], venues[k], VenueManager)
  {
    var pool := VenuePool(users, orgUsers);
    var shuffled := Sample(pool, |pool|, shuffle);
    var n := Min(|venues|, |pool|);
    seq(n, k requires 0 <= k < n => VenueMembership(shuffled[k], venues[k], VenueManager))
  }

  /** A shuffle is a permutation of the pool. */
  lemma ShuffleIsPermutation<T>(pool: seq<T>, pick: nat -> nat)
    ensures multiset(Sample(pool, |pool|, pick)) == multiset(pool)
  {
    DrawCount(pool, |pool|, pick);
  }

  /** Every venue manager is a user, none repeats when no user is listed
      twice, no venue gets two when no venue is listed twice, none is in
      an organisation when some user is not, and every venue gets one when
      there are enough candidates. */
  lemma VenuePlanFacts(users: seq<nat>, venues: seq<nat>, orgUsers: set<nat>, shuffle: nat -> nat)
    ensures var ms := VenuePlan(users, venues, orgUsers, shuffle);
            (forall k :: 0 <= k < |ms| ==> ms[k].user in users && ms[k].venue == venues[k] && ms[k].role == VenueManager)
            && (Distinct(users) ==> forall a, b :: 0 <= a < b < |ms| ==> ms[a].user != ms[b].user)
            && (Distinct(venues) ==> forall a, b :: 0 <= a < b < |ms| ==> ms[a].venue != ms[b].venue)
            && ((exists u :: u in users && u !in orgUsers) ==> forall k :: 0 <= k < |ms| ==> ms[k].user !in orgUsers)
            && (|venues| <= |VenuePool(users, orgUsers)| ==> |ms| == |venues|)
  {
    var pool := VenuePool(users, orgUsers);
    var shuffled := Sample(pool, |pool|, shuffle);
    var ms := VenuePlan(users, venues, orgUsers, shuffle);
    forall k | 0 <= k < |ms| ensures ms[k].user in users && ms[k].user in pool {
      assert ms[k].user == shuffled[k];
    }
    if Distinct(users) {
      forall a, b | 0 <= a < b < |ms| ensures ms[a].user != ms[b].user {
        assert ms[a].user == shuffled[a] && ms[b].user == shuffled[b];
      }
    }
  }

  /** Each venue in turn pops the next candidate as its MANAGER while any
      are left. */
  method AssignVenues(shuffled: seq<nat>, venues: seq<nat>) returns (ms: seq<VenueMembership>)
    ensures |ms| == Min(|venues|, |shuffled|)
    ensures forall k :: 0 <= k < |ms| ==> ms[k] == VenueMembership(shuffled[k], venues[k], VenueManager)
  {
    var available := shuffled;
    ms := [];
    var i := 0;
    while i < |venues|
      invariant 0 <= i <= |venues| && |ms| == Min(i, |shuffled|)
      invariant available == shuffled[|ms|..]
      invariant forall k :: 0 <= k < |ms| ==> ms[k] == VenueMembership(shuffled[k], venues[k], VenueManager)
    {
      if available != [] {
        ms := ms + [VenueMembership(available[0], venues[i], VenueManager)];
        available := available[1..];
      }
      i := i + 1;
    }
  }

  /** _seed_venue_memberships: nothing without users or venues; otherwise
      the candidates shuffled, and each venue in turn pops the next one as
      its MANAGER while any are left. */
  method SeedVenueMemberships(users: seq<nat>, venues: seq<nat>, orgUsers: set<nat>, shuffle: nat -> nat)
    returns (ms: seq<VenueMembership>)
    ensures ms == VenuePlan(users, venues, orgUsers, shuffle)
    ensures Distinct(users) ==> forall a, b :: 0 <= a < b < |ms| ==> ms[a].user != ms[b].user
    ensures (exists u :: u in users && u !in orgUsers) ==> forall k :: 0 <= k < |ms| ==> ms[k].user !in orgUsers
  {
    if users == [] || venues == [] {
      VenuePlanFacts(users, venues, orgUsers, shuffle);
      return [];
    }
    var available := NonMembers(users, orgUsers);
    if available == [] {
      available := users;
    }
    assert available == VenuePool(users, orgUsers);
    var shuffled := Sample(available, |available|, shuffle);
    ms := AssignVenues(shuffled, venues);
    assert ms == VenuePlan(users, venues, orgUsers, shuffle);
    VenuePlanFacts(users, venues, orgUsers, shuffle);
  }

  // ---------------------------------------------------------------------------
  // handle
  // ---------------------------------------------------------------------------

  /** Every random draw of one run. */
  datatype SeedDraws = SeedDraws(tickets: TicketDraws, bookings: BookingDraws, orgShuffle: nat -> nat,
                                 managers: nat -> nat, venueShuffle: nat -> nat)

  /** How a run ends: refused outside DEBUG, rolled back by an exception,
      or done, with the tier ids and memberships it created. */
  datatype SeedOutcome =
    | Skipped
    | RolledBack
    | Seeded(tickets: seq<nat>, orgMemberships: seq<OrganizationMembership>, venueMemberships: seq<VenueMembership>)

  /** `getattr(settings, "DEBUG", True)`: a missing setting counts as on. */
  function DebugOn(debug: Option<bool>): (on: bool)
    ensures on <==> debug != Some(false)
  {
    match debug
    case None => true
    case Some(b) => b
  }

  /** The ids of `n` rows appended to a table of `from` rows. */
  function NewIds(from: nat, n: nat): (r: seq<nat>)
    ensures |r| == n && forall k :: 0 <= k < n ==> r[k] == from + k
  {
    seq(n, k requires 0 <= k < n => from + k)
  }

  /** The users in some membership. */
  function MemberUsers(ms: seq<OrganizationMembership>): (r: set<nat>)
    ensures forall k :: 0 <= k < |ms| ==> ms[k].user in r
    ensures forall u :: u in r ==> exists k :: 0 <= k < |ms| && ms[k].user == u
  {
    set k | 0 <= k < |ms| :: ms[k].user
  }

  /** Tiers of events that have none yet, each of a known event and
      passing the tier checks, with no ticket type twice per event, keep
      the tier constraints and the bookings' references when appended; the
      new row numbers point at them. */
  lemma TiersAppended(events: seq<Event>, tiers: seq<Tier>, bookings: seq<Booking>, created: seq<Tier>)
    requires forall t :: 0 <= t < |tiers| ==> tiers[t].event < |events| && TierCheck(tiers[t])
    requires TierTypesUnique(tiers) && BookingsWellFormed(tiers, bookings) && TierTypesUnique(created)
    requires forall k :: 0 <= k < |created| ==> created[k].event < |events| && TierCheck(created[k])
    requires forall t, k :: 0 <= t < |tiers| && 0 <= k < |created| ==> tiers[t].event != created[k].event
    ensures var all := tiers + created;
            (forall t :: 0 <= t < |all| ==> all[t].event < |events| && TierCheck(all[t]))
            && TierTypesUnique(all) && BookingsWellFormed(all, bookings)
            && TicketsExist(NewIds(|tiers|, |created|), all, events)
  {
    var all := tiers + created;
    UniqueTypesConcat(tiers, created);
    forall t | 0 <= t < |all| ensures all[t].event < |events| && TierCheck(all[t]) {
      if t >= |tiers| {
        assert all[t] == created[t - |tiers|];
      }
    }
    var ids := NewIds(|tiers|, |created|);
    forall k | 0 <= k < |ids| ensures ids[k] < |all| && all[ids[k]].event < |events| {
      assert all[ids[k]] == created[k];
    }
  }

  /** `bulk_create` of tiers: appended after the existing rows, whose
      constraints they keep; their ids are the new row numbers. */
  method PersistTiers(db: Database, created: seq<Tier>) returns (ids: seq<nat>)
    requires db.Persisted() && TierTypesUnique(created)
    requires forall k :: 0 <= k < |created| ==> created[k].event < |db.events| && TierCheck(created[k])
    requires forall t, k :: 0 <= t < |db.tiers| && 0 <= k < |created| ==> db.tiers[t].event != created[k].event
    modifies db`tiers
    ensures db.Persisted() && db.tiers == old(db.tiers) + created
    ensures ids == NewIds(|old(db.tiers)|, |created|) && TicketsExist(ids, db.tiers, db.events)
  {
    TiersAppended(db.events, db.tiers, db.bookings, created);
    ids := NewIds(|db.tiers|, |created|);
    db.tiers := db.tiers + created;
  }

  /** `bulk_create` of bookings: appended after the existing rows. */
  method PersistBookings(db: Database, bs: seq<Booking>)
    requires db.Persisted() && BookingsWellFormed(db.tiers, bs)
    modifies db`bookings
    ensures db.Persisted() && db.bookings == old(db.bookings) + bs
  {
    assert BookingsWellFormed(db.tiers, db.bookings + bs) by {
      forall i | 0 <= i < |db.bookings + bs| ensures (db.bookings + bs)[i].tier < |db.tiers| && BookingCheck((db.bookings + bs)[i]) {
        if i < |db.bookings| {
          assert (db.bookings + bs)[i] == db.bookings[i];
        } else {
          assert (db.bookings + bs)[i] == bs[i - |db.bookings|];
        }
      }
    }
    db.bookings := db.bookings + bs;
  }

  /** The tiers and bookings of one run: `_seed_event_tickets`, then
      `_seed_bookings` over the new tier ids. When drawing a user fails
      the transaction rolls back and the tables are as they were. */
  method SeedTables(db: Database, events: seq<nat>, users: seq<nat>, nBookings: nat, d: SeedDraws)
    returns (ok: bool, tickets: seq<nat>)
    requires db.Persisted()
    requires Distinct(events) && forall k :: 0 <= k < |events| ==> events[k] < |db.events|
    requires forall t, k :: 0 <= t < |db.tiers| && 0 <= k < |events| ==> db.tiers[t].event != events[k]
    modifies db`tiers, db`bookings
    ensures db.Persisted()
    ensures !ok <==> events != [] && nBookings > 0 && users == []
    ensures !ok ==> db.tiers == old(db.tiers) && db.bookings == old(db.bookings)
    ensures ok ==> db.tiers == old(db.tiers) + EventsTickets(events, d.tickets)
                   && tickets == NewIds(|old(db.tiers)|, |EventsTickets(events, d.tickets)|)
                   && (tickets == [] <==> events == [])
                   && TicketsExist(tickets, db.tiers, db.events)
                   && db.bookings == old(db.bookings) + BookingPlan(nBookings, users, tickets, db.tiers, db.events, d.bookings)
  {
    var created := SeedEventTickets(events, d.tickets);
    var savedTiers := db.tiers;
    forall k | 0 <= k < |created| ensures created[k].event < |db.events| {
      var w :| 0 <= w < |events| && events[w] == created[k].event;
    }
    forall t, k | 0 <= t < |db.tiers| && 0 <= k < |created| ensures db.tiers[t].event != created[k].event {
      var w :| 0 <= w < |events| && events[w] == created[k].event;
    }
    EventsTicketsUnique(events, d.tickets);
    tickets := PersistTiers(db, created);
    var seeded := SeedBookings(nBookings, users, tickets, db.tiers, db.events, d.bookings);
    if seeded.None? {
      db.tiers := savedTiers;
      return false, tickets;
    }
    EventsTicketsFacts(events, d.tickets);
    PersistBookings(db, seeded.value);
    ok := true;
  }

  /** The memberships of one run: `_seed_org_memberships`, then
      `_seed_venue_memberships` with the users of every organisation
      membership, earlier ones and new ones, left out of the venue pool. */
  method SeedMemberships(users: seq<nat>, orgs: seq<nat>, venues: seq<nat>, existingOrgUsers: set<nat>, d: SeedDraws)
    returns (orgMs: seq<OrganizationMembership>, venueMs: seq<VenueMembership>)
    ensures orgMs == OrgSeeded(users, orgs, d.orgShuffle, d.managers)
    ensures venueMs == VenuePlan(users, venues, existingOrgUsers + MemberUsers(orgMs), d.venueShuffle)
  {
    orgMs := SeedOrgMemberships(users, orgs, d.orgShuffle, d.managers);
    venueMs := SeedVenueMemberships(users, venues, existingOrgUsers + MemberUsers(orgMs), d.venueShuffle);
  }

  /** `handle`, inside one transaction, on events the same run has just
      created (so they have no tiers yet): outside DEBUG nothing happens;
      otherwise tiers, bookings, organisation and venue memberships are
      seeded and every tier's `sold` recounted. Drawing a user from an
      empty list raises, and the transaction then rolls back. Users,
      organisations, venues, categories and events are inputs. */
  method Handle(db: Database, debug: Option<bool>, events: seq<nat>, users: seq<nat>, orgs: seq<nat>,
                venues: seq<nat>, existingOrgUsers: set<nat>, nBookings: nat, d: SeedDraws)
    returns (outcome: SeedOutcome)
    requires db.Persisted()
    requires Distinct(events) && forall k :: 0 <= k < |events| ==> events[k] < |db.events|
    requires forall t, k :: 0 <= t < |db.tiers| && 0 <= k < |events| ==> db.tiers[t].event != events[k]
    modifies db`tiers, db`bookings
    ensures db.Persisted()
    ensures !DebugOn(debug) ==> outcome == Skipped
    ensures outcome.RolledBack? <==> DebugOn(debug) && events != [] && nBookings > 0 && users == []
    ensures outcome.Skipped? || outcome.RolledBack? ==> db.tiers == old(db.tiers) && db.bookings == old(db.bookings)
    ensures outcome.Seeded? ==>
              var created := EventsTickets(events, d.tickets);
              var seeded := old(db.tiers) + created;
              outcome.tickets == NewIds(|old(db.tiers)|, |created|)
              && (outcome.tickets == [] <==> events == [])
              && TicketsExist(outcome.tickets, seeded, db.events)
              && db.bookings == old(db.bookings) + BookingPlan(nBookings, users, outcome.tickets, seeded, db.events, d.bookings)
              && db.tiers == RecountAll(seeded, db.bookings)
              && outcome.orgMemberships == OrgSeeded(users, orgs, d.orgShuffle, d.managers)
              && outcome.venueMemberships == VenuePlan(users, venues, existingOrgUsers + MemberUsers(outcome.orgMemberships), d.venueShuffle)
  {
    if !DebugOn(debug) {
      return Skipped;
    }
    var ok, tickets := SeedTables(db, events, users, nBookings, d);
    if !ok {
      return RolledBack;
    }
    var orgMs, venueMs := SeedMemberships(users, orgs, venues, existingOrgUsers, d);
    RecountSold(db);
    outcome := Seeded(tickets, orgMs, venueMs);
  }
}
