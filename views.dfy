/** The view layer: the booking visibility rule and the cancel view, the
    tier update and destroy views with their ownership gates, booking
    DELETE, and the event and tier listings with their filters and
    orderings. A listing is a sequence of row ids. Rows are created in table
    order, so ordering by `-created_at` is ordering by descending id. */
module Views {
  import opened Abstracts
  import opened Models
  import opened Ledger
  import opened Permissions
  import opened Serializers

  /** The HTTP status codes the views answer with. */
  const Ok200: int := 200
  const NoContent204: int := 204
  const BadRequest400: int := 400
  const Unauthorized401: int := 401
  const Forbidden403: int := 403
  const NotFound404: int := 404
  const MethodNotAllowed405: int := 405
  const ServerError500: int := 500

  // ---------------------------------------------------------------------------
  // Filtering and ordering of id lists
  // ---------------------------------------------------------------------------

  /** The ids below `n` that satisfy `p`, in increasing order. */
  function Select(n: nat, p: int -> bool): (r: seq<int>)
    ensures forall i :: i in r <==> 0 <= i < n && p(i)
    ensures Increasing(r)
  {
    if n == 0 then []
    else if p(n - 1) then
      var s := Select(n - 1, p);
      assert forall a :: 0 <= a < |s| ==> s[a] in s;
      s + [n - 1]
    else Select(n - 1, p)
  }

  /** Strictly increasing, hence without repetition. */
  predicate Increasing(s: seq<int>) {
    forall a, b :: 0 <= a < b < |s| ==> s[a] < s[b]
  }

  /** Whether the ids are in ascending order of `key`. */
  predicate SortedBy(s: seq<int>, key: int -> int) {
    forall a, b :: 0 <= a < b < |s| ==> key(s[a]) <= key(s[b])
  }

  /** The head of a sorted list has the least key. */
  lemma HeadIsLeast(s: seq<int>, key: int -> int)
    requires SortedBy(s, key) && |s| > 0
    ensures forall y :: y in s ==> key(s[0]) <= key(y)
  {
    forall y | y in s ensures key(s[0]) <= key(y) {
      var k :| 0 <= k < |s| && s[k] == y;
    }
  }

  /** One id put in its place in a sorted list. */
  function Insert(x: int, s: seq<int>, key: int -> int): (r: seq<int>)
    requires SortedBy(s, key)
    ensures SortedBy(r, key)
    ensures forall y :: y in r <==> y == x || y in s
  {
    if s == [] then [x]
    else if key(x) <= key(s[0]) then
      HeadIsLeast(s, key);
      [x] + s
    else
      var rest := Insert(x, s[1..], key);
      HeadIsLeast(s, key);
      assert s == [s[0]] + s[1..];
      ConsSorted(s[0], rest, key);
      [s[0]] + rest
  }

  /** An id no greater in key than any id of a sorted list goes in front. */
  lemma ConsSorted(h: int, rest: seq<int>, key: int -> int)
    requires SortedBy(rest, key) && forall y :: y in rest ==> key(h) <= key(y)
    ensures SortedBy([h] + rest, key)
  {
    var s := [h] + rest;
    forall a, b | 0 <= a < b < |s| ensures key(s[a]) <= key(s[b]) {
      assert s[b] == rest[b - 1];
      if a > 0 {
        assert s[a] == rest[a - 1];
      }
    }
  }

  /** Inserting adds the id once and keeps every other id as often as before. */
  lemma {:induction false} InsertCount(x: int, s: seq<int>, key: int -> int)
    requires SortedBy(s, key)
    ensures multiset(Insert(x, s, key)) == multiset(s) + multiset{x}
  {
    if s != [] && key(x) > key(s[0]) {
      InsertCount(x, s[1..], key);
      assert s == [s[0]] + s[1..];
      assert Insert(x, s, key) == [s[0]] + Insert(x, s[1..], key);
      assert multiset(s) == multiset{s[0]} + multiset(s[1..]);
    } else {
      assert Insert(x, s, key) == [x] + s;
    }
  }

  /** `order_by(key)`: the same ids, in ascending order of `key`. */
  function SortBy(s: seq<int>, key: int -> int): (r: seq<int>)
    ensures SortedBy(r, key)
    ensures forall y :: y in r <==> y in s
    ensures multiset(r) == multiset(s)
  {
    if s == [] then []
    else
      assert s == [s[0]] + s[1..];
      InsertCount(s[0], SortBy(s[1..], key), key);
      Insert(s[0], SortBy(s[1..], key), key)
  }

  /** A list without repetition holds each of its ids once. */
  lemma {:induction false} IncreasingOnce(s: seq<int>, i: int)
    requires Increasing(s)
    ensures multiset(s)[i] == if i in s then 1 else 0
  {
    if s != [] {
      assert s == [s[0]] + s[1..];
      IncreasingOnce(s[1..], i);
      assert s[0] !in s[1..] by {
        forall a | 0 <= a < |s| - 1 ensures s[1..][a] != s[0] {
          assert s[a + 1] > s[0];
        }
      }
    }
  }

  /** An id list selected and then ordered holds each selected id exactly
      once and nothing else. */
  lemma SortedSelectionOnce(n: nat, p: int -> bool, key: int -> int, i: int)
    ensures multiset(SortBy(Select(n, p), key))[i] == if 0 <= i < n && p(i) then 1 else 0
  {
    IncreasingOnce(Select(n, p), i);
  }

  // ---------------------------------------------------------------------------
  // Bookings
  // ---------------------------------------------------------------------------

  /** Who sees every booking: staff, superusers and the Support Staff group. */
  predicate SeesAllBookings(u: User) {
    u.isStaff || u.isSuperuser || SupportStaffGroup in u.groups
  }

  /** BookingViewSet.get_queryset as a membership test: a live booking the
      user may see. */
  predicate BookingVisible(u: User, bookings: seq<Booking>, i: int) {
    0 <= i < |bookings| && IsAlive(bookings[i].meta) && (SeesAllBookings(u) || bookings[i].user == u.id)
  }

  /** BookingViewSet.get_queryset: the visible bookings, newest first. */
  function BookingQueryset(u: User, bookings: seq<Booking>): (r: seq<int>)
    ensures forall i :: i in r <==> 0 <= i && BookingVisible(u, bookings, i)
    ensures SortedBy(r, i => -i)
  {
    SortBy(Select(|bookings|, i => 0 <= i && BookingVisible(u, bookings, i)), i => -i)
  }

  /** The check the cancel view makes after `get_object`: privileged users
      pass, anyone else only for a booking of their own. */
  predicate CancelGate(u: User, b: Booking) {
    SeesAllBookings(u) || b.user == u.id
  }

  /** The ownership gate of the cancel view never refuses: any booking
      `get_object` can return to a user already passes it, so someone
      else's booking is answered with 404 before the gate is reached. */
  lemma CancelGateNeverRefuses(u: User, bookings: seq<Booking>, i: nat)
    requires BookingVisible(u, bookings, i)
    ensures CancelGate(u, bookings[i])
  {
  }

  /** BookingViewSet.cancel: authentication, `get_object` through the
      visibility rule, the ownership gate (which cannot refuse, see
      `CancelGateNeverRefuses`), then the cancel serializer. A validation
      error is a 400; a failure inside the save is a server error. */
  method CancelView(db: Database, u: User, i: nat, now: Time) returns (code: int)
    requires db.Persisted()
    modifies db
    ensures db.Persisted() && db.events == old(db.events)
    ensures old(LedgerOk(db.tiers, db.bookings)) ==> LedgerOk(db.tiers, db.bookings)
    ensures code != Forbidden403
    ensures !u.isAuthenticated ==> code == Unauthorized401
    ensures u.isAuthenticated && !BookingVisible(u, old(db.bookings), i) ==> code == NotFound404
    ensures code != Ok200 ==> db.tiers == old(db.tiers) && db.bookings == old(db.bookings)
    ensures code == Ok200 ==> u.isAuthenticated && BookingVisible(u, old(db.bookings), i)
    ensures code == Ok200 ==> db.bookings == old(db.bookings)[i := old(db.bookings)[i].(status := BookingStatus.Cancelled)]
    ensures old(LedgerOk(db.tiers, db.bookings)) && u.isAuthenticated && BookingVisible(u, old(db.bookings), i) ==>
            (code == Ok200 <==> ValidateCancel(old(db.bookings)[i], old(db.events)[old(db.tiers)[old(db.bookings)[i].tier].event], now).Accept?)
  {
    if !u.isAuthenticated {
      return Unauthorized401;
    }
    if !BookingVisible(u, db.bookings, i) {
      return NotFound404;
    }
    CancelGateNeverRefuses(u, db.bookings, i);
    var r := db.CancelBooking(i, now);
    if r.Ok? {
      code := Ok200;
    } else if r.error.TierNotFound? || r.error.Integrity? {
      code := ServerError500;
    } else {
      code := BadRequest400;
    }
  }

  /** BookingViewSet.destroy: behind the default authentication
      permission, then always 405; it has no `modifies`, so it changes
      nothing. */
  method DestroyBooking(db: Database, u: User, i: nat) returns (code: int)
    ensures !u.isAuthenticated ==> code == Unauthorized401
    ensures u.isAuthenticated ==> code == MethodNotAllowed405
  {
    if !u.isAuthenticated {
      return Unauthorized401;
    }
    code := MethodNotAllowed405;
  }

  // ---------------------------------------------------------------------------
  // Tiers
  // ---------------------------------------------------------------------------

  /** The gate the tier update and destroy views apply to the tier's event:
      staff, superuser, or an OWNER or MANAGER of its organisation. */
  predicate TierGate(u: User, ms: seq<OrganizationMembership>, events: seq<Event>, tiers: seq<Tier>, t: nat)
    requires 0 <= t < |tiers| && tiers[t].event < |events|
  {
    IsStaffOrSuperuser(u) || HasManagingRole(ms, u.id, events[tiers[t].event].organization)
  }

  /** The tier gate is the organisation owner-or-manager rule for the
      tier's event. */
  lemma TierGateIsOwnerOrManager(u: User, ms: seq<OrganizationMembership>, events: seq<Event>, tiers: seq<Tier>, t: nat)
    requires 0 <= t < |tiers| && tiers[t].event < |events|
    ensures TierGate(u, ms, events, tiers, t) == IsOrganizationOwnerOrManager(u, ms, Some(events[tiers[t].event].organization))
    ensures TierGate(u, ms, events, tiers, t) == CanManageEvent(u, ms, events[tiers[t].event])
  {
  }

  /** TicketViewSet.update: authentication, the organiser permission,
      `get_object` over live tiers, the gate on the tier's current event,
      then the tier serializer (`partial` for PATCH), which checks a new
      event's organisation again. */
  method UpdateTierView(db: Database, u: User, ms: seq<OrganizationMembership>, t: nat,
                        partial: bool, p: TierPatch) returns (code: int)
    requires db.Persisted()
    modifies db
    ensures db.Persisted() && db.events == old(db.events) && db.bookings == old(db.bookings)
    ensures old(LedgerOk(db.tiers, db.bookings)) ==> LedgerOk(db.tiers, db.bookings)
    ensures !u.isAuthenticated ==> code == Unauthorized401
    ensures u.isAuthenticated && !IsOrganizerOrAdmin(u) ==> code == Forbidden403
    ensures IsOrganizerOrAdmin(u) && !IsLiveTier(old(db.tiers), t) ==> code == NotFound404
    ensures IsOrganizerOrAdmin(u) && IsLiveTier(old(db.tiers), t) && !TierGate(u, ms, db.events, old(db.tiers), t)
            ==> code == Forbidden403
    ensures code != Ok200 ==> db.tiers == old(db.tiers)
    ensures code == Ok200 ==> IsOrganizerOrAdmin(u) && IsLiveTier(old(db.tiers), t) && TierGate(u, ms, db.events, old(db.tiers), t)
                              && TierFieldErrors(u, ms, db.events, partial, p) == []
                              && db.tiers == old(db.tiers)[t := PatchTier(old(db.tiers)[t], p)]
                              && db.tiers[t].quota >= db.tiers[t].sold
  {
    if !u.isAuthenticated {
      return Unauthorized401;
    }
    if !IsOrganizerOrAdmin(u) {
      return Forbidden403;
    }
    if !IsLiveTier(db.tiers, t) {
      return NotFound404;
    }
    if !TierGate(u, ms, db.events, db.tiers, t) {
      return Forbidden403;
    }
    var r := db.UpdateTier(u, ms, t, partial, p);
    if r.Ok? {
      code := Ok200;
    } else if r.error.Integrity? {
      code := ServerError500;
    } else {
      code := BadRequest400;
    }
  }

  /** TicketViewSet.destroy: authentication, the organiser permission,
      `get_object` over live tiers and the gate; a tier with seats sold is
      refused with 400, any other is soft-deleted (`deleted_at` set,
      `is_active` cleared). */
  method DestroyTierView(db: Database, u: User, ms: seq<OrganizationMembership>, t: nat, now: Time) returns (code: int)
    requires db.Persisted()
    modifies db
    ensures db.Persisted() && db.events == old(db.events) && db.bookings == old(db.bookings)
    ensures old(LedgerOk(db.tiers, db.bookings)) ==> LedgerOk(db.tiers, db.bookings)
    ensures !u.isAuthenticated ==> code == Unauthorized401
    ensures u.isAuthenticated && !IsOrganizerOrAdmin(u) ==> code == Forbidden403
    ensures IsOrganizerOrAdmin(u) && !IsLiveTier(old(db.tiers), t) ==> code == NotFound404
    ensures IsOrganizerOrAdmin(u) && IsLiveTier(old(db.tiers), t) && !TierGate(u, ms, db.events, old(db.tiers), t)
            ==> code == Forbidden403
    ensures IsOrganizerOrAdmin(u) && IsLiveTier(old(db.tiers), t) && TierGate(u, ms, db.events, old(db.tiers), t)
            ==> (old(db.tiers)[t].sold > 0 ==> code == BadRequest400)
                && (old(db.tiers)[t].sold == 0 ==> code == NoContent204)
    ensures code != NoContent204 ==> db.tiers == old(db.tiers)
    ensures code == NoContent204 ==>
            db.tiers == old(db.tiers)[t := old(db.tiers)[t].(meta := SoftDeletedRow(BaseEntityMixin, old(db.tiers)[t].meta, now))]
  {
    if !u.isAuthenticated {
      return Unauthorized401;
    }
    if !IsOrganizerOrAdmin(u) {
      return Forbidden403;
    }
    if !IsLiveTier(db.tiers, t) {
      return NotFound404;
    }
    if !TierGate(u, ms, db.events, db.tiers, t) {
      return Forbidden403;
    }
    if db.tiers[t].sold > 0 {
      return BadRequest400;
    }
    var meta := db.tiers[t].meta;
    var instance := new Instance(BaseEntityMixin);
    instance.isActive, instance.deletedAt := meta.isActive, meta.deletedAt;
    var written, saved := instance.Delete(meta, now);
    InstanceDeleteMatchesRow(BaseEntityMixin, meta, now);
    if LedgerOk(db.tiers, db.bookings) {
      SoftDeleteTierPreserves(db.tiers, db.bookings, t, now);
    }
    UpdateTierUnique(db.tiers, t, db.tiers[t].(meta := saved));
    db.tiers := db.tiers[t := db.tiers[t].(meta := saved)];
    code := NoContent204;
  }

  /** The answer of a listing view: a status code and, with 200, the ids
      listed in order. */
  datatype Listing = Listing(code: int, ids: seq<int>)

  /** Whether `e` names an event EventViewSet's `get_object` finds. */
  predicate IsLiveEvent(events: seq<Event>, e: nat) {
    e < |events| && IsAlive(events[e].meta)
  }

  /** EventViewSet.available_tickets: `get_object` over live events, then
      the live tiers of the event with seats left, cheapest first. */
  function AvailableTickets(events: seq<Event>, tiers: seq<Tier>, e: nat): (r: Listing)
    ensures r.code == Ok200 || r.code == NotFound404
    ensures r.code == Ok200 <==> IsLiveEvent(events, e)
    ensures forall t :: t in r.ids <==> r.code == Ok200 && 0 <= t < |tiers| && tiers[t].event == e
                                        && IsAlive(tiers[t].meta) && tiers[t].quota > tiers[t].sold
    ensures SortedBy(r.ids, t => if 0 <= t < |tiers| then tiers[t].price else 0)
  {
    if !IsLiveEvent(events, e) then Listing(NotFound404, [])
    else
      var p := t => 0 <= t < |tiers| && tiers[t].event == e && IsAlive(tiers[t].meta) && tiers[t].quota > tiers[t].sold;
      var key := t => if 0 <= t < |tiers| then tiers[t].price else 0;
      Listing(Ok200, SortBy(Select(|tiers|, p), key))
  }

  /** Under the ledger invariant the available tiers of a live event are
      exactly its live tiers with a positive `get_available`. */
  lemma AvailableTicketsShowAvailability(events: seq<Event>, tiers: seq<Tier>, bookings: seq<Booking>, e: nat, t: nat)
    requires LedgerOk(tiers, bookings) && IsLiveEvent(events, e)
    ensures t in AvailableTickets(events, tiers, e).ids
            <==> 0 <= t < |tiers| && tiers[t].event == e && IsAlive(tiers[t].meta) && Available(tiers[t]) > 0
  {
  }

  // ---------------------------------------------------------------------------
  // Events
  // ---------------------------------------------------------------------------

  /** The public listing filter: PUBLISHED, active, live and not yet over. */
  predicate PubliclyListed(e: Event, now: Time) {
    e.status == Published && e.meta.isActive && IsAlive(e.meta) && e.endsAt > now
  }

  /** The ordering key `starts_at` of an event id. */
  function StartKey(events: seq<Event>): int -> int {
    i => if 0 <= i < |events| then events[i].startsAt else 0
  }

  /** EventViewSet.get_queryset for `list`: the publicly listed events,
      earliest start first. */
  function PublicEvents(events: seq<Event>, now: Time): (r: seq<int>)
    ensures forall i :: i in r <==> 0 <= i < |events| && PubliclyListed(events[i], now)
    ensures SortedBy(r, StartKey(events))
  {
    var p := i => 0 <= i < |events| && PubliclyListed(events[i], now);
    var r := SortBy(Select(|events|, p), StartKey(events));
    r
  }

  /** Whether `v` names a venue VenueViewSet's `get_object` finds: live and active. */
  predicate IsListedVenue(venues: seq<Venue>, v: nat) {
    v < |venues| && IsAlive(venues[v].meta) && venues[v].meta.isActive
  }

  /** VenueViewSet.schedule: `get_object` over live active venues, then the
      publicly listed events at the venue, earliest start first. */
  function VenueSchedule(venues: seq<Venue>, events: seq<Event>, venue: nat, now: Time): (r: Listing)
    ensures r.code == Ok200 || r.code == NotFound404
    ensures r.code == Ok200 <==> IsListedVenue(venues, venue)
    ensures forall i :: i in r.ids <==> r.code == Ok200 && 0 <= i < |events| && events[i].venue == venue
                                        && PubliclyListed(events[i], now)
    ensures SortedBy(r.ids, StartKey(events))
  {
    if !IsListedVenue(venues, venue) then Listing(NotFound404, [])
    else
      var p := i => 0 <= i < |events| && events[i].venue == venue && PubliclyListed(events[i], now);
      Listing(Ok200, SortBy(Select(|events|, p), StartKey(events)))
  }

  /** A listed venue's schedule is the public listing restricted to that
      venue; an unlisted venue has none. */
  lemma ScheduleIsPublicAtVenue(venues: seq<Venue>, events: seq<Event>, venue: nat, now: Time, i: nat)
    ensures IsListedVenue(venues, venue) ==>
            (i in VenueSchedule(venues, events, venue, now).ids
             <==> i in PublicEvents(events, now) && i < |events| && events[i].venue == venue)
    ensures !IsListedVenue(venues, venue) ==> VenueSchedule(venues, events, venue, now).code == NotFound404
  {
  }

  /** Whether OrganizationViewSet.events shows every active event of the
      organisation to the user, rather than only the PUBLISHED ones. */
  predicate SeesOrganizationDrafts(u: User, ms: seq<OrganizationMembership>, org: nat) {
    IsStaffOrSuperuser(u) || HasMembership(ms, u.id, org)
  }

  /** Whether the id names a PUBLISHED event. */
  predicate IsPublishedAt(events: seq<Event>, i: int) {
    0 <= i < |events| && events[i].status == Published
  }

  /** Whether `org` names an organisation OrganizationViewSet's `get_object`
      finds: live and active. */
  predicate IsListedOrganization(orgs: seq<Organization>, org: nat) {
    org < |orgs| && IsAlive(orgs[org].meta) && orgs[org].meta.isActive
  }

  /** The object gate of the organisation listing lets through exactly the
      users the listing shows drafts to, so its PUBLISHED-only branch is
      never taken. */
  lemma OrganizationGateSeesDrafts(u: User, ms: seq<OrganizationMembership>, org: nat)
    ensures IsOrganizationMember(u, ms, Some(org)) <==> SeesOrganizationDrafts(u, ms, org)
  {
  }

  /** OrganizationViewSet.events: authentication, `get_object` over live
      active organisations, the member gate, then for staff, superusers and
      members of any role all of the organisation's live active events and
      for anyone else only the PUBLISHED ones (a branch the gate leaves
      unreachable, see `OrganizationGateSeesDrafts`); newest first. */
  function OrganizationEvents(u: User, ms: seq<OrganizationMembership>, orgs: seq<Organization>,
                              events: seq<Event>, org: nat): (r: Listing)
    ensures r.code in {Ok200, Unauthorized401, NotFound404, Forbidden403}
    ensures !u.isAuthenticated ==> r.code == Unauthorized401
    ensures u.isAuthenticated && !IsListedOrganization(orgs, org) ==> r.code == NotFound404
    ensures u.isAuthenticated && IsListedOrganization(orgs, org) && !IsOrganizationMember(u, ms, Some(org))
            ==> r.code == Forbidden403
    ensures r.code == Ok200 <==> u.isAuthenticated && IsListedOrganization(orgs, org) && IsOrganizationMember(u, ms, Some(org))
    ensures forall i :: i in r.ids <==> r.code == Ok200 && 0 <= i < |events| && events[i].organization == org
                                        && IsAlive(events[i].meta) && events[i].meta.isActive
    ensures SortedBy(r.ids, i => -i)
  {
    if !u.isAuthenticated then Listing(Unauthorized401, [])
    else if !IsListedOrganization(orgs, org) then Listing(NotFound404, [])
    else if !IsOrganizationMember(u, ms, Some(org)) then Listing(Forbidden403, [])
    else
      OrganizationGateSeesDrafts(u, ms, org);
      var all := SeesOrganizationDrafts(u, ms, org);
      var p := i => 0 <= i < |events| && events[i].organization == org && IsAlive(events[i].meta)
                    && events[i].meta.isActive && (all || IsPublishedAt(events, i));
      Listing(Ok200, SortBy(Select(|events|, p), i => -i))
  }

  /** Whether the user has a membership of any role in some organisation of
      the event (the `organization_id__in` of `my_events`). */
  predicate InMyOrganizations(u: User, ms: seq<OrganizationMembership>, e: Event) {
    HasMembership(ms, u.id, e.organization)
  }

  /** The organiser permission admits only authenticated users, so the
      `.none()` branch of the `my_events` queryset is never taken. */
  lemma OrganizerGateIsAuthenticated(u: User)
    ensures IsOrganizerOrAdmin(u) ==> u.isAuthenticated
    ensures u.isAuthenticated && IsStaffOrSuperuser(u) ==> IsOrganizerOrAdmin(u)
  {
  }

  /** EventViewSet.my_events: authentication and the organiser permission,
      then for staff and superusers every live event, for any other
      organiser the live events of the organisations they belong to, and
      for an anonymous user none (unreachable, see
      `OrganizerGateIsAuthenticated`). The view's default ordering,
      `starts_at`, replaces the queryset's own ordering. */
  function MyEvents(u: User, ms: seq<OrganizationMembership>, events: seq<Event>): (r: Listing)
    ensures r.code in {Ok200, Unauthorized401, Forbidden403}
    ensures !u.isAuthenticated ==> r.code == Unauthorized401
    ensures u.isAuthenticated && !IsOrganizerOrAdmin(u) ==> r.code == Forbidden403
    ensures r.code == Ok200 <==> IsOrganizerOrAdmin(u)
    ensures forall i :: i in r.ids <==> r.code == Ok200 && 0 <= i < |events| && IsAlive(events[i].meta)
                                        && (IsStaffOrSuperuser(u) || InMyOrganizations(u, ms, events[i]))
    ensures SortedBy(r.ids, StartKey(events))
  {
    if !u.isAuthenticated then Listing(Unauthorized401, [])
    else if !IsOrganizerOrAdmin(u) then Listing(Forbidden403, [])
    else
      OrganizerGateIsAuthenticated(u);
      var p := i => 0 <= i < |events| && u.isAuthenticated && IsAlive(events[i].meta)
                    && (IsStaffOrSuperuser(u) || InMyOrganizations(u, ms, events[i]));
      Listing(Ok200, SortBy(Select(|events|, p), StartKey(events)))
  }

  /** Whoever the organisation listing answers sees there every event of
      the organisation the public sees and every draft of it as well; an
      authenticated non-member of a listed organisation is refused. */
  lemma OrganizationListingRules(u: User, ms: seq<OrganizationMembership>, orgs: seq<Organization>,
                                 events: seq<Event>, org: nat, i: nat, now: Time)
    ensures OrganizationEvents(u, ms, orgs, events, org).code == Ok200 && i in PublicEvents(events, now)
            && events[i].organization == org
            ==> i in OrganizationEvents(u, ms, orgs, events, org).ids
    ensures OrganizationEvents(u, ms, orgs, events, org).code == Ok200 && i < |events| && events[i].organization == org
            && IsAlive(events[i].meta) && events[i].meta.isActive && events[i].status == Draft
            ==> i in OrganizationEvents(u, ms, orgs, events, org).ids
    ensures OrganizationEvents(u, ms, orgs, events, org).code == Ok200 ==> SeesOrganizationDrafts(u, ms, org)
    ensures u.isAuthenticated && IsListedOrganization(orgs, org) && !SeesOrganizationDrafts(u, ms, org)
            ==> OrganizationEvents(u, ms, orgs, events, org).code == Forbidden403
  {
  }
}
