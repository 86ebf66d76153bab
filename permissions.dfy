/** The request-permission rules: group checks, ownership checks and the
    organisation and venue role checks. Each is a boolean over the request
    user, the request method, the object and the membership rows; none
    changes anything. A membership query is a search of the membership table. */
module Permissions {
  import opened Abstracts
  import opened Models

  /** The HTTP methods the rules distinguish; GET, HEAD and OPTIONS are safe. */
  datatype Method = Get | Head | Options | Post | Put | Patch | Delete

  predicate IsSafe(m: Method) {
    m == Get || m == Head || m == Options
  }

  /** The names of the groups the rules refer to. */
  const CustomersGroup: string := "Customers"
  const OrganizersGroup: string := "Organizers"
  const VenueManagersGroup: string := "Venue Managers"
  const SupportStaffGroup: string := "Support Staff"
  const AdminsGroup: string := "Admins"

  /** `is_staff or is_superuser`, the flag test that opens most rules. */
  predicate IsStaffOrSuperuser(u: User) {
    u.isStaff || u.isSuperuser
  }

  /** Some membership of the user in the organisation, with any role. */
  predicate HasMembership(ms: seq<OrganizationMembership>, user: nat, org: nat) {
    exists i :: 0 <= i < |ms| && ms[i].user == user && ms[i].organization == org
  }

  /** Some OWNER or MANAGER membership of the user in the organisation. */
  predicate HasManagingRole(ms: seq<OrganizationMembership>, user: nat, org: nat) {
    exists i :: 0 <= i < |ms| && ms[i].user == user && ms[i].organization == org
      && (ms[i].role == Owner || ms[i].role == Manager)
  }

  /** Some OWNER or MANAGER membership of the user in any organisation. */
  predicate HasAnyManagingRole(ms: seq<OrganizationMembership>, user: nat) {
    exists i :: 0 <= i < |ms| && ms[i].user == user && (ms[i].role == Owner || ms[i].role == Manager)
  }

  // ---------------------------------------------------------------------------
  // Group-based rules
  // ---------------------------------------------------------------------------

  /** IsInGroup.has_permission, and with a fixed name IsCustomer,
      IsOrganizer, IsVenueManagerGroup, IsSupportStaff and IsAdminGroup. */
  predicate IsInGroup(u: User, group: string) {
    if !u.isAuthenticated then false
    else if IsStaffOrSuperuser(u) then true
    else group in u.groups
  }

  /** IsOrganizerOrAdmin.has_permission. */
  predicate IsOrganizerOrAdmin(u: User) {
    if !u.isAuthenticated then false
    else if IsStaffOrSuperuser(u) then true
    else OrganizersGroup in u.groups || AdminsGroup in u.groups
  }

  /** IsSupportOrAdmin.has_permission. */
  predicate IsSupportOrAdmin(u: User) {
    if !u.isAuthenticated then false
    else if IsStaffOrSuperuser(u) then true
    else SupportStaffGroup in u.groups || AdminsGroup in u.groups
  }

  /** The group rules refuse every anonymous request, let every
      authenticated staff member or superuser through, and otherwise ask
      for membership of the named group; a two-group rule is the union of
      its two one-group rules. */
  lemma GroupRules(u: User, g: string)
    ensures !u.isAuthenticated ==> !IsInGroup(u, g) && !IsOrganizerOrAdmin(u) && !IsSupportOrAdmin(u)
    ensures u.isAuthenticated && IsStaffOrSuperuser(u) ==> IsInGroup(u, g) && IsOrganizerOrAdmin(u) && IsSupportOrAdmin(u)
    ensures u.isAuthenticated && !IsStaffOrSuperuser(u) ==> (IsInGroup(u, g) <==> g in u.groups)
    ensures IsOrganizerOrAdmin(u) <==> IsInGroup(u, OrganizersGroup) || IsInGroup(u, AdminsGroup)
    ensures IsSupportOrAdmin(u) <==> IsInGroup(u, SupportStaffGroup) || IsInGroup(u, AdminsGroup)
  {
  }

  // ---------------------------------------------------------------------------
  // Object-level ownership rules
  // ---------------------------------------------------------------------------

  /** IsOwnerOrReadOnly.has_object_permission, for an object owned by `owner`. */
  predicate IsOwnerOrReadOnly(u: User, m: Method, owner: nat) {
    IsSafe(m) || owner == u.id
  }

  /** IsBookingOwner.has_object_permission. */
  predicate IsBookingOwner(u: User, b: Booking) {
    b.user == u.id || u.isStaff
  }

  /** CanCancelOwnBooking.has_object_permission. */
  predicate CanCancelOwnBooking(u: User, b: Booking) {
    if u.isStaff then true else b.user == u.id && b.status == Pending
  }

  /** Staff may cancel any booking; anyone else, superusers included, only
      a PENDING booking of their own. */
  lemma CancelOwnBookingRule(u: User, b: Booking)
    ensures CanCancelOwnBooking(u, b) <==> u.isStaff || (b.user == u.id && b.status.Pending?)
    ensures CanCancelOwnBooking(u, b) ==> IsBookingOwner(u, b)
    ensures !u.isStaff && b.status.Confirmed? ==> !CanCancelOwnBooking(u, b)
  {
  }

  // ---------------------------------------------------------------------------
  // Organisation rules
  // ---------------------------------------------------------------------------

  /** IsOrganizationMember.has_object_permission; `org` is the object's
      organisation, None when it has none. */
  predicate IsOrganizationMember(u: User, ms: seq<OrganizationMembership>, org: Option<nat>) {
    if IsStaffOrSuperuser(u) then true
    else if org.None? then false
    else HasMembership(ms, u.id, org.value)
  }

  /** IsOrganizationOwnerOrManager.has_object_permission. */
  predicate IsOrganizationOwnerOrManager(u: User, ms: seq<OrganizationMembership>, org: Option<nat>) {
    if IsStaffOrSuperuser(u) then true
    else if org.None? then false
    else HasManagingRole(ms, u.id, org.value)
  }

  /** CanManageEvent.has_permission. */
  predicate CanManageEventRequest(u: User, ms: seq<OrganizationMembership>, m: Method) {
    if IsStaffOrSuperuser(u) then true
    else if m == Post then HasAnyManagingRole(ms, u.id)
    else true
  }

  /** CanManageEvent.has_object_permission. */
  predicate CanManageEvent(u: User, ms: seq<OrganizationMembership>, e: Event) {
    IsStaffOrSuperuser(u) || HasManagingRole(ms, u.id, e.organization)
  }

  /** CanPublishEvent.has_object_permission. */
  predicate CanPublishEvent(u: User, ms: seq<OrganizationMembership>, e: Event) {
    IsStaffOrSuperuser(u) || HasManagingRole(ms, u.id, e.organization)
  }

  /** CanViewEventBookings.has_object_permission; `org` is the organisation
      of the event, reached through the booking's tier for a booking. */
  predicate CanViewEventBookings(u: User, ms: seq<OrganizationMembership>, org: nat) {
    IsStaffOrSuperuser(u) || HasMembership(ms, u.id, org)
  }

  /** CanRefundBooking.has_object_permission; `org` is the organisation of
      the booking's event. */
  predicate CanRefundBooking(u: User, ms: seq<OrganizationMembership>, org: nat) {
    IsStaffOrSuperuser(u) || HasManagingRole(ms, u.id, org)
  }

  /** IsAdminOrReadOnly.has_permission. */
  predicate IsAdminOrReadOnly(u: User, m: Method) {
    if IsSafe(m) then true else u.isStaff
  }

  /** CanViewDraftEvents.has_object_permission. */
  predicate CanViewDraftEvents(u: User, ms: seq<OrganizationMembership>, e: Event) {
    if e.status == Published then true
    else if IsStaffOrSuperuser(u) then true
    else HasMembership(ms, u.id, e.organization)
  }

  /** An OWNER or MANAGER membership is a membership. */
  lemma ManagingRoleIsMembership(ms: seq<OrganizationMembership>, user: nat, org: nat)
    requires HasManagingRole(ms, user, org)
    ensures HasMembership(ms, user, org) && HasAnyManagingRole(ms, user)
  {
  }

  /** The role rules: managing implies membership; managing an event,
      publishing it and refunding its bookings are the same test as being an
      owner or manager of its organisation; an object without an
      organisation fails both organisation rules unless the user is staff
      or superuser. */
  lemma OrganizationRules(u: User, ms: seq<OrganizationMembership>, org: Option<nat>, e: Event)
    ensures IsOrganizationOwnerOrManager(u, ms, org) ==> IsOrganizationMember(u, ms, org)
    ensures CanManageEvent(u, ms, e) == CanPublishEvent(u, ms, e)
                                     == CanRefundBooking(u, ms, e.organization)
                                     == IsOrganizationOwnerOrManager(u, ms, Some(e.organization))
    ensures CanViewEventBookings(u, ms, e.organization) == IsOrganizationMember(u, ms, Some(e.organization))
    ensures org.None? ==> (IsOrganizationMember(u, ms, org) <==> IsStaffOrSuperuser(u))
    ensures org.None? ==> (IsOrganizationOwnerOrManager(u, ms, org) <==> IsStaffOrSuperuser(u))
  {
    if IsOrganizationOwnerOrManager(u, ms, org) && !IsStaffOrSuperuser(u) {
      ManagingRoleIsMembership(ms, u.id, org.value);
    }
  }

  /** A member whose only role in the organisation is another role is a
      member, yet may not manage, publish or refund. */
  lemma OtherRoleIsOnlyMember(u: User, ms: seq<OrganizationMembership>, e: Event, code: string)
    requires !IsStaffOrSuperuser(u)
    requires ms == [OrganizationMembership(u.id, e.organization, OtherOrganizationRole(code))]
    ensures IsOrganizationMember(u, ms, Some(e.organization))
    ensures !CanManageEvent(u, ms, e) && !CanPublishEvent(u, ms, e) && !CanRefundBooking(u, ms, e.organization)
  {
    assert ms[0].user == u.id && ms[0].organization == e.organization;
  }

  /** Every request other than POST passes CanManageEvent.has_permission,
      whoever makes it; a POST needs staff, superuser or some OWNER or
      MANAGER role somewhere. */
  lemma ManageEventRequestRule(u: User, ms: seq<OrganizationMembership>, m: Method)
    ensures m != Post ==> CanManageEventRequest(u, ms, m)
    ensures m == Post ==> (CanManageEventRequest(u, ms, m) <==> IsStaffOrSuperuser(u) || HasAnyManagingRole(ms, u.id))
  {
  }

  /** IsAdminOrReadOnly lets everyone read and only staff write: a superuser
      without the staff flag is refused. */
  lemma AdminOrReadOnlyRule(u: User, m: Method)
    ensures IsSafe(m) ==> IsAdminOrReadOnly(u, m)
    ensures !IsSafe(m) ==> (IsAdminOrReadOnly(u, m) <==> u.isStaff)
    ensures u.isSuperuser && !u.isStaff && m == Post ==> !IsAdminOrReadOnly(u, m)
  {
  }

  /** A published event is visible to everyone; any other one to staff,
      superusers and members of its organisation with any role. */
  lemma DraftVisibilityRule(u: User, ms: seq<OrganizationMembership>, e: Event)
    ensures e.status.Published? ==> CanViewDraftEvents(u, ms, e)
    ensures !e.status.Published? ==>
      (CanViewDraftEvents(u, ms, e) <==> IsStaffOrSuperuser(u) || HasMembership(ms, u.id, e.organization))
  {
  }

  // ---------------------------------------------------------------------------
  // Venue rules
  // ---------------------------------------------------------------------------

  /** IsVenueMember.has_object_permission; `venue` is the object's venue. */
  predicate IsVenueMember(u: User, vms: seq<VenueMembership>, venue: nat) {
    IsStaffOrSuperuser(u) || exists i :: 0 <= i < |vms| && vms[i].user == u.id && vms[i].venue == venue
  }

  /** IsVenueManager.has_object_permission. */
  predicate IsVenueManager(u: User, vms: seq<VenueMembership>, venue: nat) {
    IsStaffOrSuperuser(u)
    || exists i :: 0 <= i < |vms| && vms[i].user == u.id && vms[i].venue == venue && vms[i].role == VenueManager
  }

  /** A venue manager is a venue member; a member with another role is not a manager. */
  lemma VenueRules(u: User, vms: seq<VenueMembership>, venue: nat, code: string)
    ensures IsVenueManager(u, vms, venue) ==> IsVenueMember(u, vms, venue)
    ensures !IsStaffOrSuperuser(u) && vms == [VenueMembership(u.id, venue, OtherVenueRole(code))] ==>
      IsVenueMember(u, vms, venue) && !IsVenueManager(u, vms, venue)
  {
    if !IsStaffOrSuperuser(u) && vms == [VenueMembership(u.id, venue, OtherVenueRole(code))] {
      assert vms[0].user == u.id && vms[0].venue == venue;
    }
  }
}
