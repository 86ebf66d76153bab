# btick ticket inventory and booking lifecycle, in Dafny

This project models the core of btick, a Django service that sells event tickets. It covers:

- the seat ledger of a ticket tier;
- the booking state machine that moves seats in and out of it;
- the edit rules for events and tiers;
- the database constraints and delete rules;
- the soft-delete substrate shared by every entity;
- the permission and visibility rules of the API views;
- the account validators;
- the development seeder that recounts `sold` and hands out memberships.

Each module follows one source file:

- `Abstracts` (`abstracts.dfy`): soft-delete columns; the alive/dead query sets; bulk soft and hard delete; the two managers; a class `Instance` whose `Delete` and `BumpVersion` assign fields in place.
- `Models` (`models.dfy`): event, booking and ticket-type enumerations with their stored codes; the entity rows; field defaults; check and unique constraints; PROTECT/CASCADE on a physical delete.
- `Ledger` (`ledger.dfy`): the seats a tier's bookings hold, and the invariant `LedgerOk` with its preservation lemmas.
- `Serializers` (`serializers.dfy`): each `validate` as a pure function to a verdict; each `save`/`create` as an atomic method of the class `Database`, which holds the event, tier and booking tables.
- `ApiBooking` (`api_booking.dfy`): the second copy of the booking serializers, written as it stands and proved to behave as the first.
- `Permissions` (`permissions.dfy`): every `has_permission`/`has_object_permission` rule, as a predicate.
- `Views` (`views.dfy`): the booking visibility rule and cancel view; the tier update and destroy views; booking DELETE; the event and tier listings.
- `Validators` (`validators.dfy`): the e-mail domain check and the user-name-in-name check.
- `Accounts` (`accounts.dfy`): full name, short name and string form of a user.
- `Seed` (`seed.dfy`): the seeder, with every random draw as an input function.

## Modelling conventions

- Ids are positions in the tables, and the tables are sequences.
- An anonymous request refused by a permission gets 401. This holds when the first authentication class sends a `WWW-Authenticate` header, as JWT authentication does; session authentication would give 403. The settings that choose the class are not part of this model. The login view issues JWT tokens (apps/accounts/views.py:44), so the model takes JWT to come first.
- Time is an integer count of seconds. The booking expiry is 900 seconds; one day is 86400.
- `now` is a parameter.
- Prices are integer cents.
- A row lock plus `transaction.atomic` becomes one method that runs to completion. If a database check fails before the method returns, the method puts back everything it had written.
- A write request's field errors are collected over all its fields before `validate()` runs, as the REST framework does. A single error is reported alone; several are reported together as `Fields`.
- `title` is checked twice. Its uniqueness validator reads the default manager, so a clash with a live event is a field error (`TitleTaken`). The unique index sees every row, so a clash with a soft-deleted event only is a database error.
- `event_ticket_type_unique` is modelled as the database refusing the write (an integrity error), on create and on update alike. Whether the REST framework turns a `UniqueConstraint` into a validator depends on its version, and the repository does not pin one.
- A physical delete removes rows from the tables. Because ids are positions, every later row moves down and every reference to it follows (`Abstracts.Shifted`).
- `Views.Select` and `Views.SortBy` stand for `filter(...)` and `order_by(...)` in every listing. They are generic over the predicate and the key, and each listing passes its own.
- Listings answer with a status code and the ids of the rows, in order (`Views.Listing`).

## The seat ledger

`LedgerOk` says two things about every tier:

- `0 <= sold <= quota`;
- `sold` is at least the seats held by the tier's bookings that are not cancelled.

It is an inequality on purpose:

- Refunding a PENDING booking cancels it but leaves `sold` unchanged.
- `Ledger.ForfeitPreserves` proves that this keeps the invariant while leaving `sold` strictly above the seats held.
- Because `sold` never falls below the seats held, a cancel can never drive it negative. `Ledger.ReleasePreserves` proves this.

## Quantity 1

Request validation accepts quantity 1, but the stored booking needs `quantity > 1`. So:

- `Serializers.Database.CreateBooking` fails the insert with an integrity error;
- it rolls back the `sold` increment;
- `Serializers.Database.Book` succeeds exactly for quantities 2..10.

## The seeder

The seeder counts only CONFIRMED seats when it sets `sold`, yet it also writes PENDING bookings. Two proved consequences follow:

- The recount leaves such a tier outside the seat ledger (`Seed.PendingBreaksRecount`).
- A later cancel of such a booking cannot succeed (`Seed.CancelUndercounted`).

The seeder's docstring (apps/btick/management/commands/seed.py:259) makes the confirmed-only recount deliberate. Its tests check only `sold <= quota`. So these are stated as consequences, not as defects.

## Where the model follows the code

- `OrganizationViewSet.events` has a PUBLISHED-only branch for users who are neither staff, superusers nor members. But the action's permission already refuses exactly those users with 403, so the branch can never run (`Views.OrganizationGateSeesDrafts`). `Views.OrganizationEvents` keeps it, unreachable.
- The `my_events` queryset returns nothing for an anonymous user. But the action's permission refuses anonymous users with 401 first, so that branch can never run (`Views.OrganizerGateIsAuthenticated`).
- The cancel view has an ownership check that answers 403. But the booking queryset already limits a user to their own bookings, unless the user is staff, a superuser or Support Staff. So the 403 branch can never run (`Views.CancelGateNeverRefuses`), and `Views.CancelView` answers 404 instead.

## Model

| member | source | states |
|---|---|---|
| Abstracts.Alive | apps/abstracts/models.py:49-51 | `alive()` returns no more rows than the table, and a row is in it exactly when it is in the table and its `deleted_at` is null |
| Abstracts.Dead | apps/abstracts/models.py:53-55 | `dead()` returns no more rows than the table, and a row is in it exactly when it is in the table and its `deleted_at` is set |
| Abstracts.AliveDeadPartition | apps/abstracts/models.py:49-55 | `alive()` and `dead()` split a table: as multisets they add up to it, and their sizes add up to its size |
| Abstracts.DefaultManagerIgnoresIsActive | apps/abstracts/models.py:66-75 | the default manager returns a row exactly when its `deleted_at` is null, whatever `is_active` says; `all_objects` returns every row |
| Abstracts.QuerySetDelete | apps/abstracts/models.py:57-59 | a bulk soft delete keeps every row, key and data, and stamps `deleted_at`; it clears `is_active` only for the BaseEntity query set (lines 146-148); the count it reports is the number of rows |
| Abstracts.QuerySetDeleteKillsAll | apps/abstracts/models.py:57-59 | after a bulk soft delete nothing in the query set is alive, and every row is among the dead |
| Abstracts.AliveOfDead | apps/abstracts/models.py:49-51 | a table whose every row is soft-deleted has nothing alive |
| Abstracts.HardDelete | apps/abstracts/models.py:61-63 | a hard delete keeps exactly the table rows whose key is not in the query set, and never adds rows |
| Abstracts.HardDeleteRemoves | apps/abstracts/models.py:119-121 | after a hard delete no row with a deleted key is left, not even through `all_objects` |
| Abstracts.SaveFields | apps/abstracts/models.py:96-108 | `save(update_fields=...)` copies exactly the listed columns from the instance and leaves every other stored column as it was |
| Abstracts.Instance.constructor | apps/abstracts/models.py:31-39 | a new instance is active, not deleted, and at version 0 (the column defaults, with `version` at line 130) |
| Abstracts.Instance.PrepareSoftDelete | apps/abstracts/models.py:187-194 | BaseEntity's hook clears `is_active` and adds that column; the plain mixin's hook (lines 110-117) changes nothing and adds no column |
| Abstracts.Instance.Delete | apps/abstracts/models.py:96-108 | an instance delete stamps `deleted_at`, clears `is_active` only for BaseEntity, leaves the version alone, and saves exactly `deleted_at` plus the columns the hook added |
| Abstracts.Instance.BumpVersion | apps/abstracts/models.py:136-137 | the version becomes one more than before, with no version counting as 0 |
| Abstracts.InstanceDeleteMatchesRow | apps/abstracts/models.py:96-108 | deleting an instance stores the same row as the bulk delete of its class (lines 57-59 and 146-148) |
| Accounts.StripLeft | apps/accounts/models.py:60 | the left strip is a suffix of the input; everything dropped is whitespace, and the result is empty or does not start with whitespace |
| Accounts.StripRight | apps/accounts/models.py:60 | the right strip is a prefix of the input; everything dropped is whitespace, and the result is empty or does not end with whitespace |
| Accounts.Strip | apps/accounts/models.py:60 | `strip()` returns a run of the input with only whitespace before and after it, and the run neither starts nor ends with whitespace |
| Accounts.StripCases | apps/accounts/models.py:60 | a string of whitespace strips to empty; a string with no whitespace at either end strips to itself |
| Accounts.StripIdempotent | apps/accounts/models.py:60 | stripping twice gives the same result as stripping once |
| Accounts.FullName | apps/accounts/models.py:58-61 | the full name is `first + " " + last` with surrounding whitespace stripped when that is not empty, and the address when it is |
| Accounts.FullNameCases | apps/accounts/models.py:58-61 | with both names empty the full name is the address; with two names that do not put whitespace at the ends it is "first last" |
| Accounts.ShortName | apps/accounts/models.py:63-65 | the short name is the first name when that is non-empty, and otherwise the address |
| Accounts.Str | apps/accounts/models.py:55-56 | a user's string form is the address |
| Accounts.NamesNeverEmpty | apps/accounts/models.py:15-21 | a user with an address never shows an empty full, short or string name, and two users whose addresses differ (the address is unique) have different string forms |
| Validators.Split | apps/accounts/validators.py:18 | `str.split('@')` gives at least one part (the empty string gives one empty part), and no part holds the separator |
| Validators.JoinSplit | apps/accounts/validators.py:18 | joining the parts of a split with the separator gives the string back |
| Validators.SplitJoin | apps/accounts/validators.py:18 | splitting parts joined with the separator gives the parts back when none holds it; with JoinSplit, split and join are inverse |
| Validators.SplitWithoutSeparator | apps/accounts/validators.py:18 | a string without the separator splits into itself alone |
| Validators.SplitAtSeparator | apps/accounts/validators.py:18 | splitting at one separator splits the two sides on their own and puts the parts side by side |
| Validators.LowerChar | apps/accounts/validators.py:18 | a lower-cased character is never upper case; A to Z move to a to z and every other character is kept |
| Validators.Lower | apps/accounts/validators.py:18 | `lower()` keeps the length and lower-cases each character in place |
| Validators.LowerIdempotent | apps/accounts/validators.py:18 | lower-casing twice gives the same result as lower-casing once |
| Validators.LowerConcat | apps/accounts/validators.py:18 | lower-casing distributes over concatenation |
| Validators.LowerAll | apps/accounts/validators.py:18 | every part is lower-cased, in place |
| Validators.SplitLower | apps/accounts/validators.py:18 | lower-casing does not move the '@' separators: the parts of the lower-cased address are the lower-cased parts |
| Validators.ContainsIffOccurs | apps/accounts/validators.py:39 | the substring test holds exactly when some window of the name equals the user name (both directions) |
| Validators.OccursShift | apps/accounts/validators.py:39 | a window one place into the tail is the window one place further into the whole string, both ways |
| Validators.ValidateEmailDomain | apps/accounts/validators.py:8-22 | the address is refused exactly when its lower-cased last '@' part is `mail.ru` or `tempmail.com`, and the error names that domain |
| Validators.DomainOfAddress | apps/accounts/validators.py:18 | the domain of `local@domain` is the lower-cased text after the last '@', whatever `local` holds |
| Validators.DomainWithoutAt | apps/accounts/validators.py:18 | an address without '@' is all domain |
| Validators.DomainFromLower | apps/accounts/validators.py:18 | the domain is the last part of the lower-cased address |
| Validators.LastLowerAll | apps/accounts/validators.py:18 | the last lower-cased part is the lower-cased last part |
| Validators.DomainCheckIgnoresCase | apps/accounts/validators.py:8-22 | two addresses that agree once lower-cased get the same verdict from the domain check |
| Validators.ValidateEmailNotInName | apps/accounts/validators.py:25-42 | nothing is refused when the address or the name is empty; otherwise the check refuses exactly when the lower-cased user name occurs in the lower-cased name |
| Validators.LocalPartOfAddress | apps/accounts/validators.py:38 | the user name of `local@rest` is the lower-cased text before the first '@' |
| Validators.EmptyLocalPartRefused | apps/accounts/validators.py:36-42 | an address that starts with '@' has an empty user name and is refused against every non-empty name |
| Validators.NameCheckIgnoresCase | apps/accounts/validators.py:25-42 | names that agree once lower-cased get the same verdict |
| Validators.NameHoldingUserNameRefused | apps/accounts/validators.py:36-42 | a name that holds the user name anywhere is refused |
| Models.ParseEventStatus | apps/btick/models.py:11-22 | a stored event status reads as a value only when it is that value's code |
| Models.ParseBookingStatus | apps/btick/models.py:25-36 | a stored booking status reads as a value only when it is that value's code |
| Models.ParseTicketType | apps/btick/models.py:39-54 | a stored ticket type reads as a value only when it is that value's code |
| Models.CodesRoundTrip | apps/btick/models.py:11-54 | every code written reads back as the value it was written from, and every value is among the choices |
| Models.ChoicesDistinct | apps/btick/models.py:11-54 | no choice list repeats a value, and the five ticket types have five different codes |
| Models.TierViolation | apps/btick/models.py:211-216 | a tier breaks no check exactly when price, quota and sold are all non-negative; otherwise it names one of those three checks |
| Models.UpdateTierUnique | apps/btick/models.py:212 | rewriting a tier without changing its event or type keeps `event_ticket_type_unique` |
| Models.UpdateEventUnique | apps/btick/models.py:161 | rewriting an event without changing its title keeps titles unique |
| Models.AppendTierUnique | apps/btick/models.py:212 | a new tier keeps `event_ticket_type_unique` exactly when its event has no tier of that type yet |
| Models.AppendEventUnique | apps/btick/models.py:161 | a new event keeps titles unique exactly when its title is new |
| Models.RetierUnique | apps/btick/models.py:212 | rewriting a tier, possibly onto another event or ticket type, keeps `event_ticket_type_unique` exactly when no other tier has the new pair |
| Models.RetitleUnique | apps/btick/models.py:161 | rewriting an event keeps titles unique exactly when no other event, live or soft-deleted, has the new title |
| Models.TitleClashKinds | apps/btick/models.py:161 | a title a live event holds is a title the unique index refuses, and a new event clashes exactly when some row has its title |
| Models.Defaults | apps/btick/models.py:165-243 | a new event is a DRAFT without a capacity override; a new tier has quota and sold 0 and meets its checks exactly when its price is not negative; a new booking is PENDING with one seat, which `booking_quantity_ge_1` (more than one) refuses |
| Models.NoSoldWithinQuotaCheck | apps/btick/models.py:211-216 | no check keeps `sold` within `quota`: a row with more sold than quota passes every check |
| Models.CollectEvent | apps/btick/models.py:202-240 | a physical delete of an event is refused exactly when some booking is on one of its tiers (the tiers go with the event by CASCADE at line 202; a booking refuses its tier by PROTECT at line 240) |
| Models.CollectTier | apps/btick/models.py:240 | a physical delete of a tier is refused exactly when some booking row, soft-deleted or not, is on it |
| Models.CollectUser | apps/btick/models.py:239 | a physical delete of a user is never refused and leaves the event and tier tables as they were |
| Models.CollectEventRows | apps/btick/models.py:202-240 | after an event's delete every booking is still there, on the same tier row, which is on the same event row; every other event and every tier of another event is kept at its new id; every tier left is a tier of another event |
| Models.CollectTierRows | apps/btick/models.py:240 | after a tier's delete the events are untouched, every booking is still there on the same tier row, every other tier is kept at its new id, and every tier left is one of the other tiers |
| Models.CollectUserRows | apps/btick/models.py:239 | after a user's delete every booking of someone else is kept at its new id, and every booking left is an old booking of someone else |
| Models.BookingProtects | apps/btick/models.py:240 | a booking blocks the deletion of its tier and of that tier's event |
| Ledger.TierRewriteKeeps | apps/btick/models.py:211-216 | rewriting a tier in place, with its event and type kept and its checks passed, keeps every tier constraint and every booking's reference |
| Ledger.RetierKeeps | apps/btick/models.py:202-216 | moving a tier to another existing event or ticket type that no other tier of that event has, with its checks passed, keeps every tier constraint and every booking's reference |
| Ledger.RetitleKeeps | apps/btick/models.py:161-173 | rewriting an event whose end is after its start and whose title no other event holds keeps every table constraint |
| Ledger.StatusRewriteKeeps | apps/btick/models.py:239-250 | changing a booking's status keeps every booking row well formed |
| Ledger.HeldTotalAppend | apps/btick/serializers.py:395-401 | a new booking row adds exactly the seats it holds to its tier's total |
| Ledger.HeldTotalUpdate | apps/btick/serializers.py:437-438 | rewriting one booking row changes a tier's total by the new row's seats minus the old row's |
| Ledger.HeldTotalAtLeast | apps/btick/models.py:249 | with every quantity positive, a tier's total is never negative and is at least the quantity of any of its live bookings |
| Ledger.HeldTotalUnreferenced | apps/btick/models.py:240 | a tier no booking refers to holds no seats |
| Ledger.LiveBookingHasLiveTier | apps/btick/serializers.py:432 | under the ledger invariant, the tier of a booking that is not cancelled is not soft-deleted, so the default-manager lookup finds it, and its `sold` covers the booking |
| Ledger.ReservePreserves | apps/btick/serializers.py:373-403 | a new booking on a live tier, taking no more than the seats left, with `sold` raised by its quantity, keeps the ledger invariant |
| Ledger.ConfirmPreserves | apps/btick/serializers.py:462-471 | confirming a booking that is not cancelled keeps the ledger invariant without touching `sold` |
| Ledger.ReleasePreserves | apps/btick/serializers.py:425-440 | cancelling a live booking and returning its seats keeps the invariant; its tier is alive and `sold` does not go below zero |
| Ledger.ForfeitPreserves | apps/btick/serializers.py:832-848 | refunding a PENDING booking keeps the invariant, but its tier's `sold` is then strictly above the seats its bookings hold |
| Ledger.AddTierPreserves | apps/btick/serializers.py:606-669 | a new tier with `0 <= sold <= quota` keeps the ledger invariant |
| Ledger.RequotaPreserves | apps/btick/serializers.py:650-668 | a tier update with any event, type and price and a new quota no smaller than `sold`, leaving `sold` and the substrate alone, keeps the ledger invariant |
| Ledger.SoftDeleteTierPreserves | apps/btick/views.py:738-746 | soft-deleting a tier with nothing sold keeps the ledger invariant |
| Ledger.EmptyOk | apps/btick/models.py:179-250 | an empty database satisfies the ledger invariant |
| Ledger.CollectEventPersists | apps/btick/models.py:158-250 | an event delete that is not refused leaves tables that meet every check, unique constraint and reference |
| Ledger.CollectEventPreserves | apps/btick/models.py:202-240 | an event delete that is not refused keeps the ledger invariant |
| Ledger.CollectTierPersists | apps/btick/models.py:202-250 | a tier delete that is not refused keeps the events and the number of bookings, and leaves tables that meet every constraint |
| Ledger.CollectTierPreserves | apps/btick/models.py:240 | a tier delete that is not refused keeps the ledger invariant |
| Ledger.CollectUserPersists | apps/btick/models.py:239 | a user delete leaves tables that meet every constraint |
| Ledger.CollectUserPreserves | apps/btick/models.py:239 | a user delete keeps the ledger invariant, even when the bookings it removes hold seats, because the ledger is an inequality |
| Serializers.AvailableInRange | apps/btick/serializers.py:113-117 | under the ledger invariant the seats a tier shows as available lie between 0 and its quota |
| Serializers.TotalPriceBounds | apps/btick/serializers.py:270-274 | the total price of a stored booking is at least one seat's price, and is zero exactly when the tier is free |
| Serializers.ValidateQuantity | apps/btick/serializers.py:337-345 | a quantity is accepted exactly when it lies in 1..10; below 1 and above 10 get their own message |
| Serializers.QuantityFieldErrors | apps/btick/serializers.py:327-345 | the quantity field is accepted exactly when it is left out or lies in 1..10; a negative value gets the column's lower-bound error (line 241 of apps/btick/models.py) and not `validate_quantity`'s, 0 gets "at least 1" and above 10 gets "maximum 10"; at most one error |
| Serializers.BookingFieldErrors | apps/btick/serializers.py:327-345 | a booking request's fields are accepted exactly when the tier is live and a quantity sent lies in 1..10; "not found" is there exactly for a tier that is not live, and it comes before the quantity field's errors |
| Serializers.ValidateBookingCreate | apps/btick/serializers.py:347-371 | a booking is accepted exactly when the event is PUBLISHED, has not started and enough seats are available; the checks are reported in that order, and a shortage names the seats available |
| Serializers.ValidateCancel | apps/btick/serializers.py:411-423 | a cancel is accepted exactly when the booking is not cancelled and its event has not started; "already cancelled" is reported first |
| Serializers.ValidateConfirm | apps/btick/serializers.py:448-460 | a confirm is accepted exactly when the booking is PENDING and has no expiry or one still in the future; an expiry equal to now has expired |
| Serializers.ValidateRefund | apps/btick/serializers.py:821-830 | a refund is accepted exactly when the booking is not cancelled |
| Serializers.ValidatePublish | apps/btick/serializers.py:549-568 | publishing is accepted exactly for a DRAFT that has not started and has a live tier; each other case gets its own message, in the source's order |
| Serializers.ValidateCancelEvent | apps/btick/serializers.py:585-594 | cancelling an event is accepted exactly when it is not cancelled yet |
| Serializers.ValidateEventCreate | apps/btick/serializers.py:225-240 | a new event is accepted exactly when a given start is not in the past and, with both times given, the end is after the start; a past start is reported first |
| Serializers.ValidateEventManage | apps/btick/serializers.py:523-541 | with missing times taken from the instance, an event is accepted exactly when the end is after the start and, for a new event only, the start is not in the past; an update is refused only for the order |
| Serializers.EventValidatorsAgree | apps/btick/serializers.py:225-240 | the create validator and the manage validator (lines 523-541) accept the same new events, but report different errors when both checks fail |
| Serializers.UpdateMayStartInPast | apps/btick/serializers.py:535-539 | an update may move an event's start into the past |
| Serializers.ValidateOrganization | apps/btick/serializers.py:502-521 | the organisation field is accepted exactly for staff, superusers and OWNER or MANAGER members of that organisation |
| Serializers.ValidateTicketManage | apps/btick/serializers.py:650-668 | tier data is accepted exactly when the event is not cancelled and, on update, the new quota (or the old one) is not below `sold`; the refusal names `sold` |
| Serializers.FindUser | apps/btick/serializers.py:707-715 | the user lookup finds the first user with that address, and finds none exactly when no user has it |
| Serializers.ValidateMembershipCreate | apps/btick/serializers.py:707-727 | a membership is accepted exactly when a user has the address and has no membership of that organisation yet; otherwise "not found" or "already a member" |
| Serializers.TierFieldErrors | apps/btick/serializers.py:606-648 | the tier fields are accepted exactly when a full write sends event, type and price, the event sent is live and its organisation is owned or managed by the user, and the quota sent is not negative; each of the three refusals is reported exactly when its own condition fails |
| Serializers.TitleFieldErrors | apps/btick/serializers.py:478-500 | the title is accepted exactly when a full write sends it, it is not blank, and no other live event has it; the clash is reported exactly then |
| Serializers.OrganizationFieldErrors | apps/btick/serializers.py:502-521 | the organisation is accepted exactly when a full write sends it and the user owns or manages it (staff and superusers pass) |
| Serializers.RequiredEventFieldErrors | apps/btick/serializers.py:478-500 | a full write is accepted exactly when it sends the venue, category and both times |
| Serializers.EventFieldErrors | apps/btick/serializers.py:478-521 | the event fields are accepted exactly when a full write sends every required field, the title is not blank and no other live event has it, the user owns or manages the organisation sent, and the capacity sent is not negative; each refusal is in the list exactly when its condition fails |
| Serializers.Database.CreateBooking | apps/btick/serializers.py:373-403 | under the lock: no live tier gives "not found", a shortage gives "only N available", and otherwise `sold` rises by the quantity and a PENDING booking expiring in 15 minutes is added; a quantity of 1 is refused by the booking check and rolls `sold` back; the constraints and the ledger invariant are kept |
| Serializers.Database.Book | apps/btick/serializers.py:327-403 | the tier and quantity field errors are reported together before anything else: no live tier, a negative quantity (the column's lower bound 0, line 241 of apps/btick/models.py), then 0 or above 10 from `validate_quantity`; a quantity left out then fails in `validate`; next come the validation errors; a request succeeds exactly for a live tier of a PUBLISHED, not yet started event with a quantity of 2..10 within the seats available, and then writes what CreateBooking writes; a quantity of 1 passes validation and is then refused by the booking check |
| Serializers.Database.ConfirmBooking | apps/btick/serializers.py:443-471 | the verdict is the confirm validation; on success the booking becomes CONFIRMED with no expiry, and `sold` is left alone |
| Serializers.Database.CancelBooking | apps/btick/serializers.py:406-440 | a refused validation changes nothing; under the ledger invariant a cancel succeeds exactly when validation passes, and then the booking is CANCELLED and its seats go back to `sold` |
| Serializers.Database.RefundBooking | apps/btick/serializers.py:816-848 | a CANCELLED booking is refused; otherwise it becomes CANCELLED, and only a CONFIRMED one gives its seats back to `sold`, while a PENDING one leaves `sold` as it was; the constraints and the ledger invariant are kept |
| Serializers.Database.PublishEvent | apps/btick/serializers.py:544-577 | the verdict is the publish validation over whether the event has a live tier; on success only the event's status changes, to PUBLISHED |
| Serializers.Database.CancelEvent | apps/btick/serializers.py:580-603 | the verdict is the cancel validation; on success only the event's status changes, and no tier or booking is touched |
| Serializers.Database.CreateTier | apps/btick/serializers.py:606-668 | a new tier is added exactly when event, type and price are sent, the event is live and managed by the user, the quota (0 by default) and the price are not negative, the event is not cancelled and has no tier of that type; the field errors come first, then the cancelled event, then database errors; nothing is sold, and the ledger invariant is kept |
| Serializers.Database.UpdateTier | apps/btick/serializers.py:606-668 | a tier update (PUT or PATCH) succeeds exactly when the fields pass, the new event (or the old one) is not cancelled and the quota is not below `sold`, the price is not negative, and no other tier has the new event and type; then only the fields sent change, `sold` is kept within the quota, and the invariants hold |
| Serializers.Database.CreateEvent | apps/btick/serializers.py:478-541 | a new event is added exactly when the fields pass (a live title clash is a field error, with the organisation error beside it), the start is not in the past and the end after it, and no soft-deleted event has the title; it stores every field sent, DRAFT by default; a dead clash is a database error |
| Serializers.Database.UpdateEvent | apps/btick/serializers.py:478-541 | an event update (PUT or PATCH) succeeds exactly when the fields pass, the times, with missing ones taken from the instance, are in order, and no other event has the title; then only the fields sent change; a title that only a soft-deleted event has is a database error |
| Serializers.Database.HardDeleteEvent | apps/abstracts/models.py:119-121 | `hard_delete()` of an event is refused, changing nothing, exactly when a booking is on one of its tiers; otherwise the tables become what the collector leaves (`Models.CollectEvent`, lines 202-240 of apps/btick/models.py), and the constraints and ledger invariant are kept |
| Serializers.Database.HardDeleteTier | apps/abstracts/models.py:119-121 | `hard_delete()` of a tier is refused, changing nothing, exactly when a booking row is on it; otherwise the tables become what the collector leaves, with the invariants kept |
| Serializers.Database.HardDeleteUser | apps/abstracts/models.py:119-121 | `hard_delete()` of a user removes exactly their bookings (CASCADE at line 239 of apps/btick/models.py) and keeps the invariants |
| Serializers.UpdateBypassesPublishGate | apps/btick/serializers.py:523-568 | a DRAFT event without a tier, which publishing refuses, passes the update validation with a PUBLISHED status |
| ApiBooking.QuantityVerdict | apps/btick/api/serializers/booking.py:100-108 | a quantity is accepted exactly when it lies in 1..10 |
| ApiBooking.CreateVerdict | apps/btick/api/serializers/booking.py:110-134 | an accepted booking is on a PUBLISHED event that has not started, with enough seats available |
| ApiBooking.CancelVerdict | apps/btick/api/serializers/booking.py:174-186 | an accepted cancel is of a booking that is not cancelled, on an event that has not started |
| ApiBooking.ConfirmVerdict | apps/btick/api/serializers/booking.py:211-223 | only a PENDING booking is accepted for confirmation |
| ApiBooking.ValidatorsAgree | apps/btick/api/serializers/booking.py:100-223 | on every input each validator of this copy gives the same verdict and the same error as its counterpart in `apps/btick/serializers.py` |
| ApiBooking.Create | apps/btick/api/serializers/booking.py:136-166 | this copy's create succeeds exactly when the first copy's does, and writes the same tier and booking rows; like the first copy it answers "not found" for a tier that is not live, names the seats available on a shortage, and refuses a quantity of 1 or less with a database error; the constraints and the ledger invariant are kept |
| ApiBooking.Cancel | apps/btick/api/serializers/booking.py:169-203 | a refused validation gives exactly its error and changes nothing; under the ledger invariant the cancel succeeds exactly when the first copy's validation accepts it, and then writes what the first copy writes |
| ApiBooking.Confirm | apps/btick/api/serializers/booking.py:206-234 | the verdict is the first copy's confirm validation, and on success the booking becomes CONFIRMED with no expiry |
| Permissions.GroupRules | apps/btick/permissions.py:10-89 | the group rules refuse every anonymous request, admit every authenticated staff member or superuser, and otherwise ask for the named group; a two-group rule is the union of its two one-group rules |
| Permissions.CancelOwnBookingRule | apps/btick/permissions.py:114-123 | staff may cancel any booking; anyone else, superusers included, only a PENDING booking of their own, so never a CONFIRMED one; whoever may cancel passes the booking-owner rule (lines 104-111) |
| Permissions.ManagingRoleIsMembership | apps/btick/permissions.py:175-179 | an OWNER or MANAGER membership is a membership of that organisation, and a managing role somewhere |
| Permissions.OrganizationRules | apps/btick/permissions.py:126-246 | an owner or manager is a member; managing an event, publishing it and refunding its bookings (lines 285-301) are the same test as owning or managing its organisation; viewing its bookings is the membership test; an object without an organisation passes only for staff and superusers |
| Permissions.OtherRoleIsOnlyMember | apps/btick/permissions.py:126-226 | a user whose only role in the organisation is another role is a member but may not manage or publish its events, nor refund (lines 285-301) |
| Permissions.ManageEventRequestRule | apps/btick/permissions.py:189-198 | every request except POST passes the event-manage request rule; a POST needs staff, superuser, or an OWNER or MANAGER role somewhere |
| Permissions.AdminOrReadOnlyRule | apps/btick/permissions.py:304-313 | everyone may read and only staff may write, so a superuser without the staff flag is refused a write |
| Permissions.DraftVisibilityRule | apps/btick/permissions.py:316-336 | a published event is visible to everyone; any other one to staff, superusers and members of its organisation with any role |
| Permissions.VenueRules | apps/btick/permissions.py:248-283 | a venue manager is a venue member; a member with another role is not a manager |
| Views.Select | apps/btick/views.py:486-497 | a filter keeps exactly the ids of the table that satisfy it, in increasing id order without repetition |
| Views.Insert | apps/btick/views.py:486 | putting one id into a sorted list keeps it sorted and adds exactly that id |
| Views.InsertCount | apps/btick/views.py:486 | inserting adds the id once and keeps every other id as often as before |
| Views.SortBy | apps/btick/views.py:486 | `order_by` returns a permutation of its input (as multisets) in ascending key order |
| Views.IncreasingOnce | apps/btick/views.py:486-497 | a list without repetition holds each of its ids exactly once |
| Views.SortedSelectionOnce | apps/btick/views.py:486-497 | a filtered and ordered listing holds each selected id exactly once and nothing else |
| Views.BookingQueryset | apps/btick/views.py:471-497 | the booking listing holds exactly the live bookings that the user owns, or every live booking for staff, superusers and Support Staff; newest first |
| Views.CancelGateNeverRefuses | apps/btick/views.py:549-559 | any booking the queryset lets a user reach passes the cancel view's ownership gate, so the 403 branch is dead and someone else's booking is answered 404 |
| Views.CancelView | apps/btick/views.py:540-569 | never 403; anonymous is 401; a booking the user may not see is 404; only 200 changes anything, and 200 means the booking became CANCELLED; under the ledger invariant a visible booking gets 200 exactly when the cancel validation accepts it |
| Views.DestroyBooking | apps/btick/views.py:454-469 | deleting a booking is answered 401 to an anonymous user and 405 (lines 609-616) to everyone else, and changes nothing |
| Views.TierGateIsOwnerOrManager | apps/btick/views.py:697-708 | the tier views' gate is the organisation owner-or-manager rule for the tier's event, and the event-manage rule |
| Views.UpdateTierView | apps/btick/views.py:639-716 | anonymous 401; authenticated without the organiser permission 403; no live tier 404; failing the gate on the tier's current event 403; only 200 changes a tier, and then the fields pass, the tier is rewritten with the fields sent, and its quota is not below `sold` |
| Views.DestroyTierView | apps/btick/views.py:639-746 | anonymous 401; the same 403, 404 and 403 answers; past the gate a tier with seats sold is 400 and any other is soft-deleted with 204, the only case that changes a tier; the ledger invariant is kept |
| Views.AvailableTickets | apps/btick/views.py:354-365 | a missing or soft-deleted event is 404; otherwise 200 with exactly the live tiers of the event whose quota is above sold, cheapest first |
| Views.AvailableTicketsShowAvailability | apps/btick/views.py:354-365 | under the ledger invariant the available tickets of a live event are exactly its live tiers whose shown availability is positive |
| Views.PublicEvents | apps/btick/views.py:339-345 | the public listing holds exactly the PUBLISHED, active, live events not yet over, earliest start first |
| Views.VenueSchedule | apps/btick/views.py:107-141 | a venue that is missing, soft-deleted or inactive is 404; otherwise 200 with exactly the publicly listed events at that venue, earliest start first |
| Views.ScheduleIsPublicAtVenue | apps/btick/views.py:122-141 | a listed venue's schedule is the public listing (lines 339-345) restricted to that venue, and an unlisted venue gets 404 |
| Views.OrganizationEvents | apps/btick/views.py:165-215 | anonymous 401; an organisation that is missing, soft-deleted or inactive 404; a user who is not a member (staff and superusers are) 403; 200 exactly otherwise, with every live active event of the organisation, newest first |
| Views.OrganizationGateSeesDrafts | apps/btick/views.py:176-197 | the membership gate admits exactly the users the listing shows drafts to, so the PUBLISHED-only branch is never taken |
| Views.MyEvents | apps/btick/views.py:282-380 | anonymous 401; without the organiser permission 403; 200 exactly for organisers and admins, with every live event for staff and superusers and otherwise the live events of the organisations the user belongs to; ordered by start |
| Views.OrganizerGateIsAuthenticated | apps/btick/views.py:328-337 | the organiser permission admits only authenticated users, and admits every authenticated staff member or superuser, so the `.none()` branch is never taken |
| Views.OrganizationListingRules | apps/btick/views.py:165-215 | whoever gets 200 from the organisation listing sees there every public event of the organisation and every live active draft of it, and is someone the listing shows drafts to; an authenticated user who is not is refused 403 |
| Seed.Sample | apps/btick/management/commands/seed.py:210 | `random.sample` (and, drawing the whole pool, `random.shuffle`) yields exactly `k` elements, all from the pool, none twice when the pool has no repeats |
| Seed.DrawCount | apps/btick/management/commands/seed.py:285 | a draw takes each element at most as often as the pool holds it, and a draw of the whole pool is a permutation of it |
| Seed.DrawWithin | apps/btick/management/commands/seed.py:210 | nothing outside the pool is ever drawn |
| Seed.DrawDistinct | apps/btick/management/commands/seed.py:210 | a pool without repeats gives a draw without repeats, so the sampled ticket types of one event are distinct |
| Seed.ShuffleIsPermutation | apps/btick/management/commands/seed.py:330 | the shuffled venue candidates are a permutation of the candidates |
| Seed.TicketCodesFromModel | apps/btick/management/commands/seed.py:35-44 | the codes are the declared choices' codes in order, or the five fallback codes when the field declares none |
| Seed.TicketCodesAgree | apps/btick/management/commands/seed.py:35-44 | the tier model's declared codes are exactly the fallback list, so either way the seeder draws from the five ticket types |
| Seed.TicketCount | apps/btick/management/commands/seed.py:209 | each event gets between two and four ticket types, never more than there are types |
| Seed.SeedPrice | apps/btick/management/commands/seed.py:199-205 | every seeded price lies between 2990.00 and 15990.00 |
| Seed.EventTicketTypes | apps/btick/management/commands/seed.py:209-210 | the types drawn for one event number two to four and are pairwise distinct |
| Seed.SeedTier | apps/btick/management/commands/seed.py:212-218 | a seeded tier belongs to its event, has the drawn type, a quota in 50..500, nothing sold, passes the tier checks and is live and new |
| Seed.EventBlock | apps/btick/management/commands/seed.py:211-218 | one event contributes one seeded tier per drawn type, in the drawn order |
| Seed.EventsTicketsFacts | apps/btick/management/commands/seed.py:207-218 | every seeded tier is a fresh tier of one of the events, and the events get between two and four tiers each |
| Seed.EventsTicketsUnique | apps/btick/management/commands/seed.py:195 | with the events distinct, no event is given the same ticket type twice: the `(event, ticket_type)` unique constraint holds |
| Seed.SeedEventBlock | apps/btick/management/commands/seed.py:211-218 | the inner loop builds exactly one event's block |
| Seed.SeedEventTickets | apps/btick/management/commands/seed.py:193-219 | the loop creates exactly the tiers of all events in order; each belongs to an event, has nothing sold and passes the checks; with distinct events the ticket types are unique per event |
| Seed.SeedBooking | apps/btick/management/commands/seed.py:233-253 | a seeded booking has a listed user and ticket, two to five seats, the drawn status, an expiry exactly when PENDING and then one day before its event starts |
| Seed.SeedBookings | apps/btick/management/commands/seed.py:222-254 | no bookings without tickets; drawing a user from an empty list fails exactly when there are tickets and bookings to make; otherwise exactly `n` bookings of the plan, all referring to existing tiers and passing the booking checks |
| Seed.RecountAll | apps/btick/management/commands/seed.py:269-271 | the recounted table has the same tiers, each recounted from the bookings |
| Seed.ConfirmedTotalNonNegative | apps/btick/management/commands/seed.py:261-267 | with positive quantities the confirmed seat total is never negative |
| Seed.ConfirmedTotalIgnoresOthers | apps/btick/management/commands/seed.py:263 | PENDING and CANCELLED bookings add nothing; a tier without live CONFIRMED bookings totals zero |
| Seed.RecountBounds | apps/btick/management/commands/seed.py:271 | a recounted live tier has `0 <= sold <= quota`, equal to its confirmed seats whenever they fit the quota, and still passes the tier checks |
| Seed.RecountSold | apps/btick/management/commands/seed.py:257-273 | every live tier's `sold` becomes `min(confirmed seats, quota)`, soft-deleted tiers are untouched, and the tables' constraints are kept |
| Seed.HeldIsConfirmed | apps/btick/management/commands/seed.py:259 | without PENDING bookings the seats a tier holds are its confirmed seats |
| Seed.RecountRestoresLedger | apps/btick/management/commands/seed.py:257-273 | with no PENDING bookings and no tier oversold, the recount restores the seat ledger (every tier holds at least its bookings' seats, within its quota) |
| Seed.PendingBreaksRecount | apps/btick/management/commands/seed.py:243-245 | a seeded PENDING booking on a tier with fewer confirmed seats leaves the recounted tier outside the seat ledger, and releasing its seats would take `sold` below zero |
| Seed.CancelUndercounted | apps/btick/management/commands/seed.py:271 | cancelling a booking whose tier counts fewer seats than it holds always fails and changes nothing |
| Seed.OrgBlock | apps/btick/management/commands/seed.py:288-306 | one organisation takes the next user as OWNER and then `min(randint(1, 2), left)` more as MANAGERs, in pool order; nothing when the pool is empty |
| Seed.OrgPlanMembers | apps/btick/management/commands/seed.py:287-306 | the members are the front of the pool in order, each in one of the organisations as OWNER or MANAGER |
| Seed.OrgPlanManagersFollowOwner | apps/btick/management/commands/seed.py:278 | every MANAGER comes right after its organisation's OWNER or after one MANAGER that does |
| Seed.OrgPlanOneOwnerEach | apps/btick/management/commands/seed.py:278 | with no organisation listed twice, none gets two OWNERs |
| Seed.OrgPlanEveryOrgOwned | apps/btick/management/commands/seed.py:289-295 | while a user is left at the end, every organisation received an OWNER |
| Seed.OrgPlanFacts | apps/btick/management/commands/seed.py:275-309 | the seeded memberships are the shuffled users in order, each at most once, every MANAGER follows its OWNER, one OWNER per organisation, and every organisation owned while users are left |
| Seed.TakeBlock | apps/btick/management/commands/seed.py:288-306 | one organisation's turn pops exactly its block off the front of the pool |
| Seed.BuildOrgPlan | apps/btick/management/commands/seed.py:287-306 | the loop over organisations builds exactly the plan |
| Seed.SeedOrgMemberships | apps/btick/management/commands/seed.py:275-309 | nothing without users or organisations; otherwise exactly the plan over the shuffled users, with the plan's properties |
| Seed.NonMembers | apps/btick/management/commands/seed.py:324 | the users kept are exactly those outside the organisation members, in order, without repeats when the users have none |
| Seed.VenuePool | apps/btick/management/commands/seed.py:320-328 | the candidates are the users outside every organisation, or all users when there are none such; never empty while there are users |
| Seed.VenuePlan | apps/btick/management/commands/seed.py:330-339 | venue `k` gets the `k`-th shuffled candidate as MANAGER, for as many venues as there are candidates |
| Seed.VenuePlanFacts | apps/btick/management/commands/seed.py:311-342 | every venue manager is a user, none twice, venues in order, none in an organisation when some user is not, and every venue served when candidates suffice |
| Seed.AssignVenues | apps/btick/management/commands/seed.py:332-339 | the pop loop gives venue `k` the `k`-th candidate while any are left |
| Seed.SeedVenueMemberships | apps/btick/management/commands/seed.py:311-342 | nothing without users or venues; otherwise exactly the venue plan, no user twice, and no organisation member when a non-member exists |
| Seed.DebugOn | apps/btick/management/commands/seed.py:63 | the seeder runs unless DEBUG is set and false |
| Seed.TiersAppended | apps/btick/management/commands/seed.py:219 | appending fresh tiers of events without tiers keeps the tier constraints and the bookings' references, and the new ids point at them |
| Seed.PersistTiers | apps/btick/management/commands/seed.py:219-220 | `bulk_create` appends the tiers, keeps the constraints and returns their new ids |
| Seed.PersistBookings | apps/btick/management/commands/seed.py:254 | `bulk_create` appends the bookings and keeps the constraints |
| Seed.SeedTables | apps/btick/management/commands/seed.py:85-86 | tiers then bookings seeded over the new tier ids; when drawing a user fails the tables are rolled back |
| Seed.SeedMemberships | apps/btick/management/commands/seed.py:89-90 | organisation memberships, then venue memberships whose pool leaves out every organisation member |
| Seed.Handle | apps/btick/management/commands/seed.py:60-93 | outside DEBUG nothing changes; a failed user draw rolls back everything; otherwise the tiers, bookings and memberships are the plans above and every tier's `sold` is recounted |

## Left out

- Row locks and concurrency:
  - `select_for_update` and interleaved requests are not modelled; each `save`/`create` runs alone, start to finish.
  - `transaction.atomic` is modelled only as the rollback on a failed check.
- Clocks: `timezone.now()` is the `now` parameter. Time zones are not modelled.
- Money: `Decimal` prices are integer cents, and there is no floating point.
- Columns:
  - `created_at` and `updated_at` are not modelled.
  - Ordering by `-created_at` is modelled as ordering by descending id, because rows are created in id order.
- Version checks: `bump_version` is modelled, but no operation compares versions, so there is no optimistic-concurrency check.
- Not in the source, so not in the model: an expiry reaper, and a cascade from event cancel to bookings.
- Plumbing:
  - DRF field objects and their messages, nested read serializers, routers and URLs are not modelled. Of the fields, only which errors a request gets is kept.
  - Of the HTTP behaviour, only the status codes of the modelled views are kept.
- Duplicate logic: the ticket and event serializers of the versioned API repeat `get_available` and `EventCreateSerializer.validate`, which are modelled once, in `Serializers`.
- Other parts of the repository, not modelled:
  - the admin UI and its colour badge;
  - the admin dashboard aggregations;
  - `setup_groups`;
  - JWT token issuance and blacklisting;
  - the `django_filters` event filter;
  - settings.
- Role enumerations: the organisation and venue role enumerations are not part of the source files modelled. Roles are OWNER, MANAGER and any other role.
- Validators.Lower: Python's `str.lower()` is modelled on ASCII letters only; other characters are kept as they are.
- Seed draws:
  - Faker, and the `random` and `bulk_create` calls, are not modelled.
  - Random results are input functions, and `randint(a, b)` is `a` plus a draw modulo `b - a + 1`.
- Seed.SeedBooking: the booking status is a drawn input, and the 0.25/0.65/0.10 weights of `random.choices` are not modelled.
- Seed.SeedEventTickets: the tiers come back in creation order. The source re-queries them with `filter(event__in=events)`, and the model assumes that query also returns creation order.
- Seed.SeedBookings:
  - the bookings it creates are returned in creation order;
  - the source returns the newest `n` (`order_by("-id")[:n]`), which no later step reads in a way that depends on order.
- Seed.Handle: the steps that produce inputs are not modelled:
  - `_seed_users`, `_seed_orgs`, `_seed_venues`, `_seed_categories` and `_seed_events` are not modelled, and their results are inputs;
  - the run requires that its events have no tiers yet, which holds for events the same run has just created.
- Seed.Handle: `_flush_all` (hard deletes of every table) is not modelled.
- Seed.Handle: `_assign_groups` is not modelled. It puts seeded users into the Customers, Organizers and Venue Managers groups, and group membership is an input of the permission rules rather than a table here.
- Seed.Handle: the console output is not modelled.
- Serializers.Database.constructor: the class stands for the database tables and has no counterpart in the source.
- Other tables: organisations, venues and categories appear only as much as the views need, namely their soft-delete columns. So the existence checks of the event fields `organization`, `venue` and `category` are not modelled, and neither is a physical delete of those rows. `Models.OrganizationDeletable`, `VenueDeletable` and `CategoryDeletable` state their PROTECT rule.
- Field lengths: the `max_length` bounds of `title` and `ticket_type` are not modelled.
- Serializers.QuantityFieldErrors: the quantity column's upper bound depends on the database (2147483647 on the common ones) and is not modelled; only its lower bound 0 is.
- Nested routes: the `event_pk` filter of the tier queryset is not modelled; the tier views look tiers up over all live tiers.
- Memberships are not a table here, so a user's physical delete does not cascade to their memberships.
- Abstracts.HardDelete: removes rows from one table and does not follow foreign keys. The collector's CASCADE and PROTECT are `Models.CollectEvent`, `CollectTier` and `CollectUser`.
