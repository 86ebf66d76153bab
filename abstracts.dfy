/** Shared entity substrate: the soft-delete and version columns every entity
    carries, the alive/dead query sets over a table, bulk soft and hard
    delete, the two managers, and the in-memory instance whose `Delete` and
    `BumpVersion` assign fields before saving. */
module Abstracts {

  datatype Option<T> = None | Some(value: T)

  /** The value held, or `default` when there is none. */
  function ValueOr<T>(o: Option<T>, default: T): T {
    if o.Some? then o.value else default
  }

  /** A point in time, in seconds. */
  type Time = int

  /** The persisted substrate columns of one row. `created_at` and
      `updated_at` are not part of the model. */
  datatype Substrate = Substrate(isActive: bool, deletedAt: Option<Time>, version: nat)

  /** Column defaults: `is_active=True`, `deleted_at` null, `version=0`. */
  const NewSubstrate: Substrate := Substrate(true, None, 0)

  /** Which soft-delete hook a model class gets: the plain mixin's, which
      adds no field, or BaseEntity's, which also clears `is_active`. */
  datatype Mixin = SoftDeleteOnly | BaseEntityMixin

  /** The substrate columns a soft delete may write. */
  datatype Column = DeletedAtColumn | IsActiveColumn

  /** A row of some table: its primary key, its own data and the substrate. */
  datatype Row<T> = Row(pk: nat, data: T, meta: Substrate)

  /** A row is alive exactly when `deleted_at` is null; `is_active` plays no part. */
  predicate IsAlive(s: Substrate) {
    s.deletedAt.None?
  }

  // ---------------------------------------------------------------------------
  // SoftDeleteQuerySet.alive / dead
  // ---------------------------------------------------------------------------

  /** `alive()`: the rows with null `deleted_at`, in table order. */
  function Alive<T(==,!new)>(rows: seq<Row<T>>): (r: seq<Row<T>>)
    ensures |r| <= |rows|
    ensures forall x :: x in r <==> x in rows && IsAlive(x.meta)
  {
    if rows == [] then []
    else if IsAlive(rows[0].meta) then [rows[0]] + Alive(rows[1..])
    else Alive(rows[1..])
  }

  /** `dead()`: the rows whose `deleted_at` is set, in table order. */
  function Dead<T(==,!new)>(rows: seq<Row<T>>): (r: seq<Row<T>>)
    ensures |r| <= |rows|
    ensures forall x :: x in r <==> x in rows && !IsAlive(x.meta)
  {
    if rows == [] then []
    else if !IsAlive(rows[0].meta) then [rows[0]] + Dead(rows[1..])
    else Dead(rows[1..])
  }

  /** `alive()` and `dead()` split every table into two parts that together
      hold each row exactly as often as the table does. */
  lemma {:induction false} AliveDeadPartition<T(!new)>(rows: seq<Row<T>>)
    ensures multiset(Alive(rows)) + multiset(Dead(rows)) == multiset(rows)
    ensures |Alive(rows)| + |Dead(rows)| == |rows|
  {
    if rows != [] {
      AliveDeadPartition(rows[1..]);
      assert rows == [rows[0]] + rows[1..];
    }
  }

  // ---------------------------------------------------------------------------
  // Managers
  // ---------------------------------------------------------------------------

  /** `objects` (SoftDeleteManager and BaseEntityManager alike): `alive()`
      of the whole table. */
  function DefaultManager<T(==,!new)>(table: seq<Row<T>>): seq<Row<T>> {
    Alive(table)
  }

  /** `all_objects`: every row, soft-deleted ones included. */
  function AllObjects<T(==,!new)>(table: seq<Row<T>>): seq<Row<T>> {
    table
  }

  /** The default manager filters on `deleted_at` only: an inactive row that
      is not deleted is still returned, a deleted row never is, and
      `all_objects` returns both. */
  lemma DefaultManagerIgnoresIsActive<T(!new)>(table: seq<Row<T>>, x: Row<T>)
    requires x in table
    ensures x in DefaultManager(table) <==> x.meta.deletedAt.None?
    ensures x in AllObjects(table)
  {
  }

  // ---------------------------------------------------------------------------
  // Bulk delete on a query set
  // ---------------------------------------------------------------------------

  /** The row a soft delete leaves behind: `deleted_at` set to `now`, and
      for BaseEntity `is_active` cleared; nothing else changes. */
  function SoftDeletedRow(mixin: Mixin, s: Substrate, now: Time): Substrate {
    match mixin
    case SoftDeleteOnly => s.(deletedAt := Some(now))
    case BaseEntityMixin => s.(deletedAt := Some(now), isActive := false)
  }

  /** `delete()` on a query set: one UPDATE over its rows
      (SoftDeleteQuerySet writes `deleted_at`; BaseEntityQuerySet writes
      `deleted_at` and `is_active`). Returns the rows and the count UPDATE
      reports. */
  function QuerySetDelete<T(==,!new)>(mixin: Mixin, qs: seq<Row<T>>, now: Time): (r: (seq<Row<T>>, nat))
    ensures |r.0| == |qs| && r.1 == |qs|
    ensures forall i :: 0 <= i < |qs| ==>
      r.0[i].pk == qs[i].pk && r.0[i].data == qs[i].data
      && r.0[i].meta.deletedAt == Some(now)
      && r.0[i].meta.version == qs[i].meta.version
      && r.0[i].meta.isActive == (mixin == SoftDeleteOnly && qs[i].meta.isActive)
  {
    var rows := seq(|qs|, i requires 0 <= i < |qs| => qs[i].(meta := SoftDeletedRow(mixin, qs[i].meta, now)));
    (rows, |rows|)
  }

  /** After a bulk soft delete nothing in the query set is alive any more,
      yet every row is still there. */
  lemma {:induction false} QuerySetDeleteKillsAll<T(!new)>(mixin: Mixin, qs: seq<Row<T>>, now: Time)
    ensures Alive(QuerySetDelete(mixin, qs, now).0) == []
    ensures |Dead(QuerySetDelete(mixin, qs, now).0)| == |qs|
  {
    var rows := QuerySetDelete(mixin, qs, now).0;
    AliveDeadPartition(rows);
    AliveOfDead(rows);
  }

  /** A table whose every row is soft-deleted has nothing alive. */
  lemma {:induction false} AliveOfDead<T(!new)>(rows: seq<Row<T>>)
    requires forall i :: 0 <= i < |rows| ==> !IsAlive(rows[i].meta)
    ensures Alive(rows) == []
  {
    if rows != [] {
      AliveOfDead(rows[1..]);
    }
  }

  /** Whether a primary key is among the rows of a query set. */
  predicate HasPk<T(==,!new)>(qs: seq<Row<T>>, pk: nat) {
    exists x :: x in qs && x.pk == pk
  }

  /** `hard_delete()` on a query set, and `hard_delete()` on an instance (a
      query set of one row): the rows with those keys are physically removed
      from the table; the others stay, in order. */
  function HardDelete<T(==,!new)>(table: seq<Row<T>>, qs: seq<Row<T>>): (r: seq<Row<T>>)
    ensures |r| <= |table|
    ensures forall x :: x in r <==> x in table && !HasPk(qs, x.pk)
  {
    if table == [] then []
    else if HasPk(qs, table[0].pk) then HardDelete(table[1..], qs)
    else [table[0]] + HardDelete(table[1..], qs)
  }

  /** Unlike a soft delete, a hard delete leaves nothing to find, not even
      through `all_objects`. */
  lemma HardDeleteRemoves<T(!new)>(table: seq<Row<T>>, qs: seq<Row<T>>, x: Row<T>)
    requires x in qs
    ensures forall y :: y in AllObjects(HardDelete(table, qs)) ==> y.pk != x.pk
  {
  }

  // ---------------------------------------------------------------------------
  // Removing rows from a table whose ids are positions
  // ---------------------------------------------------------------------------

  /** The rows of `s` whose positions are not in `gone`, in table order. */
  function Without<T>(s: seq<T>, gone: set<nat>): seq<T>
    decreases |s|
  {
    if s == [] then []
    else Without(s[..|s| - 1], gone) + (if |s| - 1 in gone then [] else [s[|s| - 1]])
  }

  /** The id a row at position `k` gets once the rows in `gone` are removed:
      the number of rows kept before it. */
  function Shifted(gone: set<nat>, k: nat): nat {
    if k == 0 then 0 else Shifted(gone, k - 1) + (if k - 1 in gone then 0 else 1)
  }

  /** Ids keep their order, and a kept row's id is below that of every row
      after it. */
  lemma {:induction false} ShiftedMonotone(gone: set<nat>, a: nat, b: nat)
    requires a <= b
    ensures Shifted(gone, a) <= Shifted(gone, b)
    ensures a < b && a !in gone ==> Shifted(gone, a) < Shifted(gone, b)
    decreases b
  {
    if a < b {
      ShiftedMonotone(gone, a, b - 1);
    }
  }

  /** Two kept rows keep distinct ids. */
  lemma ShiftedInjective(gone: set<nat>, a: nat, b: nat)
    requires a !in gone && b !in gone && a != b
    ensures Shifted(gone, a) != Shifted(gone, b)
  {
    if a < b {
      ShiftedMonotone(gone, a, b);
    } else {
      ShiftedMonotone(gone, b, a);
    }
  }

  /** What is left of the table has one row per kept position. */
  lemma {:induction false} WithoutLength<T>(s: seq<T>, gone: set<nat>)
    ensures |Without(s, gone)| == Shifted(gone, |s|)
    decreases |s|
  {
    if s != [] {
      WithoutLength(s[..|s| - 1], gone);
    }
  }

  /** A kept row is found at its new id. */
  lemma {:induction false} WithoutAt<T>(s: seq<T>, gone: set<nat>, k: nat)
    requires k < |s| && k !in gone
    ensures Shifted(gone, k) < |Without(s, gone)| && Without(s, gone)[Shifted(gone, k)] == s[k]
    decreases |s|
  {
    var n := |s|;
    var s0 := s[..n - 1];
    WithoutLength(s0, gone);
    if k < n - 1 {
      WithoutAt(s0, gone, k);
      assert s0[k] == s[k];
    }
  }

  /** Every row left is a kept row at its new id. */
  lemma {:induction false} WithoutOrigin<T>(s: seq<T>, gone: set<nat>, j: nat) returns (k: nat)
    requires j < |Without(s, gone)|
    ensures k < |s| && k !in gone && Shifted(gone, k) == j && Without(s, gone)[j] == s[k]
    decreases |s|
  {
    var n := |s|;
    var s0 := s[..n - 1];
    WithoutLength(s0, gone);
    if j < |Without(s0, gone)| {
      k := WithoutOrigin(s0, gone, j);
      assert s0[k] == s[k];
    } else {
      k := n - 1;
    }
  }

  // ---------------------------------------------------------------------------
  // Instance-level soft delete and versioning
  // ---------------------------------------------------------------------------

  /** `(version or 0)`: Python's None reads as 0. */
  function VersionOrZero(v: Option<nat>): nat {
    match v
    case None => 0
    case Some(n) => n
  }

  /** `save(update_fields=fields)`: copy exactly the listed substrate
      columns from the instance into the stored row. */
  function SaveFields(stored: Substrate, isActive: bool, deletedAt: Option<Time>, fields: seq<Column>): (r: Substrate)
    ensures r.version == stored.version
    ensures r.deletedAt == (if DeletedAtColumn in fields then deletedAt else stored.deletedAt)
    ensures r.isActive == (if IsActiveColumn in fields then isActive else stored.isActive)
  {
    stored.(deletedAt := if DeletedAtColumn in fields then deletedAt else stored.deletedAt,
            isActive := if IsActiveColumn in fields then isActive else stored.isActive)
  }

  /** An in-memory model instance of a soft-deletable, versioned entity. */
  class Instance {
    const mixin: Mixin
    var isActive: bool
    var deletedAt: Option<Time>
    var version: Option<nat>

    /** A fresh instance carries the column defaults. */
    constructor (mixin: Mixin)
      ensures this.mixin == mixin
      ensures isActive && deletedAt == None && version == Some(0)
    {
      this.mixin := mixin;
      isActive := true;
      deletedAt := None;
      version := Some(0);
    }

    /** `_prepare_soft_delete()`: the plain mixin's hook does nothing and
        adds no field; BaseEntity's clears `is_active` and adds that column. */
    method PrepareSoftDelete() returns (extra: seq<Column>)
      modifies this
      ensures deletedAt == old(deletedAt) && version == old(version)
      ensures mixin == SoftDeleteOnly ==> extra == [] && isActive == old(isActive)
      ensures mixin == BaseEntityMixin ==> extra == [IsActiveColumn] && !isActive
    {
      if mixin == BaseEntityMixin {
        isActive := false;
        extra := [IsActiveColumn];
      } else {
        extra := [];
      }
    }

    /** `delete()`: stamp `deleted_at`, run the hook, and save only the
        columns written. Returns those columns together with the stored row
        after the save. */
    method Delete(stored: Substrate, now: Time) returns (written: seq<Column>, saved: Substrate)
      modifies this
      ensures deletedAt == Some(now) && version == old(version)
      ensures isActive == (mixin == SoftDeleteOnly && old(isActive))
      ensures written == if mixin == BaseEntityMixin then [DeletedAtColumn, IsActiveColumn] else [DeletedAtColumn]
      ensures saved == SaveFields(stored, isActive, deletedAt, written)
    {
      deletedAt := Some(now);
      written := [DeletedAtColumn];
      var additional := PrepareSoftDelete();
      if additional != [] {
        written := written + additional;
      }
      saved := SaveFields(stored, isActive, deletedAt, written);
    }

    /** `bump_version()`: one more than the current version, None counting as 0. */
    method BumpVersion()
      modifies this`version
      ensures version == Some(VersionOrZero(old(version)) + 1)
    {
      version := Some(VersionOrZero(version) + 1);
    }
  }

  /** Saving after an instance delete writes exactly the row the bulk delete
      of the same class would write, whatever the stored `is_active` was,
      provided the instance agreed with the stored row before. */
  lemma InstanceDeleteMatchesRow(mixin: Mixin, stored: Substrate, now: Time)
    ensures SaveFields(stored, mixin == SoftDeleteOnly && stored.isActive, Some(now),
                       if mixin == BaseEntityMixin then [DeletedAtColumn, IsActiveColumn] else [DeletedAtColumn])
            == SoftDeletedRow(mixin, stored, now)
  {
  }
}
