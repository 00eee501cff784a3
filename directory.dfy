/**
  The recipient directory: the `users` table keyed by user id, written with
  INSERT OR IGNORE and read back as a row count and as a list of ids.
  The table is a sequence of rows in the order they were inserted; the
  primary key makes the ids pairwise distinct.
 */
module Directory {
  import opened Wrappers

  /** One row of the table (the join timestamp is not modelled). */
  datatype User = User(id: int, fullName: string, username: Option<string>)

  function IdsOf(rows: seq<User>): seq<int> {
    seq(|rows|, i requires 0 <= i < |rows| => rows[i].id)
  }

  predicate Distinct(ids: seq<int>) {
    forall i, j :: 0 <= i < j < |ids| ==> ids[i] != ids[j]
  }

  /** `INSERT OR IGNORE`: a row whose id is already present is dropped. */
  function Inserted(rows: seq<User>, user: User): seq<User> {
    if user.id in IdsOf(rows) then rows else rows + [user]
  }

  /** What insert-or-ignore promises: afterwards the id is present; a known
      id leaves the table (and the first row's name fields) untouched; a new
      id adds exactly one row and keeps the others; the key stays unique;
      and inserting the same id again changes nothing. */
  lemma InsertOrIgnore(rows: seq<User>, user: User, again: User)
    requires Distinct(IdsOf(rows))
    requires again.id == user.id
    ensures user.id in IdsOf(Inserted(rows, user))
    ensures user.id in IdsOf(rows) ==> Inserted(rows, user) == rows
    ensures user.id !in IdsOf(rows) ==>
      |Inserted(rows, user)| == |rows| + 1 && Inserted(rows, user)[..|rows|] == rows
    ensures Distinct(IdsOf(Inserted(rows, user)))
    ensures Inserted(Inserted(rows, user), again) == Inserted(rows, user)
  {
    var after := Inserted(rows, user);
    if user.id !in IdsOf(rows) {
      assert IdsOf(after) == IdsOf(rows) + [user.id];
    }
    assert user.id in IdsOf(after) by {
      if user.id in IdsOf(rows) {
      } else {
        assert IdsOf(after)[|rows|] == user.id;
      }
    }
  }

  /** The table after inserting `regs` in order, starting from `rows`. */
  function RegisterAll(rows: seq<User>, regs: seq<User>): seq<User> {
    if regs == [] then rows
    else Inserted(RegisterAll(rows, regs[..|regs| - 1]), regs[|regs| - 1])
  }

  /** How many of `regs` repeat an id registered earlier in `regs`. */
  function DuplicateCount(regs: seq<User>): nat {
    if regs == [] then 0
    else
      var earlier := regs[..|regs| - 1];
      DuplicateCount(earlier) + (if regs[|regs| - 1].id in IdsOf(earlier) then 1 else 0)
  }

  /** The ids in the table after a run of registrations are the ids it held
      before together with the ids registered. */
  lemma {:induction false} RegisterAllIds(rows: seq<User>, regs: seq<User>, x: int)
    ensures x in IdsOf(RegisterAll(rows, regs)) <==> x in IdsOf(rows) || x in IdsOf(regs)
    ensures Distinct(IdsOf(rows)) ==> Distinct(IdsOf(RegisterAll(rows, regs)))
  {
    if regs != [] {
      var earlier := regs[..|regs| - 1];
      var last := regs[|regs| - 1];
      var before := RegisterAll(rows, earlier);
      RegisterAllIds(rows, earlier, x);
      assert IdsOf(regs) == IdsOf(earlier) + [last.id];
      if Distinct(IdsOf(rows)) {
        InsertOrIgnore(before, last, last);
      }
      if last.id !in IdsOf(before) {
        assert IdsOf(RegisterAll(rows, regs)) == IdsOf(before) + [last.id];
      }
    }
  }

  /** After N registrations into an empty table, k of which repeat an id,
      the table holds N - k rows with distinct ids. */
  lemma {:induction false} RegisterAllCount(regs: seq<User>)
    ensures |RegisterAll([], regs)| == |regs| - DuplicateCount(regs)
    ensures Distinct(IdsOf(RegisterAll([], regs)))
  {
    RegisterAllIds([], regs, 0);
    if regs != [] {
      var earlier := regs[..|regs| - 1];
      var last := regs[|regs| - 1];
      RegisterAllCount(earlier);
      RegisterAllIds([], earlier, last.id);
      InsertOrIgnore(RegisterAll([], earlier), last, last);
    }
  }

  /** Distinct ids: as many as there are rows. */
  lemma {:induction false} DistinctCard(ids: seq<int>)
    requires Distinct(ids)
    ensures |set x | x in ids| == |ids|
  {
    if ids != [] {
      var earlier := ids[..|ids| - 1];
      var last := ids[|ids| - 1];
      DistinctCard(earlier);
      assert (set x | x in ids) == (set x | x in earlier) + {last} by {
        assert ids == earlier + [last];
      }
      assert last !in earlier;
    }
  }

  /** Distinct ids: each present id occurs exactly once. */
  lemma {:induction false} DistinctOnce(ids: seq<int>, x: int)
    requires Distinct(ids)
    ensures multiset(ids)[x] == if x in ids then 1 else 0
  {
    if ids != [] {
      var earlier := ids[..|ids| - 1];
      var last := ids[|ids| - 1];
      assert ids == earlier + [last];
      DistinctOnce(earlier, x);
      assert last !in earlier;
    }
  }

  class RecipientDirectory {
    var rows: seq<User>

    /** The primary key: no id occurs twice. */
    ghost predicate Valid()
      reads this
    {
      Distinct(IdsOf(rows))
    }

    /** The ids of all registered users. */
    function Registered(): set<int>
      reads this
    {
      set x | x in IdsOf(rows)
    }

    /** `init_db`: `CREATE TABLE IF NOT EXISTS` keeps whatever the database
        file already holds (nothing, for a new file). */
    constructor (persisted: seq<User>)
      requires Distinct(IdsOf(persisted))
      ensures Valid() && rows == persisted
    {
      rows := persisted;
    }

    /** `add_user`: opening the connection is outside the `try`, so a
        connection failure propagates (`raised`); once connected, the
        insert-or-ignore either succeeds or its failure is logged and
        swallowed, leaving the table as it was. */
    method AddUser(user: User, connects: bool, writes: bool) returns (raised: bool)
      requires Valid()
      modifies this
      ensures Valid()
      ensures raised <==> !connects
      ensures rows == if connects && writes then Inserted(old(rows), user) else old(rows)
      ensures Registered() == if connects && writes then old(Registered()) + {user.id} else old(Registered())
    {
      if !connects {
        return true;
      }
      raised := false;
      if writes {
        InsertOrIgnore(rows, user, user);
        if user.id !in IdsOf(rows) {
          assert IdsOf(rows + [user]) == IdsOf(rows) + [user.id];
        }
        rows := Inserted(rows, user);
      }
    }

    /** `get_stats`: `SELECT COUNT(*)`, the number of distinct registered
        ids; `None` when the read raises. */
    method GetStats(dbUp: bool) returns (count: Option<nat>)
      requires Valid()
      ensures count.Some? <==> dbUp
      ensures count.Some? ==> count.value == |Registered()|
    {
      if !dbUp {
        return None;
      }
      DistinctCard(IdsOf(rows));
      count := Some(|rows|);
    }

    /** `get_all_users`: `SELECT id`, a snapshot listing every registered id
        exactly once; `None` when the read raises. */
    method GetAllUsers(dbUp: bool) returns (ids: Option<seq<int>>)
      requires Valid()
      ensures ids.Some? <==> dbUp
      ensures ids.Some? ==> ids.value == IdsOf(rows) && |ids.value| == |Registered()|
      ensures ids.Some? ==> forall x :: multiset(ids.value)[x] == if x in Registered() then 1 else 0
    {
      if !dbUp {
        return None;
      }
      var snapshot := IdsOf(rows);
      DistinctCard(snapshot);
      forall x ensures multiset(snapshot)[x] == if x in Registered() then 1 else 0 {
        DistinctOnce(snapshot, x);
      }
      ids := Some(snapshot);
    }
  }
}
