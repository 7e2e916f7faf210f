/**
 * src/modules/users/users.repository.ts: the data-access object over the `users` table,
 * modelled as an object that owns the table's rows. Inserts and updates are checked against
 * the table's constraints as the database checks them; `findAll` orders by `createdAt`
 * descending and cuts out one page.
 */
module Repository {
  import opened Wrappers
  import opened Numbers
  import opened UserModel
  import Pagination

  predicate SortedByCreatedDesc(s: seq<User>) {
    forall i, j :: 0 <= i < j < |s| ==> s[i].createdAt >= s[j].createdAt
  }

  /** A row no older than every row of a sorted listing can go in front of it. */
  lemma ConsSorted(x: User, s: seq<User>)
    requires SortedByCreatedDesc(s)
    requires forall y :: y in multiset(s) ==> x.createdAt >= y.createdAt
    ensures SortedByCreatedDesc([x] + s)
  {
    forall i, j | 0 <= i < j < |[x] + s| ensures ([x] + s)[i].createdAt >= ([x] + s)[j].createdAt {
      if i == 0 {
        assert ([x] + s)[j] == s[j - 1];
        assert s[j - 1] in multiset(s);
      } else {
        assert ([x] + s)[i] == s[i - 1] && ([x] + s)[j] == s[j - 1];
      }
    }
  }

  /** Inserts `u` before the first row that is not newer than it. */
  function InsertByCreatedDesc(u: User, s: seq<User>): (r: seq<User>)
    requires SortedByCreatedDesc(s)
    ensures SortedByCreatedDesc(r)
    ensures multiset(r) == multiset(s) + multiset{u}
  {
    if s == [] || s[0].createdAt <= u.createdAt then
      assert forall y :: y in multiset(s) ==> y in s;
      ConsSorted(u, s);
      [u] + s
    else
      assert s == [s[0]] + s[1..];
      var rest := InsertByCreatedDesc(u, s[1..]);
      forall y | y in multiset(rest) ensures s[0].createdAt >= y.createdAt {
        if y != u {
          assert y in multiset(s[1..]);
          assert y in s[1..];
        }
      }
      ConsSorted(s[0], rest);
      [s[0]] + rest
  }

  /** The rows of `s` in `createdAt`-descending order; rows created at the same time keep their order. */
  function SortByCreatedDesc(s: seq<User>): (r: seq<User>)
    ensures SortedByCreatedDesc(r)
    ensures multiset(r) == multiset(s)
  {
    if s == [] then []
    else
      assert s == [s[0]] + s[1..];
      InsertByCreatedDesc(s[0], SortByCreatedDesc(s[1..]))
  }

  /** `LIMIT lim OFFSET off` over an ordered result: at most `lim` rows from position `off` on. */
  function Window(s: seq<User>, off: nat, lim: nat): (r: seq<User>)
    ensures |r| <= lim
    ensures off >= |s| ==> r == []
    ensures off < |s| ==> |r| == Min(lim, |s| - off) && r == s[off..off + |r|]
  {
    if off >= |s| then [] else s[off..Min(off + lim, |s|)]
  }

  /** The rows under the ids of `order`, in that order. */
  function RowsInOrder(order: seq<string>, rows: Table): (r: seq<User>)
    requires forall i :: 0 <= i < |order| ==> order[i] in rows
    ensures |r| == |order|
    ensures forall i :: 0 <= i < |order| ==> r[i] == rows[order[i]]
  {
    seq(|order|, i requires 0 <= i < |order| => rows[order[i]])
  }

  predicate Distinct(s: seq<string>) {
    forall i, j :: 0 <= i < j < |s| ==> s[i] != s[j]
  }

  /** `s` without the occurrences of `x`. */
  function Without(s: seq<string>, x: string): (r: seq<string>)
    ensures forall y :: y in r <==> y in s && y != x
    ensures Distinct(s) ==> Distinct(r)
  {
    if s == [] then []
    else if s[0] == x then Without(s[1..], x)
    else
      var rest := Without(s[1..], x);
      assert Distinct(s) ==> s[0] !in s[1..];
      [s[0]] + rest
  }

  /** A sequence without repetitions is as long as the set of its elements. */
  lemma {:induction false} DistinctLength(s: seq<string>, keys: set<string>)
    requires Distinct(s)
    requires forall y :: y in s <==> y in keys
    ensures |s| == |keys|
  {
    if s != [] {
      assert s[0] !in s[1..];
      DistinctLength(s[1..], keys - {s[0]});
    } else {
      assert keys == {};
    }
  }

  class UsersRepository {
    /** The table's rows, keyed by id. */
    var rows: Table
    /**
     * The ids in insertion order. PostgreSQL leaves the order of rows with equal `createdAt`
     * unspecified; the model chooses this one, and updates do not change it.
     */
    var order: seq<string>

    ghost predicate Valid()
      reads this
    {
      && TableOk(rows)
      && Distinct(order)
      && (forall i :: 0 <= i < |order| ==> order[i] in rows)
      && (forall id :: id in rows ==> id in order)
    }

    /** An empty table. */
    constructor()
      ensures Valid() && rows == map[]
    {
      rows := map[];
      order := [];
    }

    /** The whole table as `ORDER BY created_at DESC` returns it. */
    function Listing(): (s: seq<User>)
      reads this
      requires Valid()
      ensures |s| == |rows|
      ensures SortedByCreatedDesc(s)
      ensures forall u :: u in s <==> u.id in rows && rows[u.id] == u
    {
      var inOrder := RowsInOrder(order, rows);
      var s := SortByCreatedDesc(inOrder);
      DistinctLength(order, rows.Keys);
      assert |s| == |multiset(s)| == |multiset(inOrder)| == |inOrder|;
      forall u ensures u in s <==> u.id in rows && rows[u.id] == u {
        assert u in s <==> u in multiset(s);
        assert u in inOrder <==> u in multiset(inOrder);
        if u.id in rows && rows[u.id] == u {
          var i :| 0 <= i < |order| && order[i] == u.id;
          assert inOrder[i] == u;
        }
      }
      s
    }

    /** `create(data)`: inserts one row with the generated `id` and `now` as both timestamps. */
    method Create(data: NewUser, id: string, now: int) returns (r: Result<User, DbError>)
      requires Valid()
      modifies this
      ensures Valid()
      ensures r == InsertOutcome(old(rows), data, id, now)
      ensures rows == AfterWrite(old(rows), r)
      ensures order == if r.Success? then old(order) + [id] else old(order)
    {
      r := InsertOutcome(rows, data, id, now);
      InsertKeepsConstraints(rows, data, id, now);
      if r.Success? {
        rows := rows[id := r.value];
        order := order + [id];
      }
    }

    /** `findById(id)`: the row with that id, or `undefined`. */
    method FindById(id: string) returns (r: Option<User>)
      requires Valid()
      ensures r.Some? <==> id in rows
      ensures r.Some? ==> r.value == rows[id] && r.value.id == id
    {
      if id in rows {
        r := Some(rows[id]);
      } else {
        r := None;
      }
    }

    /** `findByEmail(email)`: the row with that email (there is at most one), or `undefined`. */
    method FindByEmail(email: string) returns (r: Option<User>)
      requires Valid()
      ensures r.None? <==> !EmailTaken(rows, email)
      ensures r.Some? ==> r.value.email == email && r.value.id in rows && rows[r.value.id] == r.value
      ensures forall id :: id in rows && rows[id].email == email ==> r == Some(rows[id])
    {
      if EmailTaken(rows, email) {
        var id :| id in rows && rows[id].email == email;
        r := Some(rows[id]);
      } else {
        r := None;
      }
    }

    /**
     * `findAll({page, limit})`: skips `(page - 1) * limit` rows of the `createdAt`-descending
     * listing and returns at most `limit` of the rest, with the row count of the whole table.
     */
    method FindAll(page: int, limit: int) returns (data: seq<User>, total: nat)
      requires Valid()
      requires page >= 1 && limit >= 0
      ensures total == |rows|
      ensures data == Window(Listing(), Pagination.CalculateOffset(Pagination.Params(page, limit)), limit)
      ensures |data| <= limit && SortedByCreatedDesc(data)
      ensures forall u :: u in data ==> u.id in rows && rows[u.id] == u
      ensures Pagination.CalculateOffset(Pagination.Params(page, limit)) >= |rows| ==> data == []
    {
      var offset := Pagination.CalculateOffset(Pagination.Params(page, limit));
      var listing := Listing();
      data := Window(listing, offset, limit);
      total := |rows|;
    }

    /** `update(id, data)`: overwrites the supplied fields and `updatedAt` of the row with that id. */
    method Update(id: string, patch: UserPatch, now: int) returns (r: Result<Option<User>, DbError>)
      requires Valid()
      modifies this
      ensures Valid()
      ensures r == UpdateOutcome(old(rows), id, patch, now)
      ensures rows == if r.Success? && r.value.Some? then old(rows)[id := r.value.value] else old(rows)
      ensures order == old(order)
    {
      r := UpdateOutcome(rows, id, patch, now);
      if r.Success? && r.value.Some? {
        UpdateKeepsConstraints(rows, id, patch, now);
        rows := rows[id := r.value.value];
      }
    }

    /** `delete(id)`: removes the row with that id and reports whether there was one. */
    method Delete(id: string) returns (deleted: bool)
      requires Valid()
      modifies this
      ensures Valid()
      ensures deleted <==> id in old(rows)
      ensures rows == old(rows) - {id}
      ensures order == if deleted then Without(old(order), id) else old(order)
    {
      deleted := id in rows;
      if deleted {
        rows := rows - {id};
        order := Without(order, id);
        forall i | 0 <= i < |order| ensures order[i] in rows {
          assert order[i] in order;
        }
      }
    }
  }
}
