/** The per-channel endpoint store: the table
    `wiw_endpoints(room text, format text, url text, api_token text)`
    as a sequence of rows in table order, and the two operations the plugin
    runs against it (`get_wiw_endpoint` and `set_wiw_endpoint`). */
module Endpoints {
  import opened Wrappers

  /** One row of `wiw_endpoints`. */
  datatype Row = Row(room: string, format: string, url: string, apiToken: string)

  /** What a lookup hands back: the stored configuration of one room. */
  datatype Endpoint = Endpoint(format: string, url: string, apiToken: string)

  function EndpointOf(row: Row): Endpoint {
    Endpoint(row.format, row.url, row.apiToken)
  }

  /** The rows of one room, in table order: the filter `WHERE room = ?` that the
      lookup and the delete apply. */
  function Select(rows: seq<Row>, room: string): (r: seq<Row>)
    ensures forall x :: x in r <==> x in rows && x.room == room
  {
    if rows == [] then []
    else
      assert rows == [rows[0]] + rows[1..];
      (if rows[0].room == room then [rows[0]] else []) + Select(rows[1..], room)
  }

  /** The rows left by `DELETE FROM wiw_endpoints WHERE room = ?`, in table order. */
  function Delete(rows: seq<Row>, room: string): (r: seq<Row>)
    ensures forall x :: x in r <==> x in rows && x.room != room
  {
    if rows == [] then []
    else
      assert rows == [rows[0]] + rows[1..];
      (if rows[0].room != room then [rows[0]] else []) + Delete(rows[1..], room)
  }

  /** The table after `set_wiw_endpoint(room, format, url, apiToken)`:
      every row of the room deleted, then the new row inserted at the end. */
  function Store(rows: seq<Row>, room: string, format: string, url: string, apiToken: string): (r: seq<Row>)
    ensures |r| >= 1 && r[|r| - 1] == Row(room, format, url, apiToken)
    ensures forall x :: x in r <==> (x in rows && x.room != room) || x == Row(room, format, url, apiToken)
  {
    Delete(rows, room) + [Row(room, format, url, apiToken)]
  }

  /** The intended shape of the table: at most one row per room. */
  predicate UniqueRooms(rows: seq<Row>) {
    forall i, j :: 0 <= i < j < |rows| ==> rows[i].room != rows[j].room
  }

  /** `get_wiw_endpoint(room)`: the configuration in the first row of the room
      (`SELECT ... WHERE room = ? LIMIT 1`), or `None` when the room has no row. */
  function GetEndpoint(rows: seq<Row>, room: string): (r: Option<Endpoint>)
    ensures r.None? <==> forall i :: 0 <= i < |rows| ==> rows[i].room != room
  {
    if rows == [] then None
    else if rows[0].room == room then Some(EndpointOf(rows[0]))
    else GetEndpoint(rows[1..], room)
  }

  /** When row `i` is the first row of the room, the lookup returns exactly its configuration. */
  lemma {:induction false} GetEndpointFirst(rows: seq<Row>, room: string, i: nat)
    requires i < |rows| && rows[i].room == room
    requires forall j :: 0 <= j < i ==> rows[j].room != room
    ensures GetEndpoint(rows, room) == Some(EndpointOf(rows[i]))
  {
    if i > 0 {
      GetEndpointFirst(rows[1..], room, i - 1);
    }
  }

  /** With at most one row per room, the lookup finds a configuration exactly when it is stored. */
  lemma GetEndpointUnique(rows: seq<Row>, room: string, e: Endpoint)
    requires UniqueRooms(rows)
    ensures GetEndpoint(rows, room) == Some(e) <==> Row(room, e.format, e.url, e.apiToken) in rows
  {
    var row := Row(room, e.format, e.url, e.apiToken);
    if row in rows {
      var i :| 0 <= i < |rows| && rows[i] == row;
      GetEndpointFirst(rows, room, i);
    } else if GetEndpoint(rows, room).Some? {
      var i :| 0 <= i < |rows| && rows[i].room == room;
      GetEndpointFirst(rows, room, i);
      assert EndpointOf(rows[i]) != e;
    }
  }

  lemma {:induction false} SelectAppend(a: seq<Row>, b: seq<Row>, room: string)
    ensures Select(a + b, room) == Select(a, room) + Select(b, room)
  {
    if a == [] {
      assert a + b == b;
    } else {
      assert (a + b)[1..] == a[1..] + b;
      SelectAppend(a[1..], b, room);
    }
  }

  lemma {:induction false} DeleteAppend(a: seq<Row>, b: seq<Row>, room: string)
    ensures Delete(a + b, room) == Delete(a, room) + Delete(b, room)
  {
    if a == [] {
      assert a + b == b;
    } else {
      assert (a + b)[1..] == a[1..] + b;
      DeleteAppend(a[1..], b, room);
    }
  }

  /** Deleting one room leaves the rows of every other room, in order, and none of its own. */
  lemma {:induction false} SelectDelete(rows: seq<Row>, room: string, other: string)
    ensures Select(Delete(rows, room), other) == if other == room then [] else Select(rows, other)
  {
    if rows != [] {
      SelectDelete(rows[1..], room, other);
      var head := if rows[0].room != room then [rows[0]] else [];
      SelectAppend(head, Delete(rows[1..], room), other);
    }
  }

  /** Deleting a room a second time changes nothing. */
  lemma {:induction false} DeleteTwice(rows: seq<Row>, room: string)
    ensures Delete(Delete(rows, room), room) == Delete(rows, room)
  {
    if rows != [] {
      DeleteTwice(rows[1..], room);
      var head := if rows[0].room != room then [rows[0]] else [];
      DeleteAppend(head, Delete(rows[1..], room), room);
    }
  }

  /** After a set, the room has exactly one row: the one just set. */
  lemma StoreReplaces(rows: seq<Row>, room: string, format: string, url: string, apiToken: string)
    ensures Select(Store(rows, room, format, url, apiToken), room) == [Row(room, format, url, apiToken)]
  {
    SelectAppend(Delete(rows, room), [Row(room, format, url, apiToken)], room);
    SelectDelete(rows, room, room);
  }

  /** A set leaves the rows of every other room as they were, in the same order. */
  lemma StoreKeepsOthers(rows: seq<Row>, room: string, format: string, url: string, apiToken: string, other: string)
    requires other != room
    ensures Select(Store(rows, room, format, url, apiToken), other) == Select(rows, other)
  {
    SelectAppend(Delete(rows, room), [Row(room, format, url, apiToken)], other);
    SelectDelete(rows, room, other);
  }

  /** A second set of the same room fully supersedes the first. */
  lemma StoreTwice(rows: seq<Row>, room: string, f1: string, u1: string, t1: string,
                   f2: string, u2: string, t2: string)
    ensures Store(Store(rows, room, f1, u1, t1), room, f2, u2, t2) == Store(rows, room, f2, u2, t2)
  {
    DeleteAppend(Delete(rows, room), [Row(room, f1, u1, t1)], room);
    DeleteTwice(rows, room);
    assert Delete([Row(room, f1, u1, t1)], room) == [];
  }

  /** A set keeps the table at one row per room. */
  lemma StoreKeepsUnique(rows: seq<Row>, room: string, format: string, url: string, apiToken: string)
    requires UniqueRooms(rows)
    ensures UniqueRooms(Store(rows, room, format, url, apiToken))
  {
    DeleteKeepsUnique(rows, room);
    var d := Delete(rows, room);
    var s := Store(rows, room, format, url, apiToken);
    forall i, j | 0 <= i < j < |s|
      ensures s[i].room != s[j].room
    {
      if j == |d| {
        assert s[i] == d[i] && d[i] in d;
      }
    }
  }

  /** Deleting rows keeps the table at one row per room. */
  lemma {:induction false} DeleteKeepsUnique(rows: seq<Row>, room: string)
    requires UniqueRooms(rows)
    ensures UniqueRooms(Delete(rows, room))
  {
    if rows != [] {
      var rest := rows[1..];
      assert UniqueRooms(rest) by {
        forall i, j | 0 <= i < j < |rest| ensures rest[i].room != rest[j].room {
          assert rest[i] == rows[i + 1] && rest[j] == rows[j + 1];
        }
      }
      DeleteKeepsUnique(rest, room);
      var d := Delete(rest, room);
      if rows[0].room != room {
        forall k | 0 <= k < |d| ensures d[k].room != rows[0].room {
          assert d[k] in rest;
          var m :| 0 <= m < |rest| && rest[m] == d[k];
          assert rows[m + 1] == d[k];
        }
      }
    }
  }

  /** Immediately after a set, the lookup of that room returns the values just set. */
  lemma GetAfterStore(rows: seq<Row>, room: string, format: string, url: string, apiToken: string)
    ensures GetEndpoint(Store(rows, room, format, url, apiToken), room) == Some(Endpoint(format, url, apiToken))
  {
    var s := Store(rows, room, format, url, apiToken);
    var d := Delete(rows, room);
    forall j | 0 <= j < |d|
      ensures s[j].room != room
    {
      assert s[j] == d[j] && d[j] in d;
    }
    GetEndpointFirst(s, room, |d|);
  }

  /** A set of one room does not change what the lookup of any other room returns. */
  lemma GetAfterStoreOther(rows: seq<Row>, room: string, format: string, url: string, apiToken: string, other: string)
    requires other != room
    ensures GetEndpoint(Store(rows, room, format, url, apiToken), other) == GetEndpoint(rows, other)
  {
    StoreKeepsOthers(rows, room, format, url, apiToken, other);
    GetViaSelect(rows, other);
    GetViaSelect(Store(rows, room, format, url, apiToken), other);
  }

  /** The lookup depends only on the room's own rows: it is the first of them. */
  lemma {:induction false} GetViaSelect(rows: seq<Row>, room: string)
    ensures GetEndpoint(rows, room) == if Select(rows, room) == [] then None else Some(EndpointOf(Select(rows, room)[0]))
  {
    if rows != [] {
      GetViaSelect(rows[1..], room);
    }
  }

  /** The database handle the plugin is given: whether the table has been
      created yet, and its rows. */
  class Database {
    var tableExists: bool
    var rows: seq<Row>

    ghost predicate Valid()
      reads this
    {
      (!tableExists ==> rows == []) && UniqueRooms(rows)
    }

    constructor ()
      ensures Valid() && !tableExists && rows == []
    {
      tableExists := false;
      rows := [];
    }

    /** `CREATE TABLE IF NOT EXISTS wiw_endpoints ...`: afterwards the table
        exists, and a table that already existed keeps its rows, so running it
        again changes nothing. */
    method CreateTable()
      requires Valid()
      modifies this
      ensures Valid() && tableExists && rows == old(rows)
    {
      tableExists := true;
    }

    /** `set_wiw_endpoint(room, format, url, apiToken)`: delete every row of the
        room, then insert the new one. */
    method SetEndpoint(room: string, format: string, url: string, apiToken: string)
      requires Valid() && tableExists
      modifies this
      ensures Valid() && tableExists
      ensures rows == Store(old(rows), room, format, url, apiToken)
    {
      StoreKeepsUnique(rows, room, format, url, apiToken);
      rows := Delete(rows, room);
      rows := rows + [Row(room, format, url, apiToken)];
    }
  }
}
