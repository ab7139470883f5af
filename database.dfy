/**
 * The three tables behind `AsyncDatabase` (database.py) and the statements its
 * methods run against them. `tg_user_id` is taken to be the primary key of
 * every table, so an INSERT of an existing id fails; `tel_num` may be NULL and
 * is not unique. `reachable == false` stands for a database that cannot be
 * reached for the whole of one operation: the methods that catch their
 * exceptions then return their default, the others return `Err`, or
 * `false` for `ChangePhone`.
 */
module Database {
  import opened Base

  datatype Role = Client | Admin

  /** A `user_info` row; `role` is NULL for rows created by recording a message. */
  datatype UserRow = UserRow(role: Option<Role>, messageIds: Option<seq<int>>)

  /** The message argument of `set_last_message_by_user_id`: None, one id, or a list. */
  datatype MessageArg = NoMessage | One(id: int) | Many(ids: seq<int>)

  /** The list the method works with: a single id is wrapped into a one-element list. */
  function AsList(m: MessageArg): (r: seq<int>)
    requires !m.NoMessage?
    ensures m.One? ==> r == [m.id]
    ensures m.Many? ==> r == m.ids
  {
    match m
    case One(id) => [id]
    case Many(ids) => ids
  }

  predicate NoDup(s: seq<int>) {
    forall i, j :: 0 <= i < j < |s| ==> s[i] != s[j]
  }

  function Elems(s: seq<int>): set<int> {
    set x | x in s
  }

  lemma ElemsAppend(s: seq<int>, x: int)
    ensures Elems(s + [x]) == Elems(s) + {x}
  {
    assert forall y :: y in s + [x] <==> y in s || y == x;
  }

  /** The stored ids of a row, with NULL read as the empty list. */
  function IdsOf(row: UserRow): seq<int> {
    row.messageIds.GetOr([])
  }

  /**
   * What `get_last_messages_by_user_id` reads from a reachable database: the
   * stored list, or the empty list for an unknown user or a NULL value.
   */
  function StoredIds(users: map<int, UserRow>, u: int): seq<int> {
    if u in users then IdsOf(users[u]) else []
  }

  /** `ARRAY(SELECT unnest(before) UNION SELECT unnest(given))`, in some order. */
  ghost predicate MergedIds(before: seq<int>, given: seq<int>, after: seq<int>) {
    NoDup(after) && Elems(after) == Elems(before) + Elems(given)
  }

  /**
   * The table after `set_last_message_by_user_id(u, given)` on a reachable
   * database: an existing row gets the set union of its ids and `given`, a
   * missing row is inserted holding exactly `given`; no other row changes.
   */
  ghost predicate Recorded(before: map<int, UserRow>, after: map<int, UserRow>, u: int, given: seq<int>) {
    && u in after
    && after == before[u := after[u]]
    && (u in before ==>
          after[u].role == before[u].role && after[u].messageIds.Some?
          && MergedIds(IdsOf(before[u]), given, after[u].messageIds.value))
    && (u !in before ==> after[u] == UserRow(None, Some(given)))
  }

  /** The table after `clear_last_message_ids_by_user_id(u)`. */
  function Cleared(users: map<int, UserRow>, u: int): (r: map<int, UserRow>)
    ensures r.Keys == users.Keys
    ensures u in users ==> r[u].role == users[u].role && r[u].messageIds == Some([])
    ensures forall v :: v in users && v != u ==> r[v] == users[v]
  {
    if u in users then users[u := users[u].(messageIds := Some([]))] else users
  }

  /** The table after `user_registration(u, role)`: the INSERT fails for an existing id. */
  function RegisteredUser(users: map<int, UserRow>, u: int, role: Role): (r: map<int, UserRow>)
    ensures r.Keys == users.Keys + {u}
    ensures u !in users ==> r[u] == UserRow(Some(role), Some([]))
    ensures forall v :: v in users ==> r[v] == users[v]
  {
    if u in users then users else users[u := UserRow(Some(role), Some([]))]
  }

  /** The table after `client_registration(u, phone)`: the INSERT fails for an existing id. */
  function RegisteredClient(clients: map<int, Option<string>>, u: int, phone: Option<string>): (r: map<int, Option<string>>)
    ensures r.Keys == clients.Keys + {u}
    ensures u !in clients ==> r[u] == phone
    ensures forall v :: v in clients ==> r[v] == clients[v]
  {
    if u in clients then clients else clients[u := phone]
  }

  /** The table after `change_phone(u, p)`: only the phone of client `u` changes. */
  function ChangedPhone(clients: map<int, Option<string>>, u: int, p: string): (r: map<int, Option<string>>)
    ensures r.Keys == clients.Keys
    ensures u in clients ==> r[u] == Some(p)
    ensures forall v :: v in clients && v != u ==> r[v] == clients[v]
  {
    if u in clients then clients[u := Some(p)] else clients
  }

  /** The ids of the clients whose phone is `p`, the rows `get_id_from_phone` may return. */
  function PhoneOwners(clients: map<int, Option<string>>, p: string): set<int> {
    set v | v in clients && clients[v] == Some(p)
  }

  /**
   * The UNION query of `set_last_message_by_user_id`: every id of `before` and
   * of `given`, each once. PostgreSQL leaves the order unspecified; this one
   * keeps first occurrences.
   */
  method UnionIds(before: seq<int>, given: seq<int>) returns (after: seq<int>)
    ensures MergedIds(before, given, after)
  {
    var all := before + given;
    after := [];
    for i := 0 to |all|
      invariant NoDup(after)
      invariant Elems(after) == Elems(all[..i])
    {
      assert all[..i + 1] == all[..i] + [all[i]];
      ElemsAppend(all[..i], all[i]);
      if all[i] !in after {
        ElemsAppend(after, all[i]);
        after := after + [all[i]];
      }
    }
    assert all[..|all|] == before + given;
  }

  lemma NonEmptyHasMember(s: set<int>)
    requires s != {}
    ensures exists x :: x in s
  {
    if forall x :: x !in s {
      assert false;
    }
  }

  /** The rows of a single-column table, each once, in the order they come back. */
  method RowsOf(table: set<int>) returns (rows: seq<int>)
    ensures NoDup(rows) && Elems(rows) == table
  {
    var rest := table;
    rows := [];
    while rest != {}
      invariant rest <= table
      invariant NoDup(rows)
      invariant Elems(rows) == table - rest
      decreases rest
    {
      NonEmptyHasMember(rest);
      var a :| a in rest;
      ElemsAppend(rows, a);
      rows := rows + [a];
      rest := rest - {a};
    }
  }

  /** A list without duplicates has as many elements as its set of elements. */
  lemma {:induction false} NoDupSize(s: seq<int>)
    requires NoDup(s)
    ensures |Elems(s)| == |s|
  {
    if s != [] {
      var t := s[..|s| - 1];
      assert s == t + [s[|s| - 1]];
      assert NoDup(t);
      NoDupSize(t);
      assert s[|s| - 1] !in Elems(t);
      assert Elems(s) == Elems(t) + {s[|s| - 1]};
    }
  }

  /**
   * Recording an id that is already stored changes nothing but, possibly, the
   * order: the stored set and its size stay as they were.
   */
  lemma RecordIdempotent(before: seq<int>, given: seq<int>, after: seq<int>)
    requires NoDup(before) && Elems(given) <= Elems(before)
    requires MergedIds(before, given, after)
    ensures Elems(after) == Elems(before) && |after| == |before|
  {
    NoDupSize(before);
    NoDupSize(after);
  }

  /** The union of the sets of elements of a list of lists. */
  function ElemsOfAll(gs: seq<seq<int>>): set<int> {
    if gs == [] then {} else ElemsOfAll(gs[..|gs| - 1]) + Elems(gs[|gs| - 1])
  }

  /** `rs[k]` is the stored list after the k-th of the recordings `gs`, starting from `start`. */
  ghost predicate MergeChain(start: seq<int>, gs: seq<seq<int>>, rs: seq<seq<int>>) {
    && |rs| == |gs|
    && (forall k :: 0 < k < |gs| ==> MergedIds(rs[k - 1], gs[k], rs[k]))
    && (|gs| > 0 ==> MergedIds(start, gs[0], rs[0]))
  }

  /**
   * Any series of recordings for an existing user, repeated ids included,
   * leaves a list without duplicates holding exactly the ids recorded so far,
   * so its length is the number of distinct ids.
   */
  lemma {:induction false} RecordSeries(start: seq<int>, gs: seq<seq<int>>, rs: seq<seq<int>>)
    requires |gs| > 0 && MergeChain(start, gs, rs)
    ensures NoDup(rs[|rs| - 1])
    ensures Elems(rs[|rs| - 1]) == Elems(start) + ElemsOfAll(gs)
    ensures |rs[|rs| - 1]| == |Elems(start) + ElemsOfAll(gs)|
  {
    var n := |gs|;
    if n == 1 {
      assert ElemsOfAll(gs) == ElemsOfAll(gs[..0]) + Elems(gs[0]);
    } else {
      var gs', rs' := gs[..n - 1], rs[..n - 1];
      assert MergeChain(start, gs', rs');
      RecordSeries(start, gs', rs');
      assert MergedIds(rs[n - 2], gs[n - 1], rs[n - 1]);
    }
    NoDupSize(rs[|rs| - 1]);
  }

  /**
   * A series that starts at a user without a row: the first recording inserts
   * its list as given, and the later ones merge into it. When that first list
   * has no duplicates, as a single id (`One`) never does, the stored list
   * ends duplicate-free and holds exactly the ids recorded.
   */
  lemma RecordSeriesFromInsert(gs: seq<seq<int>>, rs: seq<seq<int>>)
    requires |gs| > 0 && |rs| == |gs| && rs[0] == gs[0] && NoDup(gs[0])
    requires forall k :: 0 < k < |gs| ==> MergedIds(rs[k - 1], gs[k], rs[k])
    ensures NoDup(rs[|rs| - 1])
    ensures Elems(rs[|rs| - 1]) == ElemsOfAll(gs)
  {
    assert MergeChain([], gs, rs);
    RecordSeries([], gs, rs);
  }

  /**
   * Draining is exactly-once: after clearing, a read finds no ids, and a
   * second clear changes nothing.
   */
  lemma DrainOnce(users: map<int, UserRow>, u: int)
    ensures StoredIds(Cleared(users, u), u) == []
    ensures Cleared(Cleared(users, u), u) == Cleared(users, u)
  {
  }

  /** The three tables, updated in place by the methods of `AsyncDatabase`. */
  class Store {
    /** `user_info`: id -> (role, last_message_ids). */
    var users: map<int, UserRow>
    /** `client_info`: id -> tel_num. */
    var clients: map<int, Option<string>>
    /** `admin_info`: the ids of the administrators. */
    var admins: set<int>
    /** Whether statements reach the database during the current operation. */
    var reachable: bool

    constructor ()
      ensures users == map[] && clients == map[] && admins == {} && reachable
    {
      users, clients, admins, reachable := map[], map[], {}, true;
    }

    /** `user_exists`: membership in `user_info`, false when the query fails. */
    method UserExists(u: int) returns (b: bool)
      ensures b <==> reachable && u in users
    {
      b := reachable && u in users;
    }

    /** `get_last_messages_by_user_id`: the stored ids, or [] on NULL, no row or failure. */
    method GetLastMessages(u: int) returns (ids: seq<int>)
      ensures reachable ==> ids == StoredIds(users, u)
      ensures !reachable ==> ids == []
    {
      ids := if reachable then StoredIds(users, u) else [];
    }

    /** `set_last_message_by_user_id`. */
    method SetLastMessage(u: int, m: MessageArg)
      modifies this
      ensures clients == old(clients) && admins == old(admins) && reachable == old(reachable)
      ensures m.NoMessage? || !reachable ==> users == old(users)
      ensures !m.NoMessage? && reachable ==> Recorded(old(users), users, u, AsList(m))
    {
      if m.NoMessage? || !reachable {
        return;
      }
      var given := AsList(m);
      if u in users {
        var merged := UnionIds(IdsOf(users[u]), given);
        users := users[u := users[u].(messageIds := Some(merged))];
      } else {
        users := users[u := UserRow(None, Some(given))];
      }
    }

    /** `clear_last_message_ids_by_user_id`: empties the list of an existing user. */
    method ClearLastMessages(u: int)
      modifies this
      ensures clients == old(clients) && admins == old(admins) && reachable == old(reachable)
      ensures users == if reachable then Cleared(old(users), u) else old(users)
    {
      if reachable && u in users {
        users := users[u := users[u].(messageIds := Some([]))];
      }
    }

    /** `user_registration`: a row with the role and an empty list, unless the id exists. */
    method UserRegistration(u: int, role: Role)
      modifies this
      ensures clients == old(clients) && admins == old(admins) && reachable == old(reachable)
      ensures users == if reachable then RegisteredUser(old(users), u, role) else old(users)
    {
      if reachable && u !in users {
        users := users[u := UserRow(Some(role), Some([]))];
      }
    }

    /** `client_registration`: a `client_info` row, unless the id exists. */
    method ClientRegistration(u: int, phone: Option<string>)
      modifies this
      ensures users == old(users) && admins == old(admins) && reachable == old(reachable)
      ensures clients == if reachable then RegisteredClient(old(clients), u, phone) else old(clients)
    {
      if reachable && u !in clients {
        clients := clients[u := phone];
      }
    }

    /** `admin_registration`: adds the id to `admin_info`. */
    method AdminRegistration(u: int)
      modifies this
      ensures users == old(users) && clients == old(clients) && reachable == old(reachable)
      ensures admins == if reachable then old(admins) + {u} else old(admins)
    {
      if reachable {
        admins := admins + {u};
      }
    }

    /**
     * `get_id_from_phone`: the id of some client whose phone is `p`, or None
     * when there is none; the exception of a failed query escapes.
     */
    method GetIdFromPhone(p: string) returns (r: Result<Option<int>>)
      ensures !reachable <==> r.Err?
      ensures r.Ok? && r.value.Some? ==> r.value.value in PhoneOwners(clients, p)
      ensures r.Ok? && r.value.None? ==> PhoneOwners(clients, p) == {}
    {
      if !reachable {
        return Err;
      }
      if exists v :: v in clients && clients[v] == Some(p) {
        var v :| v in clients && clients[v] == Some(p);
        r := Ok(Some(v));
      } else {
        r := Ok(None);
      }
    }

    /** `change_phone`: sets the phone of client `u`; a failed statement raises. */
    method ChangePhone(u: int, p: string) returns (ok: bool)
      modifies this
      ensures users == old(users) && admins == old(admins) && reachable == old(reachable)
      ensures ok == reachable
      ensures clients == if reachable then ChangedPhone(old(clients), u, p) else old(clients)
    {
      ok := reachable;
      if reachable && u in clients {
        clients := clients[u := Some(p)];
      }
    }

    /** `get_all_admin_ids`: every administrator once, in the order the rows come back. */
    method GetAllAdminIds() returns (r: Result<seq<int>>)
      ensures !reachable <==> r.Err?
      ensures r.Ok? ==> NoDup(r.value) && Elems(r.value) == admins
    {
      if !reachable {
        return Err;
      }
      var ids := RowsOf(admins);
      r := Ok(ids);
    }
  }
}
