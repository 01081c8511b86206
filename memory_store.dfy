/**
 * The memory table (memory/store.py): one table of records typed working,
 * episodic or semantic, optionally scoped to a session.
 *
 * The SQLite file becomes a sequence of rows in insertion order.  Time is a
 * logical clock that every write advances, so `created_at` strictly
 * increases along the rows and `ORDER BY created_at DESC` is the reverse of
 * insertion order.
 */
module MemoryTable {
  import opened Common
  import opened JsonValue

  datatype MemoryType = Working | Episodic | Semantic

  type Metadata = seq<(string, Value)>

  datatype Record = Record(
    id: string,
    kind: MemoryType,
    sessionId: Option<string>,
    content: string,
    metadata: Metadata,
    createdAt: nat,
    updatedAt: nat)

  /** The message SQLite reports when an insert reuses an id. */
  const DuplicateId: string := "UNIQUE constraint failed: memories.id"

  // ---------------------------------------------------------------------------
  // Well-formed tables

  predicate DistinctIds(rows: seq<Record>)
  {
    forall i, j :: 0 <= i < j < |rows| ==> rows[i].id != rows[j].id
  }

  predicate Chronological(rows: seq<Record>)
  {
    forall i, j :: 0 <= i < j < |rows| ==> rows[i].createdAt < rows[j].createdAt
  }

  predicate Stamped(rows: seq<Record>, clock: nat)
  {
    forall i :: 0 <= i < |rows| ==> rows[i].createdAt <= rows[i].updatedAt < clock
  }

  predicate WellFormed(rows: seq<Record>, clock: nat)
  {
    DistinctIds(rows) && Chronological(rows) && Stamped(rows, clock)
  }

  // ---------------------------------------------------------------------------
  // Row filters (the WHERE clauses)

  /** The three WHERE clauses the store uses. */
  datatype Criterion =
    | Matching(kind: Option<MemoryType>, session: Option<string>)
    | NotIn(ids: set<string>)
    | OutsideSession(owner: string, skind: MemoryType)

  predicate Keeps(c: Criterion, r: Record)
  {
    match c
      case Matching(kind, session) =>
        (kind.None? || r.kind == kind.value) && (session.None? || r.sessionId == session)
      case NotIn(ids) => r.id !in ids
      case OutsideSession(owner, skind) => !(r.sessionId == Some(owner) && r.kind == skind)
  }

  /** The rows a criterion keeps, in table order. */
  function Filter(rows: seq<Record>, c: Criterion): (kept: seq<Record>)
    ensures |kept| <= |rows|
  {
    if rows == [] then []
    else
      var init, last := rows[..|rows| - 1], rows[|rows| - 1];
      Filter(init, c) + (if Keeps(c, last) then [last] else [])
  }

  lemma {:induction false} FilterStep(rows: seq<Record>, c: Criterion, init: seq<Record>, last: Record)
    requires rows == init + [last]
    ensures Filter(rows, c) == Filter(init, c) + (if Keeps(c, last) then [last] else [])
  {
    assert rows[..|rows| - 1] == init;
  }

  /** A filter keeps exactly the rows its criterion accepts. */
  lemma {:induction false} FilterMembers(rows: seq<Record>, c: Criterion)
    ensures forall r :: r in Filter(rows, c) <==> r in rows && Keeps(c, r)
  {
    if rows != [] {
      var init, last := rows[..|rows| - 1], rows[|rows| - 1];
      assert rows == init + [last];
      FilterMembers(init, c);
      FilterStep(rows, c, init, last);
    }
  }

  /** Filtering keeps a table well formed. */
  lemma {:induction false} FilterWellFormed(rows: seq<Record>, c: Criterion, clock: nat)
    requires WellFormed(rows, clock)
    ensures WellFormed(Filter(rows, c), clock)
  {
    if rows != [] {
      var init, last := rows[..|rows| - 1], rows[|rows| - 1];
      assert rows == init + [last];
      FilterWellFormed(init, c, clock);
      FilterStep(rows, c, init, last);
      if Keeps(c, last) {
        assert forall x :: x in Filter(init, c) ==> x.id != last.id && x.createdAt < last.createdAt by {
          FilterMembers(init, c);
          forall x | x in Filter(init, c)
            ensures x.id != last.id && x.createdAt < last.createdAt
          {
            var i :| 0 <= i < |init| && init[i] == x;
            assert rows[i] == x;
          }
        }
        SnocWellFormed(Filter(init, c), last, clock);
      }
    }
  }

  /** A record appended after the records of a well-formed table, newer than all of them and with a fresh id, keeps it well formed. */
  lemma {:induction false} SnocWellFormed(rows: seq<Record>, last: Record, clock: nat)
    requires WellFormed(rows, clock) && last.createdAt <= last.updatedAt < clock
    requires forall x :: x in rows ==> x.id != last.id && x.createdAt < last.createdAt
    ensures WellFormed(rows + [last], clock)
  {
    var after := rows + [last];
    assert forall i :: 0 <= i < |rows| ==> after[i] == rows[i] && after[i] in rows;
  }

  /** Two filters can be applied in either order. */
  lemma {:induction false} FilterCommute(rows: seq<Record>, c1: Criterion, c2: Criterion)
    ensures Filter(Filter(rows, c1), c2) == Filter(Filter(rows, c2), c1)
  {
    if rows != [] {
      var init, last := rows[..|rows| - 1], rows[|rows| - 1];
      assert rows == init + [last];
      FilterCommute(init, c1, c2);
      FilterStep(rows, c1, init, last);
      FilterStep(rows, c2, init, last);
      if Keeps(c1, last) {
        FilterStep(Filter(rows, c1), c2, Filter(init, c1), last);
      } else {
        assert Filter(rows, c1) == Filter(init, c1);
      }
      if Keeps(c2, last) {
        FilterStep(Filter(rows, c2), c1, Filter(init, c2), last);
      } else {
        assert Filter(rows, c2) == Filter(init, c2);
      }
    }
  }

  /** Removing one more id is removing the enlarged set. */
  lemma {:induction false} NotInUnion(rows: seq<Record>, a: set<string>, id: string)
    ensures Filter(Filter(rows, NotIn(a)), NotIn({id})) == Filter(rows, NotIn(a + {id}))
  {
    if rows != [] {
      var init, last := rows[..|rows| - 1], rows[|rows| - 1];
      assert rows == init + [last];
      NotInUnion(init, a, id);
      FilterStep(rows, NotIn(a), init, last);
      FilterStep(rows, NotIn(a + {id}), init, last);
      if last.id !in a {
        FilterStep(Filter(rows, NotIn(a)), NotIn({id}), Filter(init, NotIn(a)), last);
      } else {
        assert Filter(rows, NotIn(a)) == Filter(init, NotIn(a));
      }
    }
  }

  // ---------------------------------------------------------------------------
  // Ids

  /** The ids of a sequence of records. */
  function IdsOf(rows: seq<Record>): (ids: set<string>)
  {
    if rows == [] then {}
    else IdsOf(rows[..|rows| - 1]) + {rows[|rows| - 1].id}
  }

  /** An id is among the ids exactly when some record carries it. */
  lemma {:induction false} IdsOfMembers(rows: seq<Record>)
    ensures forall id :: id in IdsOf(rows) <==> exists i :: 0 <= i < |rows| && rows[i].id == id
  {
    if rows != [] {
      var init := rows[..|rows| - 1];
      IdsOfMembers(init);
      assert forall i :: 0 <= i < |init| ==> init[i] == rows[i];
    }
  }

  /** With distinct ids there are as many ids as records. */
  lemma {:induction false} IdsOfCount(rows: seq<Record>)
    requires DistinctIds(rows)
    ensures |IdsOf(rows)| == |rows|
  {
    if rows != [] {
      var init := rows[..|rows| - 1];
      assert DistinctIds(init) by {
        assert forall i :: 0 <= i < |init| ==> init[i] == rows[i];
      }
      IdsOfCount(init);
      assert rows[|rows| - 1].id !in IdsOf(init) by {
        IdsOfMembers(init);
      }
      assert IdsOf(rows) == IdsOf(init) + {rows[|rows| - 1].id};
    }
  }

  /**
   * Removing a set of ids from a table with distinct ids removes as many
   * rows as the set has ids in the table.
   */
  lemma {:induction false} NotInCount(rows: seq<Record>, ids: set<string>)
    requires DistinctIds(rows)
    ensures |Filter(rows, NotIn(ids))| + |ids * IdsOf(rows)| == |rows|
  {
    if rows != [] {
      var init, last := rows[..|rows| - 1], rows[|rows| - 1];
      assert rows == init + [last];
      assert DistinctIds(init) by {
        assert forall i :: 0 <= i < |init| ==> init[i] == rows[i];
      }
      NotInCount(init, ids);
      assert |Filter(rows, NotIn(ids))| == |Filter(init, NotIn(ids))| + (if last.id in ids then 0 else 1) by {
        FilterStep(rows, NotIn(ids), init, last);
      }
      assert |ids * IdsOf(rows)| == |ids * IdsOf(init)| + (if last.id in ids then 1 else 0) by {
        assert IdsOf(rows) == IdsOf(init) + {last.id};
        assert last.id !in IdsOf(init) by {
          IdsOfMembers(init);
        }
        if last.id in ids {
          assert ids * IdsOf(rows) == ids * IdsOf(init) + {last.id};
        } else {
          assert ids * IdsOf(rows) == ids * IdsOf(init);
        }
      }
    }
  }

  /** The record with a given id, if any. */
  function FindById(rows: seq<Record>, id: string): (r: Option<Record>)
    ensures r.Some? ==> r.value in rows && r.value.id == id
    ensures r.None? <==> id !in IdsOf(rows)
  {
    if rows == [] then None
    else
      IdsOfMembers(rows);
      if rows[0].id == id then Some(rows[0])
      else
        IdsOfMembers(rows[1..]);
        assert forall i :: 0 <= i < |rows| - 1 ==> rows[1..][i] == rows[i + 1];
        FindById(rows[1..], id)
  }

  /** Appending a record with a fresh id stamped with the current time keeps a table well formed, and finds it by its id. */
  lemma {:induction false} AppendWellFormed(rows: seq<Record>, clock: nat, rec: Record)
    requires WellFormed(rows, clock)
    requires rec.id !in IdsOf(rows) && rec.createdAt == clock && rec.updatedAt == clock
    ensures WellFormed(rows + [rec], clock + 1)
    ensures FindById(rows + [rec], rec.id) == Some(rec)
  {
    var after := rows + [rec];
    assert DistinctIds(after) by {
      IdsOfMembers(rows);
      forall i, j | 0 <= i < j < |after|
        ensures after[i].id != after[j].id
      {
        if j == |rows| {
          assert after[i] == rows[i];
        } else {
          assert after[i] == rows[i] && after[j] == rows[j];
        }
      }
    }
    assert Chronological(after) by {
      forall i, j | 0 <= i < j < |after|
        ensures after[i].createdAt < after[j].createdAt
      {
        assert after[i] == rows[i];
      }
    }
    FindByIdFinds(after, |rows|);
  }

  /** In a table with distinct ids, a record of the table is found by its id. */
  lemma {:induction false} FindByIdFinds(rows: seq<Record>, i: nat)
    requires DistinctIds(rows) && i < |rows|
    ensures FindById(rows, rows[i].id) == Some(rows[i])
  {
    if i > 0 {
      assert DistinctIds(rows[1..]) by {
        assert forall j :: 0 <= j < |rows| - 1 ==> rows[1..][j] == rows[j + 1];
      }
      FindByIdFinds(rows[1..], i - 1);
    }
  }

  /** Removing a set of ids leaves exactly the other ids. */
  lemma {:induction false} NotInIds(rows: seq<Record>, ids: set<string>)
    ensures IdsOf(Filter(rows, NotIn(ids))) == IdsOf(rows) - ids
  {
    FilterMembers(rows, NotIn(ids));
    var f := Filter(rows, NotIn(ids));
    IdsOfMembers(rows);
    IdsOfMembers(f);
    forall id | id in IdsOf(rows) - ids
      ensures id in IdsOf(f)
    {
      var i :| 0 <= i < |rows| && rows[i].id == id;
      assert rows[i] in f;
      var j :| 0 <= j < |f| && f[j] == rows[i];
    }
    forall id | id in IdsOf(f)
      ensures id in IdsOf(rows) - ids
    {
      var j :| 0 <= j < |f| && f[j].id == id;
      assert f[j] in rows;
      var i :| 0 <= i < |rows| && rows[i] == f[j];
    }
  }

  // ---------------------------------------------------------------------------
  // Queries

  /** `list`: the matching records, newest first, after `offset`, at most `limit`. */
  function Newest(rows: seq<Record>, kind: Option<MemoryType>, session: Option<string>,
                  limit: nat, offset: nat): (out: seq<Record>)
    ensures |out| <= limit
  {
    Take(Drop(Reversed(Filter(rows, Matching(kind, session))), offset), limit)
  }

  /** `Take(Drop(s, offset), limit)` is the window of `s` starting at `offset`. */
  lemma {:induction false} WindowIndex(s: seq<Record>, offset: nat, limit: nat)
    ensures var out := Take(Drop(s, offset), limit);
            |out| == 0 || offset + |out| <= |s|
    ensures var out := Take(Drop(s, offset), limit);
            forall i :: 0 <= i < |out| ==> out[i] == s[i + offset]
  {
  }

  /** `list` returns only matching records of the table. */
  lemma {:induction false} NewestMembers(rows: seq<Record>, kind: Option<MemoryType>, session: Option<string>,
                                         limit: nat, offset: nat)
    ensures forall r :: r in Newest(rows, kind, session, limit, offset) ==> r in rows && Keeps(Matching(kind, session), r)
  {
    var m := Filter(rows, Matching(kind, session));
    var out := Newest(rows, kind, session, limit, offset);
    assert forall r :: r in out ==> r in m by {
      WindowIndex(Reversed(m), offset, limit);
      forall r | r in out
        ensures r in m
      {
        var i :| 0 <= i < |out| && out[i] == r;
        ReversedIndex(m, i + offset);
      }
    }
    FilterMembers(rows, Matching(kind, session));
  }

  /** `list` returns its records newest first. */
  lemma {:induction false} NewestOrdered(rows: seq<Record>, kind: Option<MemoryType>, session: Option<string>,
                                         limit: nat, offset: nat, clock: nat)
    requires WellFormed(rows, clock)
    ensures var out := Newest(rows, kind, session, limit, offset);
            forall i, j :: 0 <= i < j < |out| ==> out[i].createdAt > out[j].createdAt
  {
    var m := Filter(rows, Matching(kind, session));
    FilterWellFormed(rows, Matching(kind, session), clock);
    WindowIndex(Reversed(m), offset, limit);
  }

  /** With no offset and a limit of at least the number of matches, `list` returns every match. */
  lemma {:induction false} NewestComplete(rows: seq<Record>, kind: Option<MemoryType>, session: Option<string>,
                                          limit: nat)
    requires limit >= |Filter(rows, Matching(kind, session))|
    ensures forall r :: r in rows && Keeps(Matching(kind, session), r) ==> r in Newest(rows, kind, session, limit, 0)
  {
    var m := Filter(rows, Matching(kind, session));
    FilterMembers(rows, Matching(kind, session));
    var rev := Reversed(m);
    assert Newest(rows, kind, session, limit, 0) == rev;
    forall r | r in m
      ensures r in rev
    {
      var i :| 0 <= i < |m| && m[i] == r;
      assert rev[|m| - 1 - i] == r;
    }
  }

  /** Whether a record takes part in `list_sessions` for a type. */
  predicate InSessionList(r: Record, kind: MemoryType)
  {
    r.kind == kind && r.sessionId.Some? && r.sessionId.value != ""
  }

  /**
   * The sessions of `rows` outside `skip`, each with the creation time of
   * its newest record, newest first: the `GROUP BY ... ORDER BY latest DESC`
   * of `list_sessions`.
   */
  function LatestFirst(rows: seq<Record>, kind: MemoryType, skip: set<string>): (out: seq<(string, nat)>)
    ensures forall i :: 0 <= i < |out| ==> out[i].0 !in skip
  {
    if rows == [] then []
    else
      var init, last := rows[..|rows| - 1], rows[|rows| - 1];
      if InSessionList(last, kind) && last.sessionId.value !in skip then
        [(last.sessionId.value, last.createdAt)] + LatestFirst(init, kind, skip + {last.sessionId.value})
      else LatestFirst(init, kind, skip)
  }

  lemma {:induction false} ChronologicalInit(rows: seq<Record>)
    requires Chronological(rows) && rows != []
    ensures Chronological(rows[..|rows| - 1])
    ensures forall r :: r in rows[..|rows| - 1] ==> r.createdAt < rows[|rows| - 1].createdAt
  {
    var init := rows[..|rows| - 1];
    assert forall i :: 0 <= i < |init| ==> init[i] == rows[i];
  }

  /** Distinct sessions, in strictly decreasing order of their times. */
  predicate NewestFirst(out: seq<(string, nat)>)
  {
    forall i, j :: 0 <= i < j < |out| ==> out[i].0 != out[j].0 && out[i].1 > out[j].1
  }

  /** `e` names a session with a record of the type, and the creation time of its newest such record. */
  predicate LatestOfSession(rows: seq<Record>, kind: MemoryType, e: (string, nat))
  {
    && (exists r :: r in rows && InSessionList(r, kind) && r.sessionId.value == e.0 && r.createdAt == e.1)
    && (forall r :: r in rows && InSessionList(r, kind) && r.sessionId.value == e.0 ==> r.createdAt <= e.1)
  }

  /** Every listed session is listed once, in strictly decreasing order of its time. */
  lemma {:induction false} LatestFirstOrdered(rows: seq<Record>, kind: MemoryType, skip: set<string>)
    requires Chronological(rows)
    ensures NewestFirst(LatestFirst(rows, kind, skip))
  {
    if rows != [] {
      var init, last := rows[..|rows| - 1], rows[|rows| - 1];
      ChronologicalInit(rows);
      if InSessionList(last, kind) && last.sessionId.value !in skip {
        var s := last.sessionId.value;
        var rest := LatestFirst(init, kind, skip + {s});
        LatestFirstOrdered(init, kind, skip + {s});
        LatestFirstBelow(init, kind, skip + {s}, last.createdAt);
        var out := [(s, last.createdAt)] + rest;
        assert LatestFirst(rows, kind, skip) == out;
        forall i, j | 0 <= i < j < |out|
          ensures out[i].0 != out[j].0 && out[i].1 > out[j].1
        {
          assert out[j] == rest[j - 1];
          assert rest[j - 1].0 !in skip + {s};
          if i > 0 {
            assert out[i] == rest[i - 1];
          }
        }
      } else {
        LatestFirstOrdered(init, kind, skip);
      }
    }
  }

  /** Each listed time is the creation time of the session's newest record of the type. */
  lemma {:induction false} LatestFirstSound(rows: seq<Record>, kind: MemoryType, skip: set<string>)
    requires Chronological(rows)
    ensures forall e :: e in LatestFirst(rows, kind, skip) ==> LatestOfSession(rows, kind, e)
  {
    if rows != [] {
      var init, last := rows[..|rows| - 1], rows[|rows| - 1];
      assert rows == init + [last];
      ChronologicalInit(rows);
      assert forall r :: r in rows <==> r in init || r == last;
      if InSessionList(last, kind) && last.sessionId.value !in skip {
        var s := last.sessionId.value;
        var rest := LatestFirst(init, kind, skip + {s});
        LatestFirstSound(init, kind, skip + {s});
        var out := [(s, last.createdAt)] + rest;
        assert LatestFirst(rows, kind, skip) == out;
        forall e | e in out
          ensures LatestOfSession(rows, kind, e)
        {
          if e == (s, last.createdAt) {
            assert last in rows && InSessionList(last, kind) && last.sessionId.value == e.0;
          } else {
            assert e in rest;
            assert e.0 != s;
            assert LatestOfSession(init, kind, e);
            var w :| w in init && InSessionList(w, kind) && w.sessionId.value == e.0 && w.createdAt == e.1;
            assert w in rows;
          }
        }
      } else {
        var out := LatestFirst(init, kind, skip);
        LatestFirstSound(init, kind, skip);
        assert LatestFirst(rows, kind, skip) == out;
        forall e | e in out
          ensures LatestOfSession(rows, kind, e)
        {
          assert LatestOfSession(init, kind, e);
          var w :| w in init && InSessionList(w, kind) && w.sessionId.value == e.0 && w.createdAt == e.1;
          assert w in rows;
          assert InSessionList(last, kind) ==> e.0 != last.sessionId.value;
        }
      }
    }
  }

  /** Every session outside `skip` with a record of the type is listed. */
  lemma {:induction false} LatestFirstComplete(rows: seq<Record>, kind: MemoryType, skip: set<string>)
    ensures forall r :: r in rows && InSessionList(r, kind) && r.sessionId.value !in skip ==>
              exists i :: 0 <= i < |LatestFirst(rows, kind, skip)| && LatestFirst(rows, kind, skip)[i].0 == r.sessionId.value
  {
    if rows != [] {
      var init, last := rows[..|rows| - 1], rows[|rows| - 1];
      assert rows == init + [last];
      assert forall r :: r in rows ==> r in init || r == last;
      if InSessionList(last, kind) && last.sessionId.value !in skip {
        var s := last.sessionId.value;
        var rest := LatestFirst(init, kind, skip + {s});
        LatestFirstComplete(init, kind, skip + {s});
        var out := [(s, last.createdAt)] + rest;
        assert LatestFirst(rows, kind, skip) == out;
        forall r | r in rows && InSessionList(r, kind) && r.sessionId.value !in skip
          ensures exists i :: 0 <= i < |out| && out[i].0 == r.sessionId.value
        {
          if r.sessionId.value == s {
            assert out[0].0 == s;
          } else {
            var i :| 0 <= i < |rest| && rest[i].0 == r.sessionId.value;
            assert out[i + 1] == rest[i];
          }
        }
      } else {
        LatestFirstComplete(init, kind, skip);
        assert LatestFirst(rows, kind, skip) == LatestFirst(init, kind, skip);
      }
    }
  }

  /** When every row is older than `t`, so is every listed time. */
  lemma {:induction false} LatestFirstBelow(rows: seq<Record>, kind: MemoryType, skip: set<string>, t: nat)
    requires forall r :: r in rows ==> r.createdAt < t
    ensures forall i :: 0 <= i < |LatestFirst(rows, kind, skip)| ==> LatestFirst(rows, kind, skip)[i].1 < t
  {
    if rows != [] {
      var init, last := rows[..|rows| - 1], rows[|rows| - 1];
      assert forall r :: r in init ==> r in rows;
      if InSessionList(last, kind) && last.sessionId.value !in skip {
        LatestFirstBelow(init, kind, skip + {last.sessionId.value}, t);
      } else {
        LatestFirstBelow(init, kind, skip, t);
      }
    }
  }

  // ---------------------------------------------------------------------------
  // The store

  /** What `update` makes of a record when at least one field is supplied. */
  function Revised(r: Record, content: Option<string>, metadata: Option<Metadata>, now: nat): Record
  {
    r.(content := if content.Some? then content.value else r.content,
       metadata := if metadata.Some? then metadata.value else r.metadata,
       updatedAt := now)
  }

  function ReviseById(rows: seq<Record>, id: string, content: Option<string>, metadata: Option<Metadata>,
                      now: nat): (out: seq<Record>)
    ensures |out| == |rows|
  {
    seq(|rows|, i requires 0 <= i < |rows| => if rows[i].id == id then Revised(rows[i], content, metadata, now) else rows[i])
  }

  /** Revising a record keeps the table well formed once the clock moves past `now`. */
  lemma {:induction false} ReviseWellFormed(rows: seq<Record>, id: string, content: Option<string>,
                                            metadata: Option<Metadata>, now: nat)
    requires WellFormed(rows, now)
    ensures WellFormed(ReviseById(rows, id, content, metadata, now), now + 1)
  {
    var out := ReviseById(rows, id, content, metadata, now);
    assert forall i :: 0 <= i < |rows| ==> out[i].id == rows[i].id && out[i].createdAt == rows[i].createdAt;
  }

  /** After revising, the id finds the revised record. */
  lemma {:induction false} ReviseFinds(rows: seq<Record>, i: nat, content: Option<string>,
                                       metadata: Option<Metadata>, now: nat)
    requires DistinctIds(rows) && i < |rows|
    ensures FindById(ReviseById(rows, rows[i].id, content, metadata, now), rows[i].id) ==
            Some(Revised(rows[i], content, metadata, now))
  {
    var out := ReviseById(rows, rows[i].id, content, metadata, now);
    assert forall j :: 0 <= j < |rows| ==> out[j].id == rows[j].id;
    FindByIdFinds(out, i);
  }

  /** `metadata or {}`. */
  function MetadataOrEmpty(metadata: Option<Metadata>): Metadata
  {
    if metadata.Some? then metadata.value else []
  }

  /** `id_ or str(uuid.uuid4())`: an empty id counts as absent. */
  function RecordId(id: Option<string>, uuid: string): string
  {
    if id.Some? && id.value != "" then id.value else uuid
  }

  class MemoryStore {
    var rows: seq<Record>
    var clock: nat

    ghost predicate Valid()
      reads this
    {
      WellFormed(rows, clock)
    }

    /** A store over an empty table. */
    constructor()
      ensures Valid() && rows == [] && clock == 0
    {
      rows := [];
      clock := 0;
    }

    /** `get`: the record with this id. */
    function Get(id: string): (r: Option<Record>)
      reads this
      ensures r.Some? ==> r.value in rows && r.value.id == id
      ensures r.None? ==> forall i :: 0 <= i < |rows| ==> rows[i].id != id
    {
      IdsOfMembers(rows);
      FindById(rows, id)
    }

    /**
     * `create`: inserts one record stamped with the current time and returns
     * it; `uuid` is the id drawn when none is supplied.  An id already in the
     * table fails the insert and leaves the table as it was.
     */
    method Create(kind: MemoryType, content: string, sessionId: Option<string>, metadata: Option<Metadata>,
                  id: Option<string>, uuid: string) returns (r: Result<Record, string>)
      requires Valid()
      modifies this
      ensures Valid()
      ensures RecordId(id, uuid) in IdsOf(old(rows)) ==>
                r == Err(DuplicateId) && rows == old(rows) && clock == old(clock)
      ensures RecordId(id, uuid) !in IdsOf(old(rows)) ==>
                && r == Ok(Record(RecordId(id, uuid), kind, sessionId, content, MetadataOrEmpty(metadata), old(clock), old(clock)))
                && rows == old(rows) + [r.value]
                && clock == old(clock) + 1
                && Get(RecordId(id, uuid)) == Some(r.value)
    {
      var rid := RecordId(id, uuid);
      if FindById(rows, rid).Some? {
        return Err(DuplicateId);
      }
      var rec := Record(rid, kind, sessionId, content, MetadataOrEmpty(metadata), clock, clock);
      AppendWellFormed(rows, clock, rec);
      rows := rows + [rec];
      clock := clock + 1;
      r := Ok(rec);
    }

    /** `list`. */
    function List(kind: Option<MemoryType>, session: Option<string>, limit: nat, offset: nat): (out: seq<Record>)
      reads this
      ensures |out| <= limit
    {
      Newest(rows, kind, session, limit, offset)
    }

    /**
     * `update`: an unknown id gives `None`; with neither field supplied the
     * record comes back untouched; otherwise the supplied fields and
     * `updated_at` change and nothing else.
     */
    method Update(id: string, content: Option<string>, metadata: Option<Metadata>) returns (r: Option<Record>)
      requires Valid()
      modifies this
      ensures Valid()
      ensures old(Get(id)).None? ==> r.None? && rows == old(rows) && clock == old(clock)
      ensures old(Get(id)).Some? && content.None? && metadata.None? ==>
                r == old(Get(id)) && rows == old(rows) && clock == old(clock)
      ensures old(Get(id)).Some? && (content.Some? || metadata.Some?) ==>
                && rows == ReviseById(old(rows), id, content, metadata, old(clock))
                && clock == old(clock) + 1
                && r == Some(Revised(old(Get(id)).value, content, metadata, old(clock)))
    {
      var rec := Get(id);
      if rec.None? {
        return None;
      }
      if content.None? && metadata.None? {
        return rec;
      }
      var revised := ReviseById(rows, id, content, metadata, clock);
      assert WellFormed(revised, clock + 1) && FindById(revised, id) == Some(Revised(rec.value, content, metadata, clock)) by {
        var i :| 0 <= i < |rows| && rows[i] == rec.value;
        ReviseWellFormed(rows, id, content, metadata, clock);
        ReviseFinds(rows, i, content, metadata, clock);
      }
      rows, clock := revised, clock + 1;
      r := Get(id);
    }

    /** `delete`: true exactly when the id was in the table; removes that record only. */
    method Delete(id: string) returns (deleted: bool)
      requires Valid()
      modifies this
      ensures Valid() && clock == old(clock)
      ensures deleted <==> id in IdsOf(old(rows))
      ensures rows == Filter(old(rows), NotIn({id}))
    {
      deleted := FindById(rows, id).Some?;
      FilterWellFormed(rows, NotIn({id}), clock);
      rows := Filter(rows, NotIn({id}));
    }

    /** `delete_by_session`: removes the session's records of the type and counts them. */
    method DeleteBySession(session: string, kind: MemoryType) returns (n: nat)
      requires Valid()
      modifies this
      ensures Valid() && clock == old(clock)
      ensures rows == Filter(old(rows), OutsideSession(session, kind))
      ensures n == |Filter(old(rows), Matching(Some(kind), Some(session)))|
    {
      var removed := Filter(rows, Matching(Some(kind), Some(session)));
      FilterWellFormed(rows, OutsideSession(session, kind), clock);
      PartitionCount(rows, session, kind);
      rows := Filter(rows, OutsideSession(session, kind));
      n := |removed|;
    }

    /** `list_sessions`. */
    function ListSessions(kind: MemoryType, limit: nat): (out: seq<(string, nat)>)
      reads this
      ensures |out| <= limit
    {
      Take(LatestFirst(rows, kind, {}), limit)
    }
  }

  /** `delete_by_session` removes exactly the rows `list` would select for that session and type. */
  lemma {:induction false} PartitionCount(rows: seq<Record>, session: string, kind: MemoryType)
    ensures |Filter(rows, OutsideSession(session, kind))| + |Filter(rows, Matching(Some(kind), Some(session)))| == |rows|
  {
    if rows != [] {
      var init, last := rows[..|rows| - 1], rows[|rows| - 1];
      assert rows == init + [last];
      PartitionCount(init, session, kind);
      FilterStep(rows, OutsideSession(session, kind), init, last);
      FilterStep(rows, Matching(Some(kind), Some(session)), init, last);
    }
  }
}
