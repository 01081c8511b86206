/**
 * Session-scoped working memory (memory/working_memory.py): each message
 * is a working record whose content is the JSON text of
 * `{"role": ..., "content": ...}`; after every append the session is pruned
 * back to its newest `max_items` records.
 */
module WorkingMemory {
  import opened Common
  import opened JsonValue
  import opened MemoryTable

  const DefaultMaxWorkingItems: nat := 30

  /** `prune_working` lists at most this many records before deciding what to delete. */
  const PruneListLimit: nat := 9999

  // ---------------------------------------------------------------------------
  // Messages

  function MessageObject(role: string, content: string): Value
  {
    Dict([("role", Str(role)), ("content", Str(content))])
  }

  /** `_message_content`: the JSON text of the message object. */
  function MessageContent(codec: Codec, role: string, content: string): string
  {
    codec.encode(MessageObject(role, content))
  }

  /**
   * `_parse_message`: the stored role and content of a JSON object, each
   * defaulted (role "user", content the raw text); anything that is not a
   * JSON object falls back to ("user", raw text).
   */
  function ParseMessage(codec: Codec, content: string): (m: (Value, Value))
    ensures !(codec.decode(content).Some? && codec.decode(content).value.Dict?) ==> m == (Str("user"), Str(content))
    ensures (codec.decode(content).Some? && codec.decode(content).value.Dict?
             && Lookup(codec.decode(content).value.entries, "role").None?) ==> m.0 == Str("user")
  {
    match codec.decode(content)
      case Some(Dict(entries)) => (GetOr(entries, "role", Str("user")), GetOr(entries, "content", Str(content)))
      case _ => (Str("user"), Str(content))
  }

  /** A stored message parses back to the role and content it was stored with. */
  lemma {:induction false} ParseMessageContent(codec: Codec, role: string, content: string)
    requires RoundTripsOn(codec, MessageObject(role, content))
    ensures ParseMessage(codec, MessageContent(codec, role, content)) == (Str(role), Str(content))
  {
    var v := MessageObject(role, content);
    assert codec.decode(codec.encode(v)) == Some(v);
    var entries := v.entries;
    assert entries[1..] == [("content", Str(content))];
    assert Lookup(entries, "content") == Lookup(entries[1..], "content");
  }

  // ---------------------------------------------------------------------------
  // Reading

  /** The session's working records, oldest first. */
  function SessionWorking(rows: seq<Record>, session: string): seq<Record>
  {
    Filter(rows, Matching(Some(Working), Some(session)))
  }

  /**
   * `get_working`: the newest `limit` working messages of the session,
   * parsed, oldest first.
   */
  function GetWorking(rows: seq<Record>, codec: Codec, session: string, limit: nat): (out: seq<(Value, Value)>)
    ensures |out| <= limit
  {
    var records := Newest(rows, Some(Working), Some(session), limit, 0);
    var chrono := Reversed(records);
    seq(|chrono|, i requires 0 <= i < |chrono| => ParseMessage(codec, chrono[i].content))
  }

  /**
   * `get_working` returns the last `min(limit, n)` of the session's `n`
   * working messages, in the order they were stored.
   */
  lemma {:induction false} GetWorkingIsNewestWindow(rows: seq<Record>, codec: Codec, session: string, limit: nat)
    ensures var m := SessionWorking(rows, session);
            var out := GetWorking(rows, codec, session, limit);
            && |out| == (if |m| < limit then |m| else limit)
            && forall i :: 0 <= i < |out| ==> out[i] == ParseMessage(codec, m[|m| - |out| + i].content)
  {
    var m := SessionWorking(rows, session);
    var out := GetWorking(rows, codec, session, limit);
    var chrono := Reversed(Newest(rows, Some(Working), Some(session), limit, 0));
    assert |chrono| == (if |m| < limit then |m| else limit) && chrono == m[|m| - |chrono|..] by {
      assert Newest(rows, Some(Working), Some(session), limit, 0) == Take(Reversed(m), limit) by {
        assert Drop(Reversed(m), 0) == Reversed(m);
      }
      NewestInStoredOrder(m, limit);
    }
    assert |out| == |chrono|;
    forall i | 0 <= i < |out|
      ensures out[i] == ParseMessage(codec, m[|m| - |out| + i].content)
    {
      assert out[i] == ParseMessage(codec, chrono[i].content);
    }
  }

  /** The newest `k` records, put back in stored order, are the last `k`. */
  lemma {:induction false} NewestInStoredOrder(m: seq<Record>, limit: nat)
    ensures var t := Take(Reversed(m), limit);
            && |t| == (if |m| < limit then |m| else limit)
            && Reversed(t) == m[|m| - |t|..]
  {
    var t := Take(Reversed(m), limit);
    forall i | 0 <= i < |t|
      ensures Reversed(t)[i] == m[|m| - |t|..][i]
    {
      assert t[|t| - 1 - i] == Reversed(m)[|t| - 1 - i];
    }
  }

  /** `str()` of a stored role or content: a string is itself, anything else goes through `show`. */
  function Render(v: Value, show: Value -> string): string
  {
    if v.Str? then v.s else show(v)
  }

  function ContextLine(m: (Value, Value), show: Value -> string): string
  {
    Render(m.0, show) + ": " + Render(m.1, show)
  }

  /** One "role: content" line per message, joined by newlines. */
  function ContextOf(messages: seq<(Value, Value)>, show: Value -> string): string
  {
    var parts := seq(|messages|, i requires 0 <= i < |messages| => ContextLine(messages[i], show));
    if parts != [] then Join(parts, "\n") else ""
  }

  /** `get_working_as_context`. */
  function GetWorkingAsContext(rows: seq<Record>, codec: Codec, session: string, limit: nat,
                               show: Value -> string): (text: string)
  {
    ContextOf(GetWorking(rows, codec, session, limit), show)
  }

  /** The context is empty exactly when the limit is 0 or the session holds no working message. */
  lemma {:induction false} WorkingContextEmpty(rows: seq<Record>, codec: Codec, session: string, limit: nat,
                                              show: Value -> string)
    ensures GetWorkingAsContext(rows, codec, session, limit, show) == ""
            <==> limit == 0 || SessionWorking(rows, session) == []
  {
    GetWorkingIsNewestWindow(rows, codec, session, limit);
    ContextEmptyIffNoMessages(GetWorking(rows, codec, session, limit), show);
  }

  /**
   * The context is empty exactly when there is no message, and a single
   * message gives exactly its own line.
   */
  lemma {:induction false} ContextEmptyIffNoMessages(messages: seq<(Value, Value)>, show: Value -> string)
    ensures ContextOf(messages, show) == "" <==> messages == []
    ensures |messages| == 1 ==> ContextOf(messages, show) == ContextLine(messages[0], show)
  {
    var parts := seq(|messages|, i requires 0 <= i < |messages| => ContextLine(messages[i], show));
    if parts != [] {
      assert |parts[0]| >= 2;
      JoinNonEmpty(parts, "\n");
    }
  }

  /** Joining lines that are all non-empty gives a non-empty text. */
  lemma {:induction false} JoinNonEmpty(parts: seq<string>, sep: string)
    requires parts != [] && parts[0] != []
    ensures Join(parts, sep) != []
  {
    if |parts| > 1 {
      assert Join(parts, sep) == parts[0] + sep + Join(parts[1..], sep);
    }
  }

  // ---------------------------------------------------------------------------
  // Pruning

  /** The records `prune_working` deletes: those listed beyond the newest `maxItems`. */
  function PruneTargets(rows: seq<Record>, session: string, maxItems: nat): (targets: seq<Record>)
  {
    var listed := Newest(rows, Some(Working), Some(session), PruneListLimit, 0);
    if |listed| <= maxItems then [] else listed[maxItems..]
  }

  /** The table after pruning. */
  function Pruned(rows: seq<Record>, session: string, maxItems: nat): seq<Record>
  {
    Filter(rows, NotIn(IdsOf(PruneTargets(rows, session, maxItems))))
  }

  lemma {:induction false} NotInEmpty(rows: seq<Record>)
    ensures Filter(rows, NotIn({})) == rows
  {
    if rows != [] {
      var init, last := rows[..|rows| - 1], rows[|rows| - 1];
      assert rows == init + [last];
      NotInEmpty(init);
      FilterStep(rows, NotIn({}), init, last);
    }
  }

  /** The listing with no offset, by index: the newest matches, newest first. */
  lemma {:induction false} NewestIndex(rows: seq<Record>, kind: Option<MemoryType>, session: Option<string>,
                                       limit: nat, m: seq<Record>, out: seq<Record>)
    requires m == Filter(rows, Matching(kind, session))
    requires out == Newest(rows, kind, session, limit, 0)
    ensures |out| == (if |m| < limit then |m| else limit)
    ensures forall i :: 0 <= i < |out| ==> out[i] == m[|m| - 1 - i]
  {
    assert out == Take(Reversed(m), limit) by {
      assert Drop(Reversed(m), 0) == Reversed(m);
    }
    forall i | 0 <= i < |out|
      ensures out[i] == m[|m| - 1 - i]
    {
      ReversedIndex(m, i);
    }
  }

  /** How many records `prune_working` deletes when the session has `n` working records. */
  function PruneCountOf(n: nat, maxItems: nat): nat
  {
    var listed := if n < PruneListLimit then n else PruneListLimit;
    if listed <= maxItems then 0 else listed - maxItems
  }

  /** The prune targets, by index: the session's records just older than the newest `maxItems`. */
  lemma {:induction false} PruneTargetsIndex(rows: seq<Record>, session: string, maxItems: nat,
                                             m: seq<Record>, targets: seq<Record>)
    requires m == SessionWorking(rows, session)
    requires targets == PruneTargets(rows, session, maxItems)
    ensures |targets| == PruneCountOf(|m|, maxItems)
    ensures forall i :: 0 <= i < |targets| ==> targets[i] == m[|m| - 1 - maxItems - i]
  {
    var listed := Newest(rows, Some(Working), Some(session), PruneListLimit, 0);
    NewestIndex(rows, Some(Working), Some(session), PruneListLimit, m, listed);
    if |listed| > maxItems {
      assert targets == listed[maxItems..];
      forall i | 0 <= i < |targets|
        ensures targets[i] == m[|m| - 1 - maxItems - i]
      {
        assert targets[i] == listed[i + maxItems];
      }
    } else {
      assert targets == [];
    }
  }

  /** The prune targets are distinct working records of the session. */
  lemma {:induction false} PruneTargetsSpec(rows: seq<Record>, session: string, maxItems: nat, clock: nat)
    requires WellFormed(rows, clock)
    ensures DistinctIds(PruneTargets(rows, session, maxItems))
    ensures forall r :: r in PruneTargets(rows, session, maxItems) ==> r in SessionWorking(rows, session)
  {
    var m := SessionWorking(rows, session);
    var targets := PruneTargets(rows, session, maxItems);
    PruneTargetsIndex(rows, session, maxItems, m, targets);
    FilterWellFormed(rows, Matching(Some(Working), Some(session)), clock);
    forall r | r in targets
      ensures r in m
    {
      var i :| 0 <= i < |targets| && targets[i] == r;
    }
  }

  /** Two different records of a table with distinct ids have different ids. */
  lemma {:induction false} DifferentRecordsDifferentIds(rows: seq<Record>, x: Record, y: Record)
    requires DistinctIds(rows) && x in rows && y in rows && x != y
    ensures x.id != y.id
  {
    var i :| 0 <= i < |rows| && rows[i] == x;
    var j :| 0 <= j < |rows| && rows[j] == y;
  }

  /** One deletion of the prune loop: the next id is still in the table, and removing it extends the removed set. */
  lemma {:induction false} PruneStep(rows0: seq<Record>, toDelete: seq<Record>, i: nat)
    requires DistinctIds(toDelete) && i < |toDelete|
    requires forall r :: r in toDelete ==> r in rows0
    ensures IdsOf(toDelete[..i + 1]) == IdsOf(toDelete[..i]) + {toDelete[i].id}
    ensures toDelete[i].id in IdsOf(Filter(rows0, NotIn(IdsOf(toDelete[..i]))))
    ensures Filter(Filter(rows0, NotIn(IdsOf(toDelete[..i]))), NotIn({toDelete[i].id})) ==
            Filter(rows0, NotIn(IdsOf(toDelete[..i + 1])))
  {
    var id := toDelete[i].id;
    assert toDelete[..i + 1][..i] == toDelete[..i];
    assert toDelete[..i + 1][i] == toDelete[i];
    NotInIds(rows0, IdsOf(toDelete[..i]));
    assert toDelete[i] in rows0;
    var j :| 0 <= j < |rows0| && rows0[j] == toDelete[i];
    assert id in IdsOf(rows0) by {
      IdsOfMembers(rows0);
    }
    assert id !in IdsOf(toDelete[..i]) by {
      IdsOfMembers(toDelete[..i]);
    }
    NotInUnion(rows0, IdsOf(toDelete[..i]), id);
  }

  /**
   * `prune_working`: deletes, one by one, the session's working records
   * listed beyond the newest `maxItems`, and counts them.
   */
  method PruneWorking(store: MemoryStore, session: string, maxItems: nat) returns (deleted: nat)
    requires store.Valid()
    modifies store
    ensures store.Valid() && store.clock == old(store.clock)
    ensures store.rows == Pruned(old(store.rows), session, maxItems)
    ensures deleted == |PruneTargets(old(store.rows), session, maxItems)|
  {
    var records := store.List(Some(Working), Some(session), PruneListLimit, 0);
    ghost var rows0 := store.rows;
    if |records| <= maxItems {
      assert store.rows == Pruned(rows0, session, maxItems) by {
        assert IdsOf(PruneTargets(rows0, session, maxItems)) == {};
        NotInEmpty(rows0);
      }
      return 0;
    }
    var toDelete := records[maxItems..];
    assert toDelete == PruneTargets(rows0, session, maxItems);
    assert DistinctIds(toDelete) && forall r :: r in toDelete ==> r in rows0 by {
      PruneTargetsSpec(rows0, session, maxItems, store.clock);
      FilterMembers(rows0, Matching(Some(Working), Some(session)));
    }
    deleted := DeleteEach(store, toDelete);
  }

  /** Deletes the given records one by one; every one is found, so each deletion counts. */
  method DeleteEach(store: MemoryStore, toDelete: seq<Record>) returns (deleted: nat)
    requires store.Valid()
    requires DistinctIds(toDelete) && forall r :: r in toDelete ==> r in store.rows
    modifies store
    ensures store.Valid() && store.clock == old(store.clock)
    ensures store.rows == Filter(old(store.rows), NotIn(IdsOf(toDelete)))
    ensures deleted == |toDelete|
  {
    ghost var rows0 := store.rows;
    assert store.rows == Filter(rows0, NotIn(IdsOf(toDelete[..0]))) by {
      NotInEmpty(rows0);
    }
    deleted := 0;
    for i := 0 to |toDelete|
      invariant store.Valid() && store.clock == old(store.clock)
      invariant store.rows == Filter(rows0, NotIn(IdsOf(toDelete[..i])))
      invariant deleted == i
    {
      PruneStep(rows0, toDelete, i);
      var ok := store.Delete(toDelete[i].id);
      if ok {
        deleted := deleted + 1;
      }
    }
    assert toDelete[..|toDelete|] == toDelete;
  }

  /** Pruning never touches another session's records or records of another type. */
  lemma {:induction false} PruneSparesOthers(rows: seq<Record>, session: string, maxItems: nat, clock: nat)
    requires WellFormed(rows, clock)
    ensures forall r :: r in rows && !(r.kind == Working && r.sessionId == Some(session)) ==>
              r in Pruned(rows, session, maxItems)
  {
    var targets := PruneTargets(rows, session, maxItems);
    PruneTargetsSpec(rows, session, maxItems, clock);
    FilterMembers(rows, Matching(Some(Working), Some(session)));
    FilterMembers(rows, NotIn(IdsOf(targets)));
    IdsOfMembers(targets);
    forall r | r in rows && !(r.kind == Working && r.sessionId == Some(session))
      ensures r.id !in IdsOf(targets)
    {
      forall k | 0 <= k < |targets|
        ensures targets[k].id != r.id
      {
        assert targets[k] in SessionWorking(rows, session);
        assert targets[k] != r;
        DifferentRecordsDifferentIds(rows, r, targets[k]);
      }
    }
  }

  /** How many of the session's working records survive pruning. */
  lemma {:induction false} PruneCount(rows: seq<Record>, session: string, maxItems: nat, clock: nat)
    requires WellFormed(rows, clock)
    ensures |PruneTargets(rows, session, maxItems)| == PruneCountOf(|SessionWorking(rows, session)|, maxItems)
    ensures |SessionWorking(Pruned(rows, session, maxItems), session)| ==
            |SessionWorking(rows, session)| - PruneCountOf(|SessionWorking(rows, session)|, maxItems)
  {
    var m := SessionWorking(rows, session);
    var targets := PruneTargets(rows, session, maxItems);
    var ids := IdsOf(targets);
    assert |targets| == PruneCountOf(|m|, maxItems) by {
      PruneTargetsIndex(rows, session, maxItems, m, targets);
    }
    assert SessionWorking(Pruned(rows, session, maxItems), session) == Filter(m, NotIn(ids)) by {
      FilterCommute(rows, NotIn(ids), Matching(Some(Working), Some(session)));
    }
    assert DistinctIds(m) by {
      FilterWellFormed(rows, Matching(Some(Working), Some(session)), clock);
    }
    assert ids * IdsOf(m) == ids && |ids| == |targets| by {
      PruneTargetsSpec(rows, session, maxItems, clock);
      IdsOfCount(targets);
      SubIds(targets, m);
    }
    NotInCount(m, ids);
  }

  /**
   * With at most 9999 working records the session keeps exactly its newest
   * `maxItems` (all of them when it has fewer).
   */
  lemma {:induction false} PruneKeepsNewest(rows: seq<Record>, session: string, maxItems: nat, clock: nat)
    requires WellFormed(rows, clock)
    requires |SessionWorking(rows, session)| <= PruneListLimit
    ensures var m := SessionWorking(rows, session);
            SessionWorking(Pruned(rows, session, maxItems), session) ==
              (if |m| <= maxItems then m else m[|m| - maxItems..])
  {
    var m := SessionWorking(rows, session);
    PrunedSession(rows, session, maxItems);
    if |m| <= maxItems {
      PruneNothing(rows, session, maxItems);
      NotInEmpty(m);
    } else {
      assert DistinctIds(m) by {
        FilterWellFormed(rows, Matching(Some(Working), Some(session)), clock);
      }
      PruneOldest(rows, session, maxItems);
    }
  }

  /** What is left of the session's working records after pruning: those whose ids are not targeted. */
  lemma {:induction false} PrunedSession(rows: seq<Record>, session: string, maxItems: nat)
    ensures SessionWorking(Pruned(rows, session, maxItems), session) ==
            Filter(SessionWorking(rows, session), NotIn(IdsOf(PruneTargets(rows, session, maxItems))))
  {
    FilterCommute(rows, NotIn(IdsOf(PruneTargets(rows, session, maxItems))), Matching(Some(Working), Some(session)));
  }

  /** A session with at most `maxItems` working records loses none. */
  lemma {:induction false} PruneNothing(rows: seq<Record>, session: string, maxItems: nat)
    requires |SessionWorking(rows, session)| <= maxItems
    ensures IdsOf(PruneTargets(rows, session, maxItems)) == {}
  {
    PruneTargetsIndex(rows, session, maxItems, SessionWorking(rows, session), PruneTargets(rows, session, maxItems));
  }

  /** A session with more than `maxItems` (and at most 9999) working records loses exactly its oldest ones. */
  lemma {:induction false} PruneOldest(rows: seq<Record>, session: string, maxItems: nat)
    requires DistinctIds(SessionWorking(rows, session))
    requires maxItems < |SessionWorking(rows, session)| <= PruneListLimit
    ensures Filter(SessionWorking(rows, session), NotIn(IdsOf(PruneTargets(rows, session, maxItems)))) ==
            SessionWorking(rows, session)[|SessionWorking(rows, session)| - maxItems..]
  {
    var m := SessionWorking(rows, session);
    var targets := PruneTargets(rows, session, maxItems);
    PruneTargetsIndex(rows, session, maxItems, m, targets);
    PruneCountOfSmall(|m|, maxItems);
    KeepNewestWindow(m, targets, maxItems);
  }

  /** Below the listing limit, every record beyond the newest `maxItems` is deleted. */
  lemma PruneCountOfSmall(n: nat, maxItems: nat)
    requires n <= PruneListLimit
    ensures PruneCountOf(n, maxItems) == if n <= maxItems then 0 else n - maxItems
  {
  }

  /** Removing the records listed, newest first, beyond the newest `maxItems` leaves the newest `maxItems`. */
  lemma {:induction false} KeepNewestWindow(m: seq<Record>, targets: seq<Record>, maxItems: nat)
    requires DistinctIds(m) && maxItems < |m| && |targets| == |m| - maxItems
    requires forall i :: 0 <= i < |targets| ==> targets[i] == m[|m| - 1 - maxItems - i]
    ensures Filter(m, NotIn(IdsOf(targets))) == m[|m| - maxItems..]
  {
    ReversedPrefixIds(m, targets, |m| - maxItems);
    DropPrefixIds(m, |m| - maxItems);
  }

  /** Records drawn from `b` carry ids of `b`. */
  lemma {:induction false} SubIds(a: seq<Record>, b: seq<Record>)
    requires forall r :: r in a ==> r in b
    ensures IdsOf(a) <= IdsOf(b)
  {
    IdsOfMembers(a);
    IdsOfMembers(b);
    forall id | id in IdsOf(a)
      ensures id in IdsOf(b)
    {
      var k :| 0 <= k < |a| && a[k].id == id;
      assert a[k] in b;
      var i :| 0 <= i < |b| && b[i] == a[k];
    }
  }

  /** A sequence listing the first `k` records newest first has the ids of that prefix. */
  lemma {:induction false} ReversedPrefixIds(m: seq<Record>, targets: seq<Record>, k: nat)
    requires k <= |m| && |targets| == k
    requires forall i :: 0 <= i < k ==> targets[i] == m[k - 1 - i]
    ensures IdsOf(targets) == IdsOf(m[..k])
  {
    IdsOfMembers(targets);
    IdsOfMembers(m[..k]);
    forall id | id in IdsOf(targets)
      ensures id in IdsOf(m[..k])
    {
      var j :| 0 <= j < k && targets[j].id == id;
      assert m[..k][k - 1 - j] == targets[j];
    }
    forall id | id in IdsOf(m[..k])
      ensures id in IdsOf(targets)
    {
      var j :| 0 <= j < k && m[..k][j].id == id;
      assert targets[k - 1 - j] == m[j];
    }
  }

  /** Removing the ids of a prefix of a sequence with distinct ids leaves the suffix. */
  lemma {:induction false} DropPrefixIds(xs: seq<Record>, k: nat)
    requires DistinctIds(xs) && k <= |xs|
    ensures Filter(xs, NotIn(IdsOf(xs[..k]))) == xs[k..]
    decreases |xs|
  {
    if xs != [] && k < |xs| {
      var init, last := xs[..|xs| - 1], xs[|xs| - 1];
      assert xs == init + [last];
      assert DistinctIds(init) by {
        assert forall i :: 0 <= i < |init| ==> init[i] == xs[i];
      }
      assert init[..k] == xs[..k];
      DropPrefixIds(init, k);
      FilterStep(xs, NotIn(IdsOf(xs[..k])), init, last);
      assert last.id !in IdsOf(xs[..k]) by {
        IdsOfMembers(xs[..k]);
      }
      assert xs[k..] == init[k..] + [last];
    } else if xs != [] {
      assert xs[..k] == xs;
      NotInAll(xs, IdsOf(xs));
    }
  }

  /** Removing every id of a sequence leaves nothing. */
  lemma {:induction false} NotInAll(xs: seq<Record>, ids: set<string>)
    requires IdsOf(xs) <= ids
    ensures Filter(xs, NotIn(ids)) == []
  {
    if xs != [] {
      var init, last := xs[..|xs| - 1], xs[|xs| - 1];
      assert xs == init + [last];
      FilterStep(xs, NotIn(ids), init, last);
      NotInAll(init, ids);
    }
  }

  // ---------------------------------------------------------------------------
  // Appending

  /** The caller's metadata dict after `add_working`: a non-empty dict gains the role. */
  function CallerMetadataAfter(metadata: Option<Metadata>, role: string): Option<Metadata>
  {
    if metadata.Some? && metadata.value != [] then Some(Put(metadata.value, "role", Str(role))) else metadata
  }

  /**
   * `add_working`: creates one working record for the session holding the
   * JSON message, with the role recorded in its metadata, then prunes.
   * `uuid` is the id `create` draws; a clash fails before anything changes.
   */
  method AddWorking(store: MemoryStore, codec: Codec, session: string, role: string, content: string,
                    metadata: Option<Metadata>, maxItems: nat, uuid: string)
    returns (rec: Result<Record, string>, callerMetadata: Option<Metadata>)
    requires store.Valid()
    modifies store
    ensures store.Valid()
    ensures callerMetadata == CallerMetadataAfter(metadata, role)
    ensures uuid in IdsOf(old(store.rows)) ==> rec.Err? && store.rows == old(store.rows)
    ensures uuid !in IdsOf(old(store.rows)) ==>
              && rec.Ok?
              && rec.value == Record(uuid, Working, Some(session), MessageContent(codec, role, content),
                                     Put(MetadataOrEmpty(metadata), "role", Str(role)), old(store.clock), old(store.clock))
              && store.rows == Pruned(old(store.rows) + [rec.value], session, maxItems)
  {
    var msg := MessageContent(codec, role, content);
    var meta := Put(MetadataOrEmpty(metadata), "role", Str(role));
    callerMetadata := CallerMetadataAfter(metadata, role);
    rec := store.Create(Working, msg, Some(session), Some(meta), None, uuid);
    if rec.Ok? {
      var _ := PruneWorking(store, session, maxItems);
    }
  }

  /**
   * After `add_working` the session holds at most `maxItems` working
   * records, provided it held at most 9998 before.
   */
  lemma {:induction false} AddWorkingBounded(rows: seq<Record>, rec: Record, session: string, maxItems: nat, clock: nat)
    requires WellFormed(rows + [rec], clock)
    requires rec.kind == Working && rec.sessionId == Some(session)
    requires |SessionWorking(rows, session)| < PruneListLimit
    ensures |SessionWorking(Pruned(rows + [rec], session, maxItems), session)| <= maxItems
  {
    FilterStep(rows + [rec], Matching(Some(Working), Some(session)), rows, rec);
    PruneCount(rows + [rec], session, maxItems, clock);
  }

  /**
   * With 9999 working records already stored the pruning listing misses the
   * oldest one, and the session ends with one record more than `maxItems`.
   */
  lemma {:induction false} AddWorkingOverflow(rows: seq<Record>, rec: Record, session: string, maxItems: nat, clock: nat)
    requires WellFormed(rows + [rec], clock)
    requires rec.kind == Working && rec.sessionId == Some(session)
    requires |SessionWorking(rows, session)| == PruneListLimit && maxItems < PruneListLimit
    ensures |SessionWorking(Pruned(rows + [rec], session, maxItems), session)| == maxItems + 1
  {
    FilterStep(rows + [rec], Matching(Some(Working), Some(session)), rows, rec);
    PruneCount(rows + [rec], session, maxItems, clock);
  }
}
