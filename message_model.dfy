/**
 * src/models/message.model.js: the Message record, its direction and status enums, and the
 * message collection as a sequence of documents unique on `(sessionId, whatsappMessageId)`,
 * with the filters, counts, sorts and limits the controllers run on it.
 */
module MessageModel {
  import opened Wrappers
  import opened JsStrings
  import opened Engine

  datatype Direction = Incoming | Outgoing

  function DirectionName(d: Direction): string {
    match d
    case Incoming => "incoming"
    case Outgoing => "outgoing"
  }

  /** The direction enum: a string is a direction exactly when it names one. */
  function DirectionOfName(n: string): (r: Option<Direction>)
    ensures r.Some? <==> n == "incoming" || n == "outgoing"
    ensures r.Some? ==> DirectionName(r.value) == n
  {
    if n == "incoming" then Some(Incoming) else if n == "outgoing" then Some(Outgoing) else None
  }

  datatype MessageStatus = Received | Sent | Failed

  const DEFAULT_MESSAGE_STATUS: MessageStatus := Received

  function MessageStatusName(s: MessageStatus): string {
    match s
    case Received => "received"
    case Sent => "sent"
    case Failed => "failed"
  }

  lemma DirectionNameRoundTrip(d: Direction)
    ensures DirectionOfName(DirectionName(d)) == Some(d)
  {
  }

  lemma MessageStatusNameInjective(a: MessageStatus, b: MessageStatus)
    ensures MessageStatusName(a) == MessageStatusName(b) ==> a == b
  {
  }

  /** The `payload` field: the engine's payload object, or the `{ text }` the API sent. */
  datatype Payload = EnginePayload(content: Option<MessageContent>) | TextPayload(text: string)

  /** A Message document; `createdAt` is the schema timestamp. Dates are milliseconds. */
  datatype Message = Message(
    sessionId: string,
    whatsappMessageId: string,
    direction: Direction,
    status: MessageStatus,
    from: Option<string>,
    to: Option<string>,
    text: string,
    messageType: Option<string>,
    payload: Payload,
    errorMessage: Option<string>,
    messageTimestamp: int,
    createdAt: int)

  /** At most one document per `(sessionId, whatsappMessageId)` (the compound unique index). */
  ghost predicate UniqueKeys(ms: seq<Message>) {
    forall i, j :: 0 <= i < j < |ms| ==>
      ms[i].sessionId != ms[j].sessionId || ms[i].whatsappMessageId != ms[j].whatsappMessageId
  }

  /** Every stored `sessionId` went through the schema's `lowercase` setter. */
  ghost predicate AllLowered(ms: seq<Message>) {
    forall i :: 0 <= i < |ms| ==> Lower(ms[i].sessionId) == ms[i].sessionId
  }

  predicate HasKey(m: Message, sid: string, mid: string) {
    m.sessionId == sid && m.whatsappMessageId == mid
  }

  function IndexOf(ms: seq<Message>, sid: string, mid: string): (r: Option<nat>)
    ensures r.Some? ==> r.value < |ms| && HasKey(ms[r.value], sid, mid)
    ensures r.Some? ==> forall j :: 0 <= j < r.value ==> !HasKey(ms[j], sid, mid)
    ensures r.None? ==> forall j :: 0 <= j < |ms| ==> !HasKey(ms[j], sid, mid)
  {
    if ms == [] then None
    else if HasKey(ms[0], sid, mid) then Some(0)
    else match IndexOf(ms[1..], sid, mid)
      case None => None
      case Some(i) => Some(i + 1)
  }

  /** The document stored under a key, if any. */
  function Get(ms: seq<Message>, sid: string, mid: string): (r: Option<Message>)
    ensures r.Some? ==> r.value in ms && HasKey(r.value, sid, mid)
    ensures r.None? ==> forall j :: 0 <= j < |ms| ==> !HasKey(ms[j], sid, mid)
  {
    match IndexOf(ms, sid, mid)
    case None => None
    case Some(i) => Some(ms[i])
  }

  /** What an upsert leaves in place of an existing document: the new fields, the old `createdAt` and `errorMessage`. */
  function Merge(existing: Message, rec: Message): Message {
    rec.(createdAt := existing.createdAt, errorMessage := existing.errorMessage)
  }

  /**
   * `findOneAndUpdate({ sessionId, whatsappMessageId }, fields, { upsert: true })`: the document
   * under the key takes the new fields, or the record is inserted; nothing else changes.
   */
  function Upsert(ms: seq<Message>, rec: Message): seq<Message>
  {
    match IndexOf(ms, rec.sessionId, rec.whatsappMessageId)
    case Some(i) => ms[i := Merge(ms[i], rec)]
    case None => ms + [rec]
  }

  /**
   * The upsert's contract: the document under the key is the merged or the inserted record,
   * every other key keeps its document, and the keys stay unique.
   */
  lemma UpsertSpec(ms: seq<Message>, rec: Message)
    ensures Get(Upsert(ms, rec), rec.sessionId, rec.whatsappMessageId) ==
      Some(match Get(ms, rec.sessionId, rec.whatsappMessageId)
           case Some(prev) => Merge(prev, rec)
           case None => rec)
    ensures forall sid, mid :: !(sid == rec.sessionId && mid == rec.whatsappMessageId) ==>
      Get(Upsert(ms, rec), sid, mid) == Get(ms, sid, mid)
    ensures UniqueKeys(ms) ==> UniqueKeys(Upsert(ms, rec))
  {
    match IndexOf(ms, rec.sessionId, rec.whatsappMessageId)
    case Some(i) =>
      UpdateAtFacts(ms, i, Merge(ms[i], rec));
    case None =>
      AppendFacts(ms, rec);
  }

  lemma UpsertLowered(ms: seq<Message>, rec: Message)
    requires AllLowered(ms) && Lower(rec.sessionId) == rec.sessionId
    ensures AllLowered(Upsert(ms, rec))
  {
  }

  lemma UpdateAtFacts(ms: seq<Message>, i: nat, x: Message)
    requires i < |ms| && HasKey(x, ms[i].sessionId, ms[i].whatsappMessageId)
    requires IndexOf(ms, x.sessionId, x.whatsappMessageId) == Some(i)
    ensures Get(ms[i := x], x.sessionId, x.whatsappMessageId) == Some(x)
    ensures forall sid, mid :: !(sid == x.sessionId && mid == x.whatsappMessageId) ==> Get(ms[i := x], sid, mid) == Get(ms, sid, mid)
    ensures UniqueKeys(ms) ==> UniqueKeys(ms[i := x])
  {
    forall sid, mid ensures IndexOf(ms[i := x], sid, mid) == IndexOf(ms, sid, mid) {
      IndexOfAfterSet(ms, i, x, sid, mid);
    }
  }

  lemma AppendFacts(ms: seq<Message>, x: Message)
    requires Get(ms, x.sessionId, x.whatsappMessageId).None?
    ensures Get(ms + [x], x.sessionId, x.whatsappMessageId) == Some(x)
    ensures forall sid, mid :: !(sid == x.sessionId && mid == x.whatsappMessageId) ==> Get(ms + [x], sid, mid) == Get(ms, sid, mid)
    ensures UniqueKeys(ms) ==> UniqueKeys(ms + [x])
  {
    forall sid, mid ensures IndexOf(ms + [x], sid, mid) ==
      if HasKey(x, sid, mid) && IndexOf(ms, sid, mid).None? then Some(|ms|) else IndexOf(ms, sid, mid)
    {
      IndexOfAfterAppend(ms, x, sid, mid);
    }
  }

  lemma {:induction false} IndexOfAfterSet(ms: seq<Message>, i: nat, x: Message, sid: string, mid: string)
    requires i < |ms| && HasKey(x, ms[i].sessionId, ms[i].whatsappMessageId)
    ensures IndexOf(ms[i := x], sid, mid) == IndexOf(ms, sid, mid)
    decreases |ms|
  {
    if ms != [] && !HasKey(ms[0], sid, mid) && i > 0 {
      assert ms[i := x][1..] == ms[1..][i - 1 := x];
      IndexOfAfterSet(ms[1..], i - 1, x, sid, mid);
    }
  }

  lemma {:induction false} IndexOfAfterAppend(ms: seq<Message>, x: Message, sid: string, mid: string)
    ensures IndexOf(ms + [x], sid, mid) ==
      if HasKey(x, sid, mid) && IndexOf(ms, sid, mid).None? then Some(|ms|) else IndexOf(ms, sid, mid)
    decreases |ms|
  {
    if ms != [] && !HasKey(ms[0], sid, mid) {
      assert (ms + [x])[1..] == ms[1..] + [x];
      IndexOfAfterAppend(ms[1..], x, sid, mid);
    }
  }

  /**
   * `Absorbs(ms, rec)`: the document under `rec`'s key already holds `rec`'s fields, so an
   * upsert of `rec` would find nothing to change.
   */
  predicate Absorbs(ms: seq<Message>, rec: Message) {
    match IndexOf(ms, rec.sessionId, rec.whatsappMessageId)
    case None => false
    case Some(i) => Merge(ms[i], rec) == ms[i]
  }

  /** Upserting a record the collection absorbs is a no-op. */
  lemma AbsorbedUpsertIsNoOp(ms: seq<Message>, rec: Message)
    requires Absorbs(ms, rec)
    ensures Upsert(ms, rec) == ms
  {
    var i := IndexOf(ms, rec.sessionId, rec.whatsappMessageId).value;
    assert ms[i := Merge(ms[i], rec)] == ms;
  }

  /** After an upsert of `rec`, the collection absorbs `rec`. */
  lemma UpsertAbsorbs(ms: seq<Message>, rec: Message)
    ensures Absorbs(Upsert(ms, rec), rec)
  {
    match IndexOf(ms, rec.sessionId, rec.whatsappMessageId)
    case Some(i) =>
      IndexOfAfterSet(ms, i, Merge(ms[i], rec), rec.sessionId, rec.whatsappMessageId);
    case None =>
      IndexOfAfterAppend(ms, rec, rec.sessionId, rec.whatsappMessageId);
  }

  /** The upsert is idempotent: a second upsert of the same record changes nothing. */
  lemma UpsertIdempotent(ms: seq<Message>, rec: Message)
    ensures Upsert(Upsert(ms, rec), rec) == Upsert(ms, rec)
  {
    UpsertAbsorbs(ms, rec);
    AbsorbedUpsertIsNoOp(Upsert(ms, rec), rec);
  }

  /** An upsert under another key does not disturb a record the collection already absorbs. */
  lemma AbsorbsAfterOtherUpsert(ms: seq<Message>, rec: Message, other: Message)
    requires Absorbs(ms, rec)
    requires !HasKey(other, rec.sessionId, rec.whatsappMessageId)
    ensures Absorbs(Upsert(ms, other), rec)
  {
    var i := IndexOf(ms, rec.sessionId, rec.whatsappMessageId).value;
    match IndexOf(ms, other.sessionId, other.whatsappMessageId)
    case Some(l) =>
      IndexOfAfterSet(ms, l, Merge(ms[l], other), rec.sessionId, rec.whatsappMessageId);
    case None =>
      IndexOfAfterAppend(ms, other, rec.sessionId, rec.whatsappMessageId);
  }

  /** A collection that absorbs `rec` holds it under its key, up to `createdAt` and `errorMessage`. */
  lemma AbsorbsMeansStored(ms: seq<Message>, rec: Message)
    requires Absorbs(ms, rec)
    ensures Get(ms, rec.sessionId, rec.whatsappMessageId).Some?
    ensures Merge(Get(ms, rec.sessionId, rec.whatsappMessageId).value, rec) == Get(ms, rec.sessionId, rec.whatsappMessageId).value
  {
  }

  /** Why `MessageModel.create` rejects a document, if it does. */
  predicate CanCreate(ms: seq<Message>, rec: Message) {
    rec.sessionId != "" && rec.whatsappMessageId != "" && Get(ms, rec.sessionId, rec.whatsappMessageId).None?
  }

  /**
   * `MessageModel.create(rec)`: validation refuses an empty required field, the unique index a
   * taken key; either refusal leaves the collection as it was.
   */
  function Create(ms: seq<Message>, rec: Message): (r: seq<Message>)
    ensures CanCreate(ms, rec) ==> r == ms + [rec]
    ensures !CanCreate(ms, rec) ==> r == ms
    ensures UniqueKeys(ms) ==> UniqueKeys(r)
  {
    if CanCreate(ms, rec) then AppendFacts(ms, rec); ms + [rec] else ms
  }

  /** `MessageModel.deleteMany({ sessionId: sid })` */
  function DeleteBySession(ms: seq<Message>, sid: string): (r: seq<Message>)
    ensures forall i :: 0 <= i < |r| ==> r[i].sessionId != sid
    ensures multiset(r) <= multiset(ms)
    ensures forall m :: m in ms && m.sessionId != sid ==> m in r
  {
    if ms == [] then []
    else
      assert ms == [ms[0]] + ms[1..];
      if ms[0].sessionId == sid then DeleteBySession(ms[1..], sid)
      else [ms[0]] + DeleteBySession(ms[1..], sid)
  }

  lemma {:induction false} DeleteBySessionKeeps(ms: seq<Message>, sid: string)
    ensures DeleteBySession(ms, sid) == Select(ms, ALL.(sessionOther := Some(sid)))
    decreases |ms|
  {
    if ms != [] {
      DeleteBySessionKeeps(ms[1..], sid);
    }
  }

  lemma DeleteBySessionProps(ms: seq<Message>, sid: string)
    requires UniqueKeys(ms) && AllLowered(ms)
    ensures UniqueKeys(DeleteBySession(ms, sid)) && AllLowered(DeleteBySession(ms, sid))
  {
    DeleteBySessionKeeps(ms, sid);
    SelectSubsequence(ms, ALL.(sessionOther := Some(sid)));
  }

  /**
   * A MongoDB filter over the collection; `None` leaves a field unconstrained. `sessionOther`
   * is the complement filter `deleteMany` leaves behind.
   */
  datatype Query = Query(
    sessionId: Option<string>,
    sessionOther: Option<string>,
    direction: Option<Direction>,
    status: Option<MessageStatus>,
    createdFrom: Option<int>,
    timestampBefore: Option<int>)

  const ALL := Query(None, None, None, None, None, None)

  /** Does a document pass the filter? The `sessionId` value is cast through the `lowercase` setter. */
  predicate Matches(q: Query, m: Message) {
    && (q.sessionId.None? || m.sessionId == Lower(q.sessionId.value))
    && (q.sessionOther.None? || m.sessionId != q.sessionOther.value)
    && (q.direction.None? || m.direction == q.direction.value)
    && (q.status.None? || m.status == q.status.value)
    && (q.createdFrom.None? || m.createdAt >= q.createdFrom.value)
    && (q.timestampBefore.None? || m.messageTimestamp < q.timestampBefore.value)
  }

  /** `find(q)`: the matching documents in collection order. */
  function Select(ms: seq<Message>, q: Query): (r: seq<Message>)
    ensures |r| <= |ms|
    ensures forall i :: 0 <= i < |r| ==> Matches(q, r[i])
    ensures forall m :: m in r <==> m in ms && Matches(q, m)
  {
    if ms == [] then []
    else (if Matches(q, ms[0]) then [ms[0]] else []) + Select(ms[1..], q)
  }

  /** `Select` keeps documents in order, so whatever held of distinct documents still does. */
  lemma {:induction false} SelectSubsequence(ms: seq<Message>, q: Query)
    ensures UniqueKeys(ms) ==> UniqueKeys(Select(ms, q))
    ensures AllLowered(ms) ==> AllLowered(Select(ms, q))
    decreases |ms|
  {
    if ms != [] {
      SelectSubsequence(ms[1..], q);
      var tail := Select(ms[1..], q);
      if UniqueKeys(ms) && Matches(q, ms[0]) {
        forall j | 0 <= j < |tail| ensures !HasKey(tail[j], ms[0].sessionId, ms[0].whatsappMessageId) {
          assert tail[j] in ms[1..];
          var k :| 0 <= k < |ms[1..]| && ms[1..][k] == tail[j];
          assert ms[k + 1] == tail[j];
        }
      }
    }
  }

  /** `countDocuments(q)` */
  function Count(ms: seq<Message>, q: Query): nat {
    |Select(ms, q)|
  }

  /** `q1` is at least as strict as `q2`: every document it admits, `q2` admits. */
  ghost predicate Narrower(q1: Query, q2: Query) {
    forall m :: Matches(q1, m) ==> Matches(q2, m)
  }

  /** A count over a narrower filter is never larger. */
  lemma {:induction false} CountNarrower(ms: seq<Message>, q1: Query, q2: Query)
    requires Narrower(q1, q2)
    ensures Count(ms, q1) <= Count(ms, q2)
    decreases |ms|
  {
    if ms != [] {
      CountNarrower(ms[1..], q1, q2);
    }
  }

  /** Every document has one of the two directions, so the two direction counts add up to the whole. */
  lemma {:induction false} CountDirections(ms: seq<Message>, q: Query)
    requires q.direction.None?
    ensures Count(ms, q.(direction := Some(Incoming))) + Count(ms, q.(direction := Some(Outgoing))) == Count(ms, q)
    decreases |ms|
  {
    if ms != [] {
      CountDirections(ms[1..], q);
    }
  }

  /** Documents newest first by `key`. */
  ghost predicate SortedDesc(s: seq<Message>, key: Message -> int) {
    forall i, j :: 0 <= i < j < |s| ==> key(s[i]) >= key(s[j])
  }

  lemma ConsSorted(a: Message, t: seq<Message>, key: Message -> int)
    requires SortedDesc(t, key) && (t != [] ==> key(a) >= key(t[0]))
    ensures SortedDesc([a] + t, key)
  {
    forall i, j | 0 <= i < j < |[a] + t| ensures key(([a] + t)[i]) >= key(([a] + t)[j]) {
      if i == 0 && j > 1 {
        assert key(t[0]) >= key(t[j - 1]);
      }
    }
  }

  /** `x` placed before the first document it is at least as new as. */
  function InsertDesc(x: Message, s: seq<Message>, key: Message -> int): (r: seq<Message>)
    ensures |r| == |s| + 1
  {
    if s == [] || key(x) >= key(s[0]) then [x] + s
    else [s[0]] + InsertDesc(x, s[1..], key)
  }

  /** Inserting into a newest-first sequence keeps it newest first and adds exactly `x`. */
  lemma {:induction false} InsertDescSpec(x: Message, s: seq<Message>, key: Message -> int)
    requires SortedDesc(s, key)
    ensures SortedDesc(InsertDesc(x, s, key), key)
    ensures multiset(InsertDesc(x, s, key)) == multiset(s) + multiset{x}
    ensures InsertDesc(x, s, key)[0] == x || (s != [] && InsertDesc(x, s, key)[0] == s[0])
    decreases |s|
  {
    if s == [] || key(x) >= key(s[0]) {
      ConsSorted(x, s, key);
    } else {
      var t := InsertDesc(x, s[1..], key);
      assert s == [s[0]] + s[1..];
      InsertDescSpec(x, s[1..], key);
      assert key(t[0]) <= key(s[0]);
      ConsSorted(s[0], t, key);
    }
  }

  /** `.sort({ key: -1 })`: the same documents, newest first. */
  function SortDesc(s: seq<Message>, key: Message -> int): (r: seq<Message>)
    ensures SortedDesc(r, key)
    ensures multiset(r) == multiset(s)
  {
    if s == [] then [] else
      assert s == [s[0]] + s[1..];
      InsertDescSpec(s[0], SortDesc(s[1..], key), key);
      InsertDesc(s[0], SortDesc(s[1..], key), key)
  }

  /** `.limit(n)` */
  function Take(s: seq<Message>, n: nat): (r: seq<Message>)
    ensures |r| == if n < |s| then n else |s|
    ensures r == s[..|r|]
  {
    if n < |s| then s[..n] else s
  }

  /**
   * The first `n` documents of a newest-first order are the newest: every document kept is at
   * least as new as every document left out.
   */
  lemma TopOfSorted(s: seq<Message>, key: Message -> int, n: nat)
    requires SortedDesc(s, key)
    ensures SortedDesc(Take(s, n), key)
    ensures forall m, k :: m in s && m !in Take(s, n) && 0 <= k < |Take(s, n)| ==> key(m) <= key(Take(s, n)[k])
  {
    var t := Take(s, n);
    forall m, k | m in s && m !in t && 0 <= k < |t| ensures key(m) <= key(t[k]) {
      var i :| 0 <= i < |s| && s[i] == m;
      assert t[k] == s[k];
    }
  }

  /** `.find(q).sort({ key: -1 }).limit(n)`: the newest `n` documents passing `q`. */
  function Newest(ms: seq<Message>, q: Query, key: Message -> int, n: nat): seq<Message> {
    Take(SortDesc(Select(ms, q), key), n)
  }

  /** A prefix holds no document more often than the whole sequence does. */
  lemma PrefixMultiset(s: seq<Message>, k: nat)
    requires k <= |s|
    ensures multiset(s[..k]) <= multiset(s)
  {
    assert s == s[..k] + s[k..];
  }

  /**
   * Exactly `min(n, Count(ms, q))` documents, newest first, each a distinct stored document passing
   * `q`, and none left out is newer than one kept.
   */
  lemma NewestSpec(ms: seq<Message>, q: Query, key: Message -> int, n: nat)
    ensures |Newest(ms, q, key, n)| == if n < Count(ms, q) then n else Count(ms, q)
    ensures multiset(Newest(ms, q, key, n)) <= multiset(Select(ms, q))
    ensures |Newest(ms, q, key, n)| <= n && SortedDesc(Newest(ms, q, key, n), key)
    ensures forall i :: 0 <= i < |Newest(ms, q, key, n)| ==>
      Newest(ms, q, key, n)[i] in ms && Matches(q, Newest(ms, q, key, n)[i])
    ensures forall m, i :: m in ms && Matches(q, m) && m !in Newest(ms, q, key, n) && 0 <= i < |Newest(ms, q, key, n)| ==>
      key(m) <= key(Newest(ms, q, key, n)[i])
  {
    var matching := Select(ms, q);
    var sorted := SortDesc(matching, key);
    var r := Take(sorted, n);
    TopOfSorted(sorted, key, n);
    assert |sorted| == |matching| by {
      assert |multiset(sorted)| == |multiset(matching)|;
    }
    PrefixMultiset(sorted, |r|);
    forall i | 0 <= i < |r| ensures r[i] in matching {
      assert r[i] in multiset(sorted);
    }
    forall m | m in ms && Matches(q, m) ensures m in sorted {
      assert m in multiset(matching);
    }
  }

  function MessageTimestamp(m: Message): int { m.messageTimestamp }

  function CreatedAt(m: Message): int { m.createdAt }
}
