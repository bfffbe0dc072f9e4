/**
 * src/models/session.model.js: the Session record, its status enum and default, and the
 * session collection as a sequence of documents whose `sessionId` is unique and stored
 * through the schema's `lowercase` and `trim` setters.
 */
module SessionModel {
  import opened Wrappers
  import opened JsStrings

  datatype SessionStatus =
    | Idle | Connecting | WaitingQr | WaitingCode | Connected
    | Reconnecting | Disconnected | Error | LoggedOut

  const DEFAULT_STATUS: SessionStatus := Idle

  /** The enum value stored for a status. */
  function StatusName(s: SessionStatus): string {
    match s
    case Idle => "idle"
    case Connecting => "connecting"
    case WaitingQr => "waiting-qr"
    case WaitingCode => "waiting-code"
    case Connected => "connected"
    case Reconnecting => "reconnecting"
    case Disconnected => "disconnected"
    case Error => "error"
    case LoggedOut => "logged-out"
  }

  /** The schema's enum validation: a string is a status exactly when it names one. */
  function StatusOfName(n: string): (r: Option<SessionStatus>)
    ensures r.Some? ==> StatusName(r.value) == n
  {
    if n == "idle" then Some(Idle)
    else if n == "connecting" then Some(Connecting)
    else if n == "waiting-qr" then Some(WaitingQr)
    else if n == "waiting-code" then Some(WaitingCode)
    else if n == "connected" then Some(Connected)
    else if n == "reconnecting" then Some(Reconnecting)
    else if n == "disconnected" then Some(Disconnected)
    else if n == "error" then Some(Error)
    else if n == "logged-out" then Some(LoggedOut)
    else None
  }

  lemma StatusNameRoundTrip(s: SessionStatus)
    ensures StatusOfName(StatusName(s)) == Some(s)
  {
  }

  lemma StatusNameInjective(a: SessionStatus, b: SessionStatus)
    ensures StatusName(a) == StatusName(b) ==> a == b
  {
    StatusNameRoundTrip(a);
    StatusNameRoundTrip(b);
  }

  /** A Session document (`label_` is its `label` field). Dates are milliseconds since the epoch. */
  datatype Session = Session(
    sessionId: string,
    label_: Option<string>,
    status: SessionStatus,
    whatsappId: Option<string>,
    phoneNumber: Option<string>,
    pairingCode: Option<string>,
    pairingCodeExpiresAt: Option<int>,
    qrCode: Option<string>,
    qrCodeUpdatedAt: Option<int>,
    lastConnectedAt: Option<int>,
    errorMessage: Option<string>)

  /** The stored form of a session id: the `lowercase` setter, then the `trim` setter. */
  function Canon(id: string): string {
    Trim(Lower(id))
  }

  lemma CanonIdempotent(id: string)
    ensures Canon(Canon(id)) == Canon(id)
  {
    TrimLowerCommute(Lower(id));
    LowerIdempotent(id);
    TrimIdempotent(Lower(id));
  }

  lemma CanonOfLower(id: string)
    ensures Canon(Lower(id)) == Canon(id)
  {
    LowerIdempotent(id);
  }

  /** A freshly inserted document under the stored id `key`: the default status and nothing else set. */
  function NewSession(key: string): (r: Session)
    ensures r.sessionId == key && r.status == DEFAULT_STATUS
    ensures r.label_.None? && r.pairingCode.None? && r.qrCode.None? && r.errorMessage.None?
  {
    Session(key, None, DEFAULT_STATUS, None, None, None, None, None, None, None, None)
  }

  /** The `$set` part of an update: which fields it writes, and with what. */
  datatype SessionPatch = SessionPatch(
    status: Update<SessionStatus>,
    whatsappId: Update<Option<string>>,
    phoneNumber: Update<Option<string>>,
    pairingCode: Update<Option<string>>,
    pairingCodeExpiresAt: Update<Option<int>>,
    qrCode: Update<Option<string>>,
    qrCodeUpdatedAt: Update<Option<int>>,
    lastConnectedAt: Update<Option<int>>,
    errorMessage: Update<Option<string>>)

  const NO_CHANGE := SessionPatch(Keep, Keep, Keep, Keep, Keep, Keep, Keep, Keep, Keep)

  function ApplyPatch(r: Session, p: SessionPatch): Session {
    r.(status := p.status.Or(r.status),
       whatsappId := p.whatsappId.Or(r.whatsappId),
       phoneNumber := p.phoneNumber.Or(r.phoneNumber),
       pairingCode := p.pairingCode.Or(r.pairingCode),
       pairingCodeExpiresAt := p.pairingCodeExpiresAt.Or(r.pairingCodeExpiresAt),
       qrCode := p.qrCode.Or(r.qrCode),
       qrCodeUpdatedAt := p.qrCodeUpdatedAt.Or(r.qrCodeUpdatedAt),
       lastConnectedAt := p.lastConnectedAt.Or(r.lastConnectedAt),
       errorMessage := p.errorMessage.Or(r.errorMessage))
  }

  /** A pairing code and a QR challenge are never both outstanding. */
  predicate PairingExclusive(r: Session) {
    r.pairingCode.None? || r.qrCode.None?
  }

  /** `sessionId` is unique across the collection (the unique index). */
  ghost predicate UniqueIds(s: seq<Session>) {
    forall i, j :: 0 <= i < j < |s| ==> s[i].sessionId != s[j].sessionId
  }

  /** Every stored `sessionId` went through the schema setters. */
  ghost predicate AllCanonical(s: seq<Session>) {
    forall i :: 0 <= i < |s| ==> Canon(s[i].sessionId) == s[i].sessionId
  }

  /** The position of the first document whose stored id is `key`. */
  function IndexOf(s: seq<Session>, key: string): (r: Option<nat>)
    ensures r.Some? ==> r.value < |s| && s[r.value].sessionId == key
    ensures r.Some? ==> forall j :: 0 <= j < r.value ==> s[j].sessionId != key
    ensures r.None? ==> forall j :: 0 <= j < |s| ==> s[j].sessionId != key
  {
    if s == [] then None
    else if s[0].sessionId == key then Some(0)
    else match IndexOf(s[1..], key)
      case None => None
      case Some(i) => Some(i + 1)
  }

  /** The document stored under `key`, if any. */
  function Get(s: seq<Session>, key: string): (r: Option<Session>)
    ensures r.Some? ==> r.value in s && r.value.sessionId == key
    ensures r.None? ==> forall j :: 0 <= j < |s| ==> s[j].sessionId != key
  {
    match IndexOf(s, key)
    case None => None
    case Some(i) => Some(s[i])
  }

  /** `SessionModel.findOne({ sessionId: id })`; the filter value goes through the setters too. */
  function Find(s: seq<Session>, id: string): Option<Session> {
    Get(s, Canon(id))
  }

  /** The document an upsert under `key` starts from: the existing one, or a fresh insert. */
  function BaseFor(s: seq<Session>, key: string): Session {
    Get(s, key).GetOr(NewSession(key))
  }

  /**
   * `findOneAndUpdate({ sessionId: key }, { $set: p, $setOnInsert: { sessionId: key } }, { upsert: true })`:
   * the document for `key` becomes the patched existing or new one, and no other document changes.
   */
  function Upsert(s: seq<Session>, key: string, p: SessionPatch): (r: seq<Session>)
    ensures Get(r, key) == Some(ApplyPatch(BaseFor(s, key), p))
    ensures forall k :: k != key ==> Get(r, k) == Get(s, k)
    ensures UniqueIds(s) ==> UniqueIds(r)
  {
    match IndexOf(s, key)
    case Some(i) =>
      var r := s[i := ApplyPatch(s[i], p)];
      UpdateAtFacts(s, i, r[i]);
      r
    case None =>
      var r := s + [ApplyPatch(NewSession(key), p)];
      AppendFacts(s, r[|s|]);
      r
  }

  /** Every document after an upsert is an old one or the patched one. */
  lemma UpsertMembers(s: seq<Session>, key: string, p: SessionPatch)
    ensures forall i :: 0 <= i < |Upsert(s, key, p)| ==>
      Upsert(s, key, p)[i] in s || Upsert(s, key, p)[i] == ApplyPatch(BaseFor(s, key), p)
  {
  }

  /** An upsert keeps every stored id in its normalised form. */
  lemma UpsertCanonical(s: seq<Session>, key: string, p: SessionPatch)
    requires Canon(key) == key && AllCanonical(s)
    ensures AllCanonical(Upsert(s, key, p))
  {
    UpsertMembers(s, key, p);
  }

  lemma UpdateAtFacts(s: seq<Session>, i: nat, x: Session)
    requires i < |s| && x.sessionId == s[i].sessionId
    requires IndexOf(s, x.sessionId) == Some(i)
    ensures Get(s[i := x], x.sessionId) == Some(x)
    ensures forall k :: k != x.sessionId ==> Get(s[i := x], k) == Get(s, k)
    ensures UniqueIds(s) ==> UniqueIds(s[i := x])
  {
    forall k ensures IndexOf(s[i := x], k) == IndexOf(s, k) {
      IndexOfAfterSet(s, i, x, k);
    }
  }

  lemma AppendFacts(s: seq<Session>, x: Session)
    requires Get(s, x.sessionId).None?
    ensures Get(s + [x], x.sessionId) == Some(x)
    ensures forall k :: k != x.sessionId ==> Get(s + [x], k) == Get(s, k)
    ensures UniqueIds(s) ==> UniqueIds(s + [x])
  {
    forall k ensures IndexOf(s + [x], k) == if k == x.sessionId then Some(|s|) else IndexOf(s, k) {
      IndexOfAfterAppend(s, x, k);
    }
  }

  lemma {:induction false} IndexOfAfterSet(s: seq<Session>, i: nat, x: Session, key: string)
    requires i < |s| && x.sessionId == s[i].sessionId
    ensures IndexOf(s[i := x], key) == IndexOf(s, key)
    decreases |s|
  {
    if s != [] && s[0].sessionId != key && i > 0 {
      assert s[i := x][1..] == s[1..][i - 1 := x];
      IndexOfAfterSet(s[1..], i - 1, x, key);
    }
  }

  lemma {:induction false} IndexOfAfterAppend(s: seq<Session>, x: Session, key: string)
    ensures IndexOf(s + [x], key) == match IndexOf(s, key)
      case Some(i) => Some(i)
      case None => if x.sessionId == key then Some(|s|) else None
    decreases |s|
  {
    if s != [] && s[0].sessionId != key {
      assert (s + [x])[1..] == s[1..] + [x];
      IndexOfAfterAppend(s[1..], x, key);
    }
  }

  /** Why `SessionModel.create` rejects a document, if it does. */
  datatype CreateOutcome = Created | MissingId | DuplicateKey

  /** `create` validates first (`required` refuses an empty id), then the unique index refuses a duplicate. */
  function CreateCheck(s: seq<Session>, key: string): CreateOutcome {
    if key == "" then MissingId
    else if Get(s, key).Some? then DuplicateKey
    else Created
  }

  /** `SessionModel.create(rec)` once `CreateCheck` has let it through. */
  function Insert(s: seq<Session>, rec: Session): (r: seq<Session>)
    requires CreateCheck(s, rec.sessionId) == Created
    ensures Get(r, rec.sessionId) == Some(rec)
    ensures forall k :: k != rec.sessionId ==> Get(r, k) == Get(s, k)
    ensures UniqueIds(s) ==> UniqueIds(r)
    ensures r == s + [rec]
  {
    AppendFacts(s, rec);
    s + [rec]
  }

  /** `SessionModel.deleteOne({ sessionId: key })` */
  function Remove(s: seq<Session>, key: string): (r: seq<Session>)
    ensures UniqueIds(s) ==> Get(r, key).None?
    ensures UniqueIds(s) ==> forall k :: k != key ==> Get(r, k) == Get(s, k)
    ensures UniqueIds(s) ==> UniqueIds(r)
  {
    match IndexOf(s, key)
    case None => s
    case Some(i) =>
      RemoveAtShift(s, i);
      RemoveAtFind(s, i);
      s[..i] + s[i + 1..]
  }

  /** Deleting keeps only old documents, so it keeps every stored id normalised. */
  lemma RemoveCanonical(s: seq<Session>, key: string)
    requires AllCanonical(s)
    ensures AllCanonical(Remove(s, key))
  {
    match IndexOf(s, key)
    case None =>
    case Some(i) =>
      var r := s[..i] + s[i + 1..];
      RemoveAtShift(s, i);
      forall j | 0 <= j < |r| ensures Canon(r[j].sessionId) == r[j].sessionId {
        var k := if j < i then j else j + 1;
        assert r[j] == s[k];
      }
  }

  lemma RemoveAtShift(s: seq<Session>, i: nat)
    requires i < |s|
    ensures |s[..i] + s[i + 1..]| == |s| - 1
    ensures forall j :: 0 <= j < |s| - 1 ==> (s[..i] + s[i + 1..])[j] == if j < i then s[j] else s[j + 1]
  {
  }

  lemma RemoveAtFind(s: seq<Session>, i: nat)
    requires i < |s|
    ensures UniqueIds(s) ==> Get(s[..i] + s[i + 1..], s[i].sessionId).None?
    ensures UniqueIds(s) ==> forall k :: k != s[i].sessionId ==> Get(s[..i] + s[i + 1..], k) == Get(s, k)
    ensures UniqueIds(s) ==> UniqueIds(s[..i] + s[i + 1..])
  {
    RemoveAtShift(s, i);
    if UniqueIds(s) {
      forall k | k != s[i].sessionId ensures IndexOf(s[..i] + s[i + 1..], k) == match IndexOf(s, k)
        case None => None
        case Some(j) => Some(if j < i then j else j - 1)
      {
        IndexOfAfterRemove(s, i, k);
      }
    }
  }

  lemma {:induction false} IndexOfAfterRemove(s: seq<Session>, i: nat, key: string)
    requires i < |s| && s[i].sessionId != key
    ensures IndexOf(s[..i] + s[i + 1..], key) == match IndexOf(s, key)
      case None => None
      case Some(j) => Some(if j < i then j else j - 1)
    decreases |s|
  {
    var r := s[..i] + s[i + 1..];
    if i == 0 {
      assert r == s[1..];
    } else {
      assert r[0] == s[0];
      if s[0].sessionId != key {
        assert r[1..] == s[1..][..i - 1] + s[1..][i..];
        IndexOfAfterRemove(s[1..], i - 1, key);
      }
    }
  }
}
