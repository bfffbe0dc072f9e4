/**
 * `WhatsAppService` (src/whatsapp/index.js): the registry of live sockets keyed by the
 * lowercased session id, the handlers the engine's events reach, and the operations the
 * controllers call. The engine's answers and the clock are parameters; the pending
 * reconnect timers are a queue of session ids that `FireRetry` serves.
 */
module WhatsAppService {
  import opened Wrappers
  import opened JsStrings
  import opened Engine
  import opened WhatsAppText
  import opened HttpErrors
  import opened SessionModel
  import MM = MessageModel
  import opened Database
  import opened ServiceRules

  /** An event reaches a handler only while its socket is the one registered under the handler's id. */
  predicate Listening(registry: map<string, Handle>, key: string, socket: nat) {
    key in registry && registry[key].socket == socket
  }

  /**
   * What `ensureSocket(key)` without `forceNew` yields: the registered handle, else a new
   * socket (whose account is the one restored from saved credentials), else the failure.
   */
  function EnsuredHandle(registry: map<string, Handle>, key: string, connectFailure: Option<JsError>,
                         restoredUser: Option<string>, nextSocket: nat): Result<Handle, JsError>
  {
    if key in registry then Ok(registry[key])
    else if connectFailure.Some? then Err(connectFailure.value)
    else Ok(Handle(nextSocket, restoredUser))
  }

  /** The registry after `ensureSocket(id)` without `forceNew`. */
  function RegistryAfterEnsure(registry: map<string, Handle>, id: string, connectFailure: Option<JsError>,
                               restoredUser: Option<string>, nextSocket: nat): map<string, Handle>
  {
    if Lower(id) in registry || connectFailure.Some? then registry
    else registry[Lower(id) := Handle(nextSocket, restoredUser)]
  }

  /** The session records after `ensureSocket(id)` without `forceNew`: only a new socket writes its record. */
  function SessionsAfterEnsure(registry: map<string, Handle>, sessions: seq<Session>, id: string,
                               connectFailure: Option<JsError>): seq<Session>
  {
    if Lower(id) in registry || connectFailure.Some? then sessions
    else Upsert(sessions, Canon(id), SOCKET_OPENED)
  }

  /** Dropping a key after overwriting it is the same as dropping it. */
  lemma SetThenRemove(m: map<string, Handle>, k: string, v: Handle)
    ensures m[k := v] - {k} == m - {k}
  {
  }

  /** Re-registering a key after dropping it is the same as overwriting it. */
  lemma RemoveThenSet(m: map<string, Handle>, k: string, v: Handle)
    ensures (m - {k})[k := v] == m[k := v]
  {
  }

  /** Dropping a key that is not there leaves the map as it was. */
  lemma RemoveAbsent(m: map<string, Handle>, k: string)
    requires k !in m
    ensures m - {k} == m
  {
  }

  class Service {
    /** The database both collections live in. */
    const db: Store
    /** The engine's `jidNormalizedUser`, left uninterpreted. */
    const normalizeJid: string -> string
    /** `PAIRING_CODE_TTL` in milliseconds. */
    const pairingCodeTtl: int
    /** `this.sessions`: the live socket of each lowercased session id. */
    var registry: map<string, Handle>
    /** Session ids whose reconnect timer is pending, oldest first. */
    var pendingRetries: seq<string>
    /** The identity the next socket gets. */
    var nextSocket: nat

    /**
     * The stores are valid, no session record holds both a QR code and a pairing code (which
     * holds because each handler runs as one atomic step), and every registered socket is older
     * than the next one to be made.
     */
    ghost predicate Valid()
      reads this, db
    {
      && db.Valid()
      && AllExclusive(db.sessions)
      && (forall k :: k in registry ==> registry[k].socket < nextSocket)
    }

    constructor (db: Store, normalizeJid: string -> string, pairingCodeTtl: int)
      requires db.Valid() && AllExclusive(db.sessions)
      ensures Valid()
      ensures this.db == db && this.normalizeJid == normalizeJid && this.pairingCodeTtl == pairingCodeTtl
      ensures registry == map[] && pendingRetries == [] && nextSocket == 0
    {
      this.db := db;
      this.normalizeJid := normalizeJid;
      this.pairingCodeTtl := pairingCodeTtl;
      registry := map[];
      pendingRetries := [];
      nextSocket := 0;
    }

    /** `ensureSessionDocument(sessionId, p)`: upsert the record of the lowercased id with `$set: p`. */
    method EnsureSessionDocument(sessionId: string, p: SessionPatch)
      requires db.Valid()
      modifies db
      ensures db.Valid()
      ensures db.sessions == Upsert(old(db.sessions), Canon(sessionId), p)
      ensures db.messages == old(db.messages)
      ensures registry == old(registry) && nextSocket == old(nextSocket) && pendingRetries == old(pendingRetries)
    {
      var normalizedId := Lower(sessionId);
      CanonOfLower(sessionId);
      ghost var before := db.sessions;
      db.UpsertSession(normalizedId, p);
      assert db.sessions == Upsert(before, Canon(normalizedId), p);
    }

    /** `teardownSession(sessionId)`: drop the entry, whether or not ending its socket throws; an absent id is a no-op. */
    method Teardown(sessionId: string)
      requires Valid()
      modifies this
      ensures Valid()
      ensures registry == old(registry) - {sessionId}
      ensures sessionId !in old(registry) ==> registry == old(registry)
      ensures pendingRetries == old(pendingRetries) && nextSocket == old(nextSocket)
      ensures db.sessions == old(db.sessions) && db.messages == old(db.messages)
    {
      registry := registry - {sessionId};
    }

    /** A new socket under `normalizedId`, registered before any event can reach it. */
    method Bump(normalizedId: string, restoredUser: Option<string>) returns (handle: Handle)
      requires Valid()
      modifies this
      ensures Valid()
      ensures handle == Handle(old(nextSocket), restoredUser)
      ensures registry == old(registry)[normalizedId := handle]
      ensures nextSocket == old(nextSocket) + 1 && pendingRetries == old(pendingRetries)
      ensures forall k :: k in old(registry) ==> old(registry)[k].socket < handle.socket
      ensures db.sessions == old(db.sessions) && db.messages == old(db.messages)
    {
      handle := Handle(nextSocket, restoredUser);
      nextSocket := nextSocket + 1;
      registry := registry[normalizedId := handle];
    }

    /**
     * The second half of `ensureSocket`: open a socket on the saved credentials of `normalizedId`;
     * when that succeeds, register it and set its record to `connecting` with no error.
     */
    method OpenSocket(normalizedId: string, connectFailure: Option<JsError>, restoredUser: Option<string>)
      returns (r: Result<Handle, JsError>)
      requires Valid()
      modifies this, db
      ensures Valid()
      ensures db.messages == old(db.messages) && pendingRetries == old(pendingRetries)
      ensures connectFailure.Some? ==>
        r == Err(connectFailure.value) && registry == old(registry)
        && db.sessions == old(db.sessions) && nextSocket == old(nextSocket)
      ensures connectFailure.None? ==> r == Ok(Handle(old(nextSocket), restoredUser))
      ensures connectFailure.None? ==> registry == old(registry)[normalizedId := r.value]
      ensures connectFailure.None? ==> nextSocket == old(nextSocket) + 1
      ensures connectFailure.None? ==> db.sessions == Upsert(old(db.sessions), Canon(normalizedId), SOCKET_OPENED)
      ensures connectFailure.None? ==> forall k :: k in old(registry) ==> old(registry)[k].socket < r.value.socket
    {
      if connectFailure.Some? {
        return Err(connectFailure.value);
      }
      var handle := Bump(normalizedId, restoredUser);
      HandlerPatchesAreSafe("", None, 0, normalizeJid);
      SafeUpsertExclusive(db.sessions, Canon(normalizedId), SOCKET_OPENED);
      EnsureSessionDocument(normalizedId, SOCKET_OPENED);
      r := Ok(handle);
    }

    /**
     * `ensureSocket(sessionId, { forceNew })`. Without `forceNew` a registered socket is returned
     * and nothing is written. Otherwise the old socket is torn down, and a new one is registered
     * and its record set to `connecting` with no error, unless opening it failed.
     */
    method EnsureSocket(sessionId: string, forceNew: bool, connectFailure: Option<JsError>, restoredUser: Option<string>)
      returns (r: Result<Handle, JsError>)
      requires Valid()
      modifies this, db
      ensures Valid()
      ensures pendingRetries == old(pendingRetries)
      ensures db.messages == old(db.messages)
      ensures !forceNew ==> r == EnsuredHandle(old(registry), Lower(sessionId), connectFailure, restoredUser, old(nextSocket))
      ensures !forceNew && Lower(sessionId) in old(registry) ==>
        registry == old(registry) && db.sessions == old(db.sessions) && nextSocket == old(nextSocket)
      ensures (forceNew || Lower(sessionId) !in old(registry)) && connectFailure.Some? ==>
        r == Err(connectFailure.value) && registry == old(registry) - {Lower(sessionId)}
        && db.sessions == old(db.sessions) && nextSocket == old(nextSocket)
      ensures (forceNew || Lower(sessionId) !in old(registry)) && connectFailure.None? ==>
        && r == Ok(Handle(old(nextSocket), restoredUser))
        && registry == old(registry)[Lower(sessionId) := r.value]
        && nextSocket == old(nextSocket) + 1
        && db.sessions == Upsert(old(db.sessions), Canon(sessionId), SOCKET_OPENED)
        && (forall k :: k in old(registry) ==> old(registry)[k].socket != r.value.socket)
      ensures r.Ok? ==> Lower(sessionId) in registry && registry[Lower(sessionId)] == r.value
    {
      var normalizedId := Lower(sessionId);
      LowerIdempotent(sessionId);
      CanonOfLower(sessionId);
      if !forceNew && normalizedId in registry {
        r := Ok(registry[normalizedId]);
        return;
      }
      if forceNew {
        Teardown(normalizedId);
      } else {
        RemoveAbsent(registry, normalizedId);
      }
      r := OpenSocket(normalizedId, connectFailure, restoredUser);
      if forceNew && r.Ok? {
        RemoveThenSet(old(registry), normalizedId, r.value);
      }
    }

    /** `ensureSessionDocument` with a `$set` that keeps one of the two challenges cleared. */
    method WriteSafe(sessionId: string, p: SessionPatch)
      requires Valid() && SafePatch(p)
      modifies db
      ensures Valid()
      ensures db.sessions == Upsert(old(db.sessions), Canon(sessionId), p)
      ensures db.messages == old(db.messages)
      ensures registry == old(registry) && nextSocket == old(nextSocket) && pendingRetries == old(pendingRetries)
    {
      SafeUpsertExclusive(db.sessions, Canon(sessionId), p);
      EnsureSessionDocument(sessionId, p);
    }

    /** `handleLoggedOut(sessionId)`: drop the socket and clear the account and both challenges. */
    method HandleLoggedOut(sessionId: string)
      requires Valid()
      modifies this, db
      ensures Valid()
      ensures registry == old(registry) - {sessionId}
      ensures db.sessions == Upsert(old(db.sessions), Canon(sessionId), LOGGED_OUT_FIELDS)
      ensures db.messages == old(db.messages) && nextSocket == old(nextSocket) && pendingRetries == old(pendingRetries)
    {
      Teardown(sessionId);
      HandlerPatchesAreSafe("", None, 0, normalizeJid);
      WriteSafe(sessionId, LOGGED_OUT_FIELDS);
    }

    /** `setTimeout(() => ensureSocket(sessionId, { forceNew: true }), RECONNECT_DELAY)`: queue a reconnect. */
    method ScheduleRetry(sessionId: string)
      requires Valid()
      modifies this
      ensures Valid()
      ensures pendingRetries == old(pendingRetries) + [sessionId]
      ensures registry == old(registry) && nextSocket == old(nextSocket)
      ensures db.sessions == old(db.sessions) && db.messages == old(db.messages)
    {
      pendingRetries := pendingRetries + [sessionId];
    }

    /** A `close`: reconnect after a delay, unless the account logged out. */
    method OnClose(sessionId: string, u: ConnectionUpdate)
      requires Valid() && u.connection == Some(Close)
      modifies this, db
      ensures Valid()
      ensures db.messages == old(db.messages) && nextSocket == old(nextSocket)
      ensures db.sessions == Upsert(old(db.sessions), Canon(sessionId), ClosePatch(u))
      ensures registry == if IsLogout(u) then old(registry) - {sessionId} else old(registry)
      ensures pendingRetries == old(pendingRetries) + if ShouldReconnect(u) then [sessionId] else []
    {
      if ShouldReconnect(u) {
        HandlerPatchesAreSafe("", None, 0, normalizeJid);
        assert ClosePatch(u) == RECONNECTING;
        WriteSafe(sessionId, RECONNECTING);
        ScheduleRetry(sessionId);
      } else {
        assert ClosePatch(u) == LOGGED_OUT_FIELDS;
        HandleLoggedOut(sessionId);
      }
    }

    /** The `connection` part of the `connection.update` handler: at most one write, and a reconnect or a logout. */
    method ApplyConnection(sessionId: string, socket: nat, u: ConnectionUpdate, user: Option<string>, now: int)
      requires Valid()
      modifies this, db
      ensures Valid()
      ensures db.messages == old(db.messages) && nextSocket == old(nextSocket)
      ensures db.sessions == AfterConnection(old(db.sessions), Canon(sessionId), u, user, now, normalizeJid)
      ensures registry == if IsLogout(u) then old(registry) - {sessionId} else old(registry)
      ensures pendingRetries == old(pendingRetries) + if ShouldReconnect(u) then [sessionId] else []
    {
      HandlerPatchesAreSafe("", user, now, normalizeJid);
      if u.connection == Some(Open) {
        WriteSafe(sessionId, OpenPatch(user, now, normalizeJid));
      } else if u.connection == Some(Close) {
        OnClose(sessionId, u);
      } else if u.connection == Some(Connection.Connecting) {
        WriteSafe(sessionId, CONNECTING);
      }
    }

    /**
     * The `connection.update` handler of the socket `socket` under `sessionId`, where `user` is
     * `sock.user?.id` when the event arrives. A torn-down socket's handler no longer runs.
     */
    method OnConnectionUpdate(sessionId: string, socket: nat, u: ConnectionUpdate, user: Option<string>, now: int)
      requires Valid()
      modifies this, db
      ensures Valid()
      ensures db.messages == old(db.messages) && nextSocket == old(nextSocket)
      ensures !Listening(old(registry), sessionId, socket) ==>
        registry == old(registry) && db.sessions == old(db.sessions) && pendingRetries == old(pendingRetries)
      ensures Listening(old(registry), sessionId, socket) ==>
        db.sessions == AfterConnectionUpdate(old(db.sessions), Canon(sessionId), u, user, now, normalizeJid)
      ensures Listening(old(registry), sessionId, socket) ==>
        registry == if IsLogout(u) then old(registry) - {sessionId} else old(registry)[sessionId := Handle(socket, user)]
      ensures Listening(old(registry), sessionId, socket) ==>
        pendingRetries == old(pendingRetries) + if ShouldReconnect(u) then [sessionId] else []
    {
      if !Listening(registry, sessionId, socket) {
        return;
      }
      registry := registry[sessionId := Handle(socket, user)];
      if Truthy(u.qr) {
        HandlerPatchesAreSafe(u.qr.value, user, now, normalizeJid);
        WriteSafe(sessionId, QrPatch(u.qr.value, now));
      }
      ApplyConnection(sessionId, socket, u, user, now);
      if IsLogout(u) {
        SetThenRemove(old(registry), sessionId, Handle(socket, user));
      }
    }

    /** `MessageModel.findOneAndUpdate` of a record whose session id is already lowercased. */
    method UpsertMessage(rec: MM.Message)
      requires Valid() && Lower(rec.sessionId) == rec.sessionId
      modifies db
      ensures Valid()
      ensures db.messages == MM.Upsert(old(db.messages), rec) && db.sessions == old(db.sessions)
      ensures registry == old(registry) && nextSocket == old(nextSocket) && pendingRetries == old(pendingRetries)
    {
      assert rec.(sessionId := Lower(rec.sessionId)) == rec;
      db.UpsertMessage(rec);
    }

    /** One upsert per record of the session `key`, in order; the writes at the indices in `failing` are refused and only logged. */
    method Ingest(key: string, recs: seq<MM.Message>, failing: set<nat>)
      requires Valid() && Lower(key) == key
      requires forall i :: 0 <= i < |recs| ==> recs[i].sessionId == key
      modifies db
      ensures Valid()
      ensures db.sessions == old(db.sessions)
      ensures db.messages == IngestUpTo(old(db.messages), recs, failing, |recs|)
    {
      var i := 0;
      while i < |recs|
        invariant 0 <= i <= |recs|
        invariant Valid() && db.sessions == old(db.sessions)
        invariant db.messages == IngestUpTo(old(db.messages), recs, failing, i)
      {
        if i !in failing {
          UpsertMessage(recs[i]);
        }
        i := i + 1;
      }
    }

    /**
     * The `messages.upsert` handler of the socket `socket` under `sessionId`: one upsert per
     * message of the batch, in batch order; the writes at the indices in `failing` are refused
     * by the database and only logged.
     */
    method OnMessagesUpsert(sessionId: string, socket: nat, batch: seq<WAMessage>, now: int, failing: set<nat>)
      requires Valid()
      modifies db
      ensures Valid()
      ensures db.sessions == old(db.sessions)
      ensures !Listening(registry, sessionId, socket) ==> db.messages == old(db.messages)
      ensures Listening(registry, sessionId, socket) ==>
        db.messages == IngestUpTo(old(db.messages), InboundRecords(Lower(sessionId), batch, registry[sessionId].user, now, normalizeJid),
                                  failing, |batch|)
    {
      if !Listening(registry, sessionId, socket) {
        return;
      }
      LowerIdempotent(sessionId);
      var recs := InboundRecords(Lower(sessionId), batch, registry[sessionId].user, now, normalizeJid);
      Ingest(Lower(sessionId), recs, failing);
    }

    /**
     * A reconnect timer firing: the oldest pending id gets a new socket (`forceNew`). Deleting
     * a session does not cancel its timer, so this recreates the entry and the record.
     */
    method FireRetry(connectFailure: Option<JsError>, restoredUser: Option<string>) returns (r: Result<Handle, JsError>)
      requires Valid() && pendingRetries != []
      modifies this, db
      ensures Valid()
      ensures pendingRetries == old(pendingRetries)[1..] && db.messages == old(db.messages)
      ensures var id := old(pendingRetries)[0];
        connectFailure.Some? ==>
          r == Err(connectFailure.value) && registry == old(registry) - {Lower(id)} && db.sessions == old(db.sessions)
      ensures var id := old(pendingRetries)[0];
        connectFailure.None? ==>
          && r == Ok(Handle(old(nextSocket), restoredUser))
          && registry == old(registry)[Lower(id) := r.value]
          && db.sessions == Upsert(old(db.sessions), Canon(id), SOCKET_OPENED)
    {
      var id := pendingRetries[0];
      pendingRetries := pendingRetries[1..];
      r := EnsureSocket(id, true, connectFailure, restoredUser);
    }

    /**
     * `deleteSession(sessionId)`: log the socket out (a failure is only logged), drop it, and
     * delete the record. A pending reconnect timer is left in place.
     */
    method DeleteSession(sessionId: string)
      requires Valid()
      modifies this, db
      ensures Valid()
      ensures registry == old(registry) - {Lower(sessionId)}
      ensures db.sessions == Remove(old(db.sessions), Canon(sessionId)) && Find(db.sessions, sessionId).None?
      ensures db.messages == old(db.messages) && pendingRetries == old(pendingRetries) && nextSocket == old(nextSocket)
    {
      var normalizedId := Lower(sessionId);
      CanonOfLower(sessionId);
      Teardown(normalizedId);
      RemoveExclusive(db.sessions, Canon(normalizedId));
      db.DeleteSession(normalizedId);
    }

    /** `ensureSocket(sessionId)` without `forceNew`, stated through the registry it starts from. */
    method Ensure(sessionId: string, connectFailure: Option<JsError>, restoredUser: Option<string>)
      returns (r: Result<Handle, JsError>)
      requires Valid()
      modifies this, db
      ensures Valid()
      ensures r == EnsuredHandle(old(registry), Lower(sessionId), connectFailure, restoredUser, old(nextSocket))
      ensures registry == RegistryAfterEnsure(old(registry), sessionId, connectFailure, restoredUser, old(nextSocket))
      ensures db.sessions == SessionsAfterEnsure(old(registry), old(db.sessions), sessionId, connectFailure)
      ensures db.messages == old(db.messages) && pendingRetries == old(pendingRetries)
    {
      ghost var registry0 := registry;
      r := EnsureSocket(sessionId, false, connectFailure, restoredUser);
      if Lower(sessionId) !in registry0 && connectFailure.Some? {
        RemoveAbsent(registry0, Lower(sessionId));
      }
    }

    /** The second write of `requestPairingCode`, over a record whose QR code is cleared. */
    method WritePairingCode(normalizedId: string, code: string, expiresAt: int)
      requires Valid()
      requires Get(db.sessions, Canon(normalizedId)).Some? && Get(db.sessions, Canon(normalizedId)).value.qrCode.None?
      modifies db
      ensures Valid()
      ensures db.sessions == Upsert(old(db.sessions), Canon(normalizedId), PairingCodePatch(code, expiresAt))
      ensures db.messages == old(db.messages)
      ensures registry == old(registry) && nextSocket == old(nextSocket) && pendingRetries == old(pendingRetries)
    {
      PairingCodeExclusive(db.sessions, Canon(normalizedId), code, expiresAt);
      EnsureSessionDocument(normalizedId, PairingCodePatch(code, expiresAt));
    }

    /** The part of `requestPairingCode` after the socket check: clear both challenges, then store the code. */
    method StartPairing(normalizedId: string, now: int, pairing: PairingOutcome) returns (r: Result<string, Thrown>)
      requires Valid()
      modifies db
      ensures Valid()
      ensures db.messages == old(db.messages)
      ensures pairing.PairingThrew? ==>
        r == Err(Plain(pairing.failure)) && db.sessions == Upsert(old(db.sessions), Canon(normalizedId), WAITING_CODE)
      ensures pairing.PairingReturned? ==>
        && r == Ok(pairing.code)
        && db.sessions == Upsert(Upsert(old(db.sessions), Canon(normalizedId), WAITING_CODE), Canon(normalizedId),
                                 PairingCodePatch(pairing.code, now + pairingCodeTtl))
    {
      HandlerPatchesAreSafe("", None, 0, normalizeJid);
      WriteSafe(normalizedId, WAITING_CODE);
      if pairing.PairingThrew? {
        return Err(Plain(pairing.failure));
      }
      WritePairingCode(normalizedId, pairing.code, now + pairingCodeTtl);
      r := Ok(pairing.code);
    }

    /**
     * `requestPairingCode(sessionId, phoneNumber)`: refuse a number without digits, then make sure
     * a socket exists, refuse one that is already authenticated, clear both challenges, ask the
     * engine for a code and store it with its expiry.
     */
    method RequestPairingCode(sessionId: string, phoneNumber: Option<string>, now: int, connectFailure: Option<JsError>,
                              restoredUser: Option<string>, pairing: PairingOutcome)
      returns (r: Result<string, Thrown>)
      requires Valid()
      modifies this, db
      ensures Valid()
      ensures db.messages == old(db.messages) && pendingRetries == old(pendingRetries)
      ensures SanitizePhone(phoneNumber) == "" ==>
        r == Err(CreateHttpError(400, INVALID_PHONE, None))
        && registry == old(registry) && db.sessions == old(db.sessions) && nextSocket == old(nextSocket)
      ensures SanitizePhone(phoneNumber) != "" ==>
        registry == RegistryAfterEnsure(old(registry), sessionId, connectFailure, restoredUser, old(nextSocket))
      ensures var h := EnsuredHandle(old(registry), Lower(sessionId), connectFailure, restoredUser, old(nextSocket));
        var ensured := SessionsAfterEnsure(old(registry), old(db.sessions), sessionId, connectFailure);
        SanitizePhone(phoneNumber) != "" ==>
          && (h.Err? ==> r == Err(Plain(h.error)) && db.sessions == ensured)
          && (h.Ok? && h.value.user.Some? ==> r == Err(CreateHttpError(409, ALREADY_CONNECTED, None)) && db.sessions == ensured)
          && (h.Ok? && h.value.user.None? && pairing.PairingThrew? ==>
                r == Err(Plain(pairing.failure)) && db.sessions == Upsert(ensured, Canon(sessionId), WAITING_CODE))
          && (h.Ok? && h.value.user.None? && pairing.PairingReturned? ==>
                && r == Ok(pairing.code)
                && db.sessions == Upsert(Upsert(ensured, Canon(sessionId), WAITING_CODE), Canon(sessionId),
                                         PairingCodePatch(pairing.code, now + pairingCodeTtl)))
    {
      var normalizedId := Lower(sessionId);
      LowerIdempotent(sessionId);
      CanonOfLower(sessionId);
      var sanitizedPhone := SanitizePhone(phoneNumber);
      if sanitizedPhone == "" {
        return Err(CreateHttpError(400, INVALID_PHONE, None));
      }
      var handle := Ensure(normalizedId, connectFailure, restoredUser);
      if handle.Err? {
        return Err(Plain(handle.error));
      }
      if handle.value.user.Some? {
        return Err(CreateHttpError(409, ALREADY_CONNECTED, None));
      }
      r := StartPairing(normalizedId, now, pairing);
    }

    /**
     * The `try` block of `sendTextMessage`: the input checks, the socket, the number lookup and
     * the send, leaving the failure (if any) and the values the audit record is built from.
     */
    method Attempt(normalizedId: string, phoneNumber: Option<string>, message: Option<string>, fallbackId: string,
                   connectFailure: Option<JsError>, restoredUser: Option<string>, lookup: LookupOutcome, send: SendOutcome)
      returns (failure: Option<Thrown>, messageId: string, fromPhone: Option<string>, resolvedPhone: string)
      requires Valid()
      modifies this, db
      ensures Valid()
      ensures db.messages == old(db.messages) && pendingRetries == old(pendingRetries)
      ensures var h := EnsuredHandle(old(registry), Lower(normalizedId), connectFailure, restoredUser, old(nextSocket));
        && failure == SendFailure(phoneNumber, message, h, lookup, send, normalizeJid)
        && messageId == (if failure.None? then SentId(send, fallbackId) else fallbackId)
        && fromPhone == (if Authenticated(phoneNumber, message, h) then Some(JidToPhone(h.value.user)) else None)
        && resolvedPhone == Destination(phoneNumber, message, h, lookup, normalizeJid)
      ensures InputCheck(phoneNumber, message).Some? ==>
        registry == old(registry) && db.sessions == old(db.sessions) && nextSocket == old(nextSocket)
      ensures InputCheck(phoneNumber, message).None? ==>
        && registry == RegistryAfterEnsure(old(registry), normalizedId, connectFailure, restoredUser, old(nextSocket))
        && db.sessions == SessionsAfterEnsure(old(registry), old(db.sessions), normalizedId, connectFailure)
    {
      messageId := fallbackId;
      resolvedPhone := SanitizePhone(phoneNumber);
      fromPhone := None;
      failure := InputCheck(phoneNumber, message);
      if failure.Some? {
        return;
      }
      var handle := Ensure(normalizedId, connectFailure, restoredUser);
      if handle.Err? {
        failure := Some(Plain(handle.error));
        return;
      }
      if handle.value.user.None? {
        failure := Some(BadRequest(NOT_CONNECTED));
        return;
      }
      fromPhone := Some(JidToPhone(handle.value.user));
      if lookup.LookupThrew? {
        failure := Some(Plain(lookup.failure));
        return;
      }
      if !OnWhatsApp(lookup.info, normalizeJid) {
        failure := Some(BadRequest(NOT_ON_WHATSAPP));
        return;
      }
      var resolved := JidToPhone(ResolvedJid(lookup.info, normalizeJid));
      if resolved != "" {
        resolvedPhone := resolved;
      }
      if send.SendThrew? {
        failure := Some(Plain(send.failure));
        return;
      }
      messageId := SentId(send, fallbackId);
    }

    /**
     * `sendTextMessage(sessionId, phoneNumber, message)`: the attempt, then one audit record
     * (`sent` or `failed`, with the failure's text), then the answer: the message id, or the
     * failure as an `HttpError` (anything else becomes a 500).
     */
    method SendTextMessage(sessionId: string, phoneNumber: Option<string>, message: Option<string>, fallbackId: string,
                           now: int, connectFailure: Option<JsError>, restoredUser: Option<string>,
                           lookup: LookupOutcome, send: SendOutcome)
      returns (r: Result<string, Thrown>, audit: MM.Message)
      requires Valid()
      modifies this, db
      ensures Valid()
      ensures pendingRetries == old(pendingRetries)
      ensures db.messages == MM.Create(old(db.messages), audit)
      ensures var h := EnsuredHandle(old(registry), Lower(sessionId), connectFailure, restoredUser, old(nextSocket));
        var failure := SendFailure(phoneNumber, message, h, lookup, send, normalizeJid);
        var from := if Authenticated(phoneNumber, message, h) then Some(JidToPhone(h.value.user)) else None;
        var to := Destination(phoneNumber, message, h, lookup, normalizeJid);
        && (failure.Some? ==>
              && r == Err(Rethrown(failure.value))
              && audit == AuditRecord(Lower(sessionId), fallbackId, MM.Failed, from, to, message.GetOr(""),
                                      Some(FailureText(failure.value)), now))
        && (failure.None? ==>
              && r == Ok(SentId(send, fallbackId))
              && audit == AuditRecord(Lower(sessionId), SentId(send, fallbackId), MM.Sent, from, to, message.GetOr(""),
                                      None, now))
      ensures InputCheck(phoneNumber, message).Some? ==>
        registry == old(registry) && db.sessions == old(db.sessions) && nextSocket == old(nextSocket)
      ensures InputCheck(phoneNumber, message).None? ==>
        && registry == RegistryAfterEnsure(old(registry), sessionId, connectFailure, restoredUser, old(nextSocket))
        && db.sessions == SessionsAfterEnsure(old(registry), old(db.sessions), sessionId, connectFailure)
    {
      var normalizedId := Lower(sessionId);
      LowerIdempotent(sessionId);
      CanonOfLower(sessionId);
      var textContent := message.GetOr("");
      var failure, messageId, fromPhone, resolvedPhone :=
        Attempt(normalizedId, phoneNumber, message, fallbackId, connectFailure, restoredUser, lookup, send);
      var status := if failure.None? then MM.Sent else MM.Failed;
      var errorMessage := if failure.None? then None else Some(FailureText(failure.value));
      audit := AuditRecord(normalizedId, messageId, status, fromPhone, resolvedPhone, textContent, errorMessage, now);
      assert audit.(sessionId := Lower(audit.sessionId)) == audit;
      var _ := db.CreateMessage(audit);
      r := if failure.None? then Ok(messageId) else Err(Rethrown(failure.value));
    }
  }
}
