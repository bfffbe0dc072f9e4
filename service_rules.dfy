/**
 * The decisions inside `WhatsAppService` (src/whatsapp/index.js) that do not depend on the
 * registry: the `$set` documents each handler writes, the record `messages.upsert` builds
 * for a protocol message, the ingestion fold over a batch, and the validation chain and
 * error wrapping of `sendTextMessage`.
 */
module ServiceRules {
  import opened Wrappers
  import opened JsStrings
  import opened Engine
  import opened WhatsAppText
  import opened HttpErrors
  import opened SessionModel
  import MM = MessageModel

  /** `PAIRING_CODE_TTL` when the environment sets none: two minutes. */
  const DEFAULT_PAIRING_CODE_TTL: int := 2 * 60 * 1000

  /** The delay before a scheduled reconnect, in milliseconds. */
  const RECONNECT_DELAY: int := 2000

  /** The server part the gateway appends to a phone number to address a user. */
  const USER_SERVER := "@s.whatsapp.net"

  const INVALID_PHONE := "Número de telefone inválido"
  const ALREADY_CONNECTED := "Sessão já conectada. Apague ou reinicie antes de gerar um novo código."
  const TO_REQUIRED := "O campo to é obrigatório"
  const INVALID_DESTINATION := "Destino inválido"
  const MESSAGE_REQUIRED := "O campo message é obrigatório"
  const MESSAGE_BLANK := "Mensagem obrigatória"
  const NOT_CONNECTED := "Sessão não está conectada. Gere o código e conecte primeiro."
  const NOT_ON_WHATSAPP := "O número informado não possui WhatsApp ativo ou é inválido"
  const UNKNOWN_ERROR := "Erro desconhecido"
  const SEND_FAILED := "Não foi possível enviar a mensagem"

  // ----- The `$set` documents of the handlers -----

  /** What `ensureSocket` writes after registering a new socket. */
  const SOCKET_OPENED := NO_CHANGE.(status := Put(SessionStatus.Connecting), errorMessage := Put(None))

  /** A `qr` update: the new challenge, and no pairing code. */
  function QrPatch(qr: string, now: int): SessionPatch {
    NO_CHANGE.(status := Put(WaitingQr), qrCode := Put(Some(qr)), qrCodeUpdatedAt := Put(Some(now)),
               pairingCode := Put(None), pairingCodeExpiresAt := Put(None))
  }

  /** The stored WhatsApp id for `sock.user?.id`: its normalised form, or null without one. */
  function WhatsAppIdOf(user: Option<string>, normalizeJid: string -> string): Option<string> {
    if Truthy(user) then Some(normalizeJid(user.value)) else None
  }

  /** An `open` update: connected, the account's id and phone, and every challenge and error cleared. */
  function OpenPatch(user: Option<string>, now: int, normalizeJid: string -> string): SessionPatch {
    SessionPatch(Put(Connected), Put(WhatsAppIdOf(user, normalizeJid)), Put(Some(JidToPhone(user))),
                 Put(None), Put(None), Put(None), Put(None), Put(Some(now)), Put(None))
  }

  const RECONNECTING := NO_CHANGE.(status := Put(Reconnecting))

  const CONNECTING := NO_CHANGE.(status := Put(SessionStatus.Connecting))

  /** What `handleLoggedOut` writes: logged out, with the account and every challenge cleared. */
  const LOGGED_OUT_FIELDS := NO_CHANGE.(status := Put(LoggedOut), whatsappId := Put(None), phoneNumber := Put(None),
                                        qrCode := Put(None), qrCodeUpdatedAt := Put(None),
                                        pairingCode := Put(None), pairingCodeExpiresAt := Put(None))

  /** The first write of `requestPairingCode`: waiting for a code, with both challenges cleared. */
  const WAITING_CODE := NO_CHANGE.(status := Put(WaitingCode), pairingCode := Put(None), pairingCodeExpiresAt := Put(None),
                                   qrCode := Put(None), qrCodeUpdatedAt := Put(None))

  /** The second write of `requestPairingCode`: the code and its expiry. */
  function PairingCodePatch(code: string, expiresAt: int): SessionPatch {
    NO_CHANGE.(pairingCode := Put(Some(code)), pairingCodeExpiresAt := Put(Some(expiresAt)))
  }

  /** A close whose status code is not `loggedOut` schedules a reconnect. */
  predicate ShouldReconnect(u: ConnectionUpdate) {
    u.connection == Some(Close) && u.disconnectStatusCode != Some(LOGGED_OUT)
  }

  predicate IsLogout(u: ConnectionUpdate) {
    u.connection == Some(Close) && u.disconnectStatusCode == Some(LOGGED_OUT)
  }

  /** What a `close` writes: the logged-out fields after a logout, else `reconnecting`. */
  function ClosePatch(u: ConnectionUpdate): SessionPatch {
    if IsLogout(u) then LOGGED_OUT_FIELDS else RECONNECTING
  }

  /** The session records after the `qr` part of a `connection.update` for `key`. */
  function AfterQr(s: seq<Session>, key: string, u: ConnectionUpdate, now: int): seq<Session> {
    if Truthy(u.qr) then Upsert(s, key, QrPatch(u.qr.value, now)) else s
  }

  /** The session records after the `connection` part of a `connection.update` for `key`. */
  function AfterConnection(s: seq<Session>, key: string, u: ConnectionUpdate, user: Option<string>, now: int,
                           normalizeJid: string -> string): seq<Session>
  {
    if u.connection == Some(Open) then Upsert(s, key, OpenPatch(user, now, normalizeJid))
    else if u.connection == Some(Close) then Upsert(s, key, ClosePatch(u))
    else if u.connection == Some(Connection.Connecting) then Upsert(s, key, CONNECTING)
    else s
  }

  /** The session records after the `connection.update` handler of the socket registered under `key`. */
  function AfterConnectionUpdate(s: seq<Session>, key: string, u: ConnectionUpdate, user: Option<string>, now: int,
                                 normalizeJid: string -> string): seq<Session>
  {
    AfterConnection(AfterQr(s, key, u, now), key, u, user, now, normalizeJid)
  }

  /** A `connection.update` writes only the record of its own session. */
  lemma ConnectionUpdateEffects(s: seq<Session>, key: string, u: ConnectionUpdate, user: Option<string>, now: int,
                                normalizeJid: string -> string)
    ensures forall k :: k != key ==> Get(AfterConnectionUpdate(s, key, u, user, now, normalizeJid), k) == Get(s, k)
  {
    var s1 := if Truthy(u.qr) then Upsert(s, key, QrPatch(u.qr.value, now)) else s;
    assert forall k :: k != key ==> Get(s1, k) == Get(s, k);
    if u.connection == Some(Open) {
      assert AfterConnectionUpdate(s, key, u, user, now, normalizeJid) == Upsert(s1, key, OpenPatch(user, now, normalizeJid));
    } else if u.connection == Some(Close) {
      var p := if IsLogout(u) then LOGGED_OUT_FIELDS else RECONNECTING;
      assert AfterConnectionUpdate(s, key, u, user, now, normalizeJid) == Upsert(s1, key, p);
    } else if u.connection == Some(Connection.Connecting) {
      assert AfterConnectionUpdate(s, key, u, user, now, normalizeJid) == Upsert(s1, key, CONNECTING);
    }
  }

  lemma QrUpdateEffect(s: seq<Session>, key: string, u: ConnectionUpdate, user: Option<string>, now: int,
                       normalizeJid: string -> string)
    requires Truthy(u.qr) && (u.connection.None? || ShouldReconnect(u) || u.connection == Some(Connection.Connecting))
    ensures var r := Get(AfterConnectionUpdate(s, key, u, user, now, normalizeJid), key).value;
      && r.qrCode == u.qr && r.qrCodeUpdatedAt == Some(now)
      && r.pairingCode.None? && r.pairingCodeExpiresAt.None?
      && r.status == (if u.connection.None? then WaitingQr else if ShouldReconnect(u) then Reconnecting else SessionStatus.Connecting)
  {
  }

  lemma OpenUpdateEffect(s: seq<Session>, key: string, u: ConnectionUpdate, user: Option<string>, now: int,
                         normalizeJid: string -> string)
    requires u.connection == Some(Open)
    ensures var r := Get(AfterConnectionUpdate(s, key, u, user, now, normalizeJid), key).value;
      && r.status == Connected
      && r.phoneNumber == Some(JidToPhone(user))
      && r.whatsappId == (if Truthy(user) then Some(normalizeJid(user.value)) else None)
      && r.lastConnectedAt == Some(now)
      && r.qrCode.None? && r.qrCodeUpdatedAt.None? && r.pairingCode.None? && r.pairingCodeExpiresAt.None?
      && r.errorMessage.None?
  {
  }

  lemma LogoutUpdateEffect(s: seq<Session>, key: string, u: ConnectionUpdate, user: Option<string>, now: int,
                           normalizeJid: string -> string)
    requires IsLogout(u)
    ensures var r := Get(AfterConnectionUpdate(s, key, u, user, now, normalizeJid), key).value;
      && r.status == LoggedOut && r.whatsappId.None? && r.phoneNumber.None?
      && r.qrCode.None? && r.qrCodeUpdatedAt.None? && r.pairingCode.None? && r.pairingCodeExpiresAt.None?
  {
  }

  /** A pairing code and a QR challenge are never both outstanding in any record. */
  ghost predicate AllExclusive(s: seq<Session>) {
    forall i :: 0 <= i < |s| ==> PairingExclusive(s[i])
  }

  /** An upsert whose result for its own key is exclusive keeps every record exclusive. */
  lemma UpsertExclusive(s: seq<Session>, key: string, p: SessionPatch)
    requires AllExclusive(s) && PairingExclusive(ApplyPatch(BaseFor(s, key), p))
    ensures AllExclusive(Upsert(s, key, p))
  {
    UpsertMembers(s, key, p);
  }

  lemma RemoveExclusive(s: seq<Session>, key: string)
    requires AllExclusive(s)
    ensures AllExclusive(Remove(s, key))
  {
    match IndexOf(s, key)
    case None =>
    case Some(i) =>
      var r := s[..i] + s[i + 1..];
      RemoveAtShift(s, i);
      forall j | 0 <= j < |r| ensures PairingExclusive(r[j]) {
        var k := if j < i then j else j + 1;
        assert r[j] == s[k];
      }
  }

  lemma InsertExclusive(s: seq<Session>, rec: Session)
    requires AllExclusive(s) && PairingExclusive(rec)
    ensures AllExclusive(s + [rec])
  {
  }

  /**
   * Every write that sets one challenge clears the other in the same handler: a `qr` update
   * clears the pairing code, and the pairing code is written right after `WAITING_CODE`
   * cleared the QR code.
   */
  lemma WritesClearTheOther(r: Session, qr: string, code: string, now: int, expiresAt: int)
    ensures ApplyPatch(r, QrPatch(qr, now)).pairingCode.None?
    ensures ApplyPatch(ApplyPatch(r, WAITING_CODE), PairingCodePatch(code, expiresAt)).qrCode.None?
    ensures PairingExclusive(ApplyPatch(r, QrPatch(qr, now)))
    ensures PairingExclusive(ApplyPatch(ApplyPatch(r, WAITING_CODE), PairingCodePatch(code, expiresAt)))
  {
  }

  /** The patches that set neither challenge keep an exclusive record exclusive. */
  lemma NeutralPatchesKeepExclusive(r: Session, user: Option<string>, now: int, normalizeJid: string -> string)
    requires PairingExclusive(r)
    ensures PairingExclusive(ApplyPatch(r, SOCKET_OPENED)) && PairingExclusive(ApplyPatch(r, RECONNECTING))
    ensures PairingExclusive(ApplyPatch(r, CONNECTING)) && PairingExclusive(ApplyPatch(r, LOGGED_OUT_FIELDS))
    ensures PairingExclusive(ApplyPatch(r, OpenPatch(user, now, normalizeJid))) && PairingExclusive(ApplyPatch(r, WAITING_CODE))
  {
  }

  /** `connection.update` keeps every record exclusive. */
  lemma ConnectionUpdateExclusive(s: seq<Session>, key: string, u: ConnectionUpdate, user: Option<string>, now: int,
                                  normalizeJid: string -> string)
    requires AllExclusive(s)
    ensures AllExclusive(AfterConnectionUpdate(s, key, u, user, now, normalizeJid))
  {
    var s1 := if Truthy(u.qr) then Upsert(s, key, QrPatch(u.qr.value, now)) else s;
    assert PairingExclusive(BaseFor(s, key));
    if Truthy(u.qr) {
      UpsertExclusive(s, key, QrPatch(u.qr.value, now));
    }
    assert PairingExclusive(BaseFor(s1, key));
    if u.connection == Some(Open) {
      UpsertExclusive(s1, key, OpenPatch(user, now, normalizeJid));
    } else if u.connection == Some(Close) {
      UpsertExclusive(s1, key, if IsLogout(u) then LOGGED_OUT_FIELDS else RECONNECTING);
    } else if u.connection == Some(Connection.Connecting) {
      UpsertExclusive(s1, key, CONNECTING);
    }
  }

  // ----- `messages.upsert` -----

  /** The stored timestamp: the engine's seconds as milliseconds, or the arrival time when it has none. */
  function MessageTime(msg: WAMessage, now: int): int {
    if msg.messageTimestamp.Some? && msg.messageTimestamp.value != 0 then msg.messageTimestamp.value * 1000 else now
  }

  /** `messageType`: the payload's first key, `'conversation'` without a payload. */
  function MessageType(message: Option<MessageContent>): Option<string> {
    match message
    case None => Some("conversation")
    case Some(c) => if c.keys == [] then None else Some(c.keys[0])
  }

  /** The record the handler of the socket under `key`, whose account is `user`, writes for `msg`. */
  function InboundRecord(key: string, msg: WAMessage, user: Option<string>, now: int, normalizeJid: string -> string): (r: MM.Message)
    ensures r.sessionId == key && r.whatsappMessageId == msg.key.id
    ensures r.text == ExtractMessageText(msg.message) && r.payload == MM.EnginePayload(msg.message)
    ensures r.errorMessage.None? && r.createdAt == now
  {
    var fromMe := msg.key.fromMe == Some(true);
    var remote := if Truthy(msg.key.remoteJid) then normalizeJid(msg.key.remoteJid.value) else "";
    var counterpart := if Truthy(msg.key.participant) then msg.key.participant else Some(remote);
    MM.Message(
      key, msg.key.id,
      if fromMe then MM.Outgoing else MM.Incoming,
      if fromMe then MM.Sent else MM.Received,
      Some(if fromMe then JidToPhone(user) else JidToPhone(counterpart)),
      Some(if fromMe then JidToPhone(Some(remote)) else JidToPhone(user)),
      ExtractMessageText(msg.message),
      MessageType(msg.message),
      MM.EnginePayload(msg.message),
      None,
      MessageTime(msg, now),
      now)
  }

  /**
   * A message sent from this account is outgoing and `sent`, from the account to the chat;
   * any other is incoming and `received`, from the participant (or the chat) to the account.
   */
  lemma InboundRoles(key: string, msg: WAMessage, user: Option<string>, now: int, normalizeJid: string -> string)
    ensures var r := InboundRecord(key, msg, user, now, normalizeJid);
      var remote := if Truthy(msg.key.remoteJid) then normalizeJid(msg.key.remoteJid.value) else "";
      && (msg.key.fromMe == Some(true) ==>
            r.direction == MM.Outgoing && r.status == MM.Sent
            && r.from == Some(JidToPhone(user)) && r.to == Some(JidToPhone(Some(remote))))
      && (msg.key.fromMe != Some(true) ==>
            r.direction == MM.Incoming && r.status == MM.Received && r.to == Some(JidToPhone(user))
            && r.from == Some(JidToPhone(if Truthy(msg.key.participant) then msg.key.participant else Some(remote))))
  {
  }

  function InboundRecords(key: string, batch: seq<WAMessage>, user: Option<string>, now: int,
                          normalizeJid: string -> string): (r: seq<MM.Message>)
    ensures |r| == |batch|
    ensures forall i :: 0 <= i < |batch| ==> r[i] == InboundRecord(key, batch[i], user, now, normalizeJid)
  {
    seq(|batch|, i requires 0 <= i < |batch| => InboundRecord(key, batch[i], user, now, normalizeJid))
  }

  /**
   * The message collection after the first `n` writes of a batch, where the writes at the
   * indices in `failing` were refused and only logged.
   */
  function IngestUpTo(ms: seq<MM.Message>, recs: seq<MM.Message>, failing: set<nat>, n: nat): seq<MM.Message>
    requires n <= |recs|
  {
    if n == 0 then ms
    else
      var m := IngestUpTo(ms, recs, failing, n - 1);
      if n - 1 in failing then m else MM.Upsert(m, recs[n - 1])
  }

  /** No two records of the batch share a key. */
  ghost predicate DistinctKeys(recs: seq<MM.Message>) {
    forall i, j :: 0 <= i < j < |recs| ==> !MM.HasKey(recs[j], recs[i].sessionId, recs[i].whatsappMessageId)
  }

  lemma InboundDistinct(key: string, batch: seq<WAMessage>, user: Option<string>, now: int, normalizeJid: string -> string)
    requires forall i, j :: 0 <= i < j < |batch| ==> batch[i].key.id != batch[j].key.id
    ensures DistinctKeys(InboundRecords(key, batch, user, now, normalizeJid))
  {
  }

  /** Ingestion keeps keys unique and stored ids lowercased. */
  lemma {:induction false} IngestKeepsStore(ms: seq<MM.Message>, recs: seq<MM.Message>, failing: set<nat>, n: nat)
    requires n <= |recs| && MM.UniqueKeys(ms) && MM.AllLowered(ms)
    requires forall i :: 0 <= i < |recs| ==> Lower(recs[i].sessionId) == recs[i].sessionId
    ensures MM.UniqueKeys(IngestUpTo(ms, recs, failing, n)) && MM.AllLowered(IngestUpTo(ms, recs, failing, n))
  {
    if n > 0 {
      IngestKeepsStore(ms, recs, failing, n - 1);
      if n - 1 !in failing {
        MM.UpsertLowered(IngestUpTo(ms, recs, failing, n - 1), recs[n - 1]);
      }
    }
  }

  /** The collection `m` absorbs each of the first `n` records whose write did not fail. */
  ghost predicate AbsorbsFirst(m: seq<MM.Message>, recs: seq<MM.Message>, failing: set<nat>, n: nat)
    requires n <= |recs|
  {
    n == 0 || (AbsorbsFirst(m, recs, failing, n - 1) && (n - 1 in failing || MM.Absorbs(m, recs[n - 1])))
  }

  /** `AbsorbsFirst` holds record by record. */
  lemma {:induction false} AbsorbsFirstAt(m: seq<MM.Message>, recs: seq<MM.Message>, failing: set<nat>, n: nat, k: nat)
    requires n <= |recs| && AbsorbsFirst(m, recs, failing, n) && k < n && k !in failing
    ensures MM.Absorbs(m, recs[k])
  {
    if k < n - 1 {
      AbsorbsFirstAt(m, recs, failing, n - 1, k);
    }
  }

  /** An upsert of a record whose key none of the first `n` records has keeps them absorbed. */
  lemma {:induction false} AbsorbsFirstAfterOther(m: seq<MM.Message>, recs: seq<MM.Message>, failing: set<nat>, n: nat,
                                                  other: MM.Message)
    requires n <= |recs| && AbsorbsFirst(m, recs, failing, n)
    requires forall k :: 0 <= k < n ==> !MM.HasKey(other, recs[k].sessionId, recs[k].whatsappMessageId)
    ensures AbsorbsFirst(MM.Upsert(m, other), recs, failing, n)
  {
    if n > 0 {
      AbsorbsFirstAfterOther(m, recs, failing, n - 1, other);
      if n - 1 !in failing {
        MM.AbsorbsAfterOtherUpsert(m, recs[n - 1], other);
      }
    }
  }

  /** Absorbing the records outside `failing` covers those outside any larger set. */
  lemma {:induction false} AbsorbsFirstWider(m: seq<MM.Message>, recs: seq<MM.Message>, failing: set<nat>, wider: set<nat>, n: nat)
    requires n <= |recs| && AbsorbsFirst(m, recs, failing, n) && failing <= wider
    ensures AbsorbsFirst(m, recs, wider, n)
  {
    if n > 0 {
      AbsorbsFirstWider(m, recs, failing, wider, n - 1);
    }
  }

  /** Every write that went through is absorbed by the collection it leaves behind, whatever failed. */
  lemma {:induction false} IngestAbsorbsWrites(ms: seq<MM.Message>, recs: seq<MM.Message>, failing: set<nat>, n: nat)
    requires n <= |recs| && DistinctKeys(recs)
    ensures AbsorbsFirst(IngestUpTo(ms, recs, failing, n), recs, failing, n)
  {
    if n > 0 {
      var m := IngestUpTo(ms, recs, failing, n - 1);
      IngestAbsorbsWrites(ms, recs, failing, n - 1);
      if n - 1 !in failing {
        AbsorbsFirstAfterOther(m, recs, failing, n - 1, recs[n - 1]);
        MM.UpsertAbsorbs(m, recs[n - 1]);
      }
    }
  }

  /** Writes a collection already absorbs change nothing. */
  lemma {:induction false} IngestAbsorbed(m: seq<MM.Message>, recs: seq<MM.Message>, failing: set<nat>, n: nat)
    requires n <= |recs| && AbsorbsFirst(m, recs, failing, n)
    ensures IngestUpTo(m, recs, failing, n) == m
  {
    if n > 0 {
      IngestAbsorbed(m, recs, failing, n - 1);
      if n - 1 !in failing {
        MM.AbsorbedUpsertIsNoOp(m, recs[n - 1]);
      }
    }
  }

  /**
   * Replaying a batch of distinct keys changes nothing, as long as the replay writes no
   * record whose first write failed: the upsert is keyed, so a replay leaves one record per key.
   */
  lemma IngestReplay(ms: seq<MM.Message>, recs: seq<MM.Message>, failing: set<nat>, replayFailing: set<nat>)
    requires DistinctKeys(recs) && failing <= replayFailing
    ensures IngestUpTo(IngestUpTo(ms, recs, failing, |recs|), recs, replayFailing, |recs|) == IngestUpTo(ms, recs, failing, |recs|)
  {
    IngestAbsorbsWrites(ms, recs, failing, |recs|);
    AbsorbsFirstWider(IngestUpTo(ms, recs, failing, |recs|), recs, failing, replayFailing, |recs|);
    IngestAbsorbed(IngestUpTo(ms, recs, failing, |recs|), recs, replayFailing, |recs|);
  }

  /** A refused write does not stop the others: each write that went through is stored under its key. */
  lemma IngestStoresWrites(ms: seq<MM.Message>, recs: seq<MM.Message>, failing: set<nat>, k: nat)
    requires DistinctKeys(recs) && k < |recs| && k !in failing
    ensures var r := MM.Get(IngestUpTo(ms, recs, failing, |recs|), recs[k].sessionId, recs[k].whatsappMessageId);
      r.Some? && MM.Merge(r.value, recs[k]) == r.value
  {
    IngestAbsorbsWrites(ms, recs, failing, |recs|);
    AbsorbsFirstAt(IngestUpTo(ms, recs, failing, |recs|), recs, failing, |recs|, k);
    MM.AbsorbsMeansStored(IngestUpTo(ms, recs, failing, |recs|), recs[k]);
  }

  // ----- `sendTextMessage` -----

  function BadRequest(message: string): Thrown {
    CreateHttpError(400, message, None)
  }

  /**
   * The checks `sendTextMessage` makes before it touches the socket, in order: the
   * destination is present, it has digits, the message is present, and it is not blank.
   */
  function InputCheck(phoneNumber: Option<string>, message: Option<string>): (r: Option<Thrown>)
    ensures r.None? <==> Truthy(phoneNumber) && SanitizePhone(phoneNumber) != "" && Truthy(message) && Trim(message.value) != ""
    ensures r.Some? ==> r.value.Http? && r.value.error.statusCode == 400 && r.value.error.details.None?
  {
    if !Truthy(phoneNumber) then Some(BadRequest(TO_REQUIRED))
    else if SanitizePhone(phoneNumber) == "" then Some(BadRequest(INVALID_DESTINATION))
    else if !Truthy(message) then Some(BadRequest(MESSAGE_REQUIRED))
    else if Trim(message.value) == "" then Some(BadRequest(MESSAGE_BLANK))
    else None
  }

  /** The first failing check decides the message: an earlier check always wins over a later one. */
  lemma InputCheckOrder(phoneNumber: Option<string>, message: Option<string>)
    ensures !Truthy(phoneNumber) ==> InputCheck(phoneNumber, message) == Some(BadRequest(TO_REQUIRED))
    ensures Truthy(phoneNumber) && SanitizePhone(phoneNumber) == "" ==>
      InputCheck(phoneNumber, message) == Some(BadRequest(INVALID_DESTINATION))
    ensures Truthy(phoneNumber) && SanitizePhone(phoneNumber) != "" && !Truthy(message) ==>
      InputCheck(phoneNumber, message) == Some(BadRequest(MESSAGE_REQUIRED))
    ensures Truthy(phoneNumber) && SanitizePhone(phoneNumber) != "" && Truthy(message) && Trim(message.value) == "" ==>
      InputCheck(phoneNumber, message) == Some(BadRequest(MESSAGE_BLANK))
  {
  }

  /** The `errorMessage` stored with a failed attempt: the error's message, or a placeholder. */
  function FailureText(t: Thrown): (r: string)
    ensures r != ""
    ensures t.Message() != "" ==> r == t.Message()
  {
    if t.Message() != "" then t.Message() else UNKNOWN_ERROR
  }

  /** What `sendTextMessage` throws for a failure: an `HttpError` as it is, anything else as a 500 with the detail. */
  function Rethrown(t: Thrown): (r: Thrown)
    ensures r.Http?
    ensures t.Http? ==> r == t
    ensures t.Plain? ==> r.error.statusCode == 500 && r.error.message == SEND_FAILED && r.error.details == Some(FailureText(t))
  {
    if t.Http? then t else CreateHttpError(500, SEND_FAILED, Some(FailureText(t)))
  }

  /** The resolved jid of a lookup answer: the normalised `jid`, or none when it is missing or empty. */
  function ResolvedJid(info: Option<NumberInfo>, normalizeJid: string -> string): Option<string> {
    if info.Some? && Truthy(info.value.jid) then Some(normalizeJid(info.value.jid.value)) else None
  }

  /** The number is usable when it resolved to a non-empty jid that the engine did not mark as absent. */
  predicate OnWhatsApp(info: Option<NumberInfo>, normalizeJid: string -> string) {
    Truthy(ResolvedJid(info, normalizeJid)) && !(info.Some? && info.value.exists_ == Some(false))
  }

  /** The single audit record of an API send. */
  function AuditRecord(key: string, messageId: string, status: MM.MessageStatus, from: Option<string>, to: string,
                       text: string, errorMessage: Option<string>, now: int): (r: MM.Message)
    ensures r.direction == MM.Outgoing && r.messageType == Some("conversation") && r.payload == MM.TextPayload(text)
    ensures r.whatsappMessageId == messageId && r.status == status && r.text == text && r.to == Some(to)
    ensures r.messageTimestamp == now && r.createdAt == now
  {
    MM.Message(key, messageId, MM.Outgoing, status, from, Some(to), text, Some("conversation"), MM.TextPayload(text),
               errorMessage, now, now)
  }

  /** The record an upsert under `key` starts from is exclusive when every stored record is. */
  lemma BaseForExclusive(s: seq<Session>, key: string)
    requires AllExclusive(s)
    ensures PairingExclusive(BaseFor(s, key))
  {
  }

  /** A `$set` that clears one challenge, or touches neither. */
  predicate SafePatch(p: SessionPatch) {
    p.qrCode == Put(None) || p.pairingCode == Put(None) || (p.qrCode.Keep? && p.pairingCode.Keep?)
  }

  /** Every handler write except the pairing code itself is safe. */
  lemma HandlerPatchesAreSafe(qr: string, user: Option<string>, now: int, normalizeJid: string -> string)
    ensures SafePatch(SOCKET_OPENED) && SafePatch(QrPatch(qr, now)) && SafePatch(OpenPatch(user, now, normalizeJid))
    ensures SafePatch(RECONNECTING) && SafePatch(CONNECTING) && SafePatch(LOGGED_OUT_FIELDS) && SafePatch(WAITING_CODE)
  {
  }

  /** A safe upsert keeps every record exclusive. */
  lemma SafeUpsertExclusive(s: seq<Session>, key: string, p: SessionPatch)
    requires AllExclusive(s) && SafePatch(p)
    ensures AllExclusive(Upsert(s, key, p))
  {
    BaseForExclusive(s, key);
    UpsertExclusive(s, key, p);
  }

  /** The pairing code is written over a record whose QR code is cleared, so it keeps every record exclusive. */
  lemma PairingCodeExclusive(s: seq<Session>, key: string, code: string, expiresAt: int)
    requires AllExclusive(s) && Get(s, key).Some? && Get(s, key).value.qrCode.None?
    ensures AllExclusive(Upsert(s, key, PairingCodePatch(code, expiresAt)))
  {
    UpsertExclusive(s, key, PairingCodePatch(code, expiresAt));
  }

  /**
   * Why `sendTextMessage` fails, if it does, given the socket `ensureSocket` produced and the
   * engine's answers: the input checks, then an unauthenticated socket, then the number
   * lookup, then the send itself.
   */
  function SendFailure(phoneNumber: Option<string>, message: Option<string>, handle: Result<Handle, JsError>,
                       lookup: LookupOutcome, send: SendOutcome, normalizeJid: string -> string): (r: Option<Thrown>)
    ensures r.None? <==> (InputCheck(phoneNumber, message).None? && handle.Ok? && handle.value.user.Some?
                          && lookup.LookupReturned? && OnWhatsApp(lookup.info, normalizeJid) && send.SendReturned?)
    ensures InputCheck(phoneNumber, message).Some? ==> r == InputCheck(phoneNumber, message)
    ensures r.Some? && r.value.Plain? ==>
              (handle.Err? && r.value.failure == handle.error)
              || (lookup.LookupThrew? && r.value.failure == lookup.failure)
              || (send.SendThrew? && r.value.failure == send.failure)
  {
    if InputCheck(phoneNumber, message).Some? then InputCheck(phoneNumber, message)
    else if handle.Err? then Some(Plain(handle.error))
    else if handle.value.user.None? then Some(BadRequest(NOT_CONNECTED))
    else if lookup.LookupThrew? then Some(Plain(lookup.failure))
    else if !OnWhatsApp(lookup.info, normalizeJid) then Some(BadRequest(NOT_ON_WHATSAPP))
    else if send.SendThrew? then Some(Plain(send.failure))
    else None
  }

  /** An API send reaches the number lookup once the inputs are valid and the socket is authenticated. */
  predicate Authenticated(phoneNumber: Option<string>, message: Option<string>, handle: Result<Handle, JsError>) {
    InputCheck(phoneNumber, message).None? && handle.Ok? && handle.value.user.Some?
  }

  /** The number was resolved: the lookup answered with a usable jid. */
  predicate Resolved(phoneNumber: Option<string>, message: Option<string>, handle: Result<Handle, JsError>,
                     lookup: LookupOutcome, normalizeJid: string -> string) {
    Authenticated(phoneNumber, message, handle) && lookup.LookupReturned? && OnWhatsApp(lookup.info, normalizeJid)
  }

  /** The `to` of the audit record: the resolved jid's phone once the number resolved (if it has one), else the sanitised input. */
  function Destination(phoneNumber: Option<string>, message: Option<string>, handle: Result<Handle, JsError>,
                       lookup: LookupOutcome, normalizeJid: string -> string): string
  {
    if Resolved(phoneNumber, message, handle, lookup, normalizeJid) && JidToPhone(ResolvedJid(lookup.info, normalizeJid)) != ""
    then JidToPhone(ResolvedJid(lookup.info, normalizeJid))
    else SanitizePhone(phoneNumber)
  }

  /** The id of a sent message: the engine's, or the fallback when the engine gave none. */
  function SentId(send: SendOutcome, fallbackId: string): (r: string)
    ensures send.SendReturned? && Truthy(send.keyId) ==> r == send.keyId.value
    ensures !(send.SendReturned? && Truthy(send.keyId)) ==> r == fallbackId
  {
    if send.SendReturned? && Truthy(send.keyId) then send.keyId.value else fallbackId
  }
}
