/**
 * src/controllers/session.controller.js: the HTTP handlers over session records. Each one
 * normalises the route's id, checks the record exists (or, for `createSession`, that it does
 * not), and then reads the store or calls the service. A thrown error is the `Err` of the
 * result; `ErrorHandling.ErrorHandler` turns it into the response.
 */
module SessionController {
  import opened Wrappers
  import opened JsStrings
  import opened Engine
  import opened HttpErrors
  import opened SessionModel
  import MM = MessageModel
  import opened Database
  import opened ServiceRules
  import opened Requests
  import opened WhatsAppService

  const SESSION_EXISTS := "Já existe uma sessão com esse identificador"
  const SESSION_NOT_FOUND := "Sessão não encontrada"
  const PHONE_NUMBER_REQUIRED := "O campo phoneNumber é obrigatório"

  /** `label?.trim() || null`: the trimmed label, or none when it is absent or blank. */
  function LabelOf(givenLabel: Option<string>): (r: Option<string>)
    ensures r.None? <==> givenLabel.None? || Trim(givenLabel.value) == ""
    ensures r.Some? ==> r.value == Trim(givenLabel.value) && r.value != ""
  {
    if givenLabel.Some? && Trim(givenLabel.value) != "" then Some(Trim(givenLabel.value)) else None
  }

  /** The document `createSession` creates: the id, the label, status `idle` and nothing else. */
  function NewRecord(key: string, givenLabel: Option<string>): (r: Session)
    ensures r.sessionId == key && r.label_ == LabelOf(givenLabel) && r.status == Idle
    ensures r.pairingCode.None? && r.qrCode.None? && r.whatsappId.None? && r.errorMessage.None?
  {
    NewSession(key).(label_ := LabelOf(givenLabel))
  }

  /**
   * `createSession`: the body's id, or a generated one when it is missing or empty, normalised;
   * a 409 when a record already has it; otherwise the record is created and a socket opened.
   * `validationError` is what `create` throws for an id that normalises to nothing.
   */
  method CreateSession(svc: Service, sessionId: Option<string>, givenLabel: Option<string>, generatedId: string,
                       validationError: JsError, connectFailure: Option<JsError>, restoredUser: Option<string>)
    returns (r: Result<Session, Thrown>)
    requires svc.Valid()
    modifies svc, svc.db
    ensures svc.Valid()
    ensures svc.db.messages == old(svc.db.messages) && svc.pendingRetries == old(svc.pendingRetries)
    ensures var key := NormalizeId(if Truthy(sessionId) then sessionId.value else generatedId);
      Find(old(svc.db.sessions), key).Some? ==>
        && r == Err(CreateHttpError(409, SESSION_EXISTS, None))
        && svc.db.sessions == old(svc.db.sessions) && svc.registry == old(svc.registry)
    ensures var key := NormalizeId(if Truthy(sessionId) then sessionId.value else generatedId);
      Find(old(svc.db.sessions), key).None? && key == "" ==>
        && r == Err(Plain(validationError))
        && svc.db.sessions == old(svc.db.sessions) && svc.registry == old(svc.registry)
    ensures var key := NormalizeId(if Truthy(sessionId) then sessionId.value else generatedId);
      var h := EnsuredHandle(old(svc.registry), key, connectFailure, restoredUser, old(svc.nextSocket));
      Find(old(svc.db.sessions), key).None? && key != "" ==>
        && r == (if h.Ok? then Ok(NewRecord(key, givenLabel)) else Err(Plain(h.error)))
        && svc.db.sessions == SessionsAfterEnsure(old(svc.registry), old(svc.db.sessions) + [NewRecord(key, givenLabel)], key,
                                                  connectFailure)
        && svc.registry == RegistryAfterEnsure(old(svc.registry), key, connectFailure, restoredUser, old(svc.nextSocket))
  {
    var rawId := if Truthy(sessionId) then sessionId.value else generatedId;
    var normalizedId := NormalizeId(rawId);
    NormalizeIdIsCanon(rawId);
    var existing := svc.db.FindSession(normalizedId);
    if existing.Some? {
      return Err(CreateHttpError(409, SESSION_EXISTS, None));
    }
    var rec := NewRecord(normalizedId, givenLabel);
    assert rec.(sessionId := Canon(rec.sessionId)) == rec;
    InsertExclusive(svc.db.sessions, rec);
    var outcome := svc.db.CreateSession(rec);
    if outcome != Created {
      return Err(Plain(validationError));
    }
    var handle := svc.Ensure(normalizedId, connectFailure, restoredUser);
    if handle.Err? {
      return Err(Plain(handle.error));
    }
    r := Ok(rec);
  }

  /** `getSession`: the record stored under the normalised id, or a 404. */
  method GetSession(svc: Service, sessionId: string) returns (r: Result<Session, Thrown>)
    ensures r.Err? <==> Find(svc.db.sessions, NormalizeId(sessionId)).None?
    ensures r.Err? ==> r.error == CreateHttpError(404, SESSION_NOT_FOUND, None)
    ensures r.Ok? ==> r.value in svc.db.sessions && r.value.sessionId == NormalizeId(sessionId)
  {
    var normalizedId := NormalizeId(sessionId);
    NormalizeIdIsCanon(sessionId);
    var session := svc.db.FindSession(normalizedId);
    if session.None? {
      return Err(CreateHttpError(404, SESSION_NOT_FOUND, None));
    }
    r := Ok(session.value);
  }

  /** The body of a successful `requestPairingCode` response. */
  datatype PairingReply = PairingReply(pairingCode: string, session: Option<Session>)

  /**
   * `requestPairingCode`: a 400 when the body has no phone number, before anything is read;
   * a 404 for an unknown session; otherwise the service's answer with the record re-read.
   */
  method RequestPairingCode(svc: Service, sessionId: string, phoneNumber: Option<string>, now: int,
                            connectFailure: Option<JsError>, restoredUser: Option<string>, pairing: PairingOutcome)
    returns (r: Result<PairingReply, Thrown>)
    requires svc.Valid()
    modifies svc, svc.db
    ensures svc.Valid()
    ensures svc.db.messages == old(svc.db.messages) && svc.pendingRetries == old(svc.pendingRetries)
    ensures !Truthy(phoneNumber) ==>
      && r == Err(CreateHttpError(400, PHONE_NUMBER_REQUIRED, None))
      && svc.db.sessions == old(svc.db.sessions) && svc.registry == old(svc.registry)
    ensures Truthy(phoneNumber) && Find(old(svc.db.sessions), NormalizeId(sessionId)).None? ==>
      && r == Err(CreateHttpError(404, SESSION_NOT_FOUND, None))
      && svc.db.sessions == old(svc.db.sessions) && svc.registry == old(svc.registry)
    ensures r.Ok? ==>
      && pairing == PairingReturned(r.value.pairingCode)
      && r.value.session.Some?
      && r.value.session.value.sessionId == NormalizeId(sessionId)
      && r.value.session.value.status == WaitingCode
      && r.value.session.value.pairingCode == Some(r.value.pairingCode)
      && r.value.session.value.pairingCodeExpiresAt == Some(now + svc.pairingCodeTtl)
      && r.value.session.value.qrCode.None?
  {
    var normalizedId := NormalizeId(sessionId);
    NormalizeIdIsCanon(sessionId);
    if !Truthy(phoneNumber) {
      return Err(CreateHttpError(400, PHONE_NUMBER_REQUIRED, None));
    }
    var session := svc.db.FindSession(normalizedId);
    if session.None? {
      return Err(CreateHttpError(404, SESSION_NOT_FOUND, None));
    }
    var pairingCode := svc.RequestPairingCode(normalizedId, phoneNumber, now, connectFailure, restoredUser, pairing);
    if pairingCode.Err? {
      return Err(pairingCode.error);
    }
    var updated := svc.db.FindSession(normalizedId);
    r := Ok(PairingReply(pairingCode.value, updated));
  }

  /** The body of `getSessionQr`. */
  datatype QrView = QrView(sessionId: string, available: bool, qrCode: Option<string>, qrCodeUpdatedAt: Option<int>,
                           status: SessionStatus)

  /** The QR projection of a record: `available` exactly when a non-empty code is stored, which is then returned. */
  function QrProjection(rec: Session): (v: QrView)
    ensures v.available <==> Truthy(rec.qrCode)
    ensures v.available <==> v.qrCode.Some?
    ensures v.qrCode.Some? ==> v.qrCode == rec.qrCode
    ensures v.sessionId == rec.sessionId && v.qrCodeUpdatedAt == rec.qrCodeUpdatedAt && v.status == rec.status
  {
    QrView(rec.sessionId, Truthy(rec.qrCode), if Truthy(rec.qrCode) then rec.qrCode else None, rec.qrCodeUpdatedAt,
           rec.status)
  }

  /** `getSessionQr`: the projection of the stored record, or a 404. */
  method GetSessionQr(svc: Service, sessionId: string) returns (r: Result<QrView, Thrown>)
    ensures r.Err? <==> Find(svc.db.sessions, NormalizeId(sessionId)).None?
    ensures r.Err? ==> r.error == CreateHttpError(404, SESSION_NOT_FOUND, None)
    ensures r.Ok? ==> r.value == QrProjection(Find(svc.db.sessions, NormalizeId(sessionId)).value)
  {
    var normalizedId := NormalizeId(sessionId);
    var session := svc.db.FindSession(normalizedId);
    if session.None? {
      return Err(CreateHttpError(404, SESSION_NOT_FOUND, None));
    }
    r := Ok(QrProjection(session.value));
  }

  /** `deleteSession`: a 404 for an unknown session; otherwise the service deletes socket and record. */
  method DeleteSession(svc: Service, sessionId: string) returns (r: Result<bool, Thrown>)
    requires svc.Valid()
    modifies svc, svc.db
    ensures svc.Valid()
    ensures svc.db.messages == old(svc.db.messages) && svc.pendingRetries == old(svc.pendingRetries)
    ensures Find(old(svc.db.sessions), NormalizeId(sessionId)).None? ==>
      && r == Err(CreateHttpError(404, SESSION_NOT_FOUND, None))
      && svc.db.sessions == old(svc.db.sessions) && svc.registry == old(svc.registry)
    ensures Find(old(svc.db.sessions), NormalizeId(sessionId)).Some? ==>
      && r == Ok(true)
      && svc.registry == old(svc.registry) - {NormalizeId(sessionId)}
      && svc.db.sessions == Remove(old(svc.db.sessions), NormalizeId(sessionId))
      && Find(svc.db.sessions, NormalizeId(sessionId)).None?
  {
    var normalizedId := NormalizeId(sessionId);
    NormalizeIdIsCanon(sessionId);
    var session := svc.db.FindSession(normalizedId);
    if session.None? {
      return Err(CreateHttpError(404, SESSION_NOT_FOUND, None));
    }
    svc.DeleteSession(normalizedId);
    r := Ok(true);
  }

  /** `purgeSessionMessages`: a 404 for an unknown session; otherwise every message of that id goes. */
  method PurgeSessionMessages(svc: Service, sessionId: string) returns (r: Result<bool, Thrown>)
    requires svc.Valid()
    modifies svc.db
    ensures svc.Valid()
    ensures svc.db.sessions == old(svc.db.sessions)
    ensures Find(svc.db.sessions, NormalizeId(sessionId)).None? ==>
      r == Err(CreateHttpError(404, SESSION_NOT_FOUND, None)) && svc.db.messages == old(svc.db.messages)
    ensures Find(svc.db.sessions, NormalizeId(sessionId)).Some? ==>
      r == Ok(true) && svc.db.messages == MM.DeleteBySession(old(svc.db.messages), NormalizeId(sessionId))
  {
    var normalizedId := NormalizeId(sessionId);
    NormalizeIdIsCanon(sessionId);
    var session := svc.db.FindSession(normalizedId);
    if session.None? {
      return Err(CreateHttpError(404, SESSION_NOT_FOUND, None));
    }
    svc.db.DeleteMessagesOf(normalizedId);
    r := Ok(true);
  }
}
