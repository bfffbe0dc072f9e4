/**
 * src/controllers/message.controller.js: listing a session's messages (a filter built field by
 * field, newest first, capped) and sending one through the service.
 */
module MessageController {
  import opened Wrappers
  import opened Engine
  import opened HttpErrors
  import MM = MessageModel
  import opened ServiceRules
  import opened Requests
  import opened WhatsAppService

  const DEFAULT_LIMIT := 50
  const MAX_LIMIT := 200
  const CREATED := 201

  /**
   * `Math.min(Number(limit) || 50, 200)`. `requested` is the number the query parses to, `None`
   * when it is absent or not a number; zero falls back to the default like NaN does.
   */
  function ListLimit(requested: Option<int>): (n: int)
    ensures n <= MAX_LIMIT
    ensures requested.None? || requested == Some(0) ==> n == DEFAULT_LIMIT
    ensures requested.Some? && requested.value != 0 && requested.value <= MAX_LIMIT ==> n == requested.value
    ensures requested.Some? && requested.value > MAX_LIMIT ==> n == MAX_LIMIT
  {
    var base := if requested.Some? && requested.value != 0 then requested.value else DEFAULT_LIMIT;
    if base < MAX_LIMIT then base else MAX_LIMIT
  }

  /**
   * What a listed document must satisfy: the session's id (lowercased by the schema cast),
   * a timestamp strictly before `before` when there is one, and the direction when the query
   * names one. `before` is the parsed date, `None` when it is absent or invalid.
   */
  predicate Wanted(normalizedId: string, direction: Option<string>, before: Option<int>, m: MM.Message) {
    && m.sessionId == JsStrings.Lower(normalizedId)
    && (before.Some? ==> m.messageTimestamp < before.value)
    && (direction.Some? && MM.DirectionOfName(direction.value).Some? ==>
          m.direction == MM.DirectionOfName(direction.value).value)
  }

  /** The stored documents `Wanted` admits, in collection order. */
  function Listed(ms: seq<MM.Message>, normalizedId: string, direction: Option<string>, before: Option<int>): (r: seq<MM.Message>)
    ensures forall m :: m in r <==> m in ms && Wanted(normalizedId, direction, before, m)
  {
    if ms == [] then [] else
      var head := if Wanted(normalizedId, direction, before, ms[0]) then [ms[0]] else [];
      head + Listed(ms[1..], normalizedId, direction, before)
  }

  /** A query whose filter admits exactly what `Wanted` admits selects exactly `Listed`. */
  lemma {:induction false} SelectIsListed(ms: seq<MM.Message>, q: MM.Query, normalizedId: string,
                                          direction: Option<string>, before: Option<int>)
    requires forall m :: MM.Matches(q, m) <==> Wanted(normalizedId, direction, before, m)
    ensures MM.Select(ms, q) == Listed(ms, normalizedId, direction, before)
    decreases |ms|
  {
    if ms != [] {
      SelectIsListed(ms[1..], q, normalizedId, direction, before);
    }
  }

  /**
   * The `filter` of `listMessages`, grown in place: the session id always, the timestamp bound
   * for a valid date, the direction only when it names one.
   */
  method BuildFilter(normalizedId: string, direction: Option<string>, before: Option<int>) returns (filter: MM.Query)
    ensures forall m :: MM.Matches(filter, m) <==> Wanted(normalizedId, direction, before, m)
    ensures filter.status.None? && filter.createdFrom.None? && filter.sessionOther.None?
  {
    filter := MM.ALL.(sessionId := Some(normalizedId));
    if before.Some? {
      filter := filter.(timestampBefore := before);
    }
    if direction.Some? && direction.value != "" && MM.DirectionOfName(direction.value).Some? {
      filter := filter.(direction := MM.DirectionOfName(direction.value));
    }
  }

  /** The body of `listMessages`. */
  datatype MessagePage = MessagePage(items: seq<MM.Message>, limit: int)

  /** How many documents `.limit(n)` lets through; the driver reads a negative limit by its size. */
  function LimitCount(n: int): nat {
    if n < 0 then -n else n
  }

  /**
   * `listMessages`: the documents of the normalised session that pass the filter, newest
   * `messageTimestamp` first, at most `limit` of them, and every one left out no newer than
   * those kept.
   */
  method ListMessages(svc: Service, sessionId: string, limitQuery: Option<int>, direction: Option<string>,
                      before: Option<int>)
    returns (page: MessagePage)
    ensures page.limit == ListLimit(limitQuery)
    ensures var listed := Listed(svc.db.messages, NormalizeId(sessionId), direction, before);
      |page.items| == (if LimitCount(page.limit) < |listed| then LimitCount(page.limit) else |listed|)
      && multiset(page.items) <= multiset(listed)
    ensures |page.items| <= LimitCount(page.limit)
    ensures MM.SortedDesc(page.items, MM.MessageTimestamp)
    ensures forall i :: 0 <= i < |page.items| ==>
      page.items[i] in svc.db.messages && Wanted(NormalizeId(sessionId), direction, before, page.items[i])
    ensures forall m, i ::
      (m in svc.db.messages && Wanted(NormalizeId(sessionId), direction, before, m) && m !in page.items
       && 0 <= i < |page.items|) ==>
      m.messageTimestamp <= page.items[i].messageTimestamp
  {
    var normalizedId := NormalizeId(sessionId);
    NormalizeIdIsCanon(sessionId);
    var limit := ListLimit(limitQuery);
    var filter := BuildFilter(normalizedId, direction, before);
    var items := MM.Newest(svc.db.messages, filter, MM.MessageTimestamp, LimitCount(limit));
    MM.NewestSpec(svc.db.messages, filter, MM.MessageTimestamp, LimitCount(limit));
    SelectIsListed(svc.db.messages, filter, normalizedId, direction, before);
    forall m, i | m in svc.db.messages && Wanted(normalizedId, direction, before, m) && m !in items && 0 <= i < |items|
      ensures m.messageTimestamp <= items[i].messageTimestamp
    {
      assert MM.Matches(filter, m);
      assert MM.MessageTimestamp(m) <= MM.MessageTimestamp(items[i]);
    }
    page := MessagePage(items, limit);
  }

  /** The body of a successful `sendMessage` response. */
  datatype SendReply = SendReply(statusCode: int, messageId: string, status: string)

  /**
   * `sendMessage`: the service's send on the normalised id, answered with a 201, the message id
   * and `sent`. Every failure the service reports is already an `HttpError`.
   */
  method SendMessage(svc: Service, sessionId: string, to: Option<string>, message: Option<string>, fallbackId: string,
                     now: int, connectFailure: Option<JsError>, restoredUser: Option<string>,
                     lookup: LookupOutcome, send: SendOutcome)
    returns (r: Result<SendReply, Thrown>, audit: MM.Message)
    requires svc.Valid()
    modifies svc, svc.db
    ensures svc.Valid()
    ensures svc.db.messages == MM.Create(old(svc.db.messages), audit)
    ensures audit.sessionId == NormalizeId(sessionId) && audit.direction == MM.Outgoing && audit.text == message.GetOr("")
    ensures var h := EnsuredHandle(old(svc.registry), NormalizeId(sessionId), connectFailure, restoredUser,
                                   old(svc.nextSocket));
      r.Ok? <==> SendFailure(to, message, h, lookup, send, svc.normalizeJid).None?
    ensures r.Ok? ==> r.value == SendReply(CREATED, SentId(send, fallbackId), "sent") && audit.status == MM.Sent
    ensures r.Err? ==> r.error.Http? && audit.status == MM.Failed && audit.whatsappMessageId == fallbackId
  {
    var normalizedId := NormalizeId(sessionId);
    NormalizeIdIsCanon(sessionId);
    var response;
    response, audit := svc.SendTextMessage(normalizedId, to, message, fallbackId, now, connectFailure, restoredUser,
                                           lookup, send);
    if response.Err? {
      return Err(response.error), audit;
    }
    r := Ok(SendReply(CREATED, response.value, "sent"));
  }
}
