/**
 * The two MongoDB collections the service and the controllers share, as one object whose
 * fields the write methods replace. Every write goes through the schema setters first, so the
 * collections keep their unique keys and their normalised ids.
 */
module Database {
  import opened Wrappers
  import opened JsStrings
  import opened SessionModel
  import MM = MessageModel

  class Store {
    var sessions: seq<Session>
    var messages: seq<MM.Message>

    ghost predicate Valid()
      reads this
    {
      UniqueIds(sessions) && AllCanonical(sessions) && MM.UniqueKeys(messages) && MM.AllLowered(messages)
    }

    constructor ()
      ensures Valid() && sessions == [] && messages == []
    {
      sessions := [];
      messages := [];
    }

    /** `SessionModel.findOneAndUpdate({ sessionId: id }, { $set: p }, { upsert: true })` */
    method UpsertSession(id: string, p: SessionPatch)
      requires Valid()
      modifies this
      ensures Valid()
      ensures sessions == Upsert(old(sessions), Canon(id), p) && messages == old(messages)
    {
      CanonIdempotent(id);
      UpsertCanonical(sessions, Canon(id), p);
      sessions := Upsert(sessions, Canon(id), p);
    }

    /** `SessionModel.create(rec)`: refused on an empty or taken id, leaving the collection as it was. */
    method CreateSession(rec: Session) returns (outcome: CreateOutcome)
      requires Valid()
      modifies this
      ensures Valid() && messages == old(messages)
      ensures outcome == CreateCheck(old(sessions), Canon(rec.sessionId))
      ensures sessions == if outcome == Created then old(sessions) + [rec.(sessionId := Canon(rec.sessionId))] else old(sessions)
    {
      outcome := CreateCheck(sessions, Canon(rec.sessionId));
      if outcome == Created {
        var stored := rec.(sessionId := Canon(rec.sessionId));
        CanonIdempotent(rec.sessionId);
        sessions := Insert(sessions, stored);
      }
    }

    /** `SessionModel.deleteOne({ sessionId: id })` */
    method DeleteSession(id: string)
      requires Valid()
      modifies this
      ensures Valid()
      ensures sessions == Remove(old(sessions), Canon(id)) && messages == old(messages)
    {
      RemoveCanonical(sessions, Canon(id));
      sessions := Remove(sessions, Canon(id));
    }

    /** The document with the stored id `Canon(id)`, as `findOne({ sessionId: id })` returns it. */
    method FindSession(id: string) returns (r: Option<Session>)
      ensures r == Find(sessions, id)
      ensures r.Some? ==> r.value in sessions && r.value.sessionId == Canon(id)
    {
      r := Find(sessions, id);
    }

    /** `MessageModel.findOneAndUpdate({ sessionId, whatsappMessageId }, rec, { upsert: true })` */
    method UpsertMessage(rec: MM.Message)
      requires Valid()
      modifies this
      ensures Valid()
      ensures messages == MM.Upsert(old(messages), rec.(sessionId := Lower(rec.sessionId))) && sessions == old(sessions)
    {
      var stored := rec.(sessionId := Lower(rec.sessionId));
      LowerIdempotent(rec.sessionId);
      MM.UpsertLowered(messages, stored);
      messages := MM.Upsert(messages, stored);
    }

    /** `MessageModel.create(rec)`: `created` is false when validation or the unique index refused it. */
    method CreateMessage(rec: MM.Message) returns (created: bool)
      requires Valid()
      modifies this
      ensures Valid() && sessions == old(sessions)
      ensures created == MM.CanCreate(old(messages), rec.(sessionId := Lower(rec.sessionId)))
      ensures messages == MM.Create(old(messages), rec.(sessionId := Lower(rec.sessionId)))
    {
      var stored := rec.(sessionId := Lower(rec.sessionId));
      LowerIdempotent(rec.sessionId);
      created := MM.CanCreate(messages, stored);
      messages := MM.Create(messages, stored);
    }

    /** `MessageModel.deleteMany({ sessionId: id })` */
    method DeleteMessagesOf(id: string)
      requires Valid()
      modifies this
      ensures Valid()
      ensures messages == MM.DeleteBySession(old(messages), Lower(id)) && sessions == old(sessions)
    {
      MM.DeleteBySessionProps(messages, Lower(id));
      messages := MM.DeleteBySession(messages, Lower(id));
    }
  }
}
