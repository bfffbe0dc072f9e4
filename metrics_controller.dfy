/**
 * src/controllers/metrics.controller.js: the overview and per-session dashboards. The counts
 * are `countDocuments` over filters of the message collection; a `$group` stage is modelled by
 * its result, one bucket per value that occurs, and `toSummary` folds the buckets into a map.
 */
module MetricsController {
  import opened Wrappers
  import opened JsStrings
  import opened HttpErrors
  import opened SessionModel
  import MM = MessageModel
  import opened Database

  const DAY_MS := 24 * 60 * 60 * 1000
  const OVERVIEW_LATEST := 10
  const SESSION_LATEST := 20
  const SESSION_NOT_FOUND := "Sessão não encontrada"
  const UNKNOWN_KEY := "unknown"

  /** One document of an aggregation result: `{ _id, count }`, either of which may be missing. */
  datatype Bucket = Bucket(id: Option<string>, count: Option<int>)

  function KeyOf(b: Bucket): string { b.id.GetOr(UNKNOWN_KEY) }

  function CountOf(b: Bucket): int { b.count.GetOr(0) }

  /** The `reduce` of `toSummary` from the accumulator `acc`: each bucket overwrites its key. */
  function Summary(acc: map<string, int>, items: seq<Bucket>): map<string, int>
    decreases |items|
  {
    if items == [] then acc else Summary(acc[KeyOf(items[0]) := CountOf(items[0])], items[1..])
  }

  /** `toSummary(items)`: the fold, as the loop that updates the accumulator object. */
  method ToSummary(items: seq<Bucket>) returns (acc: map<string, int>)
    ensures acc == Summary(map[], items)
    ensures items == [] ==> acc == map[]
  {
    acc := map[];
    var i := 0;
    while i < |items|
      invariant 0 <= i <= |items|
      invariant Summary(acc, items[i..]) == Summary(map[], items)
    {
      assert items[i..][1..] == items[i + 1..];
      acc := acc[KeyOf(items[i]) := CountOf(items[i])];
      i := i + 1;
    }
  }

  /** The summary's keys: the accumulator's and every bucket's (`'unknown'` for a missing `_id`). */
  lemma {:induction false} SummaryKeys(acc: map<string, int>, items: seq<Bucket>, k: string)
    ensures k in Summary(acc, items) <==> k in acc || exists i :: 0 <= i < |items| && KeyOf(items[i]) == k
    decreases |items|
  {
    if items != [] {
      SummaryKeys(acc[KeyOf(items[0]) := CountOf(items[0])], items[1..], k);
      if k in Summary(acc, items) && k !in acc && KeyOf(items[0]) != k {
        var i :| 0 <= i < |items[1..]| && KeyOf(items[1..][i]) == k;
        assert KeyOf(items[i + 1]) == k;
      }
      if exists i :: 0 <= i < |items| && KeyOf(items[i]) == k {
        var i :| 0 <= i < |items| && KeyOf(items[i]) == k;
        if i > 0 {
          assert KeyOf(items[1..][i - 1]) == k;
        }
      }
    }
  }

  /** A key no bucket names keeps the accumulator's value. */
  lemma {:induction false} SummaryUntouched(acc: map<string, int>, items: seq<Bucket>, k: string)
    requires forall j :: 0 <= j < |items| ==> KeyOf(items[j]) != k
    ensures k in Summary(acc, items) <==> k in acc
    ensures k in acc ==> Summary(acc, items)[k] == acc[k]
    decreases |items|
  {
    if items != [] {
      SummaryUntouched(acc[KeyOf(items[0]) := CountOf(items[0])], items[1..], k);
    }
  }

  /** A later duplicate overwrites an earlier one: the summary holds the last bucket's count for its key. */
  lemma {:induction false} SummaryLastWins(acc: map<string, int>, items: seq<Bucket>, i: nat)
    requires i < |items|
    requires forall j :: i < j < |items| ==> KeyOf(items[j]) != KeyOf(items[i])
    ensures KeyOf(items[i]) in Summary(acc, items)
    ensures Summary(acc, items)[KeyOf(items[i])] == CountOf(items[i])
    decreases |items|
  {
    var next := acc[KeyOf(items[0]) := CountOf(items[0])];
    if i == 0 {
      SummaryUntouched(next, items[1..], KeyOf(items[0]));
    } else {
      SummaryLastWins(next, items[1..], i - 1);
    }
  }

  /** `summary[k] || 0` */
  function Lookup0(summary: map<string, int>, k: string): int {
    if k in summary then summary[k] else 0
  }

  /** `sessionsByStatus.connected || 0` */
  function Active(byStatus: map<string, int>): int {
    Lookup0(byStatus, StatusName(Connected))
  }

  /** `(sessionsByStatus['waiting-code'] || 0) + (sessionsByStatus['waiting-qr'] || 0)` */
  function Waiting(byStatus: map<string, int>): int {
    Lookup0(byStatus, StatusName(WaitingCode)) + Lookup0(byStatus, StatusName(WaitingQr))
  }

  /** One group before empty groups are dropped: its `_id` and how many documents it has. */
  datatype Group = Group(name: string, size: nat)

  /** The `$group` result: a bucket for every group that has a document. */
  function Present(groups: seq<Group>): (r: seq<Bucket>)
    ensures forall j :: 0 <= j < |r| ==> r[j].id.Some? && CountOf(r[j]) > 0
  {
    if groups == [] then []
    else (if groups[0].size > 0 then [Bucket(Some(groups[0].name), Some(groups[0].size))] else [])
         + Present(groups[1..])
  }

  lemma {:induction false} PresentAvoids(groups: seq<Group>, k: string)
    requires forall j :: 0 <= j < |groups| ==> groups[j].name != k
    ensures forall j :: 0 <= j < |Present(groups)| ==> KeyOf(Present(groups)[j]) != k
    decreases |groups|
  {
    if groups != [] {
      PresentAvoids(groups[1..], k);
    }
  }

  ghost predicate DistinctNames(groups: seq<Group>) {
    forall i, j :: 0 <= i < j < |groups| ==> groups[i].name != groups[j].name
  }

  /** Folding a `$group` result with distinct ids gives every group's size, and 0 for an empty group. */
  lemma {:induction false} PresentSummary(acc: map<string, int>, groups: seq<Group>)
    requires DistinctNames(groups)
    requires forall i :: 0 <= i < |groups| ==> groups[i].name !in acc
    ensures forall i :: 0 <= i < |groups| ==> Lookup0(Summary(acc, Present(groups)), groups[i].name) == groups[i].size
    decreases |groups|
  {
    if groups != [] {
      var g := groups[0];
      var rest := groups[1..];
      assert forall j :: 0 <= j < |rest| ==> rest[j].name != g.name by {
        forall j | 0 <= j < |rest| ensures rest[j].name != g.name {
          assert rest[j] == groups[j + 1];
        }
      }
      PresentAvoids(rest, g.name);
      if g.size > 0 {
        var b := Bucket(Some(g.name), Some(g.size));
        var next := acc[g.name := g.size];
        assert Present(groups) == [b] + Present(rest);
        assert ([b] + Present(rest))[1..] == Present(rest);
        assert Summary(acc, Present(groups)) == Summary(next, Present(rest));
        PresentSummary(next, rest);
        SummaryUntouched(next, Present(rest), g.name);
      } else {
        assert Present(groups) == Present(rest);
        PresentSummary(acc, rest);
        SummaryUntouched(acc, Present(rest), g.name);
      }
      forall i | 0 <= i < |groups| ensures Lookup0(Summary(acc, Present(groups)), groups[i].name) == groups[i].size {
        if i > 0 {
          assert groups[i] == rest[i - 1];
        }
      }
    }
  }

  /** How many session records have status `st`. */
  function StatusCount(s: seq<Session>, st: SessionStatus): nat {
    if s == [] then 0 else (if s[0].status == st then 1 else 0) + StatusCount(s[1..], st)
  }

  const ALL_STATUSES: seq<SessionStatus> :=
    [Idle, Connecting, WaitingQr, WaitingCode, Connected, Reconnecting, Disconnected, Error, LoggedOut]

  /** Where a status sits in `ALL_STATUSES`. */
  function StatusIndex(st: SessionStatus): (i: nat)
    ensures i < |ALL_STATUSES| && ALL_STATUSES[i] == st
  {
    match st
    case Idle => 0
    case Connecting => 1
    case WaitingQr => 2
    case WaitingCode => 3
    case Connected => 4
    case Reconnecting => 5
    case Disconnected => 6
    case Error => 7
    case LoggedOut => 8
  }

  /** The `$group` by `$status` over the sessions, one group per status (ordered as the enum). */
  function StatusGroups(s: seq<Session>, sts: seq<SessionStatus>): (r: seq<Group>)
    ensures |r| == |sts|
    ensures forall i :: 0 <= i < |sts| ==> r[i] == Group(StatusName(sts[i]), StatusCount(s, sts[i]))
  {
    if sts == [] then [] else [Group(StatusName(sts[0]), StatusCount(s, sts[0]))] + StatusGroups(s, sts[1..])
  }

  /** `toSummary` of the status aggregation. */
  function ByStatus(s: seq<Session>): map<string, int> {
    Summary(map[], Present(StatusGroups(s, ALL_STATUSES)))
  }

  /** A status's entry in the summary is how many records have it: `active` and `waiting` count records. */
  lemma ByStatusCounts(s: seq<Session>)
    ensures forall st :: Lookup0(ByStatus(s), StatusName(st)) == StatusCount(s, st)
    ensures Active(ByStatus(s)) == StatusCount(s, Connected)
    ensures Waiting(ByStatus(s)) == StatusCount(s, WaitingCode) + StatusCount(s, WaitingQr)
  {
    var groups := StatusGroups(s, ALL_STATUSES);
    forall i, j | 0 <= i < j < |groups| ensures groups[i].name != groups[j].name {
      StatusNameInjective(ALL_STATUSES[i], ALL_STATUSES[j]);
    }
    PresentSummary(map[], groups);
    forall st ensures Lookup0(ByStatus(s), StatusName(st)) == StatusCount(s, st) {
      var i := StatusIndex(st);
      assert groups[i].name == StatusName(st);
    }
  }

  /** The four counts of one dashboard, over a filter `q` and its last-24-hours narrowing. */
  lemma CountsNest(ms: seq<MM.Message>, q: MM.Query, since: int)
    requires q.status.None? && q.createdFrom.None?
    ensures MM.Count(ms, q.(status := Some(MM.Failed))) <= MM.Count(ms, q)
    ensures MM.Count(ms, q.(createdFrom := Some(since))) <= MM.Count(ms, q)
    ensures MM.Count(ms, q.(status := Some(MM.Failed), createdFrom := Some(since)))
            <= MM.Count(ms, q.(createdFrom := Some(since)))
    ensures MM.Count(ms, q.(status := Some(MM.Failed), createdFrom := Some(since)))
            <= MM.Count(ms, q.(status := Some(MM.Failed)))
  {
    MM.CountNarrower(ms, q.(status := Some(MM.Failed)), q);
    MM.CountNarrower(ms, q.(createdFrom := Some(since)), q);
    MM.CountNarrower(ms, q.(status := Some(MM.Failed), createdFrom := Some(since)), q.(createdFrom := Some(since)));
    MM.CountNarrower(ms, q.(status := Some(MM.Failed), createdFrom := Some(since)), q.(status := Some(MM.Failed)));
  }

  datatype SessionTotals = SessionTotals(total: nat, byStatus: map<string, int>, active: int, waiting: int)

  datatype MessageTotals = MessageTotals(total: nat, incoming: nat, outgoing: nat, failed: nat, last24hTotal: nat,
                                         last24hFailed: nat, latest: seq<MM.Message>)

  datatype Overview = Overview(sessions: SessionTotals, messages: MessageTotals)

  /**
   * `getOverviewMetrics` at time `now`: the session totals by status, and the message counts
   * overall, by direction, failed, and created in the last 24 hours, with the ten newest.
   */
  method GetOverviewMetrics(db: Store, now: int) returns (o: Overview)
    ensures o.sessions.total == |db.sessions| && o.sessions.byStatus == ByStatus(db.sessions)
    ensures o.sessions.active == StatusCount(db.sessions, Connected)
    ensures o.sessions.waiting == StatusCount(db.sessions, WaitingCode) + StatusCount(db.sessions, WaitingQr)
    ensures o.messages.total == MM.Count(db.messages, MM.ALL)
    ensures o.messages.incoming == MM.Count(db.messages, MM.ALL.(direction := Some(MM.Incoming)))
    ensures o.messages.outgoing == MM.Count(db.messages, MM.ALL.(direction := Some(MM.Outgoing)))
    ensures o.messages.failed == MM.Count(db.messages, MM.ALL.(status := Some(MM.Failed)))
    ensures o.messages.last24hTotal == MM.Count(db.messages, MM.ALL.(createdFrom := Some(now - DAY_MS)))
    ensures o.messages.last24hFailed
            == MM.Count(db.messages, MM.ALL.(status := Some(MM.Failed), createdFrom := Some(now - DAY_MS)))
    ensures o.messages.incoming + o.messages.outgoing == o.messages.total
    ensures o.messages.failed <= o.messages.total && o.messages.last24hTotal <= o.messages.total
    ensures o.messages.last24hFailed <= o.messages.last24hTotal && o.messages.last24hFailed <= o.messages.failed
    ensures o.messages.latest == MM.Newest(db.messages, MM.ALL, MM.CreatedAt, OVERVIEW_LATEST)
  {
    var since24h := now - DAY_MS;
    var byStatus := ToSummary(Present(StatusGroups(db.sessions, ALL_STATUSES)));
    ByStatusCounts(db.sessions);
    var sessions := SessionTotals(|db.sessions|, byStatus, Active(byStatus), Waiting(byStatus));
    var totalMessages := MM.Count(db.messages, MM.ALL);
    var incomingMessages := MM.Count(db.messages, MM.ALL.(direction := Some(MM.Incoming)));
    var outgoingMessages := MM.Count(db.messages, MM.ALL.(direction := Some(MM.Outgoing)));
    var failedMessages := MM.Count(db.messages, MM.ALL.(status := Some(MM.Failed)));
    var messagesLast24h := MM.Count(db.messages, MM.ALL.(createdFrom := Some(since24h)));
    var failedLast24h := MM.Count(db.messages, MM.ALL.(status := Some(MM.Failed), createdFrom := Some(since24h)));
    MM.CountDirections(db.messages, MM.ALL);
    CountsNest(db.messages, MM.ALL, since24h);
    var latestMessages := MM.Newest(db.messages, MM.ALL, MM.CreatedAt, OVERVIEW_LATEST);
    o := Overview(sessions, MessageTotals(totalMessages, incomingMessages, outgoingMessages, failedMessages,
                                          messagesLast24h, failedLast24h, latestMessages));
  }

  datatype SessionMetrics = SessionMetrics(
    sessionId: string,
    status: SessionStatus,
    totalMessages: nat,
    totalFailed: nat,
    directions: map<string, int>,
    statuses: map<string, int>,
    last24hTotal: nat,
    last24hFailed: nat,
    latestMessages: seq<MM.Message>)

  /** The `$group` by `$direction` over the messages passing `q`. */
  function DirectionGroups(ms: seq<MM.Message>, q: MM.Query): seq<Group> {
    [Group(MM.DirectionName(MM.Incoming), MM.Count(ms, q.(direction := Some(MM.Incoming)))),
     Group(MM.DirectionName(MM.Outgoing), MM.Count(ms, q.(direction := Some(MM.Outgoing))))]
  }

  /** The `$group` by `$status` over the messages passing `q`. */
  function MessageStatusGroups(ms: seq<MM.Message>, q: MM.Query): seq<Group> {
    [Group(MM.MessageStatusName(MM.Received), MM.Count(ms, q.(status := Some(MM.Received)))),
     Group(MM.MessageStatusName(MM.Sent), MM.Count(ms, q.(status := Some(MM.Sent)))),
     Group(MM.MessageStatusName(MM.Failed), MM.Count(ms, q.(status := Some(MM.Failed))))]
  }

  /** The direction buckets add up to the session's total, and the `failed` bucket is its failed count. */
  lemma SessionSummaries(ms: seq<MM.Message>, q: MM.Query)
    requires q.direction.None?
    ensures Lookup0(Summary(map[], Present(DirectionGroups(ms, q))), "incoming")
            + Lookup0(Summary(map[], Present(DirectionGroups(ms, q))), "outgoing") == MM.Count(ms, q)
    ensures Lookup0(Summary(map[], Present(MessageStatusGroups(ms, q))), "failed")
            == MM.Count(ms, q.(status := Some(MM.Failed)))
  {
    var directions := DirectionGroups(ms, q);
    var statuses := MessageStatusGroups(ms, q);
    PresentSummary(map[], directions);
    assert directions[0].name == "incoming" && directions[1].name == "outgoing";
    MM.CountDirections(ms, q);
    PresentSummary(map[], statuses);
    assert statuses[2].name == "failed";
  }

  /**
   * `getSessionMetrics`: the id is only lowercased (not trimmed) and a 404 answers an unknown
   * session; the dashboard covers the messages stored under exactly that id.
   */
  method GetSessionMetrics(db: Store, rawId: string, now: int) returns (r: Result<SessionMetrics, Thrown>)
    ensures r.Err? <==> Find(db.sessions, Lower(rawId)).None?
    ensures r.Err? ==> r.error == CreateHttpError(404, SESSION_NOT_FOUND, None)
    ensures r.Ok? ==> && r.value.sessionId == Lower(rawId)
                      && r.value.status == Find(db.sessions, Lower(rawId)).value.status
    ensures var q := MM.ALL.(sessionId := Some(Lower(rawId)));
      r.Ok? ==>
        && r.value.totalMessages == MM.Count(db.messages, q)
        && r.value.totalFailed == MM.Count(db.messages, q.(status := Some(MM.Failed)))
        && r.value.last24hTotal == MM.Count(db.messages, q.(createdFrom := Some(now - DAY_MS)))
        && r.value.last24hFailed
           == MM.Count(db.messages, q.(status := Some(MM.Failed), createdFrom := Some(now - DAY_MS)))
        && r.value.latestMessages == MM.Newest(db.messages, q, MM.CreatedAt, SESSION_LATEST)
    ensures r.Ok? ==>
      && Lookup0(r.value.directions, "incoming") + Lookup0(r.value.directions, "outgoing") == r.value.totalMessages
      && Lookup0(r.value.statuses, "failed") == r.value.totalFailed
      && r.value.totalFailed <= r.value.totalMessages && r.value.last24hTotal <= r.value.totalMessages
      && r.value.last24hFailed <= r.value.last24hTotal && r.value.last24hFailed <= r.value.totalFailed
    ensures r.Ok? ==> forall i :: 0 <= i < |r.value.latestMessages| ==> r.value.latestMessages[i].sessionId == Lower(rawId)
  {
    var sessionId := Lower(rawId);
    LowerIdempotent(rawId);
    var session := db.FindSession(sessionId);
    if session.None? {
      return Err(CreateHttpError(404, SESSION_NOT_FOUND, None));
    }
    var since24h := now - DAY_MS;
    var q := MM.ALL.(sessionId := Some(sessionId));
    var directionSummary := ToSummary(Present(DirectionGroups(db.messages, q)));
    var statusSummary := ToSummary(Present(MessageStatusGroups(db.messages, q)));
    SessionSummaries(db.messages, q);
    var totalMessages := MM.Count(db.messages, q);
    var totalFailed := MM.Count(db.messages, q.(status := Some(MM.Failed)));
    var messagesLast24h := MM.Count(db.messages, q.(createdFrom := Some(since24h)));
    var failedLast24h := MM.Count(db.messages, q.(status := Some(MM.Failed), createdFrom := Some(since24h)));
    CountsNest(db.messages, q, since24h);
    var recentMessages := MM.Newest(db.messages, q, MM.CreatedAt, SESSION_LATEST);
    MM.NewestSpec(db.messages, q, MM.CreatedAt, SESSION_LATEST);
    r := Ok(SessionMetrics(sessionId, session.value.status, totalMessages, totalFailed, directionSummary, statusSummary,
                           messagesLast24h, failedLast24h, recentMessages));
  }
}
