/**
 * The broadcast hook: the `broadcasts` history the dashboard shows, and `sendBroadcast`,
 * which records a broadcast as sending, calls the broadcast route and settles the record
 * from the route's tally. The store, the route's answer and the server time are inputs.
 */
module BroadcastHook {
  import opened Common
  import opened Sorting
  import opened BroadcastRoute

  /** A stored broadcast record. */
  datatype Record = Record(
    message: string,
    targetAudience: string,
    customUserIds: seq<string>,
    status: string,          // 'sending' | 'sent' | 'failed'
    totalRecipients: nat,
    sentCount: nat,
    failedCount: nat,
    createdBy: string,
    createdAt: int,
    sentAt: Option<int>)

  /** The record written before anything is sent. */
  function NewRecord(message: string, userIds: seq<string>, now: int): (r: Record)
    ensures r.status == "sending" && r.totalRecipients == |userIds|
    ensures r.sentCount == 0 && r.failedCount == 0 && r.customUserIds == userIds
    ensures r.targetAudience == "custom" && r.createdBy == "admin-dashboard" && r.sentAt.None?
  {
    Record(message, "custom", userIds, "sending", |userIds|, 0, 0, "admin-dashboard", now, None)
  }

  /** The record after the route's tally: failed if anything failed, else sent, with the counts. */
  function Settled(r: Record, result: BroadcastResult, now: int): (e: Record)
    ensures e.status == (if result.failed > 0 then "failed" else "sent")
    ensures e.sentCount == result.success && e.failedCount == result.failed && e.sentAt == Some(now)
    ensures e.(status := r.status, sentCount := r.sentCount, failedCount := r.failedCount, sentAt := r.sentAt) == r
  {
    r.(status := if result.failed > 0 then "failed" else "sent", sentCount := result.success,
       failedCount := result.failed, sentAt := Some(now))
  }

  /** A settled record's counts cover every recipient the route tallied. */
  lemma SettledCountsAddUp(message: string, body: Request, outcomes: seq<SendOutcome>, now: int, later: int)
    requires body.message.Some? && body.message.value != "" && body.userIds.Some?
    requires |outcomes| == |body.userIds.value|
    ensures var reply := Post(Some(body), outcomes);
            var e := Settled(NewRecord(message, body.userIds.value, now), reply.result, later);
            reply.Sent? && e.sentCount + e.failedCount == e.totalRecipients
            && (e.status == "sent" <==> reply.result.errors.None?)
  {
  }

  /** What the route call gave back: no answer, a non-ok answer, or the tally. */
  datatype Response = NoAnswer | NotOkAnswer | Answer(result: BroadcastResult)

  predicate NewerFirst(a: Record, b: Record)
  {
    a.createdAt >= b.createdAt
  }

  /** The history query: newest first, at most fifty records. */
  function History(docs: seq<Record>): (h: seq<Record>)
    ensures |h| <= 50 && |h| == (if |docs| < 50 then |docs| else 50)
    ensures SortedBy(h, NewerFirst)
    ensures multiset(h) <= multiset(docs)
    ensures |docs| <= 50 ==> multiset(h) == multiset(docs)
  {
    var sorted := Sort(docs, NewerFirst);
    SortSorted(docs, NewerFirst);
    var h := Take(sorted, 50);
    assert sorted == h + sorted[|h|..];
    h
  }

  /** The records left out of the history are none of them newer than any shown. */
  lemma HistoryIsNewest(docs: seq<Record>, x: Record, y: Record)
    requires x in History(docs)
    requires y in multiset(docs) - multiset(History(docs))
    ensures x.createdAt >= y.createdAt
  {
    var sorted := Sort(docs, NewerFirst);
    SortSorted(docs, NewerFirst);
    var h := History(docs);
    var rest := sorted[|h|..];
    assert sorted == h + rest;
    assert multiset(docs) == multiset(h) + multiset(rest);
    assert y in rest;
    assert sorted[..|h|] == h;
    HeadBeforeTail(sorted, |h|, NewerFirst, x, y);
  }

  /** The `broadcasts` collection keyed by document id, and the hook's `sending` flag. */
  class Broadcasts {
    var store: map<string, Record>
    var sending: bool

    constructor (docs: map<string, Record>)
      ensures store == docs && !sending
    {
      store := docs;
      sending := false;
    }

    /**
     * `sendBroadcast`. `id` is the new document's id and `added` the outcome of writing it.
     * After the write the route is called; a missing or non-ok answer throws and the record
     * stays `sending`; a tally settles the record and is returned. The flag is down after
     * every path.
     */
    method SendBroadcast(message: string, userIds: seq<string>, id: string, added: Step,
                         response: Response, now: int, later: int)
      returns (result: Option<BroadcastResult>)
      modifies this
      requires id !in store
      ensures !sending
      ensures added.Failed? ==> store == old(store) && result.None?
      ensures added.Done? ==> store == old(store)[id := Stored(message, userIds, response, now, later)]
      ensures added.Done? && !response.Answer? ==> result.None?
      ensures added.Done? && response.Answer? ==> result == Some(response.result)
    {
      sending := true;
      result := None;
      if added.Done? {
        store := store[id := NewRecord(message, userIds, now)];
        if response.Answer? {
          store := store[id := Settled(store[id], response.result, later)];
          result := Some(response.result);
        }
      }
      sending := false;
    }
  }

  /** The record `SendBroadcast` stores once its write succeeded. */
  function Stored(message: string, userIds: seq<string>, response: Response, now: int, later: int): Record
  {
    if response.Answer? then Settled(NewRecord(message, userIds, now), response.result, later)
    else NewRecord(message, userIds, now)
  }

  /**
   * A stored record is left sending exactly when the route gave no tally, and then it
   * has counted neither successes nor failures and has no send time.
   */
  lemma StuckExactlyWhenUnanswered(message: string, userIds: seq<string>, response: Response, now: int, later: int)
    ensures var r := Stored(message, userIds, response, now, later);
            (r.status == "sending" <==> !response.Answer?)
            && (r.status == "sending" ==> r.sentCount == 0 && r.failedCount == 0 && r.sentAt.None?)
  {
  }
}
