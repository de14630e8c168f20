/**
 * The broadcast API route: request validation, one send per recipient, and the tally
 * of fulfilled and rejected sends returned to the dashboard.
 */
module BroadcastRoute {
  import opened Common

  /** How one recipient's send to the bot ended. */
  datatype SendOutcome =
    | Delivered          // the bot answered with an ok status
    | NotOk              // the bot answered with an error status
    | Thrown(reason: string)  // the request itself failed, with this error message

  /** The settled promise of one send. */
  datatype Attempt = Fulfilled | Rejected(reason: string)

  /** A send that throws on a non-ok answer, naming the recipient in its error. */
  function AttemptOf(userId: string, o: SendOutcome): (a: Attempt)
    ensures a.Fulfilled? <==> o.Delivered?
    ensures o.NotOk? ==> a == Rejected("Failed to send to " + userId)
  {
    match o
    case Delivered => Fulfilled
    case NotOk => Rejected("Failed to send to " + userId)
    case Thrown(reason) => Rejected(reason)
  }

  /** `Promise.allSettled` over the sends: one attempt per recipient, in order. */
  function Attempts(userIds: seq<string>, outcomes: seq<SendOutcome>): (r: seq<Attempt>)
    requires |outcomes| == |userIds|
    ensures |r| == |userIds|
    ensures forall k :: 0 <= k < |r| ==> r[k] == AttemptOf(userIds[k], outcomes[k])
  {
    if userIds == [] then [] else [AttemptOf(userIds[0], outcomes[0])] + Attempts(userIds[1..], outcomes[1..])
  }

  predicate IsFulfilled(a: Attempt)
  {
    a.Fulfilled?
  }

  predicate IsRejected(a: Attempt)
  {
    a.Rejected?
  }

  datatype SendError = SendError(userId: string, error: string)

  datatype BroadcastResult = BroadcastResult(success: nat, failed: nat, total: nat, errors: Option<seq<SendError>>)

  /**
   * The `errors` list as written: the i-th rejection is paired with `userIds[i]`, the
   * i-th recipient of the whole list rather than the recipient that failed.
   */
  function ErrorsAsWritten(userIds: seq<string>, attempts: seq<Attempt>): (r: seq<SendError>)
    requires |attempts| == |userIds|
    ensures |r| == Count(attempts, IsRejected)
    ensures forall i :: 0 <= i < |r| ==> r[i].userId == userIds[i]
    ensures forall i :: 0 <= i < |r| ==> Filter(attempts, IsRejected)[i].Rejected?
                                         && r[i].error == Filter(attempts, IsRejected)[i].reason
  {
    var rejected := Filter(attempts, IsRejected);
    seq(|rejected|, i requires 0 <= i < |rejected| => SendError(userIds[i], rejected[i].reason))
  }

  /** With the first recipient delivered and the second rejected, the error names the first. */
  lemma ErrorsMisIndexed()
    ensures var ids := ["6281", "6282"];
            var attempts := Attempts(ids, [Delivered, NotOk]);
            ErrorsAsWritten(ids, attempts) == [SendError("6281", "Failed to send to 6282")]
  {
    var ids := ["6281", "6282"];
    var attempts := Attempts(ids, [Delivered, NotOk]);
    assert "Failed to send to " + "6282" == "Failed to send to 6282";
    assert attempts == [Fulfilled, Rejected("Failed to send to 6282")];
    assert Filter(attempts, IsRejected) == [Rejected("Failed to send to 6282")] by {
      assert attempts[1..] == [Rejected("Failed to send to 6282")];
      assert attempts[1..][1..] == [];
    }
  }

  /** The `errors` list as intended: each rejection paired with its own recipient, in order. */
  function Errors(userIds: seq<string>, attempts: seq<Attempt>): (r: seq<SendError>)
    requires |attempts| == |userIds|
    ensures |r| == Count(attempts, IsRejected)
    ensures forall i :: 0 <= i < |r| ==>
              exists k :: 0 <= k < |userIds| && attempts[k].Rejected? && r[i] == SendError(userIds[k], attempts[k].reason)
    ensures forall k :: 0 <= k < |userIds| && attempts[k].Rejected? ==> SendError(userIds[k], attempts[k].reason) in r
    decreases |userIds|
  {
    if userIds == [] then []
    else
      var rest := Errors(userIds[1..], attempts[1..]);
      assert forall k :: 0 <= k < |userIds[1..]| ==> userIds[1..][k] == userIds[k + 1] && attempts[1..][k] == attempts[k + 1];
      if attempts[0].Rejected? then [SendError(userIds[0], attempts[0].reason)] + rest else rest
  }

  /** The intended list's messages are the rejections' reasons, in order. */
  lemma {:induction false} ErrorsFollowRejections(userIds: seq<string>, attempts: seq<Attempt>)
    requires |attempts| == |userIds|
    ensures forall i :: 0 <= i < |Errors(userIds, attempts)| ==>
              Filter(attempts, IsRejected)[i].Rejected?
              && Errors(userIds, attempts)[i].error == Filter(attempts, IsRejected)[i].reason
    decreases |userIds|
  {
    if userIds != [] {
      ErrorsFollowRejections(userIds[1..], attempts[1..]);
      var e, e' := Errors(userIds, attempts), Errors(userIds[1..], attempts[1..]);
      var f, f' := Filter(attempts, IsRejected), Filter(attempts[1..], IsRejected);
      if attempts[0].Rejected? {
        assert e == [SendError(userIds[0], attempts[0].reason)] + e';
        assert f == [attempts[0]] + f';
        forall i | 0 <= i < |e| ensures f[i].Rejected? && e[i].error == f[i].reason {
          if i > 0 {
            assert e[i] == e'[i - 1] && f[i] == f'[i - 1];
          }
        }
      } else {
        assert e == e' && f == f';
      }
    }
  }

  /**
   * The written list carries the right messages in the right order: it differs from the
   * intended one only in the recipient it names.
   */
  lemma AsWrittenKeepsMessages(userIds: seq<string>, attempts: seq<Attempt>)
    requires |attempts| == |userIds|
    ensures |ErrorsAsWritten(userIds, attempts)| == |Errors(userIds, attempts)|
    ensures forall i :: 0 <= i < |Errors(userIds, attempts)| ==>
              ErrorsAsWritten(userIds, attempts)[i].error == Errors(userIds, attempts)[i].error
  {
    ErrorsFollowRejections(userIds, attempts);
  }

  /** When every failure comes before every success the written pairing happens to be right. */
  lemma {:induction false} AsWrittenRightWhenFailuresLead(userIds: seq<string>, attempts: seq<Attempt>, n: nat)
    requires |attempts| == |userIds| && n <= |userIds|
    requires forall k :: 0 <= k < |attempts| ==> (attempts[k].Rejected? <==> k < n)
    ensures ErrorsAsWritten(userIds, attempts) == Errors(userIds, attempts)
  {
    var e := Errors(userIds, attempts);
    var w := ErrorsAsWritten(userIds, attempts);
    LeadingErrors(userIds, attempts, n);
    RejectedPrefix(attempts, n);
    assert |w| == |e|;
    forall i | 0 <= i < |w| ensures w[i] == e[i] {
      assert Filter(attempts, IsRejected)[i] == attempts[i];
    }
  }

  lemma {:induction false} LeadingErrors(userIds: seq<string>, attempts: seq<Attempt>, n: nat)
    requires |attempts| == |userIds| && n <= |userIds|
    requires forall k :: 0 <= k < |attempts| ==> (attempts[k].Rejected? <==> k < n)
    ensures |Errors(userIds, attempts)| == n
    ensures forall i :: 0 <= i < n ==> Errors(userIds, attempts)[i] == SendError(userIds[i], attempts[i].reason)
    decreases |userIds|
  {
    if userIds != [] {
      var m := if n > 0 then n - 1 else 0;
      assert forall k :: 0 <= k < |attempts[1..]| ==> attempts[1..][k] == attempts[k + 1];
      LeadingErrors(userIds[1..], attempts[1..], m);
    }
  }

  lemma RejectedPrefix(attempts: seq<Attempt>, n: nat)
    requires n <= |attempts|
    requires forall k :: 0 <= k < |attempts| ==> (attempts[k].Rejected? <==> k < n)
    ensures Filter(attempts, IsRejected) == attempts[..n]
  {
    var head, tail := attempts[..n], attempts[n..];
    assert attempts == head + tail;
    SplitAtFirstSuccess(attempts, n);
    FilterAppend(head, tail, IsRejected);
    FilterAll(head, IsRejected);
    FilterNone(tail, IsRejected);
    assert head + [] == head;
  }

  /** Everything before `n` was rejected and nothing from `n` on. */
  lemma SplitAtFirstSuccess(attempts: seq<Attempt>, n: nat)
    requires n <= |attempts|
    requires forall k :: 0 <= k < |attempts| ==> (attempts[k].Rejected? <==> k < n)
    ensures forall k :: 0 <= k < |attempts[..n]| ==> IsRejected(attempts[..n][k])
    ensures forall k :: 0 <= k < |attempts[n..]| ==> !IsRejected(attempts[n..][k])
  {
    forall k | 0 <= k < |attempts[n..]| ensures !IsRejected(attempts[n..][k]) {
      assert attempts[n..][k] == attempts[n + k];
    }
  }

  /** The reply's body: the counts, and the errors only when something failed. */
  function Tally(userIds: seq<string>, attempts: seq<Attempt>): (r: BroadcastResult)
    requires |attempts| == |userIds|
    ensures r.success + r.failed == r.total == |userIds|
    ensures r.success == Count(attempts, IsFulfilled) && r.failed == Count(attempts, IsRejected)
    ensures r.errors.None? <==> r.failed == 0
    ensures r.errors.Some? ==> r.errors.value == ErrorsAsWritten(userIds, attempts)
  {
    CountComplement(attempts, IsFulfilled, IsRejected);
    var errors := ErrorsAsWritten(userIds, attempts);
    BroadcastResult(Count(attempts, IsFulfilled), Count(attempts, IsRejected), |userIds|,
                    if |errors| > 0 then Some(errors) else None)
  }

  /** The parsed request body; `userIds` is None when missing or not an array. */
  datatype Request = Request(message: Option<string>, userIds: Option<seq<string>>)

  datatype Reply = BadRequest | Sent(result: BroadcastResult) | ServerError

  function StatusCode(r: Reply): nat
  {
    match r
    case BadRequest => 400
    case Sent(_) => 200
    case ServerError => 500
  }

  /**
   * `POST`: a body that does not parse is a server error; a falsy message or a missing
   * recipient array is a bad request, and nothing is sent; otherwise every recipient is
   * tried once and the tally returned.
   */
  function Post(body: Option<Request>, outcomes: seq<SendOutcome>): (r: Reply)
    requires body.Some? && body.value.userIds.Some? ==> |outcomes| == |body.value.userIds.value|
    ensures body.None? ==> StatusCode(r) == 500
    ensures body.Some? ==> (StatusCode(r) == 400 <==>
              body.value.message.None? || body.value.message == Some("") || body.value.userIds.None?)
    ensures body.Some? && StatusCode(r) != 400 ==> r.Sent?
    ensures r.Sent? ==> r.result.total == |body.value.userIds.value|
                        && r.result == Tally(body.value.userIds.value, Attempts(body.value.userIds.value, outcomes))
  {
    if body.None? then ServerError
    else if body.value.message.None? || body.value.message == Some("") || body.value.userIds.None? then BadRequest
    else
      var ids := body.value.userIds.value;
      Sent(Tally(ids, Attempts(ids, outcomes)))
  }

  /** Every recipient delivered: everything succeeded and no errors are listed. */
  lemma AllDelivered(userIds: seq<string>, outcomes: seq<SendOutcome>)
    requires |outcomes| == |userIds|
    requires forall k :: 0 <= k < |outcomes| ==> outcomes[k].Delivered?
    ensures Tally(userIds, Attempts(userIds, outcomes)) == BroadcastResult(|userIds|, 0, |userIds|, None)
  {
    var a := Attempts(userIds, outcomes);
    assert forall k :: 0 <= k < |a| ==> IsFulfilled(a[k]);
  }
}
