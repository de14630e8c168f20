/**
 * The API helpers: `fetchWithRetry` over the outcomes its attempts would meet, the bot
 * health check built on it, and the error formatter.
 */
module Api {
  import opened Common
  import opened Text

  /** What one `fetch` would give: an answer with its status, or a thrown value. */
  datatype Outcome =
    | Answer(status: int, statusText: string)
    | Thrown(error: Option<string>)   // the message of a thrown Error; None for any other value

  /** `response.ok`. */
  predicate IsOk(status: int)
  {
    200 <= status <= 299
  }

  predicate IsClientError(status: int)
  {
    400 <= status < 500
  }

  /**
   * An Error the loop throws, by how its message is made: a 4xx answer's, a 5xx answer's,
   * or one carried over as is.
   */
  datatype Failure =
    | ClientError(status: int, statusText: string)
    | ServerError(status: int, statusText: string)
    | Error(message: string)

  /** The thrown Error's `message`. */
  function ErrorText(f: Failure): string
  {
    match f
    case ClientError(status, text) => "Client error: " + IntToString(status) + " " + text
    case ServerError(status, text) => "Server error: " + IntToString(status) + " " + text
    case Error(message) => message
  }

  /** The error an attempt lands in the catch block with, if it does. */
  function Caught(o: Outcome): Option<Failure>
  {
    match o
    case Answer(status, text) => if IsClientError(status) then Some(ClientError(status, text)) else None
    case Thrown(e) => Some(Error(e.GetOr("Unknown error")))
  }

  function Pow2(i: nat): (p: nat)
    ensures p >= 1
  {
    if i == 0 then 1 else 2 * Pow2(i - 1)
  }

  /** How a call ends: the ok response, or the thrown error's message. */
  datatype Fetched = Response(status: int) | Threw(error: Failure)

  /** A call's end, how many fetches it made, and the delays it waited, in order. */
  datatype Run = Run(result: Fetched, attempts: nat, waits: seq<int>)

  function Prefix(waits: seq<int>, r: Run): Run
  {
    Run(r.result, r.attempts, waits + r.waits)
  }

  /** `response.ok`, for an outcome. */
  predicate OkAnswer(o: Outcome)
  {
    o.Answer? && IsOk(o.status)
  }

  /**
   * The loop as written, from attempt `i` on, `lastError` being the error recorded so
   * far. An ok answer is returned. A caught error is rethrown on the last attempt and
   * otherwise waited on for `retryDelay * 2^i`; a 4xx answer throws inside the try, so
   * it is caught like any other error and retried. Any other answer records a server
   * error and goes on at once. After the loop the last error, or 'Max retries reached',
   * is thrown.
   */
  function RetryAsWritten(outcomes: seq<Outcome>, maxRetries: int, retryDelay: int, i: nat,
                          lastError: Option<Failure>): (r: Run)
    requires maxRetries <= |outcomes|
    ensures r.attempts >= i
    ensures i < maxRetries ==> r.attempts >= i + 1
    ensures maxRetries >= i ==> r.attempts <= maxRetries
    ensures maxRetries <= i ==> r == Run(Threw(lastError.GetOr(Error("Max retries reached"))), i, [])
    decreases maxRetries - i
  {
    if i >= maxRetries then Run(Threw(lastError.GetOr(Error("Max retries reached"))), i, [])
    else
      var o := outcomes[i];
      if OkAnswer(o) then Run(Response(o.status), i + 1, [])
      else if Caught(o).Some? then
        if i == maxRetries - 1 then Run(Threw(Caught(o).value), i + 1, [])
        else Prefix([retryDelay * Pow2(i)], RetryAsWritten(outcomes, maxRetries, retryDelay, i + 1, Caught(o)))
      else RetryAsWritten(outcomes, maxRetries, retryDelay, i + 1, Some(ServerError(o.status, o.statusText)))
  }

  /** The error an attempt that neither returns nor throws for good leaves recorded. */
  function Recorded(o: Outcome): Option<Failure>
  {
    if Caught(o).Some? then Caught(o) else Some(ServerError(o.status, o.statusText))
  }

  /** The wait after such an attempt: the backoff after a caught error, none after a server error. */
  function WaitAfter(o: Outcome, retryDelay: int, i: nat): seq<int>
  {
    if Caught(o).Some? then [retryDelay * Pow2(i)] else []
  }

  /** How an attempt that ends the call ends it. */
  function Ending(o: Outcome): Fetched
  {
    if OkAnswer(o) then Response(o.status)
    else if o.Answer? then Threw(ClientError(o.status, o.statusText))
    else Threw(Error(o.error.GetOr("Unknown error")))
  }

  /**
   * One step of the written loop: an attempt that is not ok, and is not a caught error
   * on the last attempt, records its error, waits its backoff and goes on.
   */
  lemma WrittenUnfold(outcomes: seq<Outcome>, maxRetries: int, retryDelay: int, i: nat, lastError: Option<Failure>)
    requires maxRetries <= |outcomes| && i < maxRetries
    requires !OkAnswer(outcomes[i])
    requires Caught(outcomes[i]).Some? ==> i < maxRetries - 1
    ensures RetryAsWritten(outcomes, maxRetries, retryDelay, i, lastError)
            == Prefix(WaitAfter(outcomes[i], retryDelay, i), RetryAsWritten(outcomes, maxRetries, retryDelay, i + 1, Recorded(outcomes[i])))
  {
    var t := RetryAsWritten(outcomes, maxRetries, retryDelay, i + 1, Recorded(outcomes[i]));
    assert [] + t.waits == t.waits;
  }

  /** An ok answer, or a caught error on the last attempt, ends the written loop there. */
  lemma WrittenEnds(outcomes: seq<Outcome>, maxRetries: int, retryDelay: int, i: nat, lastError: Option<Failure>)
    requires maxRetries <= |outcomes| && i < maxRetries
    requires OkAnswer(outcomes[i]) || (Caught(outcomes[i]).Some? && i == maxRetries - 1)
    ensures RetryAsWritten(outcomes, maxRetries, retryDelay, i, lastError) == Run(Ending(outcomes[i]), i + 1, [])
  {
  }

  /**
   * A 4xx answer before the last attempt is waited on like a failure and the next attempt
   * made, with the client error recorded; on the last attempt it is thrown.
   */
  lemma ClientErrorRetriedAt(outcomes: seq<Outcome>, maxRetries: int, retryDelay: int, i: nat, lastError: Option<Failure>)
    requires maxRetries <= |outcomes| && i < maxRetries
    requires outcomes[i].Answer? && IsClientError(outcomes[i].status)
    ensures i < maxRetries - 1 ==>
              RetryAsWritten(outcomes, maxRetries, retryDelay, i, lastError)
              == Prefix([retryDelay * Pow2(i)],
                        RetryAsWritten(outcomes, maxRetries, retryDelay, i + 1,
                                       Some(ClientError(outcomes[i].status, outcomes[i].statusText))))
    ensures i == maxRetries - 1 ==>
              RetryAsWritten(outcomes, maxRetries, retryDelay, i, lastError)
              == Run(Threw(ClientError(outcomes[i].status, outcomes[i].statusText)), maxRetries, [])
  {
    if i < maxRetries - 1 {
      WrittenUnfold(outcomes, maxRetries, retryDelay, i, lastError);
    } else {
      WrittenEnds(outcomes, maxRetries, retryDelay, i, lastError);
    }
  }

  /** A 404 followed by an ok answer: the written loop retries the client error and succeeds. */
  lemma ClientErrorRetried()
    ensures RetryAsWritten([Answer(404, "Not Found"), Answer(200, "OK"), Answer(200, "OK")], 3, 1000, 0, None)
            == Run(Response(200), 2, [1000])
  {
    var os := [Answer(404, "Not Found"), Answer(200, "OK"), Answer(200, "OK")];
    assert Caught(os[0]).Some?;
    assert RetryAsWritten(os, 3, 1000, 1, Caught(os[0])) == Run(Response(200), 2, []);
  }

  /** `fetchWithRetry`: `outcomes[i]` is what attempt `i` meets. */
  method FetchWithRetry(outcomes: seq<Outcome>, maxRetries: int, retryDelay: int)
    returns (result: Fetched, attempts: nat, waits: seq<int>)
    requires maxRetries <= |outcomes|
    ensures Run(result, attempts, waits) == RetryAsWritten(outcomes, maxRetries, retryDelay, 0, None)
  {
    var lastError: Option<Failure> := None;
    waits := [];
    var i := 0;
    while i < maxRetries
      invariant 0 <= i && (maxRetries >= 0 ==> i <= maxRetries)
      invariant RetryAsWritten(outcomes, maxRetries, retryDelay, 0, None)
                == Prefix(waits, RetryAsWritten(outcomes, maxRetries, retryDelay, i, lastError))
      decreases maxRetries - i
    {
      var o := outcomes[i];
      if OkAnswer(o) {
        assert waits + [] == waits;
        return Response(o.status), i + 1, waits;
      }
      // a 4xx answer is thrown inside the try; it and a failed fetch reach the catch
      var caught := Caught(o);
      if caught.Some? && i == maxRetries - 1 {
        assert waits + [] == waits;
        return Threw(caught.value), i + 1, waits;
      }
      WrittenUnfold(outcomes, maxRetries, retryDelay, i, lastError);
      ghost var rest := RetryAsWritten(outcomes, maxRetries, retryDelay, i + 1, Recorded(o));
      var wait: seq<int> := [];
      if caught.Some? {
        lastError := caught;
        wait := [retryDelay * Pow2(i)];
      } else {
        lastError := Some(ServerError(o.status, o.statusText));
      }
      assert waits + (wait + rest.waits) == (waits + wait) + rest.waits;
      waits := waits + wait;
      i := i + 1;
    }
    assert waits + [] == waits;
    result := Threw(lastError.GetOr(Error("Max retries reached")));
    attempts := i;
  }

  /** No attempts allowed: nothing is fetched and 'Max retries reached' is thrown. */
  lemma NoAttempts(outcomes: seq<Outcome>, maxRetries: int, retryDelay: int)
    requires maxRetries <= 0
    ensures RetryAsWritten(outcomes, maxRetries, retryDelay, 0, None) == Run(Threw(Error("Max retries reached")), 0, [])
  {
  }

  /** The first ok answer ends the call at once, whatever failed before it. */
  lemma {:induction false} FirstOkReturned(outcomes: seq<Outcome>, maxRetries: int, retryDelay: int, i: nat,
                                           lastError: Option<Failure>, k: nat)
    requires maxRetries <= |outcomes| && i <= k < maxRetries
    requires OkAnswer(outcomes[k])
    requires forall j :: i <= j < k ==> !OkAnswer(outcomes[j])
    ensures RetryAsWritten(outcomes, maxRetries, retryDelay, i, lastError).result == Response(outcomes[k].status)
    ensures RetryAsWritten(outcomes, maxRetries, retryDelay, i, lastError).attempts == k + 1
    decreases k - i
  {
    if i < k {
      WrittenUnfold(outcomes, maxRetries, retryDelay, i, lastError);
      FirstOkReturned(outcomes, maxRetries, retryDelay, i + 1, Recorded(outcomes[i]), k);
    }
  }

  /** Without an ok answer among the attempts allowed, the call throws. */
  lemma {:induction false} NoOkThrows(outcomes: seq<Outcome>, maxRetries: int, retryDelay: int, i: nat,
                                      lastError: Option<Failure>)
    requires maxRetries <= |outcomes|
    requires forall j :: i <= j < maxRetries ==> !OkAnswer(outcomes[j])
    ensures RetryAsWritten(outcomes, maxRetries, retryDelay, i, lastError).result.Threw?
    decreases maxRetries - i
  {
    if i < maxRetries {
      if Caught(outcomes[i]).Some? && i == maxRetries - 1 {
        WrittenEnds(outcomes, maxRetries, retryDelay, i, lastError);
      } else {
        WrittenUnfold(outcomes, maxRetries, retryDelay, i, lastError);
        NoOkThrows(outcomes, maxRetries, retryDelay, i + 1, Recorded(outcomes[i]));
      }
    }
  }

  /** The delays after the attempts `i .. n - 1` that met a caught error, in order. */
  function Backoff(outcomes: seq<Outcome>, retryDelay: int, i: nat, n: nat): seq<int>
    requires n <= |outcomes|
    decreases n - i
  {
    if i >= n then []
    else WaitAfter(outcomes[i], retryDelay, i) + Backoff(outcomes, retryDelay, i + 1, n)
  }

  /**
   * The call waits `retryDelay * 2^i` after each attempt `i` that met a failure or a
   * 4xx answer, except the last one made, and never after a server error.
   */
  lemma {:induction false} WaitsBackoff(outcomes: seq<Outcome>, maxRetries: int, retryDelay: int, i: nat,
                                        lastError: Option<Failure>)
    requires maxRetries <= |outcomes| && i < maxRetries
    ensures var r := RetryAsWritten(outcomes, maxRetries, retryDelay, i, lastError);
            r.waits == Backoff(outcomes, retryDelay, i, r.attempts - 1)
    decreases maxRetries - i
  {
    var o := outcomes[i];
    if OkAnswer(o) || (Caught(o).Some? && i == maxRetries - 1) {
      WrittenEnds(outcomes, maxRetries, retryDelay, i, lastError);
    } else {
      WrittenUnfold(outcomes, maxRetries, retryDelay, i, lastError);
      var t := RetryAsWritten(outcomes, maxRetries, retryDelay, i + 1, Recorded(o));
      if i + 1 < maxRetries {
        WaitsBackoff(outcomes, maxRetries, retryDelay, i + 1, Recorded(o));
        assert Backoff(outcomes, retryDelay, i, t.attempts - 1)
               == WaitAfter(o, retryDelay, i) + Backoff(outcomes, retryDelay, i + 1, t.attempts - 1);
      } else {
        assert t == Run(Threw(Recorded(o).GetOr(Error("Max retries reached"))), i + 1, []);
      }
    }
  }

  /** When every attempt meets a server error, the last one's is thrown, with no wait. */
  lemma {:induction false} LastServerErrorThrown(outcomes: seq<Outcome>, maxRetries: int, retryDelay: int, i: nat,
                                                 lastError: Option<Failure>)
    requires maxRetries <= |outcomes| && i < maxRetries
    requires forall j :: i <= j < maxRetries ==> outcomes[j].Answer? && !IsOk(outcomes[j].status) && !IsClientError(outcomes[j].status)
    ensures RetryAsWritten(outcomes, maxRetries, retryDelay, i, lastError) ==
              Run(Threw(ServerError(outcomes[maxRetries - 1].status, outcomes[maxRetries - 1].statusText)), maxRetries, [])
    decreases maxRetries - i
  {
    WrittenUnfold(outcomes, maxRetries, retryDelay, i, lastError);
    if i < maxRetries - 1 {
      LastServerErrorThrown(outcomes, maxRetries, retryDelay, i + 1, Recorded(outcomes[i]));
    } else {
      var t := RetryAsWritten(outcomes, maxRetries, retryDelay, i + 1, Recorded(outcomes[i]));
      assert t == Run(Threw(Recorded(outcomes[i]).GetOr(Error("Max retries reached"))), maxRetries, []);
      assert [] + t.waits == [];
    }
  }

  /**
   * The loop as its comment intends it: the same, except that a 4xx answer is thrown at
   * once, without retrying.
   */
  function Retry(outcomes: seq<Outcome>, maxRetries: int, retryDelay: int, i: nat, lastError: Option<Failure>): (r: Run)
    requires maxRetries <= |outcomes|
    ensures r.attempts >= i
    ensures i < maxRetries ==> r.attempts >= i + 1
    ensures maxRetries >= i ==> r.attempts <= maxRetries
    ensures maxRetries <= i ==> r == Run(Threw(lastError.GetOr(Error("Max retries reached"))), i, [])
    decreases maxRetries - i
  {
    if i >= maxRetries then Run(Threw(lastError.GetOr(Error("Max retries reached"))), i, [])
    else
      var o := outcomes[i];
      if OkAnswer(o) then Run(Response(o.status), i + 1, [])
      else if o.Answer? && IsClientError(o.status) then Run(Threw(ClientError(o.status, o.statusText)), i + 1, [])
      else if Caught(o).Some? then
        if i == maxRetries - 1 then Run(Threw(Caught(o).value), i + 1, [])
        else Prefix([retryDelay * Pow2(i)], Retry(outcomes, maxRetries, retryDelay, i + 1, Caught(o)))
      else Retry(outcomes, maxRetries, retryDelay, i + 1, Some(ServerError(o.status, o.statusText)))
  }

  /**
   * One step of the intended loop: a server error, or a failure before the last attempt,
   * records its error, waits its backoff and goes on.
   */
  lemma RetryUnfold(outcomes: seq<Outcome>, maxRetries: int, retryDelay: int, i: nat, lastError: Option<Failure>)
    requires maxRetries <= |outcomes| && i < maxRetries
    requires !(outcomes[i].Answer? && (IsOk(outcomes[i].status) || IsClientError(outcomes[i].status)))
    requires outcomes[i].Thrown? ==> i < maxRetries - 1
    ensures Retry(outcomes, maxRetries, retryDelay, i, lastError)
            == Prefix(WaitAfter(outcomes[i], retryDelay, i), Retry(outcomes, maxRetries, retryDelay, i + 1, Recorded(outcomes[i])))
  {
    var t := Retry(outcomes, maxRetries, retryDelay, i + 1, Recorded(outcomes[i]));
    assert [] + t.waits == t.waits;
  }

  /** An ok answer, a client error, or a failure on the last attempt ends the intended loop there. */
  lemma RetryEnds(outcomes: seq<Outcome>, maxRetries: int, retryDelay: int, i: nat, lastError: Option<Failure>)
    requires maxRetries <= |outcomes| && i < maxRetries
    requires || (outcomes[i].Answer? && (IsOk(outcomes[i].status) || IsClientError(outcomes[i].status)))
             || (outcomes[i].Thrown? && i == maxRetries - 1)
    ensures Retry(outcomes, maxRetries, retryDelay, i, lastError) == Run(Ending(outcomes[i]), i + 1, [])
  {
  }

  /** An attempt that does not end the intended loop leaves its end and its count to the next one. */
  lemma SameEndAsNext(outcomes: seq<Outcome>, maxRetries: int, retryDelay: int, i: nat, lastError: Option<Failure>)
    requires maxRetries <= |outcomes| && i < maxRetries - 1
    requires !(outcomes[i].Answer? && (IsOk(outcomes[i].status) || IsClientError(outcomes[i].status)))
    ensures Retry(outcomes, maxRetries, retryDelay, i, lastError).result
            == Retry(outcomes, maxRetries, retryDelay, i + 1, Recorded(outcomes[i])).result
    ensures Retry(outcomes, maxRetries, retryDelay, i, lastError).attempts
            == Retry(outcomes, maxRetries, retryDelay, i + 1, Recorded(outcomes[i])).attempts
  {
    RetryUnfold(outcomes, maxRetries, retryDelay, i, lastError);
  }

  /** In the intended loop the first client error ends the call with that error, unretried. */
  lemma {:induction false} ClientErrorStops(outcomes: seq<Outcome>, maxRetries: int, retryDelay: int, i: nat,
                                            lastError: Option<Failure>, k: nat)
    requires maxRetries <= |outcomes| && i <= k < maxRetries
    requires outcomes[k].Answer? && IsClientError(outcomes[k].status)
    requires forall j :: i <= j < k ==> !(outcomes[j].Answer? && (IsOk(outcomes[j].status) || IsClientError(outcomes[j].status)))
    ensures Retry(outcomes, maxRetries, retryDelay, i, lastError).result
            == Threw(ClientError(outcomes[k].status, outcomes[k].statusText))
    ensures Retry(outcomes, maxRetries, retryDelay, i, lastError).attempts == k + 1
    decreases k - i
  {
    if i == k {
      RetryEnds(outcomes, maxRetries, retryDelay, i, lastError);
    } else {
      SameEndAsNext(outcomes, maxRetries, retryDelay, i, lastError);
      ClientErrorStops(outcomes, maxRetries, retryDelay, i + 1, Recorded(outcomes[i]), k);
    }
  }

  /** Where no client error is met the intended loop and the written one agree. */
  lemma {:induction false} AgreesWithoutClientErrors(outcomes: seq<Outcome>, maxRetries: int, retryDelay: int,
                                                     i: nat, lastError: Option<Failure>)
    requires maxRetries <= |outcomes|
    requires forall j :: i <= j < maxRetries ==> !(outcomes[j].Answer? && IsClientError(outcomes[j].status))
    ensures Retry(outcomes, maxRetries, retryDelay, i, lastError) == RetryAsWritten(outcomes, maxRetries, retryDelay, i, lastError)
    decreases maxRetries - i
  {
    if i < maxRetries {
      var o := outcomes[i];
      if Caught(o).Some? {
        AgreesWithoutClientErrors(outcomes, maxRetries, retryDelay, i + 1, Caught(o));
      } else {
        AgreesWithoutClientErrors(outcomes, maxRetries, retryDelay, i + 1, Some(ServerError(o.status, o.statusText)));
      }
    }
  }

  /** The bot status route's body: it may fail to parse, and may lack a string `status`. */
  datatype Body = Unparsable | Parsed(status: Option<string>)

  datatype Health = Online | Offline

  /**
   * `checkBotHealth`: two attempts a second apart; online exactly when an ok response
   * comes back whose body reports 'healthy'. The body is returned when it parsed.
   */
  function CheckBotHealth(outcomes: seq<Outcome>, body: Body): (r: (Health, Option<Body>))
    requires 2 <= |outcomes|
    ensures r.0 == Online <==> RetryAsWritten(outcomes, 2, 1000, 0, None).result.Response? && body == Parsed(Some("healthy"))
    ensures r.1.Some? <==> RetryAsWritten(outcomes, 2, 1000, 0, None).result.Response? && body.Parsed?
  {
    var run := RetryAsWritten(outcomes, 2, 1000, 0, None);
    if run.result.Threw? || body.Unparsable? then (Offline, None)
    else (if body.status == Some("healthy") then Online else Offline, Some(body))
  }

  /** Two network failures in a row leave the bot offline after one one-second wait. */
  lemma HealthOfflineWhenUnreachable(body: Body)
    ensures CheckBotHealth([Thrown(None), Thrown(None)], body) == (Offline, None)
    ensures RetryAsWritten([Thrown(None), Thrown(None)], 2, 1000, 0, None) == Run(Threw(Error("Unknown error")), 2, [1000])
  {
    var os := [Thrown(None), Thrown(None)];
    assert RetryAsWritten(os, 2, 1000, 1, Some(Error("Unknown error"))) == Run(Threw(Error("Unknown error")), 2, []);
  }

  /** The bot is online whenever an ok healthy answer comes within the two attempts, a 4xx first or not. */
  lemma HealthOnlineWhenOkWithinTwo(outcomes: seq<Outcome>)
    requires 2 <= |outcomes|
    requires OkAnswer(outcomes[0]) || OkAnswer(outcomes[1])
    ensures CheckBotHealth(outcomes, Parsed(Some("healthy"))) == (Online, Some(Parsed(Some("healthy"))))
  {
    if OkAnswer(outcomes[0]) {
      FirstOkReturned(outcomes, 2, 1000, 0, None, 0);
    } else {
      FirstOkReturned(outcomes, 2, 1000, 0, None, 1);
    }
  }

  /** The value a `catch` receives. */
  datatype Thrown = ErrorObject(message: string) | StringValue(s: string) | OtherValue

  /** `formatErrorMessage`. */
  function FormatErrorMessage(e: Thrown): (m: string)
    ensures e.ErrorObject? ==> m == e.message
    ensures e.StringValue? ==> m == e.s
    ensures e.OtherValue? ==> m == "An unknown error occurred"
  {
    match e
    case ErrorObject(message) => message
    case StringValue(s) => s
    case OtherValue => "An unknown error occurred"
  }

  /** What `fetchWithRetry` throws is an Error, so formatting it gives back its message. */
  lemma FormatsRetryError(outcomes: seq<Outcome>, maxRetries: int, retryDelay: int)
    requires maxRetries <= |outcomes|
    requires RetryAsWritten(outcomes, maxRetries, retryDelay, 0, None).result.Threw?
    ensures FormatErrorMessage(ErrorObject(ErrorText(RetryAsWritten(outcomes, maxRetries, retryDelay, 0, None).result.error)))
            == ErrorText(RetryAsWritten(outcomes, maxRetries, retryDelay, 0, None).result.error)
  {
  }
}
