/** The retry policy of the second handler variant (`fetchWithRetry`).
    The transport is abstracted to the sequence of answers its attempts get;
    the delays are returned instead of slept. */
module Fetcher {
  import opened Wrappers

  /** The default retry budget: three attempts in all. */
  const DefaultRetries: nat := 2
  const LegallyBlocked: int := 451

  /** What one attempt gets back: an HTTP response whose body may or may not
      decode as JSON, or a thrown network error. */
  datatype Attempt<B> = Response(status: int, json: Option<B>) | NetworkError(reason: string)

  datatype Failure = HttpStatus(code: int) | BadJson | Thrown(reason: string)

  /** The outcome of a whole fetch: a decoded body, the empty list `[]`
      answered for status 451, or the error re-raised after the last attempt. */
  datatype Fetched<B> = Body(value: B) | EmptyList | Raised(error: Failure)

  /** The verdict on a single attempt: it settles the fetch, or it failed. */
  datatype Verdict<B> = Settled(result: Fetched<B>) | Failed(error: Failure)

  function Judge<B>(at: Attempt<B>): (v: Verdict<B>)
    ensures v.Settled? ==> !v.result.Raised?
    ensures v.Settled? <==> at.Response? && (at.status == LegallyBlocked ||
                                               (200 <= at.status <= 299 && at.json.Some?))
    ensures at.Response? && at.status == LegallyBlocked ==> v == Settled(EmptyList)
    ensures at.Response? && at.status != LegallyBlocked && 200 <= at.status <= 299 && at.json.Some? ==>
      v == Settled(Body(at.json.value))
    ensures at.Response? && at.status != LegallyBlocked && !(200 <= at.status <= 299) ==>
      v == Failed(HttpStatus(at.status))
  {
    match at
    case NetworkError(reason) => Failed(Thrown(reason))
    case Response(status, json) =>
      if status == LegallyBlocked then Settled(EmptyList)
      else if !(200 <= status <= 299) then Failed(HttpStatus(status))
      else match json
           case None => Failed(BadJson)
           case Some(b) => Settled(Body(b))
  }

  /** The pause after failed attempt i, in milliseconds. */
  function Backoff(i: nat): (d: nat)
    // each later pause is longer than every earlier one
    ensures forall j: nat :: j < i ==> Backoff(j) < d
  {
    500 + 500 * i
  }

  function BackoffSchedule(n: nat): (ds: seq<nat>)
    ensures |ds| == n
    ensures forall i :: 0 <= i < n ==> ds[i] == 500 + 500 * i
  {
    if n == 0 then [] else BackoffSchedule(n - 1) + [Backoff(n - 1)]
  }

  function Sum(ds: seq<nat>): (total: nat)
    ensures forall k :: 0 <= k < |ds| ==> ds[k] <= total
  {
    if ds == [] then 0 else Sum(ds[..|ds| - 1]) + ds[|ds| - 1]
  }

  /** `attempts[i]` is the answer attempt i would get; the transport has an
      answer for every attempt the budget allows. Returns the outcome, the
      number of attempts made and the pauses taken between them. */
  method FetchWithRetry<B>(attempts: seq<Attempt<B>>, retries: nat)
    returns (r: Fetched<B>, tries: nat, delays: seq<nat>)
    requires retries < |attempts|
    ensures 1 <= tries <= retries + 1
    // every attempt before the last one made failed
    ensures forall j :: 0 <= j < tries - 1 ==> Judge(attempts[j]).Failed?
    // a failed attempt is retried while the budget lasts
    ensures Judge(attempts[tries - 1]).Settled? || tries == retries + 1
    // a settling attempt ends the loop with its own result
    ensures Judge(attempts[tries - 1]).Settled? ==> r == Judge(attempts[tries - 1]).result
    // the error raised is the one of attempt `retries`, and only when every attempt failed
    ensures r.Raised? <==> forall j :: 0 <= j <= retries ==> Judge(attempts[j]).Failed?
    ensures r.Raised? ==> tries == retries + 1 && r.error == Judge(attempts[retries]).error
    ensures delays == BackoffSchedule(tries - 1)
  {
    var i := 0;
    delays := [];
    while i < retries && Judge(attempts[i]).Failed?
      invariant 0 <= i <= retries
      invariant forall j :: 0 <= j < i ==> Judge(attempts[j]).Failed?
      invariant delays == BackoffSchedule(i)
    {
      delays := delays + [Backoff(i)];
      i := i + 1;
    }
    tries := i + 1;
    match Judge(attempts[i])
    case Settled(result) => r := result;
    case Failed(error) => r := Raised(error);
  }

  /** Total waiting for n failed-and-retried attempts is 250 n (n + 1) ms;
      with the default budget at most 1500 ms. */
  lemma {:induction false} TotalBackoff(n: nat)
    ensures Sum(BackoffSchedule(n)) == 250 * n * (n + 1)
  {
    if n > 0 {
      TotalBackoff(n - 1);
      var ds := BackoffSchedule(n);
      var m := n - 1;
      assert ds[..|ds| - 1] == BackoffSchedule(m);
      assert Sum(ds) == Sum(BackoffSchedule(m)) + Backoff(m);
      assert Sum(BackoffSchedule(m)) == 250 * m * (m + 1);
      assert 250 * m * (m + 1) + (500 + 500 * m) == 250 * n * (n + 1) by {
        assert n == m + 1;
      }
    }
  }

  lemma DefaultBudgetWaits()
    ensures Sum(BackoffSchedule(DefaultRetries)) == 1500
  {
    TotalBackoff(DefaultRetries);
  }
}
