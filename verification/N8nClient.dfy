/**
 * The webhook client's retry loop: tengen/n8n/client.py, execute. What each post comes to is an input.
 */
module N8nClient {
  import opened Common

  /** A response, a timeout, a failed connection, or an exception that is not handled. */
  datatype Reply =
    | Response(status: int, json: Option<int>, text: string)
    | TimedOut(detail: string)
    | ConnectFailed(detail: string)
    | OtherError

  /** The decoded body, a body that does not decode, N8nRequestFailed, or an exception passed on. */
  datatype Outcome =
    | Returned(json: int)
    | Undecodable
    | RequestFailed(status: Option<int>, detail: string, attempts: int)
    | PassedOn

  predicate Transient(r: Reply) {
    r.TimedOut? || r.ConnectFailed? || (r.Response? && r.status >= 500)
  }

  function Shortened(text: string): string {
    if |text| <= 500 then text else text[..500]
  }

  /** What a reply that is not retried comes to; a client error always reports one attempt. */
  function Final(r: Reply): Outcome
    requires !Transient(r)
  {
    if r.OtherError? then PassedOn
    else if r.status >= 400 then RequestFailed(Some(r.status), Shortened(r.text), 1)
    else if r.json.Some? then Returned(r.json.value)
    else Undecodable
  }

  /** The first reply that is not retried. */
  function FirstFinal(replies: nat -> Reply, max: nat, from: nat := 0): (k: nat)
    requires from <= max
    ensures from <= k <= max
    ensures forall i :: from <= i < k ==> Transient(replies(i))
    ensures k < max ==> !Transient(replies(k))
    decreases max - from
  {
    if from == max || !Transient(replies(from)) then from else FirstFinal(replies, max, from + 1)
  }

  function Status(r: Reply): Option<int> {
    if r.Response? then Some(r.status) else None
  }

  function Detail(r: Reply): string
    requires Transient(r)
  {
    if r.Response? then Shortened(r.text) else r.detail
  }

  function Power(base: real, n: nat): real {
    if n == 0 then 1.0 else base * Power(base, n - 1)
  }

  /** base^0, base^1, ... in order. */
  function Delays(base: real, n: nat): (delays: seq<real>)
    ensures |delays| == n
  {
    if n == 0 then [] else Delays(base, n - 1) + [Power(base, n - 1)]
  }

  function Total(delays: seq<real>): real {
    if delays == [] then 0.0 else Total(Front(delays)) + Last(delays)
  }

  /** With no post allowed there is no status and no detail. */
  function Exhausted(replies: nat -> Reply, maxRetries: int): Outcome
    requires forall i :: 0 <= i < maxRetries ==> Transient(replies(i))
  {
    if maxRetries <= 0 then RequestFailed(None, "", maxRetries)
    else RequestFailed(Status(replies(maxRetries - 1)), Detail(replies(maxRetries - 1)), maxRetries)
  }

  function Allowed(maxRetries: int): nat {
    if maxRetries <= 0 then 0 else maxRetries
  }

  /** The outcome and the number of posts. */
  function Ran(replies: nat -> Reply, maxRetries: int): (Outcome, nat) {
    var k, n := FirstFinal(replies, Allowed(maxRetries)), Allowed(maxRetries);
    if k < n then (Final(replies(k)), k + 1) else (Exhausted(replies, maxRetries), n)
  }

  class N8nClient {
    const maxRetries: int
    const backoffBase: real

    constructor (maxRetries: int, backoffBase: real)
      ensures this.maxRetries == maxRetries && this.backoffBase == backoffBase
    {
      this.maxRetries, this.backoffBase := maxRetries, backoffBase;
    }

    /**
     * The first reply that is not transient ends the loop and decides the outcome; otherwise every
     * allowed post is made and the last reply is reported. Between posts, and only there, it sleeps
     * base^0, base^1, ...
     */
    method Execute(replies: nat -> Reply) returns (outcome: Outcome, posts: nat, sleeps: seq<real>)
      ensures (outcome, posts) == Ran(replies, maxRetries)
      ensures sleeps == Delays(backoffBase, if posts == 0 then 0 else posts - 1)
    {
      var lastError, lastStatus: Option<int> := "", None;
      posts, sleeps := 0, [];
      var n := Allowed(maxRetries);
      for attempt := 0 to n
        invariant posts == attempt
        invariant FirstFinal(replies, n) == FirstFinal(replies, n, attempt)
        invariant forall i :: 0 <= i < attempt ==> Transient(replies(i))
        invariant attempt == 0 ==> lastStatus == None && lastError == ""
        invariant attempt > 0 ==> lastStatus == Status(replies(attempt - 1)) && lastError == Detail(replies(attempt - 1))
        invariant sleeps == Delays(backoffBase, if attempt < n || n == 0 then attempt else n - 1)
      {
        var reply := replies(attempt);
        posts := posts + 1;
        if reply.OtherError? {
          return PassedOn, posts, sleeps;
        }
        if reply.Response? {
          if reply.status < 400 {
            return if reply.json.Some? then Returned(reply.json.value) else Undecodable, posts, sleeps;
          }
          if reply.status < 500 {
            return RequestFailed(Some(reply.status), Shortened(reply.text), 1), posts, sleeps;
          }
          lastStatus, lastError := Some(reply.status), Shortened(reply.text);
        } else {
          lastStatus, lastError := None, reply.detail;
        }
        if attempt < n - 1 {
          sleeps := sleeps + [Power(backoffBase, attempt)];
        }
      }
      outcome := RequestFailed(lastStatus, lastError, maxRetries);
    }
  }

  // ---- What the loop promises -------------------------------------------------------------------

  lemma {:induction false} FirstFinalIs(replies: nat -> Reply, max: nat, k: nat, from: nat := 0)
    requires from <= k <= max && forall i :: from <= i < k ==> Transient(replies(i))
    requires k < max ==> !Transient(replies(k))
    ensures FirstFinal(replies, max, from) == k
    decreases k - from
  {
    if from < k {
      FirstFinalIs(replies, max, k, from + 1);
    }
  }

  /** A body is returned exactly if a decodable response below 400 comes in time, after transient failures only. */
  lemma {:induction false} ReturnedExactly(replies: nat -> Reply, maxRetries: int, json: int)
    ensures Ran(replies, maxRetries).0 == Returned(json) <==>
            exists k :: 0 <= k < maxRetries
                        && replies(k).Response? && replies(k).status < 400 && replies(k).json == Some(json)
                        && forall i :: 0 <= i < k ==> Transient(replies(i))
  {
    if k :| 0 <= k < maxRetries && replies(k).Response? && replies(k).status < 400 && replies(k).json == Some(json)
            && forall i :: 0 <= i < k ==> Transient(replies(i)) {
      FirstFinalIs(replies, maxRetries, k);
    }
  }

  /** The first client error after transient failures ends the loop without further posts. */
  lemma {:induction false} ClientErrorStops(replies: nat -> Reply, maxRetries: int, k: nat)
    requires k < maxRetries && forall i :: 0 <= i < k ==> Transient(replies(i))
    requires replies(k).Response? && 400 <= replies(k).status < 500
    ensures Ran(replies, maxRetries) == (RequestFailed(Some(replies(k).status), Shortened(replies(k).text), 1), k + 1)
  {
    FirstFinalIs(replies, maxRetries, k);
  }

  /** A timeout, a failed connection or a server error. */
  predicate Retried(r: Reply) {
    r.TimedOut? || r.ConnectFailed? || (r.Response? && 500 <= r.status)
  }

  /** When every post meets one of those, the last is reported: its status and text, or no status and its error. */
  lemma {:induction false} LastReplyIsReported(replies: nat -> Reply, maxRetries: int)
    requires forall i :: 0 <= i < maxRetries ==> Retried(replies(i))
    ensures maxRetries <= 0 ==> Ran(replies, maxRetries) == (RequestFailed(None, "", maxRetries), 0)
    ensures maxRetries > 0 ==>
              var last := replies(maxRetries - 1);
              && Ran(replies, maxRetries).1 == maxRetries
              && (last.Response? && |last.text| <= 500 ==>
                    Ran(replies, maxRetries).0 == RequestFailed(Some(last.status), last.text, maxRetries))
              && (last.Response? && |last.text| > 500 ==>
                    Ran(replies, maxRetries).0 == RequestFailed(Some(last.status), last.text[..500], maxRetries))
              && (last.TimedOut? || last.ConnectFailed? ==>
                    Ran(replies, maxRetries).0 == RequestFailed(None, last.detail, maxRetries))
  {
    ExhaustedExactly(replies, maxRetries);
  }

  /** A reply below 500 or an unhandled error, after k that are retried, is the last of k + 1 posts. */
  lemma {:induction false} FirstOtherSettles(replies: nat -> Reply, maxRetries: int, k: nat)
    requires k < maxRetries && (forall i :: 0 <= i < k ==> Retried(replies(i))) && !Retried(replies(k))
    ensures Ran(replies, maxRetries).1 == k + 1
    ensures replies(k).OtherError? ==> Ran(replies, maxRetries).0 == PassedOn
    ensures replies(k).Response? && replies(k).status < 400 ==>
              Ran(replies, maxRetries).0 ==
              if replies(k).json.Some? then Returned(replies(k).json.value) else Undecodable
    ensures replies(k).Response? && 400 <= replies(k).status < 500 && |replies(k).text| <= 500 ==>
              Ran(replies, maxRetries).0 == RequestFailed(Some(replies(k).status), replies(k).text, 1)
  {
    FirstFinalIs(replies, maxRetries, k);
  }

  /** The sleeps are base^0, base^1, and so on in this order, each the base times the one before. */
  lemma {:induction false} DelaysInOrder(base: real, n: nat)
    ensures n > 0 ==> Delays(base, n)[0] == 1.0
    ensures forall i :: 0 < i < n ==> Delays(base, n)[i] == base * Delays(base, n)[i - 1]
  {
    if n > 0 {
      DelaysInOrder(base, n - 1);
    }
  }

  /** Every reply is transient exactly if all posts were made and the last did not settle the matter. */
  lemma {:induction false} ExhaustedExactly(replies: nat -> Reply, maxRetries: int)
    ensures (forall i :: 0 <= i < maxRetries ==> Transient(replies(i))) <==>
              FirstFinal(replies, Allowed(maxRetries)) == Allowed(maxRetries)
    ensures (forall i :: 0 <= i < maxRetries ==> Transient(replies(i))) ==>
              Ran(replies, maxRetries) == (Exhausted(replies, maxRetries), Allowed(maxRetries))
  {
    var k := FirstFinal(replies, Allowed(maxRetries));
    if k < Allowed(maxRetries) {
      assert !Transient(replies(k));
    }
  }

  /** Once a client settles an outcome, allowing more retries changes neither it nor the posts made. */
  lemma {:induction false} MoreRetriesChangeNothing(replies: nat -> Reply, maxRetries: int, more: int)
    requires maxRetries <= more && FirstFinal(replies, Allowed(maxRetries)) < Allowed(maxRetries)
    ensures Ran(replies, more) == Ran(replies, maxRetries)
  {
    FirstFinalIs(replies, more, FirstFinal(replies, maxRetries));
  }

  /** The sleeps before giving up are a geometric series. */
  lemma {:induction false} BackoffIsGeometric(base: real, n: nat)
    ensures (base - 1.0) * Total(Delays(base, n)) == Power(base, n) - 1.0
    ensures base == 1.0 ==> Total(Delays(base, n)) == n as real
  {
    if n > 0 {
      var before, p := Total(Delays(base, n - 1)), Power(base, n - 1);
      BackoffIsGeometric(base, n - 1);
      assert Front(Delays(base, n)) == Delays(base, n - 1);
      assert Total(Delays(base, n)) == before + p;
      Distribute(base, before, p);
      if base == 1.0 {
        PowersOfOne(n - 1);
      }
    }
  }

  lemma {:induction false} Distribute(a: real, s: real, p: real)
    ensures (a - 1.0) * (s + p) == (a - 1.0) * s + a * p - p
  {
  }

  lemma {:induction false} PowersOfOne(n: nat)
    ensures Power(1.0, n) == 1.0
  {
    if n > 0 {
      PowersOfOne(n - 1);
    }
  }
}
