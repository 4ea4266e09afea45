/** The request side of regos/api.py: the registry of one limiter per integration token, the
    asynchronous request with its retry on status 429, and the legacy synchronous request.
    The network is a finite sequence of simulated responses, one per attempt, and the time a
    response takes to arrive is an input. */
module RegosApi {
  import opened Wrappers
  import opened RateLimiter

  /** Every limiter the registry creates has rate 2 per second and burst 50. */
  const DefaultRate: real := 2.0
  const DefaultBurst: int := 50

  /** The pause after a 429 before the request is issued again, in seconds. */
  const RetryDelay: real := 1.0

  /** What the upstream answered: the HTTP status, the decoded body, and whether the body's
      `ok` field is present and truthy. */
  datatype Response<B> = Response(status: int, body: B, ok: bool)

  /** How the asynchronous request ended: it returned the body, it raised an HTTPException
      with the given status, or every simulated response was a 429 and the source would still
      be retrying. */
  datatype Outcome<B> = Returned(body: B) | Raised(status: int) | StillRateLimited

  /** `regos_limiters`, the process-wide map from integration token to limiter. */
  class LimiterRegistry {
    var limiters: map<string, RegosRateLimiter>

    /** No two tokens share a limiter, and every limiter has the registry's configuration and
        a token count within its capacity. */
    ghost predicate Valid()
      reads this, limiters.Values
    {
      (forall a, b :: a in limiters && b in limiters && a != b ==> limiters[a] != limiters[b])
      && forall t :: t in limiters ==>
           limiters[t].rate == DefaultRate && limiters[t].capacity == DefaultBurst
           && 0 <= limiters[t].tokens <= DefaultBurst
    }

    /** The empty registry at module import. */
    constructor ()
      ensures Valid() && limiters == map[]
    {
      limiters := map[];
    }

    /** `get_regos_limiter(token)` with the clock reading `now`: the token's limiter, created
        with rate 2 and burst 50 only when the token has none yet. */
    method GetRegosLimiter(token: string, now: real) returns (l: RegosRateLimiter)
      requires Valid()
      modifies this
      ensures Valid()
      ensures token in limiters && l == limiters[token]
      ensures token in old(limiters) ==> limiters == old(limiters)
      ensures token !in old(limiters) ==>
        fresh(l) && l.State() == Fresh(DefaultRate, DefaultBurst, now) && limiters == old(limiters)[token := l]
    {
      if token !in limiters {
        l := new RegosRateLimiter(DefaultRate, DefaultBurst, now);
        limiters := limiters[token := l];
      }
      l := limiters[token];
    }
  }

  /** The status rule of one attempt whose status is not 429: 200 with `ok` returns the body,
      200 without it raises 400, and anything else raises 502. */
  function Classify<B>(r: Response<B>): (o: Outcome<B>)
    requires r.status != 429
    ensures o.Returned? <==> r.status == 200 && r.ok
    ensures o.Returned? ==> o.body == r.body
    ensures !o.Returned? ==> o == Raised(if r.status == 200 then 400 else 502)
  {
    if r.status == 200 then
      if r.ok then Returned(r.body) else Raised(400)
    else Raised(502)
  }

  /** The attempts the source makes and how it ends, answered by `rs` one attempt after the
      other: a 429 makes the request call itself again, anything else ends it. */
  function Dispatch<B>(rs: seq<Response<B>>): (r: (nat, Outcome<B>))
    ensures r.0 <= |rs|
  {
    if rs == [] then (0, StillRateLimited)
    else if rs[0].status == 429 then
      var (n, o) := Dispatch(rs[1..]);
      (n + 1, o)
    else (1, Classify(rs[0]))
  }

  /** The index of the first response that is not a 429, or `|rs|` if there is none. */
  function FirstDecisive<B>(rs: seq<Response<B>>): (k: nat)
    ensures k <= |rs|
    ensures forall j :: 0 <= j < k ==> rs[j].status == 429
    ensures k < |rs| ==> rs[k].status != 429
  {
    if rs == [] || rs[0].status != 429 then 0 else 1 + FirstDecisive(rs[1..])
  }

  /** The first response that is not a 429 decides the outcome, and the number of attempts is
      its index plus one; with nothing but 429s every response was spent on a retry. */
  lemma {:induction false} DispatchDecidedByFirstNon429<B>(rs: seq<Response<B>>)
    ensures var k := FirstDecisive(rs);
      Dispatch(rs) == if k < |rs| then (k + 1, Classify(rs[k])) else (|rs|, StillRateLimited)
  {
    if rs != [] && rs[0].status == 429 {
      DispatchDecidedByFirstNon429(rs[1..]);
    }
  }

  /** A 429 followed by a successful 200 is one retry and returns the second body. */
  lemma RetryOnceThenSuccess<B>(b0: B, b1: B, ok0: bool)
    ensures Dispatch([Response(429, b0, ok0), Response(200, b1, true)]) == (2, Returned(b1))
  {
    assert [Response(429, b0, ok0), Response(200, b1, true)][1..] == [Response(200, b1, true)];
  }

  /** The limiter's life over the attempts of one request: attempt `i` acquires at `t`; after a
      429 the next attempt starts once the caller has slept, the response has arrived
      (`latency[0]` seconds later) and the one-second pause is over. */
  function Schedule<B>(s: LimiterState, t: real, rs: seq<Response<B>>, latency: seq<real>): (r: (LimiterState, seq<Admission>))
    requires |latency| == |rs|
    ensures |r.1| == Dispatch(rs).0
    ensures r.0.rate == s.rate && r.0.capacity == s.capacity
    decreases |rs|
  {
    if rs == [] then (s, [])
    else
      var (s1, a) := AcquireStep(s, t);
      if rs[0].status == 429 then
        var (sn, more) := Schedule(s1, ResumeTime(t, a) + latency[0] + RetryDelay, rs[1..], latency[1..]);
        (sn, [a] + more)
      else (s1, [a])
  }

  /** The limiter of a request never divides by zero and keeps its token count in bounds. */
  lemma {:induction false} ScheduleKeepsBounds<B>(s: LimiterState, t: real, rs: seq<Response<B>>, latency: seq<real>)
    requires |latency| == |rs| && Sane(s)
    ensures Sane(Schedule(s, t, rs, latency).0)
    ensures forall i :: 0 <= i < |Schedule(s, t, rs, latency).1| ==> Schedule(s, t, rs, latency).1[i] != DivisionByZero
    decreases |rs|
  {
    if rs != [] {
      var (s1, a) := AcquireStep(s, t);
      if rs[0].status == 429 {
        ScheduleKeepsBounds(s1, ResumeTime(t, a) + latency[0] + RetryDelay, rs[1..], latency[1..]);
      }
    }
  }

  /** The attempts of one request on the token's limiter `l`, the first at clock reading
      `start`: acquire, send, and on a 429 call itself again. (Every retry calls
      `get_regos_limiter` again; for a token that is present it returns this same limiter.)
      The limiter has a positive rate, as every limiter of the registry does: at rate 0 the
      source's `acquire` raises ZeroDivisionError before anything is sent. */
  method Attempts<B>(l: RegosRateLimiter, rs: seq<Response<B>>, latency: seq<real>, start: real)
      returns (outcome: Outcome<B>, admissions: seq<Admission>)
    requires |latency| == |rs| && Sane(l.State())
    modifies l
    ensures (|admissions|, outcome) == Dispatch(rs)
    ensures (l.State(), admissions) == Schedule(old(l.State()), start, rs, latency)
    ensures Sane(l.State()) && forall i :: 0 <= i < |admissions| ==> admissions[i] != DivisionByZero
    decreases |rs|
  {
    ScheduleKeepsBounds(l.State(), start, rs, latency);
    if rs == [] {
      return StillRateLimited, [];
    }
    var a := l.Acquire(start);
    if rs[0].status != 429 {
      return Classify(rs[0]), [a];
    }
    var more;
    outcome, more := Attempts(l, rs[1..], latency[1..], ResumeTime(start, a) + latency[0] + RetryDelay);
    admissions := [a] + more;
  }

  /** `regos_async_api_request(endpoint, data, token)` started when the clock reads `start` and
      answered by `rs`, response `i` arriving `latency[i]` seconds after attempt `i` was
      admitted; `rs` holds at least the answer to the first attempt, which the source always
      makes. Every attempt acquires once on the token's limiter before it sends, and none of
      them divides by zero; the limiters of other tokens are left alone. */
  method AsyncRequest<B>(reg: LimiterRegistry, token: string, rs: seq<Response<B>>, latency: seq<real>, start: real)
      returns (outcome: Outcome<B>, admissions: seq<Admission>)
    requires reg.Valid() && |latency| == |rs| && rs != []
    modifies reg, reg.limiters.Values
    ensures reg.Valid()
    ensures (|admissions|, outcome) == Dispatch(rs)
    ensures token in reg.limiters && reg.limiters.Keys == old(reg.limiters.Keys) + {token}
    ensures (reg.limiters[token].State(), admissions)
         == Schedule(if token in old(reg.limiters) then old(reg.limiters[token].State())
                     else Fresh(DefaultRate, DefaultBurst, start), start, rs, latency)
    ensures forall i :: 0 <= i < |admissions| ==> admissions[i] != DivisionByZero
    ensures forall u :: u in old(reg.limiters) && u != token ==>
      u in reg.limiters && reg.limiters[u] == old(reg.limiters[u]) && reg.limiters[u].State() == old(reg.limiters[u].State())
  {
    var l := reg.GetRegosLimiter(token, start);
    ghost var lims := reg.limiters;
    ghost var s0 := l.State();
    outcome, admissions := Attempts(l, rs, latency, start);
    ScheduleKeepsBounds(s0, start, rs, latency);
    forall u | u in lims && u != token
      ensures lims[u] != l
    {
    }
  }

  /** `regos_api_request`: the parsed body for status 200, whatever its `ok` field says, and
      `None` for any other status, 429 included. */
  function SyncRequest<B>(r: Response<B>): (o: Option<B>)
    ensures o.Some? <==> r.status == 200
    ensures o.Some? ==> o.value == r.body
  {
    if r.status == 200 then Some(r.body) else None
  }

  /** The two request functions disagree exactly on a 200 whose `ok` is false (returned by the
      synchronous one, raised as 400 by the asynchronous one) and on a status that is neither
      200 nor 429 (None against 502); the synchronous one never retries. */
  lemma SyncAgainstAsync<B>(r: Response<B>)
    requires r.status != 429
    ensures SyncRequest(r).Some? && Dispatch([r]).1.Returned? ==> SyncRequest(r).value == Dispatch([r]).1.body
    ensures r.status == 200 && !r.ok ==> SyncRequest(r) == Some(r.body) && Dispatch([r]) == (1, Raised(400))
    ensures r.status != 200 ==> SyncRequest(r) == None && Dispatch([r]) == (1, Raised(502))
  {
  }
}
