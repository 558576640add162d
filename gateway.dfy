/** `safe_request`: one logical POST to the game service, retried a bounded
    number of times. The network is an oracle that says what each attempt
    gives; the waits between attempts are recorded as events, not as time. */
module Gateway {
  import opened PyValues

  /** A response that arrived: its HTTP status, and its body as `r.json()`
      decodes it (`None` when the body is not JSON). */
  datatype Response = Response(status: int, body: Option<Json>)

  /** What one call of `gatto.post` did: raised, or answered. */
  datatype Attempt = Threw | Answered(response: Response)

  /** What the retry loop does, in order: an attempt, or a `time.sleep(RETRY_DELAY)`. */
  datatype Event = Try(attempt: nat) | Sleep

  /** Only status 200 ends the retry loop. */
  predicate Succeeded(a: Attempt) {
    a.Answered? && a.response.status == 200
  }

  /** The events of `n` attempts with a delay between each two and none after the last. */
  function Schedule(n: nat): seq<Event>
    decreases n
  {
    if n == 0 then []
    else if n == 1 then [Try(1)]
    else Schedule(n - 1) + [Sleep, Try(n)]
  }

  function Sleeps(events: seq<Event>): nat {
    if events == [] then 0
    else Sleeps(events[..|events| - 1]) + (if events[|events| - 1] == Sleep then 1 else 0)
  }

  /** Attempts and delays alternate, starting and ending with an attempt, so
      `n` attempts carry `n - 1` delays and the attempts are numbered 1..n. */
  lemma {:induction false} ScheduleShape(n: nat)
    ensures |Schedule(n)| == if n == 0 then 0 else 2 * n - 1
    ensures forall j :: 0 <= j < |Schedule(n)| ==>
              Schedule(n)[j] == if j % 2 == 0 then Try(j / 2 + 1) else Sleep
    ensures Sleeps(Schedule(n)) == if n == 0 then 0 else n - 1
    decreases n
  {
    if n > 1 {
      ScheduleShape(n - 1);
      var s := Schedule(n - 1);
      assert Schedule(n) == (s + [Sleep]) + [Try(n)];
      assert (s + [Sleep]) + [Try(n)] == s + [Sleep, Try(n)];
      assert (s + [Sleep])[..|s|] == s;
      assert Sleeps(s + [Sleep]) == Sleeps(s) + 1;
    } else if n == 1 {
      assert Schedule(1) == [Try(1)];
      assert Schedule(1)[..0] == [];
    }
  }

  /** `safe_request(url, payload)` with `MAX_RETRIES = maxRetries`; attempt
      number `k` (counted from 1) gives `outcome(k)`. Returns the response,
      the number of attempts made and the events in order. */
  method SafeRequest(maxRetries: nat, outcome: nat -> Attempt)
    returns (r: Option<Response>, tries: nat, events: seq<Event>)
    ensures tries <= maxRetries
    ensures events == Schedule(tries)
    ensures forall k :: 1 <= k < tries ==> !Succeeded(outcome(k))
    ensures r.Some? ==> 1 <= tries && Succeeded(outcome(tries)) && r.value == outcome(tries).response
    ensures r.None? ==> tries == maxRetries && forall k :: 1 <= k <= maxRetries ==> !Succeeded(outcome(k))
  {
    r, tries, events := None, 0, [];
    for attempt := 1 to maxRetries + 1
      invariant tries == attempt - 1
      invariant forall k :: 1 <= k < attempt ==> !Succeeded(outcome(k))
      invariant events == Schedule(attempt - 1) + (if 1 < attempt <= maxRetries then [Sleep] else [])
    {
      tries := attempt;
      events := events + [Try(attempt)];
      assert events == Schedule(attempt);
      var a := outcome(attempt);
      if a.Threw? {
        if attempt < maxRetries {
          events := events + [Sleep];
        }
        continue;
      }
      if a.response.status == 200 {
        return Some(a.response), tries, events;
      }
      if attempt < maxRetries {
        events := events + [Sleep];
      }
    }
  }

  /** With three attempts all answered by a non-200 status, the call gives
      nothing after three attempts and two delays. */
  method AllAttemptsRefused() {
    var r, tries, events := SafeRequest(3, k => Answered(Response(500, None)));
    ScheduleShape(tries);
    assert r == None && tries == 3 && Sleeps(events) == 2;
  }
}
