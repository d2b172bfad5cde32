/** Asking the language model for a plan: bounded retries, one repair. */
module AssistantProvider {
  import opened Options
  import opened Powers

  datatype Usage = Usage(input: int, output: int, total: int)

  /** What one request brings: no answer, or a status with its `retry-after` header and, for
      a usable body, the text and the token counts. */
  datatype Reply = NoAnswer | Answer(status: int, retryAfter: Option<real>, content: Option<string>, usage: Usage)

  datatype Error =
    | Disabled
    | Unavailable(retryable: bool)
    | RateLimited
    | InvalidPlan
    | Unreachable   // the assertion behind the loops

  datatype Result<T> = Ok(value: T) | Err(error: Error)

  predicate RetryStatus(status: int) { status in {429, 500, 502, 503, 504} }

  /** The reply is tried again if an attempt is left. */
  predicate Again(r: Reply) { r.NoAnswer? || RetryStatus(r.status) }

  function Backoff(attempt: nat): real { 0.25 * Pow2(attempt) as real }

  /** `min(2, max(0, value))`. */
  function Limited(x: real): real { if x < 0.0 then 0.0 else if x > 2.0 then 2.0 else x }

  /** The pause after a reply that is tried again. */
  function Pause(r: Reply, attempt: nat): real {
    if r.Answer? && r.retryAfter.Some? then Limited(r.retryAfter.value) else Backoff(attempt)
  }

  /** What a reply means when it is not tried again. */
  function Verdict(r: Reply): Result<string> {
    if r.NoAnswer? then Err(Unavailable(true))
    else if r.status == 429 then Err(RateLimited)
    else if r.status == 401 then Err(Unavailable(false))
    else if r.status >= 400 then Err(Unavailable(r.status >= 500))
    else if r.content.None? then Err(InvalidPlan)
    else Ok(r.content.value)
  }

  // ----- the course of one completion -----

  /** The number of requests of a completion that starts with request `first`. */
  function Requests(net: nat -> Reply, first: nat, attempt: nat, retries: nat): (n: nat)
    requires attempt <= retries
    ensures 1 <= n <= retries - attempt + 1
    decreases retries - attempt
  {
    if Again(net(first)) && attempt < retries then 1 + Requests(net, first + 1, attempt + 1, retries) else 1
  }

  /** The time slept in it. */
  function Slept(net: nat -> Reply, first: nat, attempt: nat, retries: nat): real
    requires attempt <= retries
    decreases retries - attempt
  {
    if Again(net(first)) && attempt < retries
    then Pause(net(first), attempt) + Slept(net, first + 1, attempt + 1, retries)
    else 0.0
  }

  function Larger(x: real, y: real): real { if x >= y then x else y }

  /** The most that can be slept from an attempt on. */
  function Budget(attempt: nat, retries: nat): real
    requires attempt <= retries
    decreases retries - attempt
  {
    if attempt == retries then 0.0 else Larger(2.0, Backoff(attempt)) + Budget(attempt + 1, retries)
  }

  lemma {:induction false} SleptWithinBudget(net: nat -> Reply, first: nat, attempt: nat, retries: nat)
    requires attempt <= retries
    ensures 0.0 <= Slept(net, first, attempt, retries) <= Budget(attempt, retries)
    decreases retries - attempt
  {
    if attempt == retries {
    } else {
      SleptWithinBudget(net, first + 1, attempt + 1, retries);
    }
  }

  /** No answer, or one of the statuses worth another try. */
  predicate Passing(r: Reply) {
    r.NoAnswer? || r.status == 429 || r.status == 500 || r.status == 502 || r.status == 503 || r.status == 504
  }

  /** Everything before the last request was worth another try; the last was not, or was the
      last attempt. */
  lemma {:induction false} CourseOfCompletion(net: nat -> Reply, first: nat, attempt: nat, retries: nat)
    requires attempt <= retries
    ensures
      var last := first + Requests(net, first, attempt, retries) - 1;
      && (forall i | first <= i < last :: Passing(net(i)))
      && (!Passing(net(last)) || last - first == retries - attempt)
    decreases retries - attempt
  {
    if Again(net(first)) && attempt < retries {
      CourseOfCompletion(net, first + 1, attempt + 1, retries);
    }
  }

  /** The pause asked for, brought between 0 and 2 s, else a quarter second doubled each attempt. */
  predicate IsPause(r: Reply, attempt: nat, pause: real) {
    if r.Answer? && r.retryAfter.Some? then
      && 0.0 <= pause <= 2.0
      && (pause == r.retryAfter.value || (pause == 0.0 && r.retryAfter.value < 0.0)
          || (pause == 2.0 && r.retryAfter.value > 2.0))
    else pause == 0.25 * Pow2(attempt) as real
  }

  function Total(pauses: seq<real>): real { if pauses == [] then 0.0 else pauses[0] + Total(pauses[1..]) }

  /** The time slept is one pause for each request but the last. */
  lemma {:induction false} PausesOfCompletion(net: nat -> Reply, first: nat, attempt: nat, retries: nat)
      returns (pauses: seq<real>)
    requires attempt <= retries
    ensures |pauses| == Requests(net, first, attempt, retries) - 1
    ensures forall i | 0 <= i < |pauses| :: IsPause(net(first + i), attempt + i, pauses[i])
    ensures Slept(net, first, attempt, retries) == Total(pauses)
    decreases retries - attempt
  {
    if Again(net(first)) && attempt < retries {
      var rest := PausesOfCompletion(net, first + 1, attempt + 1, retries);
      pauses := [Pause(net(first), attempt)] + rest;
      forall i | 0 <= i < |pauses| ensures IsPause(net(first + i), attempt + i, pauses[i]) {
        if i > 0 {
          assert IsPause(net(first + 1 + (i - 1)), attempt + 1 + (i - 1), rest[i - 1]);
        }
      }
    } else {
      pauses := [];
    }
  }

  /** What each reply means: only a usable body below 400 is an answer, and only a missing answer
      or a server error may be tried again later. */
  lemma VerdictIs(r: Reply)
    ensures Verdict(r).Ok? <==> r.Answer? && r.status < 400 && r.content.Some?
    ensures Verdict(r).Ok? ==> Verdict(r).value == r.content.value
    ensures Verdict(r) == Err(InvalidPlan) <==> r.Answer? && r.status < 400 && r.content.None?
    ensures Verdict(r) == Err(RateLimited) <==> r.Answer? && r.status == 429
    ensures Verdict(r) == Err(Unavailable(true)) <==> r.NoAnswer? || r.status >= 500
    ensures Verdict(r) == Err(Unavailable(false)) <==> r.Answer? && 400 <= r.status < 500 && r.status != 429
  {
  }

  class Provider<Plan> {
    const configured: bool             // key and model are set
    const retries: int
    const net: nat -> Reply            // the reply to each request in order
    const parse: string -> Option<Plan>
    var requests: nat
    var slept: real
    var usage: Option<Usage>

    constructor (configured: bool, retries: int, net: nat -> Reply, parse: string -> Option<Plan>)
      ensures this.configured == configured && this.retries == retries && this.net == net && this.parse == parse
      ensures requests == 0 && slept == 0.0
    {
      this.configured, this.retries, this.net, this.parse := configured, retries, net, parse;
      requests, slept, usage := 0, 0.0, None;
    }

    /** One completion: the verdict on its last reply.  The assertion behind the loop is
        reached exactly when the number of retries is negative. */
    method Completion() returns (result: Result<string>)
      modifies this
      ensures retries < 0 ==> result == Err(Unreachable) && requests == old(requests) && slept == old(slept)
      ensures retries >= 0 ==>
        && requests == old(requests) + Requests(net, old(requests), 0, retries)
        && slept == old(slept) + Slept(net, old(requests), 0, retries)
        && result == Verdict(net(requests - 1))
      ensures result.Ok? ==> usage == Some(net(requests - 1).usage)
      ensures !result.Ok? ==> usage == old(usage)
    {
      var attempt := 0;
      while attempt < retries + 1
        invariant retries < 0 ==> attempt == 0
        invariant retries >= 0 ==> attempt <= retries
        invariant requests == old(requests) + attempt && usage == old(usage)
        invariant retries >= 0 ==>
          && attempt + Requests(net, requests, attempt, retries) == Requests(net, old(requests), 0, retries)
          && slept + Slept(net, requests, attempt, retries) == old(slept) + Slept(net, old(requests), 0, retries)
        invariant retries < 0 ==> slept == old(slept)
        decreases retries + 1 - attempt
      {
        var reply := net(requests);
        requests := requests + 1;
        if Again(reply) && attempt < retries {
          slept := slept + Pause(reply, attempt);
          attempt := attempt + 1;
        } else {
          result := Verdict(reply);
          if result.Ok? {
            usage := Some(reply.usage);
          }
          return;
        }
      }
      return Err(Unreachable);
    }

    /** A plan, with one repair when the first answer is no valid plan. */
    method Plan() returns (result: Result<Plan>)
      modifies this
      ensures !configured ==> result == Err(Disabled) && requests == old(requests) && slept == old(slept)
      ensures configured && retries >= 0 ==>
        var first := Requests(net, old(requests), 0, retries);
        var mid := old(requests) + first;
        var answer := Verdict(net(mid - 1));
        if answer.Err? then
          result == Err(answer.error) && requests == mid && slept == old(slept) + Slept(net, old(requests), 0, retries)
        else if parse(answer.value).Some? then
          result == Ok(parse(answer.value).value) && requests == mid
          && slept == old(slept) + Slept(net, old(requests), 0, retries)
        else
          && requests == mid + Requests(net, mid, 0, retries)
          && slept == old(slept) + Slept(net, old(requests), 0, retries) + Slept(net, mid, 0, retries)
          && result == Repaired(parse, Verdict(net(requests - 1)))
      ensures retries >= 0 ==> result != Err(Unreachable)
    {
      usage := None;
      if !configured {
        return Err(Disabled);
      }
      var content := Completion();
      if content.Err? {
        return Err(content.error);
      }
      if parse(content.value).Some? {
        return Ok(parse(content.value).value);
      }
      content := Completion();
      return Repaired(parse, content);
    }
  }

  function Repaired<Plan>(parse: string -> Option<Plan>, answer: Result<string>): Result<Plan> {
    if answer.Err? then Err(answer.error)
    else if parse(answer.value).Some? then Ok(parse(answer.value).value)
    else Err(InvalidPlan)
  }

  /** Only a text that parses gives a repaired plan; without one the plan is invalid. */
  lemma RepairedIff<Plan>(parse: string -> Option<Plan>, answer: Result<string>)
    ensures Repaired(parse, answer).Ok? <==> answer.Ok? && parse(answer.value).Some?
    ensures Repaired(parse, answer).Ok? ==> parse(answer.value) == Some(Repaired(parse, answer).value)
    ensures answer.Err? ==> Repaired(parse, answer) == Err(answer.error)
    ensures answer.Ok? && parse(answer.value).None? ==> Repaired(parse, answer) == Err(InvalidPlan)
  {
  }

  /** A plan costs at most 2 * (retries + 1) requests and twice the backoff budget. */
  lemma PlanCost(net: nat -> Reply, first: nat, second: nat, retries: nat)
    ensures Requests(net, first, 0, retries) + Requests(net, second, 0, retries) <= 2 * (retries + 1)
    ensures Slept(net, first, 0, retries) + Slept(net, second, 0, retries) <= 2.0 * Budget(0, retries)
  {
    SleptWithinBudget(net, first, 0, retries);
    SleptWithinBudget(net, second, 0, retries);
  }

  /** With the two retries the configuration allows at most: six requests, eight seconds. */
  lemma ConfiguredCost(net: nat -> Reply, first: nat, second: nat, retries: nat)
    requires retries <= 2
    ensures Requests(net, first, 0, retries) + Requests(net, second, 0, retries) <= 6
    ensures Slept(net, first, 0, retries) + Slept(net, second, 0, retries) <= 8.0
  {
    PlanCost(net, first, second, retries);
    assert Pow2(0) == 1 && Pow2(1) == 2;
    assert Larger(2.0, Backoff(0)) == 2.0 && Larger(2.0, Backoff(1)) == 2.0;
    assert retries == 2 ==> Budget(2, 2) == 0.0 && Budget(1, 2) == 2.0 && Budget(0, 2) == 4.0;
    assert retries == 1 ==> Budget(1, 1) == 0.0 && Budget(0, 1) == 2.0;
  }
}
