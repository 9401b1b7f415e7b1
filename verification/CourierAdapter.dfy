/** The courier adapters' createShipment (src/modules/amazon_shipping/amazon_shipping.adapter.ts and
    src/modules/bluedart/bluedart.adapter.ts): the memo of outcomes by intent, and the single resend after a
    401. What tokens and responses come back is the environment's. */
module CourierAdapter {
  import opened Wrappers
  import opened BookingProtocol

  /** BodyError is whatever reading the body of a response throws; it is none of the adapters' own errors. */
  datatype AdapterError = TimeoutError | ProviderError | AuthError | RateLimitError | BodyError

  datatype CreateBody = Accepted(awb: Option<string>) | Declined | Unreadable

  datatype Response = Answer(status: nat, body: CreateBody) | NoAnswer(timedOut: bool)

  datatype TokenReply = Token | NoToken(error: AdapterError)

  datatype Outcome = Confirmed(awb: Option<string>) | Failed | OutcomeUnknown

  datatype Result<T, E> = Ok(value: T) | Err(error: E)

  /** What the environment does to one create: a token for the first attempt if none is held, the first
      response, the refreshed token after a 401, the second response. */
  datatype Env = Env(token: TokenReply, first: Response, refreshed: TokenReply, second: Response)

  /** Status classification, shared by all methods. */
  function Classify(r: Response): Result<CreateBody, AdapterError> {
    if r.NoAnswer? then Err(if r.timedOut then TimeoutError else ProviderError)
    else if r.status == 401 || r.status == 403 then Err(AuthError)
    else if r.status == 429 then Err(RateLimitError)
    else if r.body.Unreadable? then Err(BodyError)
    else if 200 <= r.status < 300 then Ok(r.body)
    else Err(ProviderError)
  }

  /** The outcome createShipment records; auth and rate-limit errors and a lost body are thrown and recorded
      nowhere. */
  function Settle(r: Result<CreateBody, AdapterError>): Result<Outcome, AdapterError> {
    match r
    case Ok(Accepted(awb)) => Ok(Confirmed(awb))
    case Ok(Declined) => Ok(Failed)
    case Ok(Unreadable) => Err(BodyError)
    case Err(TimeoutError) => Ok(OutcomeUnknown)
    case Err(ProviderError) => Ok(Failed)
    case Err(AuthError) => Err(AuthError)
    case Err(RateLimitError) => Err(RateLimitError)
    case Err(BodyError) => Err(BodyError)
  }

  /** The provider refused the request before it reached any business logic. */
  predicate Bounced(r: Response) {
    r.Answer? && (r.status == 401 || r.status == 403 || r.status == 429)
  }

  /** The provider dealt with the request, and what it said was lost. */
  predicate LostBody(r: Response) {
    r.Answer? && !Bounced(r) && r.body.Unreadable?
  }

  /** The recursive `call` of the second adapter: the responses it got, and its result. */
  function Call(env: Env, hasToken: bool, retried: bool): (seq<Response>, Result<CreateBody, AdapterError>)
    decreases !retried
  {
    var token := if retried then env.refreshed else if hasToken then Token else env.token;
    if token.NoToken? then ([], Err(token.error))
    else
      var response := if retried then env.second else env.first;
      if response.Answer? && response.status == 401 && !retried then
        var again := Call(env, hasToken, true);
        ([response] + again.0, again.1)
      else ([response], Classify(response))
  }

  function Sends(intent: string, responses: seq<Response>): seq<(string, Response)> {
    seq(|responses|, i requires 0 <= i < |responses| => (intent, responses[i]))
  }

  /** Requests for an intent that may have created a shipment. */
  function Effective(wire: seq<(string, Response)>, intent: string): nat {
    if wire == [] then 0
    else
      var last := wire[|wire| - 1];
      Effective(wire[..|wire| - 1], intent) + if last.0 == intent && !Bounced(last.1) then 1 else 0
  }

  function LostBodies(wire: seq<(string, Response)>, intent: string): nat {
    if wire == [] then 0
    else
      var last := wire[|wire| - 1];
      LostBodies(wire[..|wire| - 1], intent) + if last.0 == intent && LostBody(last.1) then 1 else 0
  }

  /** Of the effective creates of an intent all but one had their body lost, and where one had not, the outcome
      is recorded. So an intent of which no body was lost has one effective create at most. */
  ghost predicate OneCreate(wire: seq<(string, Response)>, memo: map<string, Outcome>) {
    forall intent ::
      && LostBodies(wire, intent) <= Effective(wire, intent) <= LostBodies(wire, intent) + 1
      && (Effective(wire, intent) > LostBodies(wire, intent) ==> intent in memo)
  }

  lemma {:induction false} CountsConcat(a: seq<(string, Response)>, b: seq<(string, Response)>, intent: string)
    ensures Effective(a + b, intent) == Effective(a, intent) + Effective(b, intent)
    ensures LostBodies(a + b, intent) == LostBodies(a, intent) + LostBodies(b, intent)
  {
    if b == [] {
      assert a + b == a;
    } else {
      var n := |b| - 1;
      CountsConcat(a, b[..n], intent);
      assert (a + b)[..|a + b| - 1] == a + b[..n];
    }
  }

  /** A create sends at most twice, a second time only after a 401; at most one of the two is effective, and
      then the outcome is recorded unless its body is lost. */
  lemma CallSendsOnce(env: Env, hasToken: bool)
    ensures var sent, result := Call(env, hasToken, false).0, Call(env, hasToken, false).1;
            && |sent| <= 2
            && (|sent| == 2 ==> sent[0].Answer? && sent[0].status == 401)
            && (forall i :: 0 <= i < |sent| - 1 ==> Bounced(sent[i]))
            && (sent != [] && !Bounced(sent[|sent| - 1]) && !LostBody(sent[|sent| - 1]) ==> Settle(result).Ok?)
            && (sent != [] && LostBody(sent[|sent| - 1]) ==> Settle(result) == Err(BodyError))
            && (sent != [] ==> result == Classify(sent[|sent| - 1])
                               || (|sent| == 1 && env.refreshed.NoToken? && result == Err(env.refreshed.error)))
  {
    var again := Call(env, hasToken, true);
  }

  lemma CallIsEffectiveOnce(env: Env, hasToken: bool, intent: string, other: string)
    ensures var call := Call(env, hasToken, false);
            var wire := Sends(intent, call.0);
            && LostBodies(wire, other) <= Effective(wire, other) <= (if other == intent then 1 else 0)
            && (Effective(wire, intent) > LostBodies(wire, intent) ==> Settle(call.1).Ok?)
  {
    CallSendsOnce(env, hasToken);
    var sent := Call(env, hasToken, false).0;
    hide Call, Settle, Bounced, Classify;
    var sends := Sends(intent, sent);
    if |sent| == 1 {
      assert sends[..0] == [] && sends[0] == (intent, sent[0]);
      assert Effective(sends, intent) == (if Bounced(sent[0]) then 0 else 1)
             && LostBodies(sends, intent) == if LostBody(sent[0]) then 1 else 0;
    } else if |sent| == 2 {
      var front := sends[..1];
      assert front[..0] == [] && front[0] == (intent, sent[0]);
      assert Bounced(sent[0]) && !LostBody(sent[0]);
      assert Effective(front, other) == 0 && Effective(front, intent) == 0 && LostBodies(front, other) == 0
             && LostBodies(front, intent) == 0;
      assert sends[1] == (intent, sent[1]);
    }
  }

  lemma CreateKeeps(wire: seq<(string, Response)>, memo: map<string, Outcome>, intent: string, env: Env, hasToken: bool)
    requires OneCreate(wire, memo) && intent !in memo
    ensures var call := Call(env, hasToken, false);
            OneCreate(wire + Sends(intent, call.0), if Settle(call.1).Ok? then memo[intent := Settle(call.1).value]
                      else memo)
  {
    hide Call, Settle, Effective, LostBodies;
    var call := Call(env, hasToken, false);
    var wire' := wire + Sends(intent, call.0);
    forall other
      ensures LostBodies(wire', other) <= Effective(wire', other) <= LostBodies(wire', other) + 1
      ensures Effective(wire', other) > LostBodies(wire', other) ==>
                other in memo || (other == intent && Settle(call.1).Ok?)
    {
      CountsConcat(wire, Sends(intent, call.0), other);
      CallIsEffectiveOnce(env, hasToken, intent, other);
    }
  }

  // ---- createShipment -----------------------------------------------------------------------------------------

  /** The creates sent so far with their responses, and the outcomes recorded. */
  datatype Made = Made(wire: seq<(string, Response)>, memo: map<string, Outcome>)

  /** createShipment: answered from the memo, or sent and recorded. */
  function Create(made: Made, intent: string, env: Env, hasToken: bool): (Made, Result<Outcome, AdapterError>) {
    if intent in made.memo then (made, Ok(made.memo[intent]))
    else
      var call := Call(env, hasToken, false);
      var result := Settle(call.1);
      (Made(made.wire + Sends(intent, call.0), if result.Ok? then made.memo[intent := result.value] else made.memo),
       result)
  }

  /** One create after the other; each with the environment it meets and the token held then. */
  function Creates(requests: seq<(string, Env, bool)>): Made {
    if requests == [] then Made([], map[])
    else
      var last := requests[|requests| - 1];
      Create(Creates(requests[..|requests| - 1]), last.0, last.1, last.2).0
  }

  /** Whatever the provider answers to however many creates. */
  lemma {:induction false} CreatesOnce(requests: seq<(string, Env, bool)>)
    ensures var made := Creates(requests); OneCreate(made.wire, made.memo)
  {
    hide OneCreate, Call, Settle;
    if requests == [] {
      NothingSent();
    } else {
      var last, before := requests[|requests| - 1], Creates(requests[..|requests| - 1]);
      CreatesOnce(requests[..|requests| - 1]);
      if last.0 !in before.memo {
        CreateKeeps(before.wire, before.memo, last.0, last.1, last.2);
      }
    }
  }

  lemma NothingSent()
    ensures OneCreate([], map[])
  {
  }

  /** The first answer to the intent is lost on the way, the second is not. */
  function LostThenHeard(intent: string, awb: string): seq<(string, Env, bool)> {
    var lost, heard := Answer(200, Unreadable), Answer(200, Accepted(Some(awb)));
    [(intent, Env(Token, lost, Token, lost), true), (intent, Env(Token, heard, Token, heard), true)]
  }

  lemma TwoCreates(intent: string, awb: string)
    ensures Creates(LostThenHeard(intent, awb)).wire
            == [(intent, Answer(200, Unreadable)), (intent, Answer(200, Accepted(Some(awb))))]
  {
    var requests := LostThenHeard(intent, awb);
    assert requests[..1] == [requests[0]] && requests[..1][..0] == [];
    assert Creates([requests[0]]).wire == [(intent, Answer(200, Unreadable))];
  }

  lemma CountsOfTwo(intent: string, a: Response, b: Response)
    requires !Bounced(a) && !Bounced(b) && LostBody(a) && !LostBody(b)
    ensures Effective([(intent, a), (intent, b)], intent) == 2 && LostBodies([(intent, a), (intent, b)], intent) == 1
  {
    hide Bounced, LostBody;
    var wire := [(intent, a), (intent, b)];
    assert wire[..1] == [(intent, a)] && wire[..1][..0] == [];
    assert Effective(wire[..1], intent) == 1 && LostBodies(wire[..1], intent) == 1;
  }

  /** A lost body is what it takes for an intent to be created a second time, and enough. */
  lemma LostBodyResends(intent: string, awb: string)
    ensures exists requests :: Effective(Creates(requests).wire, intent) == 2
                               && LostBodies(Creates(requests).wire, intent) == 1
    ensures forall requests :: LostBodies(Creates(requests).wire, intent) == 0 ==>
              Effective(Creates(requests).wire, intent) <= 1
  {
    TwoCreates(intent, awb);
    CountsOfTwo(intent, Answer(200, Unreadable), Answer(200, Accepted(Some(awb))));
    hide Creates, Effective, LostBodies, LostThenHeard;
    forall requests
      ensures LostBodies(Creates(requests).wire, intent) == 0 ==> Effective(Creates(requests).wire, intent) <= 1
    {
      CreatesOnce(requests);
    }
  }

  class Adapter {
    var createsByIntent: map<string, Outcome>
    var memoryToken: bool
    var requestLog: seq<(string, bool)>          // intent, answered from the memo
    ghost var wire: seq<(string, Response)>      // create requests that left the process, with their responses

    constructor ()
      ensures createsByIntent == map[] && wire == [] && OneCreate(wire, createsByIntent)
    {
      createsByIntent, memoryToken, requestLog, wire := map[], false, [], [];
    }

    /** authedRequest: the loop over at most two attempts. */
    method AuthedRequest(intent: string, env: Env) returns (result: Result<CreateBody, AdapterError>)
      modifies this`memoryToken, this`wire
      ensures var call := Call(env, old(memoryToken), false);
              wire == old(wire) + Sends(intent, call.0) && result == call.1
    {
      if !memoryToken {
        if env.token.NoToken? {
          return Err(env.token.error);
        }
        memoryToken := true;
      }
      var attempt := 0;
      ghost var start := wire;
      while attempt < 2
        invariant 0 <= attempt <= 2
        invariant wire == start + Sends(intent, if attempt == 0 then [] else [env.first])
        invariant attempt > 0 ==> env.first.Answer? && env.first.status == 401 && env.refreshed.Token?
        invariant attempt < 2
      {
        var response := if attempt == 0 then env.first else env.second;
        wire := wire + [(intent, response)];
        if response.Answer? && response.status == 401 && attempt == 0 {
          memoryToken := false;
          if env.refreshed.NoToken? {
            return Err(env.refreshed.error);
          }
          memoryToken := true;
          attempt := attempt + 1;
        } else {
          return Classify(response);
        }
      }
    }

    /** createShipment. */
    method CreateShipment(intent: string, env: Env) returns (result: Result<Outcome, AdapterError>)
      requires OneCreate(wire, createsByIntent)
      modifies this
      ensures OneCreate(wire, createsByIntent)
      ensures var (made, outcome) := Create(Made(old(wire), old(createsByIntent)), intent, env, old(memoryToken));
              wire == made.wire && createsByIntent == made.memo && result == outcome
      ensures requestLog == old(requestLog) + [(intent, intent in old(createsByIntent))]
    {
      hide OneCreate, Call, Settle;
      requestLog := requestLog + [(intent, intent in createsByIntent)];
      if intent in createsByIntent {
        return Ok(createsByIntent[intent]);
      }
      CreateKeeps(wire, createsByIntent, intent, env, memoryToken);
      var body := AuthedRequest(intent, env);
      result := Settle(body);
      if result.Ok? {
        createsByIntent := createsByIntent[intent := result.value];
      }
    }
  }

  /** The answer as the booking worker sees it. */
  function ReplyOf(r: Result<Outcome, AdapterError>, declined: bool): AdapterReply {
    match r
    case Ok(Confirmed(Some(awb))) => ReplyCreated(awb)
    case Ok(Confirmed(None)) => ReplyCreatedWithoutAwb
    case Ok(Failed) => if declined then ReplyDeclined else ReplyProviderError
    case Ok(OutcomeUnknown) => ReplyTimeout
    case Err(AuthError) => ReplyAuthError
    case Err(RateLimitError) => ReplyBackPressure
    case Err(_) => ReplyOther
  }

  // ---- The call path -------------------------------------------------------------------------------------------

  /** The courier account row: disabled, and with credentials for its current mode. */
  datatype Account = Account(disabled: bool, credentials: bool)

  /** What a call meets on its way to the adapter and back (adapter-caller.service.ts): the account, the breaker,
      the budget, whether an adapter can be built, and whether the policy can note the result. */
  datatype Passage = Passage(account: Option<Account>, circuitOpen: bool, budgetLeft: bool, buildable: bool,
                             noted: bool)

  datatype Refusal = NoAccount | AccountDisabled | NoCredentials | CircuitOpen | BudgetSpent | NoAdapter

  /** Why the call does not reach the adapter, in the order of the checks. */
  function RefusedBy(p: Passage): Option<Refusal> {
    if p.account.None? then Some(NoAccount)
    else if p.account.value.disabled then Some(AccountDisabled)
    else if !p.account.value.credentials then Some(NoCredentials)
    else if p.circuitOpen then Some(CircuitOpen)
    else if !p.budgetLeft then Some(BudgetSpent)
    else if !p.buildable then Some(NoAdapter)
    else None
  }

  /** What the worker makes of a refusal: back-pressure is rethrown, anything else leaves the attempt unknown. */
  function RefusalReply(refusal: Refusal): AdapterReply {
    if refusal.CircuitOpen? || refusal.BudgetSpent? then ReplyBackPressure else ReplyOther
  }

  /** What the worker is told of an outcome; where the policy fails to note it, its error replaces the outcome. */
  function PassedOn(p: Passage, outcome: Result<Outcome, AdapterError>, declined: bool): AdapterReply {
    if p.noted then ReplyOf(outcome, declined) else ReplyOther
  }

  /** Where no create has left, the worker hears nothing that a create could have brought: a refusal on the way,
      or whatever the failed token request was. These are the replies that the protocol's worker can be told
      before it sends. */
  lemma UnsentReplies(p: Passage, env: Env, hasToken: bool)
    ensures RefusedBy(p).Some? ==> CallRefused(RefusalReply(RefusedBy(p).value))
    ensures var call := Call(env, hasToken, false);
            call.0 == [] <==> !hasToken && env.token.NoToken?
    ensures var call := Call(env, hasToken, false);
            call.0 == [] ==> BeforeSending(PassedOn(p, Settle(call.1), false))
  {
  }

  /** The protocol's memo is the adapter's: exactly the recorded outcomes are memoised; a rate limit, which
      creates nothing, sends the job back to the queue, and a lost body leaves the attempt unknown. */
  lemma MemoAgrees(env: Env, hasToken: bool, declined: bool)
    ensures var call := Call(env, hasToken, false);
            var reply := ReplyOf(Settle(call.1), declined);
            && (Memoised(reply) <==> Settle(call.1).Ok?)
            && (WorkerAnswer(reply).None? <==> Settle(call.1) == Err(RateLimitError))
            && (WorkerAnswer(reply).None? ==> forall r :: r in call.0 ==> Bounced(r))
            && (forall r :: r in call.0 && LostBody(r) ==> WorkerAnswer(reply) == Some(Ambiguous))
  {
    CallSendsOnce(env, hasToken);
  }
}
