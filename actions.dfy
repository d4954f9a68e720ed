/**
 * The server actions: the usage gate around the initial recommendation, the input mapping of the
 * follow-up question, the checkout-session request and the feedback action.
 */
module Actions {
  import opened Wrappers
  import opened Users
  import opened Chat
  import opened Recommendation
  import Feedback

  /** The text of the refusal a user over quota receives. */
  const UsageLimitMessage := "Usage limit reached"

  /** What a refusal asks the caller to provide; the return type admits `auth`, which this action never produces. */
  datatype Required = RequiresSubscription | RequiresAuth

  /**
   * What the recommendation action hands back: the flow's output, a refusal value, or the error
   * the flow raised, thrown on to the caller.
   */
  datatype Response =
    | Recommendation(output: RecommendationOutput)
    | Refused(error: string, required: Option<Required>)
    | Raised(cause: FlowError)

  /** The argument of the flow call: the caller's input plus the request's trace id. */
  datatype FlowCall = FlowCall(input: RecommendationInput, traceId: string)

  /** The effect of one recommendation request: the response, the new user store and the flow call made, if any. */
  datatype GateOutcome = GateOutcome(response: Response, users: map<string, UserRecord>, flowCall: Option<FlowCall>)

  /** The refusal condition of the gate. */
  predicate OverQuota(u: UserRecord) {
    u.usageCount >= FreeAnalyses && !u.isSubscribed
  }

  /**
   * One recommendation request by `uid`: get or create the record, refuse when it is over quota,
   * otherwise charge one analysis to a non-subscriber, then run the flow on the input extended
   * with the trace id and pass its result, or its error, back.
   */
  function Gate(users: map<string, UserRecord>, uid: string, newUser: UserRecord, input: RecommendationInput,
                traceId: string, reply: Mode -> ModelReply): (r: GateOutcome)
    ensures r.users.Keys == users.Keys + {uid}
    ensures r.flowCall.None? <==> r.response.Refused?
    ensures r.flowCall.Some? ==> r.flowCall.value == FlowCall(input, traceId)
  {
    var stored := Upsert(users, uid, newUser);
    var user := stored[uid];
    if OverQuota(user) then
      GateOutcome(Refused(UsageLimitMessage, Some(RequiresSubscription)), stored, None)
    else
      var charged := if !user.isSubscribed then Incremented(stored, uid) else stored;
      var result := match Flow(input, reply)
                    case Success(o) => Recommendation(o)
                    case Failure(e) => Raised(e);
      GateOutcome(result, charged, Some(FlowCall(input, traceId)))
  }

  /**
   * `handleGetRecommendation`: the read, check and increment run against the store, in that
   * order, and before the flow is called. `traceId` is the generated UUID, `reply` the AI service.
   */
  method HandleGetRecommendation(store: Store, uid: string, input: RecommendationInput, traceId: string,
                                 newUser: UserRecord, reply: Mode -> ModelReply)
    returns (response: Response, flowCall: Option<FlowCall>)
    modifies store
    ensures GateOutcome(response, store.users, flowCall) == Gate(old(store.users), uid, newUser, input, traceId, reply)
  {
    var user := store.GetOrCreate(uid, newUser);
    if user.usageCount >= FreeAnalyses && !user.isSubscribed {
      return Refused(UsageLimitMessage, Some(RequiresSubscription)), None;
    }
    if !user.isSubscribed {
      store.IncrementUsage(uid);
    }
    var call := FlowCall(input, traceId);
    flowCall := Some(call);
    var result := Flow(call.input, reply);
    match result
    case Success(o) => response := Recommendation(o);
    case Failure(e) => response := Raised(e);
  }

  /** A request is refused exactly when the stored record is over quota, and the refusal is always the same value. */
  lemma GateRefusesIffOverQuota(users: map<string, UserRecord>, uid: string, newUser: UserRecord,
                                input: RecommendationInput, traceId: string, reply: Mode -> ModelReply)
    ensures var g := Gate(users, uid, newUser, input, traceId, reply);
            g.response.Refused? <==> OverQuota(Upsert(users, uid, newUser)[uid])
    ensures var g := Gate(users, uid, newUser, input, traceId, reply);
            g.response.Refused? ==> g.response == Refused("Usage limit reached", Some(RequiresSubscription))
  {
  }

  /** A refused request charges nothing and calls no flow: only the get-or-create is left behind. */
  lemma RefusalHasNoEffect(users: map<string, UserRecord>, uid: string, newUser: UserRecord,
                           input: RecommendationInput, traceId: string, reply: Mode -> ModelReply)
    requires Gate(users, uid, newUser, input, traceId, reply).response.Refused?
    ensures var g := Gate(users, uid, newUser, input, traceId, reply);
            g.flowCall == None && g.users == Upsert(users, uid, newUser)
  {
  }

  /** A subscriber is never refused, never charged, and the flow gets exactly the input and trace id. */
  lemma SubscriberIsUnmetered(users: map<string, UserRecord>, uid: string, newUser: UserRecord,
                              input: RecommendationInput, traceId: string, reply: Mode -> ModelReply)
    requires Upsert(users, uid, newUser)[uid].isSubscribed
    ensures var g := Gate(users, uid, newUser, input, traceId, reply);
            !g.response.Refused? && g.users == Upsert(users, uid, newUser)
            && g.flowCall == Some(FlowCall(input, traceId))
  {
  }

  /**
   * A non-subscriber under quota is charged exactly one analysis, only on its own record, and
   * the flow gets exactly the input and the trace id.
   */
  lemma UnderQuotaIsChargedOnce(users: map<string, UserRecord>, uid: string, newUser: UserRecord,
                                input: RecommendationInput, traceId: string, reply: Mode -> ModelReply)
    requires var u := Upsert(users, uid, newUser)[uid]; !u.isSubscribed && u.usageCount < FreeAnalyses
    ensures var g := Gate(users, uid, newUser, input, traceId, reply);
            var u := Upsert(users, uid, newUser)[uid];
            && !g.response.Refused?
            && g.users.Keys == users.Keys + {uid}
            && g.users[uid] == u.(usageCount := u.usageCount + 1)
            && (forall v :: v in users && v != uid ==> g.users[v] == users[v])
            && g.flowCall == Some(FlowCall(input, traceId))
  {
  }

  /**
   * A flow failure is thrown on unchanged, and the charge made before the call stays: an input
   * with more than ten URIs still costs a non-subscriber one analysis.
   */
  lemma FlowErrorsAreRethrownAfterCharge(users: map<string, UserRecord>, uid: string, newUser: UserRecord,
                                         input: RecommendationInput, traceId: string, reply: Mode -> ModelReply)
    requires !OverQuota(Upsert(users, uid, newUser)[uid])
    requires Flow(input, reply).Failure?
    ensures var g := Gate(users, uid, newUser, input, traceId, reply);
            var u := Upsert(users, uid, newUser)[uid];
            && g.response == Raised(Flow(input, reply).error)
            && g.users[uid].usageCount == (if u.isSubscribed then u.usageCount else u.usageCount + 1)
    ensures |input.uris| > MaxUris ==> Gate(users, uid, newUser, input, traceId, reply).response == Raised(InvalidInput)
  {
  }

  /** The store and the number of flow calls after `n` identical requests in a row. */
  datatype SessionState = SessionState(users: map<string, UserRecord>, flowCalls: nat)

  function Session(users: map<string, UserRecord>, uid: string, newUser: UserRecord, input: RecommendationInput,
                   traceId: string, reply: Mode -> ModelReply, n: nat): SessionState
    decreases n
  {
    if n == 0 then SessionState(users, 0)
    else
      var g := Gate(users, uid, newUser, input, traceId, reply);
      var rest := Session(g.users, uid, newUser, input, traceId, reply, n - 1);
      SessionState(rest.users, rest.flowCalls + (if g.flowCall.Some? then 1 else 0))
  }

  /**
   * The quota: a non-subscriber who starts at `k` analyses reaches at most five, and `n` requests
   * reach the AI service `min(n, 5 - k)` times (none once five are used).
   */
  lemma {:induction false} QuotaOverSession(users: map<string, UserRecord>, uid: string, newUser: UserRecord,
                                            input: RecommendationInput, traceId: string, reply: Mode -> ModelReply, n: nat)
    requires !Upsert(users, uid, newUser)[uid].isSubscribed
    ensures var k := Upsert(users, uid, newUser)[uid].usageCount;
            var s := Session(users, uid, newUser, input, traceId, reply, n);
            var u := Upsert(s.users, uid, newUser)[uid];
            && !u.isSubscribed
            && u.usageCount == (if k >= FreeAnalyses then k else Min(FreeAnalyses, k + n))
            && s.flowCalls == (if k >= FreeAnalyses then 0 else Min(n, FreeAnalyses - k))
    decreases n
  {
    if n > 0 {
      var g := Gate(users, uid, newUser, input, traceId, reply);
      assert uid in g.users && Upsert(g.users, uid, newUser)[uid] == g.users[uid];
      QuotaOverSession(g.users, uid, newUser, input, traceId, reply, n - 1);
    }
  }

  /** A subscriber's usage count never moves, however many requests are made, and every one reaches the service. */
  lemma {:induction false} SubscriberSession(users: map<string, UserRecord>, uid: string, newUser: UserRecord,
                                             input: RecommendationInput, traceId: string, reply: Mode -> ModelReply, n: nat)
    requires Upsert(users, uid, newUser)[uid].isSubscribed
    ensures var s := Session(users, uid, newUser, input, traceId, reply, n);
            && Upsert(s.users, uid, newUser)[uid] == Upsert(users, uid, newUser)[uid]
            && s.flowCalls == n
    decreases n
  {
    if n > 0 {
      var g := Gate(users, uid, newUser, input, traceId, reply);
      assert Upsert(g.users, uid, newUser)[uid] == g.users[uid];
      SubscriberSession(g.users, uid, newUser, input, traceId, reply, n - 1);
    }
  }

  /** The smaller of two integers. */
  function Min(a: int, b: int): int {
    if a <= b then a else b
  }

  /**
   * A non-subscriber with four analyses used gets the fifth, and the request right after it
   * meets the paywall.
   */
  lemma FifthAnalysisThenPaywall(users: map<string, UserRecord>, uid: string, newUser: UserRecord,
                                 input: RecommendationInput, traceId: string, reply: Mode -> ModelReply,
                                 o: RecommendationOutput)
    requires uid in users && users[uid].usageCount == 4 && !users[uid].isSubscribed
    requires InputConforms(input) && reply(SelectMode(input)) == Replied(OutputJson(o))
    ensures var g1 := Gate(users, uid, newUser, input, traceId, reply);
            var g2 := Gate(g1.users, uid, newUser, input, traceId, reply);
            && g1.response == Recommendation(o) && g1.users[uid].usageCount == 5
            && g2.response == Refused(UsageLimitMessage, Some(RequiresSubscription))
            && g2.users == g1.users
  {
    FlowReturnsConformingReply(input, reply, o);
  }

  /** The data the dashboard sends with a follow-up question. */
  datatype FollowUpRequest = FollowUpRequest(
    question: string, tickers: seq<string>, initialRecommendation: string, chatHistory: seq<ChatTurn>)

  /** The input of the follow-up flow. */
  datatype FollowUpQuestionInput = FollowUpQuestionInput(
    question: string, ticker1: Option<string>, ticker2: Option<string>,
    initialRecommendation: string, chatHistory: seq<ChatTurn>)

  /**
   * `handleFollowUp`'s input mapping: the first ticker (undefined when there is none), the second
   * but only when it is non-empty (`tickers[1] || undefined`), the other fields copied.
   */
  function ToFollowUpInput(data: FollowUpRequest): (r: FollowUpQuestionInput)
    ensures r.question == data.question && r.initialRecommendation == data.initialRecommendation
    ensures r.chatHistory == data.chatHistory
    ensures r.ticker1 == (if |data.tickers| > 0 then Some(data.tickers[0]) else None)
    ensures r.ticker2.Some? <==> |data.tickers| > 1 && data.tickers[1] != ""
    ensures r.ticker2.Some? ==> r.ticker2.value == data.tickers[1]
  {
    FollowUpQuestionInput(
      data.question,
      if |data.tickers| > 0 then Some(data.tickers[0]) else None,
      if |data.tickers| > 1 && data.tickers[1] != "" then Some(data.tickers[1]) else None,
      data.initialRecommendation,
      data.chatHistory)
  }

  /** Only the first two tickers reach the follow-up flow. */
  lemma FollowUpUsesTwoTickers(data: FollowUpRequest, more: seq<string>)
    requires |data.tickers| >= 2
    ensures ToFollowUpInput(data.(tickers := data.tickers + more)) == ToFollowUpInput(data)
  {
  }

  /** The price id is missing: the message `createCheckoutSession` throws. */
  const PriceIdMissing := "Stripe Price ID is not configured."

  /** The arguments `createCheckoutSession` passes on to the payment provider. */
  datatype CheckoutRequest = CheckoutRequest(
    uid: string, email: Option<string>, priceId: string, successUrl: string, cancelUrl: string)

  /**
   * The checkout request for `user`, or the configuration error when the price id is undefined
   * or empty. Both return addresses are the dashboard of the calling origin.
   */
  function CheckoutFor(uid: string, user: UserRecord, origin: string, priceId: Option<string>): (r: Result<CheckoutRequest, string>)
    ensures r.Failure? <==> priceId.None? || priceId.value == ""
    ensures r.Failure? ==> r.error == PriceIdMissing
    ensures r.Success? ==> r.value.priceId == priceId.value && r.value.uid == uid && r.value.email == user.email
    ensures r.Success? ==> r.value.successUrl == r.value.cancelUrl == origin + "/dashboard"
  {
    if priceId.None? || priceId.value == "" then Failure(PriceIdMissing)
    else Success(CheckoutRequest(uid, user.email, priceId.value, origin + "/dashboard", origin + "/dashboard"))
  }

  /**
   * `createCheckoutSession`: the user record is fetched (and created if need be) first; a missing
   * price id then fails before any session is requested.
   */
  method CreateCheckoutSession(store: Store, uid: string, newUser: UserRecord, origin: string, priceId: Option<string>)
    returns (r: Result<CheckoutRequest, string>)
    modifies store
    ensures store.users == Upsert(old(store.users), uid, newUser)
    ensures r == CheckoutFor(uid, store.users[uid], origin, priceId)
  {
    var user := store.GetOrCreate(uid, newUser);
    if priceId.None? || priceId.value == "" {
      return Failure(PriceIdMissing);
    }
    r := Success(CheckoutRequest(uid, user.email, priceId.value, origin + "/dashboard", origin + "/dashboard"));
  }

  /**
   * `handleFeedback`: the feedback text and the summary the summarisation flow produced for it
   * are saved as they are; a failed write surfaces as the save's error.
   */
  method HandleFeedback(collection: Feedback.FeedbackCollection, feedbackText: string, summary: string,
                        writeError: Option<string>)
    returns (r: Feedback.SaveOutcome)
    modifies collection
    ensures writeError.None? ==>
              r == Feedback.Saved && collection.docs == old(collection.docs) + [Feedback.FeedbackDoc(feedbackText, summary)]
    ensures writeError.Some? ==> r == Feedback.SaveFailed(Feedback.SaveFailedMessage) && collection.docs == old(collection.docs)
  {
    r := collection.SaveFeedback(feedbackText, summary, writeError);
  }
}
