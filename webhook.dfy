/**
 * The payment provider's webhook: the event switch that decides which subscription flag to set,
 * and the write of that flag on the user the provider's customer id belongs to.
 *
 * Signature verification, the customer-to-user lookup and the subscription retrieval are calls
 * into other services; they appear as a verification result and two function parameters.
 */
module Webhook {
  import opened Wrappers
  import opened Users

  const SubscriptionCreated := "customer.subscription.created"
  const SubscriptionUpdated := "customer.subscription.updated"
  const SubscriptionDeleted := "customer.subscription.deleted"
  const CheckoutCompleted := "checkout.session.completed"

  /** The fields of a provider subscription the handler reads. */
  datatype Subscription = Subscription(customer: string, status: string)

  /** The fields of a completed checkout session the handler reads; an absent subscription id is `None`. */
  datatype CheckoutSession = CheckoutSession(mode: string, subscription: Option<string>)

  /** The object carried by an event. */
  datatype EventObject =
    | SubscriptionObject(subscription: Subscription)
    | SessionObject(session: CheckoutSession)
    | OtherObject

  /** A verified event: its type string and its object. */
  datatype Event = Event(eventType: string, dataObject: EventObject)

  /** The one write an event can ask for: set the flag of the user whose customer id this is. */
  datatype Change = Change(customer: string, subscribed: bool)

  /** The JSON body answered and its HTTP status. */
  datatype Body = ErrorBody(error: string) | ReceivedBody
  datatype WebhookResponse = WebhookResponse(status: nat, body: Body)

  /** The event types the switch handles. */
  predicate Handled(eventType: string) {
    eventType == SubscriptionCreated || eventType == SubscriptionUpdated
    || eventType == SubscriptionDeleted || eventType == CheckoutCompleted
  }

  /**
   * The event switch: which flag the event sets on which customer, if any. `retrieve` is the
   * provider's lookup of a subscription by id.
   */
  function Transition(event: Event, retrieve: string -> Subscription): (c: Option<Change>)
    ensures c.Some? ==> Handled(event.eventType)
  {
    if event.eventType == SubscriptionCreated || event.eventType == SubscriptionUpdated then
      match event.dataObject
      case SubscriptionObject(s) => Some(Change(s.customer, s.status == "active"))
      case _ => None
    else if event.eventType == SubscriptionDeleted then
      match event.dataObject
      case SubscriptionObject(s) => Some(Change(s.customer, false))
      case _ => None
    else if event.eventType == CheckoutCompleted then
      match event.dataObject
      case SessionObject(session) =>
        if session.mode == "subscription" && session.subscription.Some? && session.subscription.value != "" then
          Some(Change(retrieve(session.subscription.value).customer, true))
        else None
      case _ => None
    else None
  }

  /**
   * The store after `handleSubscriptionChange`: the flag of the user the customer belongs to is
   * assigned, and nothing is written when no user has that customer id. `lookup` is
   * `getUserByStripeCustomerId`, reduced to the uid it finds.
   */
  function Apply(users: map<string, UserRecord>, lookup: string -> Option<string>, change: Change): map<string, UserRecord>
  {
    match lookup(change.customer)
    case None => users
    case Some(uid) => WithSubscription(users, uid, change.subscribed)
  }

  /** The store after an event has been handled. */
  function ApplyEvent(users: map<string, UserRecord>, lookup: string -> Option<string>, event: Event,
                      retrieve: string -> Subscription): map<string, UserRecord>
  {
    match Transition(event, retrieve)
    case None => users
    case Some(change) => Apply(users, lookup, change)
  }

  /** `handleSubscriptionChange`. */
  method HandleSubscriptionChange(store: Store, lookup: string -> Option<string>, subscription: Subscription, isSubscribed: bool)
    modifies store
    ensures store.users == Apply(old(store.users), lookup, Change(subscription.customer, isSubscribed))
  {
    var user := lookup(subscription.customer);
    if user.Some? {
      store.SetSubscriptionStatus(user.value, isSubscribed);
    }
  }

  /**
   * `POST`: `verified` is the outcome of the signature check (the event, or the check's message).
   * A failed check answers 400 and writes nothing; every verified event answers `received`.
   */
  method Post(store: Store, verified: Result<Event, string>, lookup: string -> Option<string>,
              retrieve: string -> Subscription)
    returns (response: WebhookResponse)
    modifies store
    ensures verified.Failure? ==>
              response == WebhookResponse(400, ErrorBody("Webhook Error: " + verified.error))
              && store.users == old(store.users)
    ensures verified.Success? ==>
              response == WebhookResponse(200, ReceivedBody)
              && store.users == ApplyEvent(old(store.users), lookup, verified.value, retrieve)
  {
    if verified.Failure? {
      return WebhookResponse(400, ErrorBody("Webhook Error: " + verified.error));
    }
    var event := verified.value;
    if event.eventType == SubscriptionCreated || event.eventType == SubscriptionUpdated {
      if event.dataObject.SubscriptionObject? {
        var s := event.dataObject.subscription;
        HandleSubscriptionChange(store, lookup, s, s.status == "active");
      }
    } else if event.eventType == SubscriptionDeleted {
      if event.dataObject.SubscriptionObject? {
        HandleSubscriptionChange(store, lookup, event.dataObject.subscription, false);
      }
    } else if event.eventType == CheckoutCompleted {
      if event.dataObject.SessionObject? {
        var session := event.dataObject.session;
        if session.mode == "subscription" && session.subscription.Some? && session.subscription.value != "" {
          var subscription := retrieve(session.subscription.value);
          HandleSubscriptionChange(store, lookup, subscription, true);
        }
      }
    }
    response := WebhookResponse(200, ReceivedBody);
  }

  /** A created or updated subscription sets the flag to whether its status is `active`. */
  lemma SubscriptionSetsActiveFlag(s: Subscription, eventType: string, retrieve: string -> Subscription)
    requires eventType == SubscriptionCreated || eventType == SubscriptionUpdated
    ensures Transition(Event(eventType, SubscriptionObject(s)), retrieve) == Some(Change(s.customer, s.status == "active"))
    ensures Transition(Event(eventType, SubscriptionObject(s)), retrieve).value.subscribed <==> s.status == "active"
  {
  }

  /** A deleted subscription clears the flag, whatever its status. */
  lemma DeletionClearsFlag(s: Subscription, retrieve: string -> Subscription)
    ensures Transition(Event(SubscriptionDeleted, SubscriptionObject(s)), retrieve) == Some(Change(s.customer, false))
  {
  }

  /**
   * A completed checkout sets the flag exactly when it is a subscription-mode session with a
   * non-empty subscription id, and then on the customer of the retrieved subscription.
   */
  lemma CheckoutSetsFlagOnlyForSubscriptions(session: CheckoutSession, retrieve: string -> Subscription)
    ensures var c := Transition(Event(CheckoutCompleted, SessionObject(session)), retrieve);
            c.Some? <==> session.mode == "subscription" && session.subscription.Some? && session.subscription.value != ""
    ensures var c := Transition(Event(CheckoutCompleted, SessionObject(session)), retrieve);
            c.Some? ==> c.value == Change(retrieve(session.subscription.value).customer, true)
  {
  }

  /** Any other event type writes nothing. */
  lemma OtherEventsWriteNothing(users: map<string, UserRecord>, lookup: string -> Option<string>, event: Event,
                                retrieve: string -> Subscription)
    requires !Handled(event.eventType)
    ensures ApplyEvent(users, lookup, event, retrieve) == users
  {
  }

  /** An unknown customer id writes nothing. */
  lemma UnmatchedCustomerWritesNothing(users: map<string, UserRecord>, lookup: string -> Option<string>, change: Change)
    requires lookup(change.customer).None?
    ensures Apply(users, lookup, change) == users
  {
  }

  /**
   * The only field written is the flag of the matched user: every other record, and every other
   * field of the matched record, is untouched.
   */
  lemma OnlyMatchedFlagIsWritten(users: map<string, UserRecord>, lookup: string -> Option<string>, change: Change)
    ensures var r := Apply(users, lookup, change);
            && r.Keys == users.Keys
            && (forall v :: v in users && Some(v) != lookup(change.customer) ==> r[v] == users[v])
            && (lookup(change.customer).Some? && lookup(change.customer).value in users ==>
                  var uid := lookup(change.customer).value;
                  r[uid] == users[uid].(isSubscribed := change.subscribed))
  {
  }

  /** Delivering the same event twice leaves the store as delivering it once. */
  lemma {:induction false} ReplayIsIdempotent(users: map<string, UserRecord>, lookup: string -> Option<string>, event: Event,
                                              retrieve: string -> Subscription)
    ensures ApplyEvent(ApplyEvent(users, lookup, event, retrieve), lookup, event, retrieve)
            == ApplyEvent(users, lookup, event, retrieve)
  {
    match Transition(event, retrieve)
    case None =>
    case Some(change) =>
      match lookup(change.customer)
      case None =>
      case Some(uid) =>
        var once := WithSubscription(users, uid, change.subscribed);
        assert WithSubscription(once, uid, change.subscribed) == once;
  }
}
