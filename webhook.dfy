/**
 * The payment webhook that grants the "Pro" entitlement.
 *
 * The payment provider posts a signed event; the handler checks its
 * configuration, has the provider's SDK verify the signature, ignores every
 * event type except a completed checkout, finds the purchaser's user id by
 * email and sets `is_pro` and `stripe_customer_id` on that user's profile row.
 *
 * The SDK's signature check, the user directory and the store's error report
 * are foreign: they are the inputs `verify`, `directory` and `updateError`.
 * The guard chain is the pure function Decide; the write is ProfileStore.Update;
 * Outcome is the whole handler as a function of the table before the call, and
 * HandleWebhook runs it against a ProfileStore.
 */
module Webhook {

  datatype Option<T> = None | Some(value: T)

  type UserId = string

  /** One row of the `profiles` table: the columns the entitlement code touches. */
  datatype Profile = Profile(email: string, isPro: bool, stripeCustomerId: Option<string>)

  /** The four environment variables; None when unset. */
  datatype Env = Env(
    stripeApiKey: Option<string>,
    webhookSigningSecret: Option<string>,
    supabaseUrl: Option<string>,
    supabaseServiceRoleKey: Option<string>)

  /** JavaScript truthiness of a `string | undefined | null`. */
  predicate Present(v: Option<string>) {
    v.Some? && v.value != ""
  }

  predicate Configured(env: Env) {
    && Present(env.stripeApiKey)
    && Present(env.webhookSigningSecret)
    && Present(env.supabaseUrl)
    && Present(env.supabaseServiceRoleKey)
  }

  /** The request: the `Stripe-Signature` header (None when absent) and the raw body. */
  datatype Request = Request(signature: Option<string>, body: string)

  /** The fields of a checkout session the handler reads (`customer_details?.email`, `customer`). */
  datatype Session = Session(email: Option<string>, customer: Option<string>)

  datatype Event = Event(eventType: string, session: Session)

  /** What the SDK's `constructEventAsync` yields: the parsed event, or a thrown error's message. */
  datatype Verification = Verified(event: Event) | Invalid(message: string)

  /** The SDK's check of (raw body, header, signing secret). */
  type Verifier = (string, string, string) -> Verification

  /** What `auth.admin.listUsers({ email })` yields: an error, or the ids of the listed users in order. */
  datatype Lookup = LookupFailed | Users(ids: seq<UserId>)

  type Directory = string -> Lookup

  datatype Reply = Received | Message(text: string)

  datatype Response = Response(status: int, reply: Reply)

  /** Where the guard chain ends: an early response, or the one write it asks the store for. */
  datatype Step = Respond(response: Response) | Upgrade(userId: UserId, customer: Option<string>)

  const CheckoutCompleted: string := "checkout.session.completed"
  const ConfigIncomplete: string := "Configuração do servidor incompleta."
  const EmailNotFound: string := "Email do cliente não encontrado na sessão do Stripe."
  /** Stand-in for the SDK's rejection message when it is handed no header (the handler's `signature!`). */
  const NoSignatureHeader: string := "No stripe-signature header value was provided."

  function UserNotFound(email: string): string {
    "Usuário não encontrado no Supabase com o email: " + email
  }

  /** Signature verification: an absent header is rejected before the signature is examined. */
  function Authenticate(verify: Verifier, req: Request, secret: string): Verification {
    match req.signature
    case None => Invalid(NoSignatureHeader)
    case Some(header) => verify(req.body, header, secret)
  }

  /**
   * Every check the request has to pass before the handler writes: configuration
   * present, signature verified, a completed checkout, an email, and a non-empty
   * user list whose first id is `id`; `customer` is the session's customer.
   */
  predicate Warrants(req: Request, env: Env, verify: Verifier, directory: Directory, id: UserId, customer: Option<string>) {
    && Configured(env)
    && var v := Authenticate(verify, req, env.webhookSigningSecret.value);
    && v.Verified?
    && v.event.eventType == CheckoutCompleted
    && Present(v.event.session.email)
    && var found := directory(v.event.session.email.value);
    && found.Users?
    && |found.ids| > 0
    && found.ids[0] == id
    && v.event.session.customer == customer
  }

  /** The guard chain of the handler, up to the update it asks for. */
  function Decide(req: Request, env: Env, verify: Verifier, directory: Directory): (step: Step)
    ensures step == Respond(Response(500, Message(ConfigIncomplete))) <==> !Configured(env)
    ensures step.Upgrade? ==> Warrants(req, env, verify, directory, step.userId, step.customer)
    ensures forall id, customer :: Warrants(req, env, verify, directory, id, customer) ==> step == Upgrade(id, customer)
    ensures step.Respond? ==> step.response.status in {200, 400, 500}
    ensures step.Respond? && step.response.status == 200 ==>
              && step.response.reply == Received
              && Configured(env)
              && Authenticate(verify, req, env.webhookSigningSecret.value).Verified?
              && Authenticate(verify, req, env.webhookSigningSecret.value).event.eventType != CheckoutCompleted
  {
    if !Configured(env) then
      Respond(Response(500, Message(ConfigIncomplete)))
    else
      match Authenticate(verify, req, env.webhookSigningSecret.value)
      case Invalid(message) => Respond(Response(400, Message(message)))
      case Verified(event) =>
        if event.eventType != CheckoutCompleted then
          Respond(Response(200, Received))
        else if !Present(event.session.email) then
          Respond(Response(400, Message(EmailNotFound)))
        else
          var email := event.session.email.value;
          match directory(email)
          case LookupFailed => Respond(Response(400, Message(UserNotFound(email))))
          case Users(ids) =>
            if |ids| == 0 then Respond(Response(400, Message(UserNotFound(email))))
            else Upgrade(ids[0], event.session.customer)
  }

  /** The row after `update({ is_pro: true, stripe_customer_id })`. */
  function Upgraded(p: Profile, customer: Option<string>): (q: Profile)
    ensures q.isPro && q.stripeCustomerId == customer && q.email == p.email
  {
    p.(isPro := true, stripeCustomerId := customer)
  }

  /** The table after `update(...).eq('id', id)`: a key with no row matches nothing. */
  function ApplyUpdate(profiles: map<UserId, Profile>, id: UserId, customer: Option<string>): (r: map<UserId, Profile>)
    ensures r.Keys == profiles.Keys
    ensures id in profiles ==> r[id].isPro && r[id].stripeCustomerId == customer && r[id].email == profiles[id].email
    ensures forall k :: k in profiles && k != id ==> r[k] == profiles[k]
    ensures id !in profiles ==> r == profiles
  {
    if id in profiles then profiles[id := Upgraded(profiles[id], customer)] else profiles
  }

  /**
   * The whole handler: its response and the table after it, from the table
   * before it. A store error is rethrown into the shared catch and answered 400.
   */
  function Outcome(profiles: map<UserId, Profile>, req: Request, env: Env, verify: Verifier,
                   directory: Directory, updateError: Option<string>): (r: (Response, map<UserId, Profile>))
    ensures r.0.status in {200, 400, 500}
    ensures r.0.status == 500 <==> !Configured(env)
    ensures r.1.Keys == profiles.Keys
    ensures forall k :: k in profiles ==> r.1[k].email == profiles[k].email
    ensures forall k :: k in profiles && profiles[k].isPro ==> r.1[k].isPro
    ensures r.1 != profiles ==>
              && r.0 == Response(200, Received)
              && Decide(req, env, verify, directory).Upgrade?
              && Warrants(req, env, verify, directory, Decide(req, env, verify, directory).userId,
                          Decide(req, env, verify, directory).customer)
    ensures forall k :: k in profiles && r.1[k] != profiles[k] ==>
              Decide(req, env, verify, directory).Upgrade? && k == Decide(req, env, verify, directory).userId
  {
    match Decide(req, env, verify, directory)
    case Respond(response) => (response, profiles)
    case Upgrade(id, customer) =>
      if updateError.Some? then (Response(400, Message(updateError.value)), profiles)
      else (Response(200, Received), ApplyUpdate(profiles, id, customer))
  }

  // ---------------------------------------------------------------------
  // The profiles table, updated in place
  // ---------------------------------------------------------------------

  class ProfileStore {
    var profiles: map<UserId, Profile>

    constructor (initial: map<UserId, Profile>)
      ensures profiles == initial
    {
      profiles := initial;
    }

    /**
     * `from('profiles').update({ is_pro: true, stripe_customer_id: customer }).eq('id', id)`.
     * `failure` is the error the store reports, if any; a failed write changes nothing.
     */
    method Update(id: UserId, customer: Option<string>, failure: Option<string>) returns (error: Option<string>)
      modifies this
      ensures error == failure
      ensures failure.None? ==> profiles == ApplyUpdate(old(profiles), id, customer)
      ensures failure.Some? ==> profiles == old(profiles)
    {
      error := failure;
      if failure.None? && id in profiles {
        profiles := profiles[id := Upgraded(profiles[id], customer)];
      }
    }
  }

  /** The handler run against the store: the guard chain, then at most one Update. */
  method HandleWebhook(store: ProfileStore, req: Request, env: Env, verify: Verifier,
                       directory: Directory, updateError: Option<string>) returns (response: Response)
    modifies store
    ensures (response, store.profiles) == Outcome(old(store.profiles), req, env, verify, directory, updateError)
  {
    var step := Decide(req, env, verify, directory);
    match step
    case Respond(early) =>
      response := early;
    case Upgrade(id, customer) =>
      var error := store.Update(id, customer, updateError);
      if error.Some? {
        response := Response(400, Message(error.value));
      } else {
        response := Response(200, Received);
      }
  }

  // ---------------------------------------------------------------------
  // Properties of the handler
  // ---------------------------------------------------------------------

  /** Missing configuration: 500, no write, and neither the verifier nor anything after it is consulted. */
  lemma MissingConfigRejects(profiles: map<UserId, Profile>, req: Request, env: Env,
                             verify1: Verifier, verify2: Verifier, directory1: Directory, directory2: Directory,
                             updateError1: Option<string>, updateError2: Option<string>)
    requires !Configured(env)
    ensures Outcome(profiles, req, env, verify1, directory1, updateError1)
         == Outcome(profiles, req, env, verify2, directory2, updateError2)
         == (Response(500, Message(ConfigIncomplete)), profiles)
  {
  }

  /** A signature the SDK rejects: 400 with its message, no write, and no lookup. */
  lemma InvalidSignatureRejects(profiles: map<UserId, Profile>, req: Request, env: Env, verify: Verifier,
                                directory1: Directory, directory2: Directory,
                                updateError1: Option<string>, updateError2: Option<string>)
    requires Configured(env)
    requires Authenticate(verify, req, env.webhookSigningSecret.value).Invalid?
    ensures Outcome(profiles, req, env, verify, directory1, updateError1)
         == Outcome(profiles, req, env, verify, directory2, updateError2)
         == (Response(400, Message(Authenticate(verify, req, env.webhookSigningSecret.value).message)), profiles)
  {
  }

  /** An absent signature header is rejected with 400 whatever the verifier would say, and nothing is written. */
  lemma MissingHeaderRejects(profiles: map<UserId, Profile>, req: Request, env: Env, verify: Verifier,
                             directory: Directory, updateError: Option<string>)
    requires Configured(env) && req.signature.None?
    ensures Outcome(profiles, req, env, verify, directory, updateError) == (Response(400, Message(NoSignatureHeader)), profiles)
  {
    InvalidSignatureRejects(profiles, req, env, verify, directory, directory, updateError, updateError);
  }

  /** A verified event of any other type is acknowledged with 200 and ignored. */
  lemma OtherEventsIgnored(profiles: map<UserId, Profile>, req: Request, env: Env, verify: Verifier,
                           directory: Directory, updateError: Option<string>)
    requires Configured(env)
    requires Authenticate(verify, req, env.webhookSigningSecret.value).Verified?
    requires Authenticate(verify, req, env.webhookSigningSecret.value).event.eventType != CheckoutCompleted
    ensures Outcome(profiles, req, env, verify, directory, updateError) == (Response(200, Received), profiles)
  {
  }

  /** A completed checkout without a purchaser email: 400, no write. */
  lemma MissingEmailRejects(profiles: map<UserId, Profile>, req: Request, env: Env, verify: Verifier,
                            directory: Directory, updateError: Option<string>)
    requires Configured(env)
    requires Authenticate(verify, req, env.webhookSigningSecret.value).Verified?
    requires Authenticate(verify, req, env.webhookSigningSecret.value).event.eventType == CheckoutCompleted
    requires !Present(Authenticate(verify, req, env.webhookSigningSecret.value).event.session.email)
    ensures Outcome(profiles, req, env, verify, directory, updateError) == (Response(400, Message(EmailNotFound)), profiles)
  {
  }

  /** A failed lookup or an empty user list: 400 naming the email, no write. */
  lemma UnknownUserRejects(profiles: map<UserId, Profile>, req: Request, env: Env, verify: Verifier,
                           directory: Directory, updateError: Option<string>, email: string)
    requires Configured(env)
    requires Authenticate(verify, req, env.webhookSigningSecret.value).Verified?
    requires Authenticate(verify, req, env.webhookSigningSecret.value).event.eventType == CheckoutCompleted
    requires Authenticate(verify, req, env.webhookSigningSecret.value).event.session.email == Some(email)
    requires email != ""
    requires directory(email).LookupFailed? || directory(email).ids == []
    ensures Outcome(profiles, req, env, verify, directory, updateError) == (Response(400, Message(UserNotFound(email))), profiles)
  {
  }

  /**
   * A warranted upgrade that the store accepts: 200, the first listed user's row
   * (if there is one) becomes Pro with the session's customer, every other row is
   * unchanged.
   */
  lemma WarrantedUpgradeApplies(profiles: map<UserId, Profile>, req: Request, env: Env, verify: Verifier,
                                directory: Directory, id: UserId, customer: Option<string>)
    requires Warrants(req, env, verify, directory, id, customer)
    ensures var (response, after) := Outcome(profiles, req, env, verify, directory, None);
      && response == Response(200, Received)
      && after.Keys == profiles.Keys
      && (id in profiles ==> after[id].isPro && after[id].stripeCustomerId == customer && after[id].email == profiles[id].email)
      && (forall k :: k in profiles && k != id ==> after[k] == profiles[k])
  {
  }

  /** A store error after a warranted upgrade is answered 400 (not 5xx) and leaves the table as it was. */
  lemma UpdateErrorRejects(profiles: map<UserId, Profile>, req: Request, env: Env, verify: Verifier,
                           directory: Directory, id: UserId, customer: Option<string>, message: string)
    requires Warrants(req, env, verify, directory, id, customer)
    ensures Outcome(profiles, req, env, verify, directory, Some(message)) == (Response(400, Message(message)), profiles)
  {
    WarrantedUpgradeApplies(profiles, req, env, verify, directory, id, customer);
  }

  /**
   * A later request `req2` that the verifier reads as `req` was read: each retry
   * is signed afresh, so the two requests differ but verify to the same event.
   */
  predicate VerifiesAlike(verify: Verifier, env: Env, req: Request, req2: Request) {
    Configured(env) ==>
      Authenticate(verify, req2, env.webhookSigningSecret.value) == Authenticate(verify, req, env.webhookSigningSecret.value)
  }

  /** `req2` verifies as `req` did, or the verifier rejects it. */
  predicate VerifiesAlikeOrRejected(verify: Verifier, env: Env, req: Request, req2: Request) {
    Configured(env) ==>
      || Authenticate(verify, req2, env.webhookSigningSecret.value) == Authenticate(verify, req, env.webhookSigningSecret.value)
      || Authenticate(verify, req2, env.webhookSigningSecret.value).Invalid?
  }

  /**
   * Redelivering an event whose first delivery was written: a second request
   * that verifies to the same event, or is rejected, leaves the table as the
   * first delivery left it whatever the store reports, and one that verifies
   * to the same event with a clean write gives the same response and table.
   */
  lemma RedeliveryIdempotent(profiles: map<UserId, Profile>, req: Request, req2: Request, env: Env,
                             verify: Verifier, directory: Directory, updateError: Option<string>)
    ensures var once := Outcome(profiles, req, env, verify, directory, None);
            VerifiesAlikeOrRejected(verify, env, req, req2) ==>
              Outcome(once.1, req2, env, verify, directory, updateError).1 == once.1
    ensures var once := Outcome(profiles, req, env, verify, directory, None);
            VerifiesAlike(verify, env, req, req2) ==>
              Outcome(once.1, req2, env, verify, directory, None) == once
  {
    var once := Outcome(profiles, req, env, verify, directory, None).1;
    if VerifiesAlikeOrRejected(verify, env, req, req2) {
      if Decide(req2, env, verify, directory) != Decide(req, env, verify, directory) {
        // only a rejected signature can set the two decisions apart
        assert Decide(req2, env, verify, directory).Respond?;
      }
    }
    match Decide(req, env, verify, directory)
    case Respond(_) =>
    case Upgrade(id, customer) =>
      if id in profiles {
        assert once[id] == Upgraded(profiles[id], customer);
        assert ApplyUpdate(once, id, customer) == once;
      }
  }

  /** `is_pro` never falls, over any sequence of deliveries. */
  lemma {:induction false} ProIsMonotone(profiles: map<UserId, Profile>, deliveries: seq<(Request, Option<string>)>,
                      env: Env, verify: Verifier, directory: Directory, k: UserId)
    requires k in profiles && profiles[k].isPro
    ensures k in Replay(profiles, deliveries, env, verify, directory)
    ensures Replay(profiles, deliveries, env, verify, directory)[k].isPro
    decreases |deliveries|
  {
    if deliveries != [] {
      var next := Outcome(profiles, deliveries[0].0, env, verify, directory, deliveries[0].1).1;
      ProIsMonotone(next, deliveries[1..], env, verify, directory, k);
    }
  }

  /** The table after a sequence of deliveries, each with the store's report for its write. */
  function Replay(profiles: map<UserId, Profile>, deliveries: seq<(Request, Option<string>)>,
                  env: Env, verify: Verifier, directory: Directory): (r: map<UserId, Profile>)
    ensures r.Keys == profiles.Keys
    decreases |deliveries|
  {
    if deliveries == [] then profiles
    else Replay(Outcome(profiles, deliveries[0].0, env, verify, directory, deliveries[0].1).1,
                deliveries[1..], env, verify, directory)
  }

  /** The worked example: a verified purchase by a@b.com with customer cus_123 upgrades that user. */
  lemma ExamplePurchase(verify: Verifier, directory: Directory)
    requires verify("{}", "t=1,v1=sig", "whsec") == Verified(Event(CheckoutCompleted, Session(Some("a@b.com"), Some("cus_123"))))
    requires directory("a@b.com") == Users(["u1"])
    ensures var env := Env(Some("sk"), Some("whsec"), Some("url"), Some("key"));
            var before := map["u1" := Profile("a@b.com", false, None), "u2" := Profile("c@d.com", false, None)];
            Outcome(before, Request(Some("t=1,v1=sig"), "{}"), env, verify, directory, None)
              == (Response(200, Received), before["u1" := Profile("a@b.com", true, Some("cus_123"))])
  {
  }
}
