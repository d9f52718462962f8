/**
 * `POST /api/stripe/webhook`: verify the event's signature, and for a
 * completed checkout add the purchased credits to the buyer's profile (by the
 * `increment_credits` procedure, or by a read-then-write when that fails) and
 * record the purchase.
 */
module StripeWebhook {
  import opened JsRuntime
  import opened Supabase
  import opened Http

  const COMPLETED := "checkout.session.completed"
  const MISSING_METADATA := "Webhook Error: Missing metadata"
  const DATABASE_ERROR := "Database Error"

  /** `Webhook Error: ${message}` for a signature that does not verify. */
  function SignatureError(message: string): string { "Webhook Error: " + message }

  /** The checkout session: its string metadata (or `null`) and `amount_total` in the currency's minor unit (or `null`). */
  datatype Session = Session(metadata: Option<map<string, string>>, amountTotal: Option<int>)

  datatype Event = Event(eventType: string, session: Session)

  /**
   * `constructEvent` (an event, or the error it throws) and whether each
   * database call reports an error. The `increment_credits` procedure is
   * taken to update an existing profile row and to do nothing otherwise.
   */
  datatype Services = Services(event: Result<Event>, rpcOk: bool, profileReadOk: bool, directUpdateOk: bool, insertOk: bool)

  function MetadataValue(s: Session, key: string): Option<string> {
    if s.metadata.Some? && key in s.metadata.value then Some(s.metadata.value[key]) else None
  }

  /** `session.metadata?.userId` */
  function MetaUser(s: Session): Option<string> { MetadataValue(s, "userId") }

  /** `Number(session.metadata?.credits)`, `None` being `NaN`. */
  function MetaCredits(s: Session): Option<int> { NumberOf(MetadataValue(s, "credits")) }

  /** Not `!userId || !credits`: a non-empty user id and a credit count that is neither `NaN` nor 0. */
  predicate HasMetadata(s: Session) {
    MetaUser(s).Some? && MetaUser(s).value != "" && MetaCredits(s).Some? && MetaCredits(s).value != 0
  }

  /** `session.amount_total ? session.amount_total / 100 : 0` */
  function PaidAmount(s: Session): real {
    if s.amountTotal.Some? && s.amountTotal.value != 0 then s.amountTotal.value as real / 100.0 else 0.0
  }

  function PurchaseRecord(user: string, credits: int, s: Session): Transaction {
    Transaction(user, PaidAmount(s), PurchaseTx, Some("Purchased " + IntToString(credits) + " credits"))
  }

  /** The record of a completed checkout whose metadata is present. */
  function Purchase(s: Session): Transaction
    requires HasMetadata(s)
  {
    PurchaseRecord(MetaUser(s).value, MetaCredits(s).value, s)
  }

  /** The direct-update fallback ran and failed: the only 500 answer. */
  predicate DirectUpdateFails(db: Db, env: Services, user: string) {
    !env.rpcOk && env.profileReadOk && user in db.credits && !env.directUpdateOk
  }

  /** The response and the tables after the handler, from the tables before it. */
  function Webhook(db: Db, env: Services): (Response, Db) {
    match env.event
    case Err(m) => (TextResponse(400, Some(SignatureError(m))), db)
    case Ok(event) =>
      if event.eventType != COMPLETED then (TextResponse(200, None), db)
      else if !HasMetadata(event.session) then (TextResponse(400, Some(MISSING_METADATA)), db)
      else Completed(db, env, event.session)
  }

  /** A completed checkout with its metadata: credit the buyer, then record the purchase. */
  function Completed(db: Db, env: Services, s: Session): (Response, Db)
    requires HasMetadata(s)
  {
    var u := MetaUser(s).value;
    if DirectUpdateFails(db, env, u) then (TextResponse(500, Some(DATABASE_ERROR)), db)
    else
      var txs := if env.insertOk then db.transactions + [Purchase(s)] else db.transactions;
      (TextResponse(200, None), Db(Credited(db.credits, env, u, MetaCredits(s).value), txs, db.generations))
  }

  /** The balances after either update path: the buyer's grows by `n` when a row exists and one path ran. */
  function Credited(credits: map<string, int>, env: Services, u: string, n: int): map<string, int> {
    if u in credits && (env.rpcOk || env.profileReadOk) then credits[u := credits[u] + n] else credits
  }

  /** The handler, on the live tables. */
  method Post(ledger: Ledger, env: Services) returns (resp: Response)
    modifies ledger
    ensures (resp, ledger.Snapshot()) == Webhook(old(ledger.Snapshot()), env)
  {
    if env.event.Err? {
      return TextResponse(400, Some(SignatureError(env.event.message)));
    }
    var event := env.event.value;
    if event.eventType == COMPLETED {
      var userId := MetaUser(event.session);
      var credits := MetaCredits(event.session);
      if userId.None? || userId.value == "" || credits.None? || credits.value == 0 {
        return TextResponse(400, Some(MISSING_METADATA));
      }
      resp := HandleCompleted(ledger, env, event.session);
      return;
    }
    return TextResponse(200, None);
  }

  method HandleCompleted(ledger: Ledger, env: Services, session: Session) returns (resp: Response)
    requires HasMetadata(session)
    modifies ledger
    ensures (resp, ledger.Snapshot()) == Completed(old(ledger.Snapshot()), env, session)
  {
    var u := MetaUser(session).value;
    var n := MetaCredits(session).value;
    var failed := CreditBuyer(ledger, env, u, n);
    if failed {
      return TextResponse(500, Some(DATABASE_ERROR));
    }
    if env.insertOk {
      ledger.LogTransaction(PurchaseRecord(u, n, session));
    }
    return TextResponse(200, None);
  }

  /** Lines 39-66: the procedure call, or the read-then-write fallback. */
  method CreditBuyer(ledger: Ledger, env: Services, u: string, n: int) returns (failed: bool)
    modifies ledger
    ensures failed == DirectUpdateFails(old(ledger.Snapshot()), env, u)
    ensures failed ==> ledger.Snapshot() == old(ledger.Snapshot())
    ensures !failed ==> ledger.credits == Credited(old(ledger.credits), env, u, n)
    ensures ledger.transactions == old(ledger.transactions) && ledger.generations == old(ledger.generations)
  {
    if env.rpcOk {
      if u in ledger.credits {
        ledger.UpdateCredits(u, ledger.credits[u] + n);
      }
    } else if env.profileReadOk && u in ledger.credits {
      var current := ledger.credits[u];
      if !env.directUpdateOk {
        return true;
      }
      ledger.UpdateCredits(u, current + n);
    }
    return false;
  }

  /** A bad signature, another event type or missing metadata leave every table as it was. */
  lemma NoChangeUnlessCompletedWithMetadata(db: Db, env: Services)
    requires env.event.Err? || env.event.value.eventType != COMPLETED || !HasMetadata(env.event.value.session)
    ensures Webhook(db, env).1 == db
    ensures Webhook(db, env).0.status == (if env.event.Ok? && env.event.value.eventType != COMPLETED then 200 else 400)
  {
  }

  /** The handler never touches generations, never removes a profile, and changes no balance but the buyer's. */
  lemma OnlyBuyerBalanceChanges(db: Db, env: Services)
    ensures var after := Webhook(db, env).1;
            after.generations == db.generations
            && after.credits.Keys == db.credits.Keys
            && forall v | v in db.credits && (env.event.Err? || MetaUser(env.event.value.session) != Some(v)) ::
                 after.credits[v] == db.credits[v]
  {
  }

  /**
   * A completed checkout for a user with a profile adds exactly the purchased
   * credits when either update path works, and answers 200.
   */
  lemma PurchasedCreditsAdded(db: Db, env: Services)
    requires env.event.Ok? && env.event.value.eventType == COMPLETED && HasMetadata(env.event.value.session)
    requires MetaUser(env.event.value.session).value in db.credits
    requires env.rpcOk || (env.profileReadOk && env.directUpdateOk)
    ensures var u := MetaUser(env.event.value.session).value;
            Webhook(db, env).0 == TextResponse(200, None)
            && Webhook(db, env).1.credits == db.credits[u := db.credits[u] + MetaCredits(env.event.value.session).value]
  {
    var s := env.event.value.session;
    assert Webhook(db, env) == Completed(db, env, s);
    assert !DirectUpdateFails(db, env, MetaUser(s).value);
  }

  /** The purchase is recorded exactly when the handler gets past both updates and the insert succeeds. */
  lemma PurchaseRecordedIff(db: Db, env: Services)
    ensures Webhook(db, env).1.transactions != db.transactions <==>
            env.event.Ok? && env.event.value.eventType == COMPLETED && HasMetadata(env.event.value.session)
            && !DirectUpdateFails(db, env, MetaUser(env.event.value.session).value) && env.insertOk
    ensures Webhook(db, env).1.transactions != db.transactions ==>
            Webhook(db, env).1.transactions == db.transactions + [Purchase(env.event.value.session)]
  {
  }

  /**
   * A buyer without a profile row pays, gets a purchase record and a 200, but
   * no credits: both update paths find no row.
   */
  lemma PaidWithoutProfileNotCredited(db: Db, env: Services)
    requires env.event.Ok? && env.event.value.eventType == COMPLETED && HasMetadata(env.event.value.session)
    requires MetaUser(env.event.value.session).value !in db.credits && env.insertOk
    ensures Webhook(db, env) == (TextResponse(200, None), db.(transactions := db.transactions + [Purchase(env.event.value.session)]))
  {
  }

  /** Nothing marks an event as handled: delivering the same completed checkout twice credits it twice. */
  lemma RedeliveryCreditsTwice(db: Db, env: Services)
    requires env.event.Ok? && env.event.value.eventType == COMPLETED && HasMetadata(env.event.value.session)
    requires MetaUser(env.event.value.session).value in db.credits && env.rpcOk
    ensures var u := MetaUser(env.event.value.session).value;
            Webhook(Webhook(db, env).1, env).1.credits[u] == db.credits[u] + 2 * MetaCredits(env.event.value.session).value
  {
  }

  /** Metadata written as `String(n)` for a positive `n` is read back as `n` credits. */
  lemma CreditsMetadataRoundTrip(user: string, n: nat, amountTotal: Option<int>)
    requires user != "" && n > 0
    ensures var s := Session(Some(map["userId" := user, "credits" := NatToString(n)]), amountTotal);
            HasMetadata(s) && MetaCredits(s) == Some(n)
  {
    NumberOfNatToString(n);
  }

  /** `Number` also reads hexadecimal, octal and binary metadata: "0x10" is 16 credits. */
  lemma PrefixedCreditsMetadata(user: string, prefix: char, digits: string, amountTotal: Option<int>)
    requires user != "" && PrefixRadix(prefix).Some? && digits != [] && AllRadixDigits(digits, PrefixRadix(prefix).value)
    ensures var s := Session(Some(map["userId" := user, "credits" := ['0', prefix] + digits]), amountTotal);
            MetaCredits(s) == Some(RadixValue(digits, PrefixRadix(prefix).value))
            && (HasMetadata(s) <==> RadixValue(digits, PrefixRadix(prefix).value) != 0)
  {
    var credits := ['0', prefix] + digits;
    var s := Session(Some(map["userId" := user, "credits" := credits]), amountTotal);
    assert MetadataValue(s, "credits") == Some(credits);
    assert MetaUser(s) == Some(user);
    NumberOfPrefixed(prefix, digits);
  }

  /** A sign in front of such a prefix makes the credits `NaN`, which the metadata guard rejects. */
  lemma SignedPrefixedCreditsRejected(user: string, sign: char, prefix: char, digits: string, amountTotal: Option<int>)
    requires sign == '-' || sign == '+'
    requires PrefixRadix(prefix).Some? && digits != [] && AllRadixDigits(digits, PrefixRadix(prefix).value)
    ensures !HasMetadata(Session(Some(map["userId" := user, "credits" := [sign, '0', prefix] + digits]), amountTotal))
  {
    SignedPrefixNaN(sign, prefix, digits);
  }
}
