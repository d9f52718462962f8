/**
 * `POST /api/test/add-credits`: give the signed-in user 50 more credits,
 * creating their profile row when there is none.
 */
module AddCredits {
  import opened JsRuntime
  import opened Supabase
  import opened Http

  const BONUS := 50
  const UNAUTHORIZED := "Unauthorized"
  /** PostgREST's code for "the result contains 0 rows", which the route treats as a zero balance. */
  const NO_ROWS := "PGRST116"

  datatype FetchError = FetchError(code: string, message: string)

  /**
   * The session's user, a failure of the profile read other than the missing
   * row (which the model derives from the table), and an upsert error.
   */
  datatype Services = Services(user: Option<string>, readFailure: Option<FetchError>, upsertError: Option<string>)

  /** `profile?.credits || 0`: the stored balance when the read returned the row, else 0. */
  function CurrentCredits(credits: map<string, int>, u: string, env: Services): int {
    if env.readFailure.None? && u in credits then credits[u] else 0
  }

  function SuccessBody(newCredits: int): Json {
    JObj(map["success" := JBool(true), "credits" := JNum(IntToString(newCredits))])
  }

  /** The response and the tables after the handler. */
  function AddCreditsSpec(db: Db, env: Services): (Response, Db) {
    if env.user.None? then (ErrorJson(401, UNAUTHORIZED), db)
    else
      var u := env.user.value;
      if env.readFailure.Some? && env.readFailure.value.code != NO_ROWS then (ErrorJson(500, env.readFailure.value.message), db)
      else
        var newCredits := CurrentCredits(db.credits, u, env) + BONUS;
        if env.upsertError.Some? then (ErrorJson(500, env.upsertError.value), db)
        else (JsonResponse(200, SuccessBody(newCredits)), db.(credits := db.credits[u := newCredits]))
  }

  method Post(ledger: Ledger, env: Services) returns (resp: Response)
    modifies ledger
    ensures (resp, ledger.Snapshot()) == AddCreditsSpec(old(ledger.Snapshot()), env)
  {
    if env.user.None? {
      return ErrorJson(401, UNAUTHORIZED);
    }
    var userId := env.user.value;
    var fetchError := env.readFailure;
    var profile: Option<int> := if env.readFailure.None? && userId in ledger.credits then Some(ledger.credits[userId]) else None;
    if fetchError.Some? && fetchError.value.code != NO_ROWS {
      return ErrorJson(500, fetchError.value.message);
    }
    var currentCredits := if profile.Some? then profile.value else 0;
    var newCredits := currentCredits + BONUS;
    if env.upsertError.Some? {
      return ErrorJson(500, env.upsertError.value);
    }
    ledger.UpsertCredits(userId, newCredits);
    return JsonResponse(200, SuccessBody(newCredits));
  }

  /**
   * A successful call adds 50 to the user's balance (counting a missing row
   * as 0), reports the new balance, and changes nothing else.
   */
  lemma GrantsBonus(db: Db, env: Services)
    requires AddCreditsSpec(db, env).0.status == 200
    ensures var u := env.user.value;
            var after := AddCreditsSpec(db, env).1;
            env.user.Some? && u in after.credits
            && after.credits[u] == (if env.readFailure.None? && u in db.credits then db.credits[u] else 0) + BONUS
            && (forall v | v in db.credits && v != u :: v in after.credits && after.credits[v] == db.credits[v])
            && after.credits.Keys == db.credits.Keys + {u}
            && after.transactions == db.transactions && after.generations == db.generations
            && AddCreditsSpec(db, env).0 == JsonResponse(200, SuccessBody(after.credits[u]))
  {
  }

  /** Every error answer leaves the tables as they were. */
  lemma ErrorsChangeNothing(db: Db, env: Services)
    requires AddCreditsSpec(db, env).0.status != 200
    ensures AddCreditsSpec(db, env).1 == db
    ensures AddCreditsSpec(db, env).0.status == (if env.user.None? then 401 else 500)
  {
  }

  /** Two successful calls add 100. */
  lemma TwiceAddsTwice(db: Db, env: Services)
    requires env.user.Some? && env.readFailure.None? && env.upsertError.None?
    ensures var u := env.user.value;
            var after := AddCreditsSpec(AddCreditsSpec(db, env).1, env).1;
            after.credits[u] == (if u in db.credits then db.credits[u] else 0) + 2 * BONUS
  {
  }
}
