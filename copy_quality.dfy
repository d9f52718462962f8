/**
 * `validateCopyQuality`, which both providers carry (the Gemini one with two
 * more banned words and "(max N)" in its messages). For an array of App Store
 * slides it checks headline and subtext lengths and banned words; for anything
 * else it checks the weekly batch's hooks and tweets. It passes when no issue
 * was found.
 */
module CopyQuality {
  import opened JsRuntime
  import Language

  datatype Issue =
    | HeadlineTooLong(length: nat, max: nat)
    | SubtextTooLong(length: nat, max: nat)
    | BannedWord(word: string)
    | HookTooLong(length: nat)
    | TweetTooLong(length: nat)

  datatype Quality = Quality(passed: bool, issues: seq<Issue>)

  /** The banned words of one provider, for Korean and for English copy. */
  datatype BannedLists = BannedLists(korean: seq<string>, english: seq<string>)

  /** `context.language?.toLowerCase().includes('korean')`, where a missing language is not Korean. */
  predicate KoreanLimits(language: Option<string>) {
    language.Some? && Language.ValidationIsKorean(language.value)
  }

  function HeadlineMax(korean: bool): nat { if korean then 15 else 30 }
  function SubtextMax(korean: bool): nat { if korean then 30 else 60 }
  function HookMax(korean: bool): nat { if korean then 50 else 60 }
  const TWEET_MAX := 240

  function Words(lists: BannedLists, korean: bool): seq<string> {
    if korean then lists.korean else lists.english
  }

  /** The lower-cased `${headline} ${subtext}` that banned words are searched in. */
  function SlideText(headline: Value, subtext: Value): string {
    Lower(Interpolate(headline) + " " + Interpolate(subtext))
  }

  /** One issue per banned word that the text includes, in list order. */
  function BannedIn(text: string, words: seq<string>): seq<Issue> {
    if words == [] then []
    else (if Contains(text, Lower(words[0])) then [BannedWord(words[0])] else [])
         + BannedIn(text, words[1..])
  }

  /** The issues of one slide; reading `headline` of `null` throws. */
  function ItemIssues(item: Json, korean: bool, words: seq<string>): Result<seq<Issue>> {
    if item.JNull? then Err(ReadError("null", "headline"))
    else
      var headline := OptionalMember(Some(item), "headline");
      var subtext := OptionalMember(Some(item), "subtext");
      Ok(LengthIssues(LengthOr0(headline), LengthOr0(subtext), korean)
         + BannedIn(SlideText(headline, subtext), words))
  }

  function LengthIssues(h: nat, s: nat, korean: bool): seq<Issue> {
    (if h > HeadlineMax(korean) then [HeadlineTooLong(h, HeadlineMax(korean))] else [])
    + (if s > SubtextMax(korean) then [SubtextTooLong(s, SubtextMax(korean))] else [])
  }

  /** `r` with `a` in front of its issues; an error stays an error. */
  function Prepend(a: seq<Issue>, r: Result<seq<Issue>>): Result<seq<Issue>> {
    if r.Ok? then Ok(a + r.value) else r
  }

  function ItemsIssues(items: seq<Json>, korean: bool, words: seq<string>): Result<seq<Issue>> {
    if items == [] then Ok([])
    else
      var first :- ItemIssues(items[0], korean, words);
      Prepend(first, ItemsIssues(items[1..], korean, words))
  }

  /** `tweet.length > 240`; a `null` tweet throws, a value without a length never counts. */
  function TweetIssues(tweets: seq<Json>): Result<seq<Issue>> {
    if tweets == [] then Ok([])
    else
      var first: seq<Issue> :-
        if tweets[0].JNull? then Err(ReadError("null", "length"))
        else Ok(if LengthOr0(Some(tweets[0])) > TWEET_MAX then [TweetTooLong(LengthOr0(Some(tweets[0])))] else []);
      Prepend(first, TweetIssues(tweets[1..]))
  }

  /** The issues of one weekly thread: its hook, then each tweet of `thread.thread || []`. */
  function ThreadIssues(thread: Json, korean: bool): Result<seq<Issue>> {
    if thread.JNull? then Err(ReadError("null", "hook"))
    else
      var hook := OptionalMember(Some(thread), "hook");
      var tweets :- Iterate(Or(OptionalMember(Some(thread), "thread"), JArr([])));
      var hookIssues := if LengthOr0(hook) > HookMax(korean) then [HookTooLong(LengthOr0(hook))] else [];
      Prepend(hookIssues, TweetIssues(tweets))
  }

  function ThreadsIssues(threads: seq<Json>, korean: bool): Result<seq<Issue>> {
    if threads == [] then Ok([])
    else
      var first :- ThreadIssues(threads[0], korean);
      Prepend(first, ThreadsIssues(threads[1..], korean))
  }

  /** All issues of a generated value, or the TypeError that validating it throws. */
  function Issues(generated: Json, korean: bool, lists: BannedLists): Result<seq<Issue>> {
    if generated.JArr? then ItemsIssues(generated.items, korean, Words(lists, korean))
    else
      var batch :- Member(generated, "weekly_batch");
      var threads :- Iterate(Or(batch, JArr([])));
      ThreadsIssues(threads, korean)
  }

  function QualityOf(generated: Json, language: Option<string>, lists: BannedLists): Result<Quality> {
    var issues :- Issues(generated, KoreanLimits(language), lists);
    Ok(Quality(|issues| == 0, issues))
  }

  // ---------------------------------------------------------------
  // The validator as the source writes it: loops that push issues.
  // ---------------------------------------------------------------

  method FindBanned(text: string, words: seq<string>) returns (found: seq<Issue>)
    ensures found == BannedIn(text, words)
  {
    found := [];
    assert words[0..] == words;
    for j := 0 to |words|
      invariant found + BannedIn(text, words[j..]) == BannedIn(text, words)
    {
      assert words[j..][1..] == words[j + 1..];
      if Contains(text, Lower(words[j])) {
        found := found + [BannedWord(words[j])];
      }
    }
    assert BannedIn(text, words[|words|..]) == [];
    assert found + [] == found;
  }

  method CheckItem(item: Json, korean: bool, words: seq<string>) returns (r: Result<seq<Issue>>)
    ensures r == ItemIssues(item, korean, words)
  {
    if item.JNull? { return Err(ReadError("null", "headline")); }
    var headline := OptionalMember(Some(item), "headline");
    var subtext := OptionalMember(Some(item), "subtext");
    var h := LengthOr0(headline);
    var s := LengthOr0(subtext);
    var issues := LengthIssues(h, s, korean);
    var banned := FindBanned(SlideText(headline, subtext), words);
    return Ok(issues + banned);
  }

  method CheckThread(thread: Json, korean: bool) returns (r: Result<seq<Issue>>)
    ensures r == ThreadIssues(thread, korean)
  {
    if thread.JNull? { return Err(ReadError("null", "hook")); }
    var hook := OptionalMember(Some(thread), "hook");
    var tweets := Iterate(Or(OptionalMember(Some(thread), "thread"), JArr([])));
    if tweets.Err? { return Err(tweets.message); }
    var issues: seq<Issue> := [];
    if LengthOr0(hook) > HookMax(korean) {
      issues := [HookTooLong(LengthOr0(hook))];
    }
    ghost var hookIssues := issues;
    var ts := tweets.value;
    assert ts[0..] == ts;
    PrependEmpty(TweetIssues(ts));
    for j := 0 to |ts|
      invariant Prepend(issues, TweetIssues(ts[j..])) == Prepend(hookIssues, TweetIssues(ts))
    {
      assert ts[j..][0] == ts[j];
      assert ts[j..][1..] == ts[j + 1..];
      if ts[j].JNull? {
        return Err(ReadError("null", "length"));
      }
      var n := LengthOr0(Some(ts[j]));
      var found: seq<Issue> := [];
      if n > TWEET_MAX {
        found := [TweetTooLong(n)];
      }
      PrependTwice(issues, found, TweetIssues(ts[j + 1..]));
      issues := issues + found;
    }
    assert ts[|ts|..] == [];
    assert Prepend(issues, TweetIssues(ts[|ts|..])) == Ok(issues) by {
      assert issues + [] == issues;
    }
    return Ok(issues);
  }

  lemma PrependEmpty(r: Result<seq<Issue>>)
    ensures Prepend([], r) == r
  {
    if r.Ok? {
      assert [] + r.value == r.value;
    }
  }

  lemma PrependEmptyIff(a: seq<Issue>, r: Result<seq<Issue>>)
    ensures Prepend(a, r) == Ok([]) <==> a == [] && r == Ok([])
  {
    if r.Ok? {
      assert |a + r.value| == |a| + |r.value|;
      if a == [] { assert a + r.value == r.value; }
    }
  }

  lemma PrependTwice(a: seq<Issue>, b: seq<Issue>, r: Result<seq<Issue>>)
    ensures Prepend(a, Prepend(b, r)) == Prepend(a + b, r)
  {
    if r.Ok? {
      assert a + (b + r.value) == (a + b) + r.value;
    }
  }

  /** `validateCopyQuality(generated, context)`: the issues found, and whether there were none. */
  method Validate(generated: Json, language: Option<string>, lists: BannedLists) returns (r: Result<Quality>)
    ensures r == QualityOf(generated, language, lists)
    ensures r.Ok? ==> (r.value.passed <==> r.value.issues == [])
  {
    var korean := KoreanLimits(language);
    var issues: seq<Issue> := [];
    if generated.JArr? {
      var items := generated.items;
      var words := if korean then lists.korean else lists.english;
      assert items[0..] == items;
      PrependEmpty(ItemsIssues(items, korean, words));
      for i := 0 to |items|
        invariant Prepend(issues, ItemsIssues(items[i..], korean, words))
                  == ItemsIssues(items, korean, words)
      {
        assert items[i..][0] == items[i];
        assert items[i..][1..] == items[i + 1..];
        var found := CheckItem(items[i], korean, words);
        if found.Err? { return Err(found.message); }
        PrependTwice(issues, found.value, ItemsIssues(items[i + 1..], korean, words));
        issues := issues + found.value;
      }
      assert items[|items|..] == [];
      assert issues + [] == issues;
    } else {
      var batch := Member(generated, "weekly_batch");
      if batch.Err? { return Err(batch.message); }
      var threadsOr := Iterate(Or(batch.value, JArr([])));
      if threadsOr.Err? { return Err(threadsOr.message); }
      var threads := threadsOr.value;
      assert threads[0..] == threads;
      PrependEmpty(ThreadsIssues(threads, korean));
      for i := 0 to |threads|
        invariant Prepend(issues, ThreadsIssues(threads[i..], korean)) == ThreadsIssues(threads, korean)
      {
        assert threads[i..][0] == threads[i];
        assert threads[i..][1..] == threads[i + 1..];
        var found := CheckThread(threads[i], korean);
        if found.Err? { return Err(found.message); }
        PrependTwice(issues, found.value, ThreadsIssues(threads[i + 1..], korean));
        issues := issues + found.value;
      }
      assert threads[|threads|..] == [];
      assert issues + [] == issues;
    }
    return Ok(Quality(|issues| == 0, issues));
  }

  // ---------------------------------------------------------------
  // What passing means
  // ---------------------------------------------------------------

  /** A slide passes: it is not `null`, both lengths are within the limits, and no banned word occurs. */
  predicate SlideAcceptable(item: Json, korean: bool, words: seq<string>) {
    var headline := OptionalMember(Some(item), "headline");
    var subtext := OptionalMember(Some(item), "subtext");
    !item.JNull?
    && LengthOr0(headline) <= HeadlineMax(korean)
    && LengthOr0(subtext) <= SubtextMax(korean)
    && forall w | w in words :: !Contains(SlideText(headline, subtext), Lower(w))
  }

  lemma {:induction false} BannedInEmptyIff(text: string, words: seq<string>)
    ensures BannedIn(text, words) == [] <==> forall w | w in words :: !Contains(text, Lower(w))
  {
    if words != [] {
      BannedInEmptyIff(text, words[1..]);
      assert forall w | w in words :: w == words[0] || w in words[1..];
    }
  }

  lemma ItemIssuesEmptyIff(item: Json, korean: bool, words: seq<string>)
    ensures ItemIssues(item, korean, words) == Ok([]) <==> SlideAcceptable(item, korean, words)
  {
    if !item.JNull? {
      var headline := OptionalMember(Some(item), "headline");
      var subtext := OptionalMember(Some(item), "subtext");
      var lengths := LengthIssues(LengthOr0(headline), LengthOr0(subtext), korean);
      var banned := BannedIn(SlideText(headline, subtext), words);
      BannedInEmptyIff(SlideText(headline, subtext), words);
      PrependEmptyIff(lengths, Ok(banned));
      assert lengths == [] <==> LengthOr0(headline) <= HeadlineMax(korean) && LengthOr0(subtext) <= SubtextMax(korean);
    }
  }

  lemma {:induction false} ItemsIssuesEmptyIff(items: seq<Json>, korean: bool, words: seq<string>)
    ensures ItemsIssues(items, korean, words) == Ok([]) <==>
            forall i | 0 <= i < |items| :: SlideAcceptable(items[i], korean, words)
  {
    if items != [] {
      ItemsIssuesEmptyIff(items[1..], korean, words);
      ItemIssuesEmptyIff(items[0], korean, words);
      var first := ItemIssues(items[0], korean, words);
      if first.Ok? { PrependEmptyIff(first.value, ItemsIssues(items[1..], korean, words)); }
      assert forall i | 1 <= i < |items| :: items[i] == items[1..][i - 1];
    }
  }

  /**
   * An array of slides passes exactly when no slide is `null` and every slide
   * respects the length limits and avoids every banned word of its language.
   */
  lemma SlidesPassIff(items: seq<Json>, language: Option<string>, lists: BannedLists)
    ensures QualityOf(JArr(items), language, lists).Ok? && QualityOf(JArr(items), language, lists).value.passed
            <==>
            forall i | 0 <= i < |items| ::
              SlideAcceptable(items[i], KoreanLimits(language), Words(lists, KoreanLimits(language)))
  {
    var korean := KoreanLimits(language);
    ItemsIssuesEmptyIff(items, korean, Words(lists, korean));
  }

  /** A tweet passes when it is not `null` and at most 240 long. */
  predicate TweetAcceptable(t: Json) {
    !t.JNull? && LengthOr0(Some(t)) <= TWEET_MAX
  }

  /** A thread passes: not `null`, hook within its limit, tweets iterable and all acceptable. */
  predicate ThreadAcceptable(thread: Json, korean: bool) {
    !thread.JNull?
    && LengthOr0(OptionalMember(Some(thread), "hook")) <= HookMax(korean)
    && var tweets := Iterate(Or(OptionalMember(Some(thread), "thread"), JArr([])));
       tweets.Ok? && forall k | 0 <= k < |tweets.value| :: TweetAcceptable(tweets.value[k])
  }

  lemma {:induction false} TweetIssuesEmptyIff(tweets: seq<Json>)
    ensures TweetIssues(tweets) == Ok([]) <==> forall k | 0 <= k < |tweets| :: TweetAcceptable(tweets[k])
  {
    if tweets != [] {
      TweetIssuesEmptyIff(tweets[1..]);
      if !tweets[0].JNull? {
        var n := LengthOr0(Some(tweets[0]));
        PrependEmptyIff(if n > TWEET_MAX then [TweetTooLong(n)] else [], TweetIssues(tweets[1..]));
      }
      assert forall k | 1 <= k < |tweets| :: tweets[k] == tweets[1..][k - 1];
    }
  }

  lemma ThreadIssuesEmptyIff(thread: Json, korean: bool)
    ensures ThreadIssues(thread, korean) == Ok([]) <==> ThreadAcceptable(thread, korean)
  {
    if !thread.JNull? {
      var tweets := Iterate(Or(OptionalMember(Some(thread), "thread"), JArr([])));
      if tweets.Ok? {
        TweetIssuesEmptyIff(tweets.value);
        var hook := OptionalMember(Some(thread), "hook");
        PrependEmptyIff(if LengthOr0(hook) > HookMax(korean) then [HookTooLong(LengthOr0(hook))] else [], TweetIssues(tweets.value));
      }
    }
  }

  lemma {:induction false} ThreadsIssuesEmptyIff(threads: seq<Json>, korean: bool)
    ensures ThreadsIssues(threads, korean) == Ok([]) <==>
            forall i | 0 <= i < |threads| :: ThreadAcceptable(threads[i], korean)
  {
    if threads != [] {
      ThreadsIssuesEmptyIff(threads[1..], korean);
      ThreadIssuesEmptyIff(threads[0], korean);
      var first := ThreadIssues(threads[0], korean);
      if first.Ok? { PrependEmptyIff(first.value, ThreadsIssues(threads[1..], korean)); }
      assert forall i | 1 <= i < |threads| :: threads[i] == threads[1..][i - 1];
    }
  }

  /**
   * Anything that is not an array passes exactly when `weekly_batch || []` can
   * be iterated and every thread in it is acceptable.
   */
  lemma BatchPassesIff(generated: Json, language: Option<string>, lists: BannedLists)
    requires !generated.JArr? && !generated.JNull?
    ensures QualityOf(generated, language, lists).Ok? && QualityOf(generated, language, lists).value.passed
            <==>
            var threads := Iterate(Or(OptionalMember(Some(generated), "weekly_batch"), JArr([])));
            threads.Ok? && forall i | 0 <= i < |threads.value| :: ThreadAcceptable(threads.value[i], KoreanLimits(language))
  {
    assert Member(generated, "weekly_batch") == Ok(OptionalMember(Some(generated), "weekly_batch"));
    var threads := Iterate(Or(OptionalMember(Some(generated), "weekly_batch"), JArr([])));
    if threads.Ok? {
      ThreadsIssuesEmptyIff(threads.value, KoreanLimits(language));
    }
  }

  /** Validating `null` throws, whatever the lists are. */
  lemma NullThrows(language: Option<string>, lists: BannedLists)
    ensures QualityOf(JNull, language, lists).Err?
  {
  }

  /**
   * Adding banned words can only make validation stricter: whatever passes
   * with the longer lists passes with the shorter ones.
   */
  lemma MoreBannedWordsStricter(generated: Json, language: Option<string>, lists: BannedLists, moreKorean: seq<string>, moreEnglish: seq<string>)
    ensures var longer := BannedLists(lists.korean + moreKorean, lists.english + moreEnglish);
            QualityOf(generated, language, longer).Ok? && QualityOf(generated, language, longer).value.passed
            ==> QualityOf(generated, language, lists).Ok? && QualityOf(generated, language, lists).value.passed
  {
    var longer := BannedLists(lists.korean + moreKorean, lists.english + moreEnglish);
    var korean := KoreanLimits(language);
    if generated.JArr? {
      var items := generated.items;
      SlidesPassIff(items, language, longer);
      SlidesPassIff(items, language, lists);
      assert forall w | w in Words(lists, korean) :: w in Words(longer, korean);
    }
  }
}
