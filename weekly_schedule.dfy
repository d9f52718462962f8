/**
 * The weekly schedule view: an editable copy of the generated batch of
 * threads, the edits made to one day's hook or one tweet, the refinement of a
 * tweet through the refine-tweet route, and saving the edited batch.
 */
module WeeklySchedule {
  import opened JsRuntime
  import opened AiTypes
  import opened Http
  import opened Ui

  const SEPARATOR := "\n\n"

  /** `[content.hook, ...content.thread].join('\n\n')`, what both copy buttons put on the clipboard. */
  function FullThread(t: WeeklyThread): string {
    Join([t.hook] + t.thread, SEPARATOR)
  }

  /**
   * The full thread is the hook alone when there are no tweets, and otherwise
   * the hook, a blank line, and the tweets separated by blank lines; it starts
   * with the hook and contains every tweet.
   */
  lemma FullThreadParts(t: WeeklyThread)
    ensures t.thread == [] ==> FullThread(t) == t.hook
    ensures t.thread != [] ==> FullThread(t) == t.hook + "\n\n" + Join(t.thread, "\n\n")
    ensures StartsWith(FullThread(t), t.hook)
    ensures forall i | 0 <= i < |t.thread| :: Contains(FullThread(t), t.thread[i])
  {
    JoinCons(t.hook, t.thread, SEPARATOR);
    forall i | 0 <= i < |t.thread| ensures Contains(FullThread(t), t.thread[i]) {
      JoinContainsParts([t.hook] + t.thread, SEPARATOR, i + 1);
    }
  }

  /** The `day === day` test the handlers apply to each entry. */
  function DayKey(t: WeeklyThread): string { DayName(t.day) }

  /** `getDayContent(day)`: the first entry of the batch for that day. */
  function DayContent(batch: seq<WeeklyThread>, day: string): (r: Option<WeeklyThread>)
    ensures r.Some? ==> exists i :: 0 <= i < |batch| && batch[i] == r.value && DayName(batch[i].day) == day &&
                                 forall j :: 0 <= j < i ==> DayName(batch[j].day) != day
    ensures r.None? <==> forall i :: 0 <= i < |batch| ==> DayName(batch[i].day) != day
  {
    FindByKey(batch, DayKey, day)
  }

  /** The batch after `handleUpdateHook(day, hook)`. */
  function WithHook(batch: seq<WeeklyThread>, day: string, hook: string): (r: seq<WeeklyThread>)
    ensures |r| == |batch|
    ensures forall i | 0 <= i < |batch| ::
              r[i].day == batch[i].day && r[i].theme == batch[i].theme && r[i].thread == batch[i].thread
    ensures forall i | 0 <= i < |batch| :: r[i].hook == if DayName(batch[i].day) == day then hook else batch[i].hook
  {
    seq(|batch|, i requires 0 <= i < |batch| =>
      if DayName(batch[i].day) == day then batch[i].(hook := hook) else batch[i])
  }

  /** Every entry for the day has a tweet at `index`. */
  predicate HasTweet(batch: seq<WeeklyThread>, day: string, index: nat) {
    forall i | 0 <= i < |batch| && DayName(batch[i].day) == day :: index < |batch[i].thread|
  }

  /** The batch after `handleUpdateThread(day, index, text)`. */
  function WithTweet(batch: seq<WeeklyThread>, day: string, index: nat, text: string): (r: seq<WeeklyThread>)
    requires HasTweet(batch, day, index)
    ensures |r| == |batch|
    ensures forall i | 0 <= i < |batch| ::
              r[i].day == batch[i].day && r[i].theme == batch[i].theme && r[i].hook == batch[i].hook &&
              |r[i].thread| == |batch[i].thread|
    ensures forall i, j | 0 <= i < |batch| && 0 <= j < |batch[i].thread| ::
              r[i].thread[j] == if DayName(batch[i].day) == day && j == index then text else batch[i].thread[j]
  {
    seq(|batch|, i requires 0 <= i < |batch| =>
      if DayName(batch[i].day) == day then batch[i].(thread := batch[i].thread[index := text]) else batch[i])
  }

  /** A second hook edit of the same day replaces the first. */
  lemma HookEditLastWins(batch: seq<WeeklyThread>, day: string, first: string, second: string)
    ensures WithHook(WithHook(batch, day, first), day, second) == WithHook(batch, day, second)
  {
  }

  /** Hook edits of two different days can be made in either order. */
  lemma HookEditsCommute(batch: seq<WeeklyThread>, d1: string, h1: string, d2: string, h2: string)
    requires d1 != d2
    ensures WithHook(WithHook(batch, d1, h1), d2, h2) == WithHook(WithHook(batch, d2, h2), d1, h1)
  {
  }

  /** A second edit of the same tweet replaces the first. */
  lemma TweetEditLastWins(batch: seq<WeeklyThread>, day: string, index: nat, first: string, second: string)
    requires HasTweet(batch, day, index)
    ensures HasTweet(WithTweet(batch, day, index, first), day, index)
    ensures WithTweet(WithTweet(batch, day, index, first), day, index, second) == WithTweet(batch, day, index, second)
  {
    var once := WithTweet(batch, day, index, first);
    var twice := WithTweet(once, day, index, second);
    var direct := WithTweet(batch, day, index, second);
    forall i | 0 <= i < |batch| ensures twice[i] == direct[i] {
      assert twice[i].thread == direct[i].thread;
    }
  }

  /** Editing a day's hook is what the view then shows for that day: the same entry with the new hook. */
  lemma DayContentAfterHookEdit(batch: seq<WeeklyThread>, day: string, hook: string)
    ensures DayContent(WithHook(batch, day, hook), day) ==
            if DayContent(batch, day).Some? then Some(DayContent(batch, day).value.(hook := hook)) else None
  {
    var edited := WithHook(batch, day, hook);
    FindAfterEdit(batch, edited, DayKey, day, (t: WeeklyThread) => t.(hook := hook));
  }

  /** Editing a tweet of a day changes exactly that tweet of the entry the view shows. */
  lemma DayContentAfterTweetEdit(batch: seq<WeeklyThread>, day: string, index: nat, text: string)
    requires HasTweet(batch, day, index)
    ensures DayContent(batch, day).Some? ==> index < |DayContent(batch, day).value.thread|
    ensures DayContent(WithTweet(batch, day, index, text), day) ==
            if DayContent(batch, day).Some?
            then Some(DayContent(batch, day).value.(thread := DayContent(batch, day).value.thread[index := text]))
            else None
  {
    var edited := WithTweet(batch, day, index, text);
    var f := (t: WeeklyThread) => if index < |t.thread| then t.(thread := t.thread[index := text]) else t;
    forall i | 0 <= i < |batch| && DayKey(batch[i]) == day ensures edited[i] == f(batch[i]) {
      assert edited[i].thread == batch[i].thread[index := text];
    }
    FindAfterEdit(batch, edited, DayKey, day, f);
  }

  // ---------------------------------------------------------------
  // Refining a tweet
  // ---------------------------------------------------------------

  const REFINED := "Tweet refined!"
  const REFINE_FAILED := "Failed to refine tweet"
  const SAVED := "Changes saved successfully"
  const SAVE_FAILED := "Failed to save changes"

  /**
   * The body posted to the refine-tweet route; `JSON.stringify` drops the
   * `context` key when no entry has that day.
   */
  function RefineRequest(batch: seq<WeeklyThread>, day: string, text: string, instruction: string): (r: Json)
    ensures r.JObj? && "text" in r.fields && "instruction" in r.fields
    ensures r.fields["text"] == JStr(text) && r.fields["instruction"] == JStr(instruction)
    ensures "context" in r.fields <==> DayContent(batch, day).Some?
    ensures "context" in r.fields ==> r.fields["context"] == JStr(DayContent(batch, day).value.theme)
  {
    var base := map["text" := JStr(text), "instruction" := JStr(instruction)];
    match DayContent(batch, day)
    case Some(t) => JObj(base["context" := JStr(t.theme)])
    case None => JObj(base)
  }

  /**
   * The tweet a refine reply supplies: the string form of a truthy
   * `refinedText`. Anything else (a failed request, an unreadable or `null`
   * body, a missing or empty `refinedText`) is a failed refinement.
   */
  function RefinedText(reply: Result<Json>): (r: Option<string>)
    ensures r.Some? <==> reply.Ok? && reply.value != JNull && Truthy(Member(reply.value, "refinedText").value)
  {
    match reply
    case Err(_) => None
    case Ok(data) =>
      match Member(data, "refinedText")
      case Err(_) => None
      case Ok(v) => if Truthy(v) then Some(JsString(v.value)) else None
  }

  /**
   * The refine-tweet route's answers read as the view reads them: a 200
   * answer refines the tweet exactly when the provider's text is not empty,
   * and an error answer never does.
   */
  lemma RouteAnswers(refined: string, status: nat, message: string)
    ensures RefinedText(Ok(JObj(map["refinedText" := JStr(refined)]))) == if refined == "" then None else Some(refined)
    ensures RefinedText(Ok(ErrorJson(status, message).body)) == None
  {
  }

  /** What the save request's fetch does: throw, or resolve with a response whose `ok` is given. */
  datatype SaveOutcome = SaveThrew | SaveResponded(ok: bool)

  /** A PATCH of `/api/generations/{id}` with its JSON body. */
  datatype PatchRequest = PatchRequest(path: string, body: Json)

  datatype Feedback = Positive | Negative

  /** The tweet whose refinement is in flight. */
  datatype Target = Target(day: string, index: nat)

  class ScheduleView {
    const generationId: Option<string>
    var activeTab: string
    var editableResults: GhostwriterOutput
    var isSaving: bool
    var hasChanges: bool
    var refiningIndex: Option<Target>
    var feedback: Option<Feedback>

    constructor(results: GhostwriterOutput, generationId: Option<string>)
      ensures this.generationId == generationId && editableResults == results
      ensures activeTab == "Monday" && !isSaving && !hasChanges && refiningIndex.None? && feedback.None?
    {
      this.generationId := generationId;
      activeTab := "Monday";
      editableResults := results;
      isSaving := false;
      hasChanges := false;
      refiningIndex := None;
      feedback := None;
    }

    /** The effect that runs when a new `results` prop arrives. */
    method ResetTo(results: GhostwriterOutput)
      modifies this
      ensures editableResults == results && !hasChanges && feedback.None?
      ensures activeTab == old(activeTab) && isSaving == old(isSaving) && refiningIndex == old(refiningIndex)
    {
      editableResults := results;
      hasChanges := false;
      feedback := None;
    }

    /** `handleUpdateHook(day, newHook)` */
    method UpdateHook(day: string, hook: string)
      modifies this
      ensures editableResults == old(editableResults).(weeklyBatch := WithHook(old(editableResults).weeklyBatch, day, hook))
      ensures hasChanges
      ensures activeTab == old(activeTab) && isSaving == old(isSaving) &&
              refiningIndex == old(refiningIndex) && feedback == old(feedback)
    {
      editableResults := editableResults.(weeklyBatch := WithHook(editableResults.weeklyBatch, day, hook));
      hasChanges := true;
    }

    /** `handleUpdateThread(day, index, newText)`, for a tweet the day's thread has. */
    method UpdateThread(day: string, index: nat, text: string)
      requires HasTweet(editableResults.weeklyBatch, day, index)
      modifies this
      ensures editableResults ==
              old(editableResults).(weeklyBatch := WithTweet(old(editableResults).weeklyBatch, day, index, text))
      ensures hasChanges
      ensures activeTab == old(activeTab) && isSaving == old(isSaving) &&
              refiningIndex == old(refiningIndex) && feedback == old(feedback)
    {
      editableResults := editableResults.(weeklyBatch := WithTweet(editableResults.weeklyBatch, day, index, text));
      hasChanges := true;
    }

    /**
     * `handleRefineTweet(day, index, currentText, instruction)`, given the
     * route's parsed reply: the tweet is replaced only when the reply carries
     * a refined text, and `refiningIndex` is cleared however it ends.
     */
    method RefineTweet(day: string, index: nat, currentText: string, instruction: string, reply: Result<Json>)
      returns (request: Json, toast: Toast)
      requires HasTweet(editableResults.weeklyBatch, day, index)
      modifies this
      ensures request == RefineRequest(old(editableResults).weeklyBatch, day, currentText, instruction)
      ensures RefinedText(reply).Some? ==>
                editableResults == old(editableResults).(weeklyBatch :=
                  WithTweet(old(editableResults).weeklyBatch, day, index, RefinedText(reply).value)) &&
                hasChanges && toast == ToastSuccess(REFINED)
      ensures RefinedText(reply).None? ==>
                editableResults == old(editableResults) && hasChanges == old(hasChanges) &&
                toast == ToastError(REFINE_FAILED, None)
      ensures refiningIndex.None?
      ensures activeTab == old(activeTab) && isSaving == old(isSaving) && feedback == old(feedback)
    {
      refiningIndex := Some(Target(day, index));
      request := RefineRequest(editableResults.weeklyBatch, day, currentText, instruction);
      match RefinedText(reply) {
        case Some(text) =>
          UpdateThread(day, index, text);
          toast := ToastSuccess(REFINED);
        case None =>
          toast := ToastError(REFINE_FAILED, None);
      }
      refiningIndex := None;
    }

    /** The generation id is usable: `!generationId` rejects `null` and the empty string. */
    predicate HasGenerationId()
      reads this
    {
      generationId.Some? && generationId.value != ""
    }

    /**
     * `handleSave()`: without a generation id nothing happens; otherwise the
     * edited batch is sent, `hasChanges` clears only on an OK response, and
     * `isSaving` is back to false however it ends.
     */
    method Save(outcome: SaveOutcome) returns (request: Option<PatchRequest>, toast: Option<Toast>)
      modifies this
      ensures !HasGenerationId() ==>
                request.None? && toast.None? && hasChanges == old(hasChanges) && isSaving == old(isSaving)
      ensures HasGenerationId() ==>
                request == Some(PatchRequest("/api/generations/" + generationId.value,
                                             JObj(map["output_copy" := OutputToJson(editableResults)]))) &&
                !isSaving &&
                (outcome == SaveResponded(true) ==> !hasChanges && toast == Some(ToastSuccess(SAVED))) &&
                (outcome != SaveResponded(true) ==> hasChanges == old(hasChanges) && toast == Some(ToastError(SAVE_FAILED, None)))
      ensures editableResults == old(editableResults) && activeTab == old(activeTab) &&
              refiningIndex == old(refiningIndex) && feedback == old(feedback)
    {
      if !HasGenerationId() {
        return None, None;
      }
      isSaving := true;
      request := Some(PatchRequest("/api/generations/" + generationId.value,
                                   JObj(map["output_copy" := OutputToJson(editableResults)])));
      if outcome == SaveResponded(true) {
        toast := Some(ToastSuccess(SAVED));
        hasChanges := false;
      } else {
        toast := Some(ToastError(SAVE_FAILED, None));
      }
      isSaving := false;
    }
  }
}
