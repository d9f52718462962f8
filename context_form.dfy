/**
 * The app-context form's schema and its default values. The schema checks
 * five string fields, each against one rule, and reports one issue for every
 * field that breaks its rule, in the schema's field order.
 */
module ContextForm {

  datatype Field = AppName | Category | TargetAudience | Tone | Description

  const FIELDS: seq<Field> := [AppName, Category, TargetAudience, Tone, Description]

  datatype FormData = FormData(appName: string, category: string, targetAudience: string, tone: string, description: string)

  datatype Issue = Issue(field: Field, message: string)

  const TONES: seq<string> := ["professional", "casual", "playful", "inspirational"]

  /**
   * The enum's message, in the wording of the schema library (version 3),
   * which the form does not override.
   */
  function ToneMessage(received: string): string {
    TONE_EXPECTED + received + "'"
  }

  const TONE_EXPECTED := "Invalid enum value. Expected 'professional' | 'casual' | 'playful' | 'inspirational', received '"

  /** The minimum length the schema demands of each string field; `Tone` has none. */
  function MinLength(f: Field): nat {
    match f
    case AppName => 2
    case Category => 1
    case TargetAudience => 5
    case Tone => 0
    case Description => 10
  }

  function ValueOf(d: FormData, f: Field): string {
    match f
    case AppName => d.appName
    case Category => d.category
    case TargetAudience => d.targetAudience
    case Tone => d.tone
    case Description => d.description
  }

  /** Whether the field breaks its rule. */
  predicate Fails(d: FormData, f: Field) {
    if f == Tone then d.tone !in TONES else |ValueOf(d, f)| < MinLength(f)
  }

  /** The message the schema attaches to the field's rule. */
  function MessageFor(d: FormData, f: Field): string {
    match f
    case AppName => APP_NAME_MESSAGE
    case Category => CATEGORY_MESSAGE
    case TargetAudience => AUDIENCE_MESSAGE
    case Tone => ToneMessage(d.tone)
    case Description => DESCRIPTION_MESSAGE
  }

  const APP_NAME_MESSAGE := "App name must be at least 2 characters"
  const CATEGORY_MESSAGE := "Please select a category"
  const AUDIENCE_MESSAGE := "Please describe your target audience"
  const DESCRIPTION_MESSAGE := "Please provide a brief description"

  function CheckField(d: FormData, f: Field): seq<Issue> {
    if Fails(d, f) then [Issue(f, MessageFor(d, f))] else []
  }

  /** `formSchema.safeParse(values)`: the issues found, in the schema's field order. */
  function Issues(d: FormData): (r: seq<Issue>)
    ensures |r| <= |FIELDS|
  {
    CheckField(d, AppName) + CheckField(d, Category) + CheckField(d, TargetAudience)
    + CheckField(d, Tone) + CheckField(d, Description)
  }

  /** The fields the issues name. */
  function Reported(issues: seq<Issue>): set<Field> {
    set x | x in issues :: x.field
  }

  lemma CheckFieldFacts(d: FormData, f: Field)
    ensures Reported(CheckField(d, f)) == if Fails(d, f) then {f} else {}
    ensures forall x :: x in CheckField(d, f) ==> x.message == MessageFor(d, x.field)
  {
    if Fails(d, f) {
      assert CheckField(d, f)[0] in CheckField(d, f);
    }
  }

  lemma ReportedAppend(a: seq<Issue>, b: seq<Issue>)
    ensures Reported(a + b) == Reported(a) + Reported(b)
  {
    forall f | f in Reported(a + b) ensures f in Reported(a) + Reported(b) {
      var x :| x in a + b && x.field == f;
    }
    forall f | f in Reported(a) + Reported(b) ensures f in Reported(a + b) {
      if f in Reported(a) {
        var x :| x in a && x.field == f;
        assert x in a + b;
      } else {
        var x :| x in b && x.field == f;
        assert x in a + b;
      }
    }
  }

  lemma ReportedByField(d: FormData)
    ensures Reported(Issues(d)) ==
            Reported(CheckField(d, AppName)) + Reported(CheckField(d, Category)) + Reported(CheckField(d, TargetAudience))
            + Reported(CheckField(d, Tone)) + Reported(CheckField(d, Description))
  {
    var a, c, t, o, e := CheckField(d, AppName), CheckField(d, Category), CheckField(d, TargetAudience),
                         CheckField(d, Tone), CheckField(d, Description);
    ReportedAppend(a, c);
    ReportedAppend(a + c, t);
    ReportedAppend(a + c + t, o);
    ReportedAppend(a + c + t + o, e);
  }

  /** A field is reported exactly when it breaks its rule. */
  lemma ReportsFailingFields(d: FormData, f: Field)
    ensures f in Reported(Issues(d)) <==> Fails(d, f)
  {
    ReportedByField(d);
    CheckFieldFacts(d, f);
    forall g | g != f ensures f !in Reported(CheckField(d, g)) {
      ReportedWithin(d, g);
    }
  }

  lemma ReportedWithin(d: FormData, g: Field)
    ensures Reported(CheckField(d, g)) <= {g}
  {
    CheckFieldFacts(d, g);
  }

  /** Every issue carries the message of its own field's rule. */
  lemma IssueMessages(d: FormData)
    ensures forall x :: x in Issues(d) ==> x.message == MessageFor(d, x.field)
  {
    var a, c, t, o, e := CheckField(d, AppName), CheckField(d, Category), CheckField(d, TargetAudience),
                         CheckField(d, Tone), CheckField(d, Description);
    CheckFieldFacts(d, AppName);
    CheckFieldFacts(d, Category);
    CheckFieldFacts(d, TargetAudience);
    CheckFieldFacts(d, Tone);
    CheckFieldFacts(d, Description);
    forall x | x in Issues(d) ensures x.message == MessageFor(d, x.field) {
      assert x in a || x in c || x in t || x in o || x in e;
    }
  }

  /**
   * The form submits exactly when every rule holds: an app name of at least
   * 2 characters, a category, an audience of at least 5, one of the four
   * tones, and a description of at least 10.
   */
  lemma ValidIff(d: FormData)
    ensures Issues(d) == [] <==>
            |d.appName| >= 2 && |d.category| >= 1 && |d.targetAudience| >= 5 &&
            d.tone in TONES && |d.description| >= 10
  {
  }

  const DEFAULT_VALUES := FormData("", "", "", "professional", "")

  /**
   * The default values fail on the four text fields and pass on the tone,
   * so an untouched form reports exactly those four issues.
   */
  lemma DefaultsFailTextFields()
    ensures Issues(DEFAULT_VALUES) == [
      Issue(AppName, "App name must be at least 2 characters"),
      Issue(Category, "Please select a category"),
      Issue(TargetAudience, "Please describe your target audience"),
      Issue(Description, "Please provide a brief description")]
    ensures !Fails(DEFAULT_VALUES, Tone)
  {
  }
}
