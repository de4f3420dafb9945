/** The result record the renderer reads, and the offline demo generator
    (`makeOfflineResult`, `OfflineDemo.run`) that builds one per intent. */
module Results {
  import opened Wrappers
  import opened Labels
  import opened RegExp

  // ---------------------------------------------------------------------
  // The result record. A field the JSON may omit is an `Option`; a list
  // field the renderer tests with `Array.isArray` is `Some` exactly when
  // it is an array.

  datatype Pitch = Pitch(headline: Option<string>, valueProps: Option<seq<string>>, cta: Option<string>)

  datatype PressRelease = PressRelease(title: Option<string>, lead: Option<string>, bulletPoints: Option<seq<string>>)

  datatype Plan = Plan(cropRotation: Option<seq<string>>, soilTest: Option<string>, goalNote: Option<string>)

  datatype Guidance = Guidance(safety: Option<seq<string>>, contacts: Option<seq<string>>, goalNote: Option<string>)

  datatype Outline = Outline(announcement: Option<string>, schedule: Option<seq<string>>, goalNote: Option<string>)

  datatype Itinerary = Itinerary(halfDay: Option<seq<string>>, gear: Option<seq<string>>, goalNote: Option<string>)

  datatype Data = Data(
    checklist: Option<seq<string>>,
    pitch: Option<Pitch>,
    pressRelease: Option<PressRelease>,
    plan: Option<Plan>,
    guidance: Option<Guidance>,
    outline: Option<Outline>,
    steps: Option<seq<string>>,
    itinerary: Option<Itinerary>,
    error: Option<string>)

  /** A data object with no field set. */
  const NoData: Data := Data(None, None, None, None, None, None, None, None, None)

  datatype Receipt = Receipt(agentLabel: Option<string>, agentCode: Option<string>, userGoal: Option<string>)

  datatype Response = Response(success: bool, summary: Option<string>, data: Option<Data>, receipt: Option<Receipt>)

  /** The optional sections of a rendered result, in the order the
      renderer emits them. */
  datatype Section = ChecklistSec | PitchSec | PressReleaseSec | PlanSec | GuidanceSec | OutlineSec | StepsSec | ItinerarySec

  /** The position of a section in the fixed rendering order. */
  function Rank(s: Section): nat {
    match s
    case ChecklistSec => 0
    case PitchSec => 1
    case PressReleaseSec => 2
    case PlanSec => 3
    case GuidanceSec => 4
    case OutlineSec => 5
    case StepsSec => 6
    case ItinerarySec => 7
  }

  /** The renderer's test for emitting a section: the list fields must be
      arrays, the object fields merely present. */
  predicate Present(d: Data, s: Section) {
    match s
    case ChecklistSec => d.checklist.Some?
    case PitchSec => d.pitch.Some?
    case PressReleaseSec => d.pressRelease.Some?
    case PlanSec => d.plan.Some?
    case GuidanceSec => d.guidance.Some?
    case OutlineSec => d.outline.Some?
    case StepsSec => d.steps.Some?
    case ItinerarySec => d.itinerary.Some?
  }

  // ---------------------------------------------------------------------
  // The offline demo

  /** The handlers of `OfflineDemo.run`, one per table code and `default`. */
  datatype Handler = Tech | Sales | Press | Farming | Wildlife | Church | Jobs | Arts | Recreation | Fallback

  /** `handlers[intent] || handlers.default`: a code names its own handler,
      anything else (the name `default` included) reaches the default one. */
  function HandlerFor(intent: string): (h: Handler)
    ensures h == Tech <==> intent == "TA"
    ensures h == Sales <==> intent == "SA"
    ensures h == Press <==> intent == "PA"
    ensures h == Farming <==> intent == "FA"
    ensures h == Wildlife <==> intent == "WA"
    ensures h == Church <==> intent == "CA"
    ensures h == Jobs <==> intent == "JA"
    ensures h == Arts <==> intent == "ArA"
    ensures h == Recreation <==> intent == "RA"
    ensures h == Fallback <==> intent !in {"TA", "SA", "PA", "FA", "WA", "CA", "JA", "ArA", "RA"}
  {
    if intent == "TA" then Tech
    else if intent == "SA" then Sales
    else if intent == "PA" then Press
    else if intent == "FA" then Farming
    else if intent == "WA" then Wildlife
    else if intent == "CA" then Church
    else if intent == "JA" then Jobs
    else if intent == "ArA" then Arts
    else if intent == "RA" then Recreation
    else Fallback
  }

  /** The one section each handler's data fills. */
  function ShapeFor(h: Handler): Section {
    match h
    case Tech => StepsSec
    case Sales => PitchSec
    case Press => PressReleaseSec
    case Farming => PlanSec
    case Wildlife => GuidanceSec
    case Church => OutlineSec
    case Jobs => ChecklistSec
    case Arts => StepsSec
    case Recreation => ItinerarySec
    case Fallback => StepsSec
  }

  /** `goal || "your request"`: the phrase the prose talks about. */
  function BaseGoal(goal: string): (r: string)
    ensures r != ""
    ensures goal != "" ==> r == goal
  {
    if goal == "" then "your request" else goal
  }

  predicate EndsWith(s: string, suffix: string) {
    |suffix| <= |s| && s[|s| - |suffix|..] == suffix
  }

  /** `t` occurs somewhere in `s`. */
  ghost predicate Contains(s: string, t: string) {
    exists i :: OccursAt(s, t, i)
  }

  /** `s` is `pre + t + post`, so `t` occurs in it. */
  lemma ContainsMiddle(pre: string, t: string, post: string)
    ensures Contains(pre + t + post, t)
  {
    var s := pre + t + post;
    assert s[|pre|..|pre| + |t|] == t;
    assert OccursAt(s, t, |pre|);
  }

  /** `s` is `pre + t + "."`, so it ends with the base goal and a full
      stop. */
  lemma EndsWithGoal(pre: string, t: string)
    ensures EndsWith(pre + t + ".", t + ".")
  {
    var s := pre + t + ".";
    assert s[|s| - |t + "."|..] == t + ".";
  }

  /** The data sets exactly the field of section `s` and no error. */
  predicate Fills(d: Data, s: Section) {
    d.error.None? && Present(d, s) && forall t :: Present(d, t) ==> t == s
  }

  /** What every handler promises: a summary ending with the base goal and
      a full stop, and data filling exactly the handler's section. */
  predicate Handled(h: Handler, base: string, summary: string, d: Data) {
    EndsWith(summary, base + ".") && Fills(d, ShapeFor(h))
  }

  // ---------------------------------------------------------------------
  // One method per handler of `OfflineDemo.run`, each returning the summary
  // and the data it passes to `makeOfflineResult`.

  method TechHandler(base: string) returns (summary: string, d: Data)
    ensures Handled(Tech, base, summary, d)
    ensures |d.steps.value| == 3 && Contains(d.steps.value[0], base)
  {
    summary := "Outlined troubleshooting for " + base + ".";
    EndsWithGoal("Outlined troubleshooting for ", base);
    ContainsMiddle("Confirm cables, power and connectivity related to \"", base, "\".");
    d := NoData.(steps := Some([
      "Confirm cables, power and connectivity related to \"" + base + "\".",
      "Gather error messages or screenshots for reference.",
      "Apply software updates and restart equipment if issues persist."]));
  }

  method SalesHandler(base: string) returns (summary: string, d: Data)
    ensures Handled(Sales, base, summary, d)
    ensures d.pitch.value.headline.Some? && Contains(d.pitch.value.headline.value, base)
    ensures d.pitch.value.valueProps.Some? && |d.pitch.value.valueProps.value| == 3
    ensures d.pitch.value.cta.Some?
  {
    summary := "Drafted a sales outreach concept for " + base + ".";
    EndsWithGoal("Drafted a sales outreach concept for ", base);
    ContainsMiddle("Connect with prospects interested in ", base, ".");
    d := NoData.(pitch := Some(Pitch(
      Some("Connect with prospects interested in " + base + "."),
      Some([
        "Highlight a clear customer benefit that solves their pain point.",
        "Offer a local success story or testimonial for credibility.",
        "Include a concise incentive for quick follow up."]),
      Some("Invite the prospect to schedule a short discovery call this week."))));
  }

  method PressHandler(base: string) returns (summary: string, d: Data)
    ensures Handled(Press, base, summary, d)
    ensures d.pressRelease.value.title == Some("Community Update: " + base)
    ensures d.pressRelease.value.lead.Some? && Contains(d.pressRelease.value.lead.value, base)
    ensures d.pressRelease.value.bulletPoints.Some? && |d.pressRelease.value.bulletPoints.value| == 3
  {
    summary := "Prepared a press release outline for " + base + ".";
    EndsWithGoal("Prepared a press release outline for ", base);
    ContainsMiddle("Sharing the latest news about ", base, " with local media.");
    d := NoData.(pressRelease := Some(PressRelease(
      Some("Community Update: " + base),
      Some("Sharing the latest news about " + base + " with local media."),
      Some([
        "Key fact or milestone that makes this update timely.",
        "Quote from a spokesperson describing the impact.",
        "Next steps or community call to action."]))));
  }

  method FarmingHandler(base: string) returns (summary: string, d: Data)
    ensures Handled(Farming, base, summary, d)
    ensures d.plan.value.cropRotation.Some? && |d.plan.value.cropRotation.value| == 3
    ensures d.plan.value.soilTest.Some? && d.plan.value.goalNote.Some?
  {
    summary := "Compiled a seasonal plan supporting " + base + ".";
    EndsWithGoal("Compiled a seasonal plan supporting ", base);
    d := NoData.(plan := Some(Plan(
      Some([
        "Warm-season cover crop to rebuild soil organic matter.",
        "Primary cash crop suited to East Tennessee conditions.",
        "Cool-season legume to replenish nitrogen."]),
      Some("Collect soil samples from representative beds and send to UT Extension."),
      Some("Adjust irrigation and fertilization based on the soil test report."))));
  }

  method WildlifeHandler(base: string) returns (summary: string, d: Data)
    ensures Handled(Wildlife, base, summary, d)
    ensures d.guidance.value.safety.Some? && |d.guidance.value.safety.value| == 2
    ensures d.guidance.value.contacts.Some? && |d.guidance.value.contacts.value| == 2
    ensures d.guidance.value.goalNote.Some?
  {
    summary := "Outlined wildlife response guidance for " + base + ".";
    EndsWithGoal("Outlined wildlife response guidance for ", base);
    d := NoData.(guidance := Some(Guidance(
      Some([
        "Keep a safe distance and remove attractants like unsecured trash.",
        "Educate neighbors on when to contact wildlife officers."]),
      Some([
        "Tennessee Wildlife Resources Agency regional office.",
        "Local animal control for immediate hazards."]),
      Some("Document sightings, including time and location, to assist responders."))));
  }

  method ChurchHandler(base: string) returns (summary: string, d: Data)
    ensures Handled(Church, base, summary, d)
    ensures d.outline.value.announcement.Some? && Contains(d.outline.value.announcement.value, base)
    ensures d.outline.value.schedule.Some? && |d.outline.value.schedule.value| == 3
    ensures Contains(d.outline.value.schedule.value[1], base)
    ensures d.outline.value.goalNote.Some?
  {
    summary := "Drafted service announcements supporting " + base + ".";
    EndsWithGoal("Drafted service announcements supporting ", base);
    ContainsMiddle("Share the key message about ", base, " during the upcoming service.");
    ContainsMiddle("Highlight ministry updates connected to ", base, ".");
    d := NoData.(outline := Some(Outline(
      Some("Share the key message about " + base + " during the upcoming service."),
      Some([
        "Welcome & opening prayer.",
        "Highlight ministry updates connected to " + base + ".",
        "Invite members to engage or volunteer."]),
      Some("Coordinate with music and AV teams for smooth transitions."))));
  }

  method JobsHandler(base: string) returns (summary: string, d: Data)
    ensures Handled(Jobs, base, summary, d)
    ensures |d.checklist.value| == 3 && Contains(d.checklist.value[1], base)
  {
    summary := "Created a job search checklist tailored to " + base + ".";
    EndsWithGoal("Created a job search checklist tailored to ", base);
    ContainsMiddle("Identify three local opportunities aligned with ", base, ".");
    d := NoData.(checklist := Some([
      "Update resume with measurable achievements and certifications.",
      "Identify three local opportunities aligned with " + base + ".",
      "Prepare a concise cover letter template emphasizing fit."]));
  }

  method ArtsHandler(base: string) returns (summary: string, d: Data)
    ensures Handled(Arts, base, summary, d)
    ensures |d.steps.value| == 3 && Contains(d.steps.value[0], base)
  {
    summary := "Outlined creative showcase ideas for " + base + ".";
    EndsWithGoal("Outlined creative showcase ideas for ", base);
    ContainsMiddle("Define the theme and featured artists related to ", base, ".");
    d := NoData.(steps := Some([
      "Define the theme and featured artists related to " + base + ".",
      "Draft promotional copy for newsletters and social media.",
      "Plan interactive elements to engage visitors."]));
  }

  method RecreationHandler(base: string) returns (summary: string, d: Data)
    ensures Handled(Recreation, base, summary, d)
    ensures d.itinerary.value.halfDay.Some? && |d.itinerary.value.halfDay.value| == 3
    ensures Contains(d.itinerary.value.halfDay.value[1], base)
    ensures d.itinerary.value.gear.Some? && |d.itinerary.value.gear.value| == 3
    ensures d.itinerary.value.goalNote.Some?
  {
    summary := "Planned a recreation itinerary inspired by " + base + ".";
    EndsWithGoal("Planned a recreation itinerary inspired by ", base);
    ContainsMiddle("Midday picnic featuring local spots tied to ", base, ".");
    d := NoData.(itinerary := Some(Itinerary(
      Some([
        "Begin with a scenic trail loop and photo stop.",
        "Midday picnic featuring local spots tied to " + base + ".",
        "Wrap up with a family-friendly optional activity."]),
      Some([
        "Weather-appropriate layers and water.",
        "Trail map or downloaded offline route.",
        "First-aid kit and charged phone."]),
      Some("Check park advisories for closures or permits."))));
  }

  /** The `default` handler: three next steps, the first about the goal. */
  method FallbackHandler(base: string) returns (summary: string, d: Data)
    ensures Handled(Fallback, base, summary, d)
    ensures |d.steps.value| == 3 && Contains(d.steps.value[0], base)
  {
    summary := "Outlined next steps for " + base + ".";
    EndsWithGoal("Outlined next steps for ", base);
    ContainsMiddle("Clarify objectives and constraints for ", base, ".");
    d := NoData.(steps := Some([
      "Clarify objectives and constraints for " + base + ".",
      "Identify available local resources.",
      "Schedule a follow-up review of progress."]));
  }

  /** `makeOfflineResult(intent, goal, summary, data)`: a successful result
      whose receipt names the intent, its label (or the intent itself when
      it has none) and the goal as given. */
  function MakeOfflineResult(labels: LabelMap, intent: string, goal: string, summary: string, data: Data): (r: Response)
    ensures r.success
    ensures r.summary == Some(summary) && r.data == Some(data)
    ensures r.receipt.Some? && r.receipt.value.agentCode == Some(intent) && r.receipt.value.userGoal == Some(goal)
    ensures HasLabel(labels, intent) ==> r.receipt.value.agentLabel == Some(labels[intent])
    ensures !HasLabel(labels, intent) ==> r.receipt.value.agentLabel == Some(intent)
  {
    Response(true, Some(summary), Some(data), Some(Receipt(Some(LabelOr(labels, intent)), Some(intent), Some(goal))))
  }

  /** `OfflineDemo.run(intent, goal)`: always a success carrying the intent,
      its label and the goal as given in its receipt, with data filling
      exactly the section of the intent's handler (the `default` handler's
      steps for an intent without one) and a summary about the base goal. */
  method OfflineRun(labels: LabelMap, intent: string, goal: string) returns (r: Response)
    ensures r.success && r.summary.Some? && r.data.Some? && r.receipt.Some?
    ensures r.receipt.value == Receipt(Some(LabelOr(labels, intent)), Some(intent), Some(goal))
    ensures Fills(r.data.value, ShapeFor(HandlerFor(intent)))
    ensures EndsWith(r.summary.value, BaseGoal(goal) + ".")
  {
    var h := HandlerFor(intent);
    var base := BaseGoal(goal);
    var summary, d;
    match h {
      case Tech => summary, d := TechHandler(base);
      case Sales => summary, d := SalesHandler(base);
      case Press => summary, d := PressHandler(base);
      case Farming => summary, d := FarmingHandler(base);
      case Wildlife => summary, d := WildlifeHandler(base);
      case Church => summary, d := ChurchHandler(base);
      case Jobs => summary, d := JobsHandler(base);
      case Arts => summary, d := ArtsHandler(base);
      case Recreation => summary, d := RecreationHandler(base);
      case Fallback => summary, d := FallbackHandler(base);
    }
    r := MakeOfflineResult(labels, intent, goal, summary, d);
  }
}
