/** `showResultPretty` as a pure builder: the key/value header, then the
    optional sections in their fixed order, every interpolated string passed
    through `escapeHtml`. Beside it, readers that parse the generated markup
    back, which shows the escaped text cannot be confused with the tags. */
module Render {
  import opened Wrappers
  import opened Html
  import opened Results

  /** What the result area shows: plain text or generated markup. */
  datatype View = Text(text: string) | Markup(html: string)

  // ---------------------------------------------------------------------
  // The header

  /** The four values of the header, before escaping. */
  datatype HeaderFields = HeaderFields(status: string, summary: string, agent: string, goal: string)

  const SuccessText: string := "\U{2705} Success"
  const FailureText: string := "\U{274C} Failed"

  /** The header values of a response: `summary || ""`, the receipt's label
      or else the label on screen, the receipt's goal or else the goal
      field's current value (empty strings count as absent). */
  function FieldsOf(r: Response, shownLabel: string, goalValue: string): (f: HeaderFields)
    ensures f.status == if r.success then SuccessText else FailureText
    ensures f.summary == if Truthy(r.summary) then r.summary.value else ""
    ensures r.receipt.Some? && Truthy(r.receipt.value.agentLabel) ==> f.agent == r.receipt.value.agentLabel.value
    ensures !(r.receipt.Some? && Truthy(r.receipt.value.agentLabel)) ==> f.agent == shownLabel
    ensures r.receipt.Some? && Truthy(r.receipt.value.userGoal) ==> f.goal == r.receipt.value.userGoal.value
    ensures !(r.receipt.Some? && Truthy(r.receipt.value.userGoal)) ==> f.goal == goalValue
  {
    var agent := if r.receipt.Some? then Or(r.receipt.value.agentLabel, shownLabel) else shownLabel;
    var goal := if r.receipt.Some? then Or(r.receipt.value.userGoal, goalValue) else goalValue;
    HeaderFields(if r.success then SuccessText else FailureText, Or(r.summary, ""), agent, goal)
  }

  /** One `<dt>`/`<dd>` pair of the header, as the template lays it out. */
  function Row(name: string, value: string): string {
    "\n    <dt>" + name + "</dt><dd>" + value + "</dd>"
  }

  const HeaderOpen: string := "<dl class=\"kv\">"
  const HeaderClose: string := "\n  </dl>"

  function Header(f: HeaderFields): string {
    HeaderOpen + Row("Status", f.status) + Row("Summary", EscapeHtml(f.summary))
      + Row("Agent", EscapeHtml(f.agent)) + Row("Goal", EscapeHtml(f.goal)) + HeaderClose
  }

  // ---------------------------------------------------------------------
  // The sections

  function Items(xs: seq<string>): string {
    if xs == [] then "" else "<li>" + EscapeHtml(xs[0]) + "</li>" + Items(xs[1..])
  }

  /** `<ul class="clean">` with one `<li>` per item. */
  function List(xs: seq<string>): string {
    "<ul class=\"clean\">" + Items(xs) + "</ul>"
  }

  /** A list the template emits only when the field is an array. */
  function OptList(xs: Option<seq<string>>): string {
    if xs.Some? then List(xs.value) else ""
  }

  function Heading(title: string): string {
    "<h3>" + title + "</h3>"
  }

  function StrongDiv(html: string): string {
    "<div><strong>" + html + "</strong></div>"
  }

  /** A captioned list, emitted only when the field is an array. */
  function Captioned(caption: string, xs: Option<seq<string>>): string {
    if xs.Some? then StrongDiv(caption) + List(xs.value) else ""
  }

  /** A captioned line, emitted only when the value is a non-empty string. */
  function Line(caption: string, v: Option<string>): string {
    if Truthy(v) then "<div><strong>" + caption + "</strong> " + EscapeHtml(v.value) + "</div>" else ""
  }

  /** The heading of each section. */
  function Title(s: Section): string {
    match s
    case ChecklistSec => "Checklist"
    case PitchSec => "Sales Pitch"
    case PressReleaseSec => "Press Release"
    case PlanSec => "Plan"
    case GuidanceSec => "Guidance"
    case OutlineSec => "Announcements"
    case StepsSec => "Next Steps"
    case ItinerarySec => "Itinerary"
  }

  function PitchHtml(p: Pitch): string {
    StrongDiv(EscapeHtml(Or(p.headline, ""))) + OptList(p.valueProps)
      + (if Truthy(p.cta) then "<div><em>Call to action:</em> " + EscapeHtml(p.cta.value) + "</div>" else "")
  }

  const DefaultTitle: string := "Community Update"

  function PressHtml(pr: PressRelease): string {
    StrongDiv(EscapeHtml(Or(pr.title, DefaultTitle))) + "<p>" + EscapeHtml(Or(pr.lead, "")) + "</p>"
      + OptList(pr.bulletPoints)
  }

  function PlanHtml(p: Plan): string {
    Captioned("Crop rotation:", p.cropRotation) + Line("Soil test:", p.soilTest) + Line("Note:", p.goalNote)
  }

  function GuidanceHtml(g: Guidance): string {
    Captioned("Safety:", g.safety) + Captioned("Contacts:", g.contacts) + Line("Note:", g.goalNote)
  }

  function OutlineHtml(o: Outline): string {
    (if Truthy(o.announcement) then StrongDiv(EscapeHtml(o.announcement.value)) else "")
      + Captioned("Schedule:", o.schedule) + Line("Note:", o.goalNote)
  }

  function ItineraryHtml(it: Itinerary): string {
    Captioned("Half-day plan:", it.halfDay) + Captioned("Gear:", it.gear) + Line("Note:", it.goalNote)
  }

  /** What follows the heading of a present section. */
  function Content(d: Data, s: Section): string
    requires Present(d, s)
  {
    match s
    case ChecklistSec => List(d.checklist.value)
    case PitchSec => PitchHtml(d.pitch.value)
    case PressReleaseSec => PressHtml(d.pressRelease.value)
    case PlanSec => PlanHtml(d.plan.value)
    case GuidanceSec => GuidanceHtml(d.guidance.value)
    case OutlineSec => OutlineHtml(d.outline.value)
    case StepsSec => List(d.steps.value)
    case ItinerarySec => ItineraryHtml(d.itinerary.value)
  }

  function SectionHtml(d: Data, s: Section): string
    requires Present(d, s)
  {
    Heading(Title(s)) + Content(d, s)
  }

  /** Every section, in the order the template tests them. */
  const AllSections: seq<Section> :=
    [ChecklistSec, PitchSec, PressReleaseSec, PlanSec, GuidanceSec, OutlineSec, StepsSec, ItinerarySec]

  predicate Ascending(secs: seq<Section>) {
    forall i, j :: 0 <= i < j < |secs| ==> Rank(secs[i]) < Rank(secs[j])
  }

  lemma AllSectionsListed()
    ensures forall s :: s in AllSections
    ensures Ascending(AllSections)
  {
    forall s ensures s in AllSections {
      match s
      case ChecklistSec => assert AllSections[0] == s;
      case PitchSec => assert AllSections[1] == s;
      case PressReleaseSec => assert AllSections[2] == s;
      case PlanSec => assert AllSections[3] == s;
      case GuidanceSec => assert AllSections[4] == s;
      case OutlineSec => assert AllSections[5] == s;
      case StepsSec => assert AllSections[6] == s;
      case ItinerarySec => assert AllSections[7] == s;
    }
    forall i, j | 0 <= i < j < |AllSections| ensures Rank(AllSections[i]) < Rank(AllSections[j]) {
      assert forall k :: 0 <= k < |AllSections| ==> Rank(AllSections[k]) == k;
    }
  }

  /** The present sections among `secs`, in the order given. */
  function Keep(d: Data, secs: seq<Section>): (r: seq<Section>)
    ensures forall s :: s in r <==> s in secs && Present(d, s)
    ensures Ascending(secs) ==> Ascending(r)
    ensures Ascending(secs) && secs != [] && r != [] ==> Rank(secs[0]) <= Rank(r[0])
  {
    if secs == [] then []
    else if Present(d, secs[0]) then [secs[0]] + Keep(d, secs[1..])
    else Keep(d, secs[1..])
  }

  /** The sections the template emits for `d`: exactly the present ones,
      in the fixed order. */
  function SectionsOf(d: Data): (secs: seq<Section>)
    ensures forall s :: s in secs <==> Present(d, s)
    ensures Ascending(secs)
  {
    AllSectionsListed();
    Keep(d, AllSections)
  }

  function Join(d: Data, secs: seq<Section>): string
    requires forall s :: s in secs ==> Present(d, s)
  {
    if secs == [] then "" else SectionHtml(d, secs[0]) + Join(d, secs[1..])
  }

  /** Everything after the header. */
  function Body(data: Option<Data>): string {
    if data.Some? then Join(data.value, SectionsOf(data.value)) else ""
  }

  /** `showResultPretty(resp)`, with the label and goal currently on screen
      passed in. */
  function Show(resp: Option<Response>, shownLabel: string, goalValue: string): (v: View)
    ensures resp.None? <==> v == Text("No response yet.")
    ensures resp.Some? ==> v.Markup?
  {
    match resp
    case None => Text("No response yet.")
    case Some(r) => Markup(Header(FieldsOf(r, shownLabel, goalValue)) + Body(r.data))
  }

  /** Along an ascending list the rank rises by at least one per step. */
  lemma {:induction false} RankRises(secs: seq<Section>)
    requires Ascending(secs)
    requires secs != []
    ensures Rank(secs[|secs| - 1]) >= Rank(secs[0]) + |secs| - 1
    decreases |secs|
  {
    if |secs| > 1 {
      var tail := secs[1..];
      assert Ascending(tail) by {
        forall i, j | 0 <= i < j < |tail| ensures Rank(tail[i]) < Rank(tail[j]) {
          assert tail[i] == secs[i + 1] && tail[j] == secs[j + 1];
        }
      }
      RankRises(tail);
      assert tail[|tail| - 1] == secs[|secs| - 1];
      assert Rank(secs[0]) < Rank(secs[1]);
    }
  }

  /** An ascending list of sections that all equal `s`, and holds `s`, is
      just `[s]`: the fixed order never repeats a section. */
  lemma OnlySection(secs: seq<Section>, s: Section)
    requires Ascending(secs)
    requires s in secs
    requires forall t :: t in secs ==> t == s
    ensures secs == [s]
  {
    RankRises(secs);
    assert secs[0] in secs && secs[|secs| - 1] in secs;
    assert |secs| == 1;
  }

  /** Data that fills exactly one section renders as that section alone. */
  lemma SingleSection(d: Data, s: Section)
    requires Fills(d, s)
    ensures SectionsOf(d) == [s]
    ensures Body(Some(d)) == SectionHtml(d, s)
  {
    OnlySection(SectionsOf(d), s);
    assert Join(d, [s]) == SectionHtml(d, s) + Join(d, []);
  }

  /** Data with no section present, such as a bare `{ error }`, renders
      nothing after the header. */
  lemma NoSectionNoBody(d: Data)
    requires forall s :: !Present(d, s)
    ensures SectionsOf(d) == []
    ensures Body(Some(d)) == ""
  {
    KeepNone(d, AllSections);
  }

  lemma {:induction false} KeepNone(d: Data, secs: seq<Section>)
    requires forall s :: !Present(d, s)
    ensures Keep(d, secs) == []
    decreases |secs|
  {
    if secs != [] {
      KeepNone(d, secs[1..]);
    }
  }
}
