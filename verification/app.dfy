/** The page's two entry points: start-up, which settles the mode and the
    label table, and the Run button, which validates the goal, classifies it
    and shows what the backend or the offline generator answers. The network
    is a parameter: whether `/health` answered, what `/agents` returned, and
    how `/run` settled. */
module App {
  import opened Wrappers
  import opened Chars
  import opened Labels
  import opened Intent
  import opened Results
  import opened Render

  /** The state start-up leaves behind. */
  datatype Session = Session(offline: bool, labels: LabelMap, detected: Detected)

  /** `AGENT_LABELS` has no `ARA` key, so merging its own entries back leaves
      it as it is. */
  lemma DefaultsHaveNoAra()
    ensures !HasLabel(DefaultLabels, "ARA")
  {
  }

  /** `bootstrap()`: a failed health check switches to offline mode, where
      the agent list is the table's own entries; online, a list from
      `/agents` is merged over the defaults and a failed call changes
      nothing. Finally the detection is refreshed for the goal field. */
  method Bootstrap(healthOk: bool, agentsReply: Option<seq<Agent>>, query: Option<string>, goalValue: string)
    returns (session: Session)
    ensures session.offline <==> !healthOk
    ensures session.offline ==> session.labels == DefaultLabels
    ensures !session.offline && agentsReply.Some? ==> session.labels == Merge(DefaultLabels, agentsReply.value)
    ensures !session.offline && agentsReply.None? ==> session.labels == DefaultLabels
    ensures DefaultLabels.Keys <= session.labels.Keys
    ensures session.detected == UpdateDetected(session.labels, query, goalValue)
  {
    var offline := !healthOk;
    var labels := DefaultLabels;
    var reply := agentsReply;
    if offline {
      var own := OfflineAgents(labels);
      reply := Some(own);
      DefaultsHaveNoAra();
      MergeOwnEntries(labels, own);
    }
    if reply.Some? {
      labels := Merge(labels, reply.value);
    }
    session := Session(offline, labels, UpdateDetected(labels, query, goalValue));
  }

  /** With the default table, as offline, every detected code is one of
      the nine categories, so the offline generator always has a handler of
      its own for it. */
  lemma OfflineCodeIsCategory(query: Option<string>, goal: string)
    ensures IsTableCode(UpdateDetected(DefaultLabels, query, goal).code)
    ensures HandlerFor(UpdateDetected(DefaultLabels, query, goal).code) != Fallback
  {
    var code := UpdateDetected(DefaultLabels, query, goal).code;
    if HasLabel(DefaultLabels, code) {
      DefaultCodes(code);
    }
  }

  lemma DefaultCodes(code: string)
    requires code in DefaultLabels
    ensures IsTableCode(code)
  {
  }

  /** How the `/run` request settled: a resolved body (absent when it is
      `null`) or a rejection carrying its `error` value, if any. */
  datatype Reply = Resolved(response: Option<Response>) | Rejected(error: Option<string>)

  /** The record the click handler shows when the request rejects. */
  function FailureRecord(goal: string, error: Option<string>): (r: Response)
    ensures !r.success && r.summary == Some("Request failed")
    ensures r.data.Some? && r.data.value.error == Some(if Truthy(error) then error.value else "Unknown error")
    ensures forall s :: !Present(r.data.value, s)
    ensures r.receipt == Some(Receipt(None, None, Some(goal)))
  {
    Response(false, Some("Request failed"), Some(NoData.(error := Some(Or(error, "Unknown error")))), Some(Receipt(None, None, Some(goal))))
  }

  /** What a click leads to: nothing but the field marked invalid, or a run
      for `code` whose answer `shown` is put on screen as `view`. */
  datatype Outcome = Invalid | Ran(code: string, goal: string, shown: Option<Response>, view: View)

  /** The label on screen is never empty: it is a non-empty label or a
      table code. */
  lemma ShownNotEmpty(labels: LabelMap, query: Option<string>, goal: string)
    ensures UpdateDetected(labels, query, goal).shown != ""
  {
  }

  /** What the offline generator answers for `code` and `goal`: a success
      filling exactly the code's section, with a receipt naming the code, its
      label and the goal. */
  ghost predicate OfflineAnswer(labels: LabelMap, code: string, goal: string, r: Response) {
    && r.success && r.summary.Some? && r.data.Some?
    && r.receipt == Some(Receipt(Some(LabelOr(labels, code)), Some(code), Some(goal)))
    && Fills(r.data.value, ShapeFor(HandlerFor(code)))
    && EndsWith(r.summary.value, BaseGoal(goal) + ".")
  }

  /** The Run button's handler. `raw` is the goal field's value and `reply`
      how the request settles when the page is online. */
  method Click(labels: LabelMap, query: Option<string>, offline: bool, raw: string, reply: Reply)
    returns (outcome: Outcome)
    ensures outcome.Invalid? <==> AllSpace(raw)
    ensures outcome.Ran? ==> outcome.goal == Trim(raw) && outcome.goal != ""
    ensures outcome.Ran? ==> outcome.code == UpdateDetected(labels, query, outcome.goal).code
    ensures outcome.Ran? ==> outcome.view == Show(outcome.shown, UpdateDetected(labels, query, outcome.goal).shown, raw)
    ensures outcome.Ran? && offline ==>
      outcome.shown.Some? && OfflineAnswer(labels, outcome.code, outcome.goal, outcome.shown.value)
    ensures outcome.Ran? && !offline && reply.Resolved? ==> outcome.shown == reply.response
    ensures outcome.Ran? && !offline && reply.Rejected? ==> outcome.shown == Some(FailureRecord(outcome.goal, reply.error))
  {
    var goal := Trim(raw);
    if goal == [] {
      return Invalid;
    }
    var d := UpdateDetected(labels, query, goal);
    var shown: Option<Response>;
    if offline {
      var resp := OfflineRun(labels, d.code, goal);
      shown := Some(resp);
    } else {
      shown := match reply
        case Resolved(r) => r
        case Rejected(e) => Some(FailureRecord(goal, e));
    }
    outcome := Ran(d.code, goal, shown, Show(shown, d.shown, raw));
  }

  /** A rejected run shows the failure header with the label on screen and
      the trimmed goal, and nothing below it: the error text is not
      rendered. */
  lemma RejectedView(goal: string, shownLabel: string, raw: string, error: Option<string>)
    requires goal != "" && shownLabel != ""
    ensures Show(Some(FailureRecord(goal, error)), shownLabel, raw)
      == Markup(Header(HeaderFields(FailureText, "Request failed", shownLabel, goal)))
  {
    var r := FailureRecord(goal, error);
    var f := FieldsOf(r, shownLabel, raw);
    assert f == HeaderFields(FailureText, "Request failed", shownLabel, goal);
    NoSectionNoBody(r.data.value);
    assert Show(Some(r), shownLabel, raw) == Markup(Header(f) + Body(r.data));
    AppendEmpty(Header(f), Body(r.data));
  }

  lemma AppendEmpty(s: string, t: string)
    requires t == ""
    ensures s + t == s
  {
  }

  /** An offline run shows the success header with the summary, the code's
      label and the trimmed goal, then exactly the code's section. */
  lemma OfflineView(labels: LabelMap, code: string, goal: string, raw: string, r: Response)
    requires goal != ""
    requires OfflineAnswer(labels, code, goal, r)
    ensures Show(Some(r), LabelOr(labels, code), raw)
      == Markup(Header(HeaderFields(SuccessText, r.summary.value, LabelOr(labels, code), goal))
        + SectionHtml(r.data.value, ShapeFor(HandlerFor(code))))
  {
    var f := FieldsOf(r, LabelOr(labels, code), raw);
    assert f == HeaderFields(SuccessText, r.summary.value, LabelOr(labels, code), goal);
    SingleSection(r.data.value, ShapeFor(HandlerFor(code)));
  }
}
