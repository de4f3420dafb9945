/** Readers for the markup the renderer generates. Each reader recovers
    exactly the values that went into the markup, whatever those values
    contain, because escaped text never holds a `<`: a value can neither end
    its element early nor inject a tag. */
module ReadBack {
  import opened Wrappers
  import opened Html
  import opened Results
  import opened Render

  /** Splits `s` before its first `<`. */
  function TextRun(s: string): (r: (string, string))
    ensures r.0 + r.1 == s
    ensures '<' !in r.0
    ensures r.1 == [] || r.1[0] == '<'
  {
    if s == [] then ([], [])
    else if s[0] == '<' then ([], s)
    else
      var (a, b) := TextRun(s[1..]);
      assert [s[0]] + a + b == [s[0]] + (a + b);
      ([s[0]] + a, b)
  }

  /** Text without `<`, followed by a tag or by nothing, is split right
      where the tag begins. */
  lemma {:induction false} TextRunOf(t: string, rest: string)
    requires '<' !in t
    requires rest == [] || rest[0] == '<'
    ensures TextRun(t + rest) == (t, rest)
    decreases |t|
  {
    if t == [] {
      assert t + rest == rest;
    } else {
      assert t[0] in t;
      assert (t + rest)[0] == t[0];
      assert (t + rest)[1..] == t[1..] + rest;
      assert t[1..] == t[1..] && forall c :: c in t[1..] ==> c in t;
      TextRunOf(t[1..], rest);
      assert [t[0]] + t[1..] == t;
    }
  }

  /** What follows the prefix `p`, if `s` starts with it. */
  function After(s: string, p: string): (r: Option<string>)
    ensures r.Some? <==> StartsWith(s, p)
    ensures r.Some? ==> s == p + r.value
  {
    if StartsWith(s, p) then
      assert s == s[..|p|] + s[|p|..];
      Some(s[|p|..])
    else None
  }

  lemma AfterPrefix(p: string, x: string)
    ensures After(p + x, p) == Some(x)
  {
    assert (p + x)[..|p|] == p;
    assert (p + x)[|p|..] == x;
  }

  lemma NoLtInEscaped(s: string)
    ensures '<' !in EscapeHtml(s)
  {
    EscapedIsMarkupFree(s);
    forall c | c in EscapeHtml(s) ensures c != '<' {
      var i :| 0 <= i < |EscapeHtml(s)| && EscapeHtml(s)[i] == c;
    }
  }

  /** Reads the text between the tags `open` and `close`, returning it
      raw with what follows. */
  function ReadElem(s: string, open: string, close: string): (r: Option<(string, string)>)
    ensures r.Some? ==> |open| + |r.value.0| + |close| + |r.value.1| == |s|
  {
    match After(s, open)
    case None => None
    case Some(s1) =>
      var (v, s2) := TextRun(s1);
      match After(s2, close)
      case None => None
      case Some(s3) => Some((v, s3))
  }

  /** An element whose text has no `<` reads back as that text. */
  lemma ReadElemOf(open: string, v: string, close: string, rest: string)
    requires '<' !in v
    requires |close| > 0 && close[0] == '<'
    ensures ReadElem(open + v + close + rest, open, close) == Some((v, rest))
  {
    Assoc(open + v, close, rest);
    Assoc(open, v, close + rest);
    AfterPrefix(open, v + (close + rest));
    TextRunOf(v, close + rest);
    AfterPrefix(close, rest);
  }

  lemma Assoc(a: string, b: string, c: string)
    ensures (a + b) + c == a + (b + c)
  {
  }

  // ---------------------------------------------------------------------
  // The header

  function RowStart(name: string): string {
    "\n    <dt>" + name + "</dt><dd>"
  }

  /** Reads one row `name`, returning its raw value and what follows. */
  function ReadRow(s: string, name: string): Option<(string, string)> {
    ReadElem(s, RowStart(name), "</dd>")
  }

  lemma ReadRowOf(name: string, v: string, rest: string)
    requires '<' !in v
    ensures ReadRow(Row(name, v) + rest, name) == Some((v, rest))
  {
    ReadElemOf(RowStart(name), v, "</dd>", rest);
  }

  /** Reads the header back: the status as it stands, the other three
      values decoded. */
  function ReadHeader(s: string): Option<(HeaderFields, string)> {
    match After(s, HeaderOpen)
    case None => None
    case Some(s0) =>
      match ReadRow(s0, "Status")
      case None => None
      case Some((st, s1)) =>
        match ReadRow(s1, "Summary")
        case None => None
        case Some((sm, s2)) =>
          match ReadRow(s2, "Agent")
          case None => None
          case Some((ag, s3)) =>
            match ReadRow(s3, "Goal")
            case None => None
            case Some((gl, s4)) =>
              match After(s4, HeaderClose)
              case None => None
              case Some(s5) => Some((HeaderFields(st, UnescapeHtml(sm), UnescapeHtml(ag), UnescapeHtml(gl)), s5))
  }

  /** The header reads back as the values it was built from, whatever
      the summary, label and goal contain, and whatever follows it. */
  lemma ReadHeaderOf(f: HeaderFields, rest: string)
    requires '<' !in f.status
    ensures ReadHeader(Header(f) + rest) == Some((f, rest))
  {
    var sm, ag, gl := EscapeHtml(f.summary), EscapeHtml(f.agent), EscapeHtml(f.goal);
    NoLtInEscaped(f.summary);
    NoLtInEscaped(f.agent);
    NoLtInEscaped(f.goal);
    UnescapeEscape(f.summary);
    UnescapeEscape(f.agent);
    UnescapeEscape(f.goal);
    var r4 := HeaderClose + rest;
    var r3 := Row("Goal", gl) + r4;
    var r2 := Row("Agent", ag) + r3;
    var r1 := Row("Summary", sm) + r2;
    var r0 := Row("Status", f.status) + r1;
    var q1, q2, q3, q4 := Row("Status", f.status), Row("Summary", sm), Row("Agent", ag), Row("Goal", gl);
    calc {
      Header(f) + rest;
      (HeaderOpen + q1 + q2 + q3 + q4 + HeaderClose) + rest;
      { Assoc(HeaderOpen + q1 + q2 + q3 + q4, HeaderClose, rest); }
      (HeaderOpen + q1 + q2 + q3) + q4 + r4;
      { Assoc(HeaderOpen + q1 + q2 + q3, q4, r4); }
      (HeaderOpen + q1 + q2) + q3 + r3;
      { Assoc(HeaderOpen + q1 + q2, q3, r3); }
      (HeaderOpen + q1) + q2 + r2;
      { Assoc(HeaderOpen + q1, q2, r2); }
      HeaderOpen + q1 + r1;
      { Assoc(HeaderOpen, q1, r1); }
      HeaderOpen + r0;
    }
    AfterPrefix(HeaderOpen, r0);
    ReadRowOf("Status", f.status, r1);
    ReadRowOf("Summary", sm, r2);
    ReadRowOf("Agent", ag, r3);
    ReadRowOf("Goal", gl, r4);
    AfterPrefix(HeaderClose, rest);
  }

  // ---------------------------------------------------------------------
  // Lists

  /** Reads `<li>` items for as long as they come. */
  function ReadItems(s: string): (seq<string>, string)
    decreases |s|
  {
    match ReadElem(s, "<li>", "</li>")
    case Some((t, s1)) =>
      var (xs, s2) := ReadItems(s1);
      ([UnescapeHtml(t)] + xs, s2)
    case None => ([], s)
  }

  lemma {:induction false} ReadItemsOf(xs: seq<string>, rest: string)
    requires !StartsWith(rest, "<li>")
    ensures ReadItems(Items(xs) + rest) == (xs, rest)
    decreases |xs|
  {
    if xs == [] {
      assert Items(xs) + rest == rest;
    } else {
      var e := EscapeHtml(xs[0]);
      var tail := Items(xs[1..]) + rest;
      Assoc("<li>" + e + "</li>", Items(xs[1..]), rest);
      NoLtInEscaped(xs[0]);
      ReadElemOf("<li>", e, "</li>", tail);
      ReadItemsOf(xs[1..], rest);
      UnescapeEscape(xs[0]);
      assert [xs[0]] + xs[1..] == xs;
    }
  }

  /** Reads a list opened by `open` and closed by `</ul>`. */
  function ReadListAfter(s: string, open: string): Option<(seq<string>, string)> {
    match After(s, open)
    case None => None
    case Some(s1) =>
      var (xs, s2) := ReadItems(s1);
      match After(s2, "</ul>")
      case None => None
      case Some(s3) => Some((xs, s3))
  }

  lemma ReadListAfterOf(open: string, xs: seq<string>, rest: string)
    ensures ReadListAfter(open + Items(xs) + "</ul>" + rest, open) == Some((xs, rest))
  {
    var tail := "</ul>" + rest;
    Assoc(open + Items(xs), "</ul>", rest);
    Assoc(open, Items(xs), tail);
    AfterPrefix(open, Items(xs) + tail);
    assert !StartsWith(tail, "<li>") by {
      assert tail[1] == '/';
    }
    ReadItemsOf(xs, tail);
    AfterPrefix("</ul>", rest);
  }

  /** Reads a `<ul class="clean">` list. */
  function ReadList(s: string): Option<(seq<string>, string)> {
    ReadListAfter(s, "<ul class=\"clean\">")
  }

  /** A list reads back as its items, whatever they contain. */
  lemma ReadListOf(xs: seq<string>, rest: string)
    ensures ReadList(List(xs) + rest) == Some((xs, rest))
  {
    ReadListAfterOf("<ul class=\"clean\">", xs, rest);
  }

  // ---------------------------------------------------------------------
  // Whole results

  lemma StatusHasNoTag(r: Response)
    ensures '<' !in (if r.success then SuccessText else FailureText)
  {
    assert forall i :: 0 <= i < |SuccessText| ==> SuccessText[i] != '<';
    assert forall i :: 0 <= i < |FailureText| ==> FailureText[i] != '<';
  }

  /** The header of a shown response reads back as the values the template
      takes from it, and what follows the header is exactly the body. */
  lemma ShowReadsBack(r: Response, shownLabel: string, goalValue: string)
    ensures Show(Some(r), shownLabel, goalValue).Markup?
    ensures ReadHeader(Show(Some(r), shownLabel, goalValue).html)
      == Some((FieldsOf(r, shownLabel, goalValue), Body(r.data)))
  {
    StatusHasNoTag(r);
    ReadHeaderOf(FieldsOf(r, shownLabel, goalValue), Body(r.data));
  }

  /** Reads a list section: its heading, then its list. */
  function ReadListSection(s: string, sec: Section): Option<(seq<string>, string)> {
    match After(s, Heading(Title(sec)))
    case None => None
    case Some(s1) => ReadList(s1)
  }

  /** The checklist and the next steps read back as the data's items. */
  lemma ListSectionReadsBack(d: Data, sec: Section, rest: string)
    requires sec == ChecklistSec || sec == StepsSec
    requires Present(d, sec)
    ensures sec == ChecklistSec ==> ReadListSection(SectionHtml(d, sec) + rest, sec) == Some((d.checklist.value, rest))
    ensures sec == StepsSec ==> ReadListSection(SectionHtml(d, sec) + rest, sec) == Some((d.steps.value, rest))
  {
    var xs := if sec == ChecklistSec then d.checklist.value else d.steps.value;
    assert Content(d, sec) == List(xs);
    Assoc(Heading(Title(sec)), List(xs), rest);
    AfterPrefix(Heading(Title(sec)), List(xs) + rest);
    ReadListOf(xs, rest);
  }

  // ---------------------------------------------------------------------
  // Emphasised lines

  /** Reads a `<div><strong>` line and decodes its text. */
  function ReadStrong(s: string): Option<string> {
    match ReadElem(s, "<div><strong>", "</strong></div>")
    case None => None
    case Some((v, _)) => Some(UnescapeHtml(v))
  }

  lemma StrongReadsBack(v: string, rest: string)
    ensures ReadStrong(StrongDiv(EscapeHtml(v)) + rest) == Some(v)
  {
    NoLtInEscaped(v);
    ReadElemOf("<div><strong>", EscapeHtml(v), "</strong></div>", rest);
    UnescapeEscape(v);
  }

  /** The press release opens with its title, or with "Community Update"
      when the title is absent or empty. */
  lemma PressTitleReadsBack(pr: PressRelease, rest: string)
    ensures ReadStrong(PressHtml(pr) + rest) == Some(if Truthy(pr.title) then pr.title.value else DefaultTitle)
  {
    var title := Or(pr.title, DefaultTitle);
    var head := StrongDiv(EscapeHtml(title));
    var lead := "<p>" + EscapeHtml(Or(pr.lead, "")) + "</p>";
    var bullets := OptList(pr.bulletPoints);
    assert PressHtml(pr) == head + "<p>" + EscapeHtml(Or(pr.lead, "")) + "</p>" + bullets;
    calc {
      PressHtml(pr) + rest;
      { Assoc(head + "<p>" + EscapeHtml(Or(pr.lead, "")) + "</p>", bullets, rest); }
      head + "<p>" + EscapeHtml(Or(pr.lead, "")) + "</p>" + (bullets + rest);
      { Assoc(head + "<p>" + EscapeHtml(Or(pr.lead, "")), "</p>", bullets + rest);
        Assoc(head + "<p>", EscapeHtml(Or(pr.lead, "")), "</p>" + (bullets + rest));
        Assoc(head, "<p>", EscapeHtml(Or(pr.lead, "")) + ("</p>" + (bullets + rest))); }
      head + ("<p>" + (EscapeHtml(Or(pr.lead, "")) + ("</p>" + (bullets + rest))));
    }
    StrongReadsBack(title, "<p>" + (EscapeHtml(Or(pr.lead, "")) + ("</p>" + (bullets + rest))));
  }

  /** The pitch opens with its headline, empty when there is none. */
  lemma PitchHeadlineReadsBack(p: Pitch, rest: string)
    ensures ReadStrong(PitchHtml(p) + rest) == Some(if Truthy(p.headline) then p.headline.value else "")
  {
    var head := StrongDiv(EscapeHtml(Or(p.headline, "")));
    var cta := if Truthy(p.cta) then "<div><em>Call to action:</em> " + EscapeHtml(p.cta.value) + "</div>" else "";
    assert PitchHtml(p) == head + OptList(p.valueProps) + cta;
    Assoc(head + OptList(p.valueProps), cta, rest);
    Assoc(head, OptList(p.valueProps), cta + rest);
    StrongReadsBack(Or(p.headline, ""), OptList(p.valueProps) + (cta + rest));
  }
}
