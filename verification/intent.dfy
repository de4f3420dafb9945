/** The intent classifier: the ordered keyword table, `detectIntent` with its
    explicit `xx:` prefix override, and `updateDetected` with the `?intent=`
    override. */
module Intent {
  import opened Wrappers
  import opened Chars
  import opened RegExp
  import opened Labels

  /** One entry of `INTENT_KEYWORDS`. */
  datatype Rule = Rule(code: string, words: seq<string>)

  /** `INTENT_KEYWORDS`, in table order; the order is the tie-break across
      categories. The second TA keyword is spelled with U+2011 (a non-breaking
      hyphen, which is not a word character). */
  const IntentKeywords: seq<Rule> := [
    Rule("PA", ["press release", "press", "media", "newsroom", "announcement draft", "journalist"]),
    Rule("JA", ["resume", "cover letter", "job", "hiring", "interview", "career", "applicant", "application"]),
    Rule("TA", ["wifi", "wi\U{2011}fi", "printer", "computer", "laptop", "phone", "software", "bug",
                "error", "troubleshoot", "network", "router"]),
    Rule("SA", ["sales", "pitch", "outreach", "customers", "lead", "prospect", "marketing", "cta"]),
    Rule("FA", ["farm", "farming", "crop", "plant", "garden", "soil", "rotation", "fertilizer"]),
    Rule("WA", ["wildlife", "bear", "deer", "raccoon", "coyote", "snake", "animal control", "twra"]),
    Rule("CA", ["church", "vespers", "worship", "outreach", "ministry", "announcements", "sabbath", "service"]),
    Rule("ArA", ["art", "arts", "gallery", "exhibit", "craft", "showcase", "paint", "sculpt", "illustration"]),
    Rule("RA", ["hike", "trail", "camp", "recreation", "kayak", "picnic", "greenway", "overlook", "outdoors"])
  ]

  /** The code returned when no keyword matches. */
  const DefaultCode: string := "TA"

  /** The codes of the keyword table. */
  predicate IsTableCode(c: string) {
    c in {"PA", "JA", "TA", "SA", "FA", "WA", "CA", "ArA", "RA"}
  }

  lemma TableCodes()
    ensures forall i :: 0 <= i < |IntentKeywords| ==> IsTableCode(IntentKeywords[i].code)
  {
  }

  // ---------------------------------------------------------------------
  // Matching one keyword

  /** `text.includes(w)`. */
  function Includes(text: string, w: string): (r: bool)
    ensures r ==> exists i :: OccursAt(text, w, i)
    ensures (exists i :: OccursAt(text, w, i)) ==> r
  {
    IncludesFrom(text, w, 0)
  }

  function IncludesFrom(text: string, w: string, from: nat): (r: bool)
    requires from <= |text|
    ensures r ==> exists i :: from <= i && OccursAt(text, w, i)
    ensures (exists i :: from <= i && OccursAt(text, w, i)) ==> r
    decreases |text| - from
  {
    if OccursAt(text, w, from) then true
    else if from + |w| >= |text| then false
    else IncludesFrom(text, w, from + 1)
  }

  /** One keyword matched against the lower-cased text as the classifier's
      inner loop does: a keyword containing a space by substring search, any
      other through the pattern `\b<escaped keyword>\b`. */
  function KeywordHit(text: string, w: string): bool {
    var lw := Lower(w);
    if ' ' in w then Includes(text, lw)
    else
      BoundedPattern(lw);
      Test(Parse("\\b" + EscapeRegExp(lw) + "\\b").value, text)
  }

  /** What a keyword match means: a phrase with a space occurs anywhere; any
      other keyword occurs between two word boundaries. */
  ghost predicate KeywordMatches(text: string, w: string) {
    if ' ' in w then exists i :: OccursAt(text, w, i)
    else exists i :: OccursAt(text, w, i) && IsBoundary(text, i) && IsBoundary(text, i + |w|)
  }

  lemma LowerKeepsSpace(w: string)
    ensures ' ' in w <==> ' ' in Lower(w)
  {
    if ' ' in w {
      var i :| 0 <= i < |w| && w[i] == ' ';
      assert Lower(w)[i] == ' ';
    }
    if ' ' in Lower(w) {
      var i :| 0 <= i < |w| && Lower(w)[i] == ' ';
      assert w[i] == ' ';
    }
  }

  /** A one-word keyword is matched with the pattern `\b` literal `\b`. */
  lemma HitIsTest(text: string, w: string)
    requires ' ' !in w
    ensures KeywordHit(text, w) == Test([WordBoundary] + Lits(Lower(w)) + [WordBoundary], text)
  {
    BoundedPattern(Lower(w));
  }

  lemma OneWordHitSound(text: string, lw: string)
    requires Test([WordBoundary] + Lits(lw) + [WordBoundary], text)
    ensures exists i :: OccursAt(text, lw, i) && IsBoundary(text, i) && IsBoundary(text, i + |lw|)
  {
    var pos: nat :| pos <= |text| && MatchAt([WordBoundary] + Lits(lw) + [WordBoundary], text, pos);
    MatchBounded(lw, text, pos);
  }

  lemma OneWordHitComplete(text: string, lw: string, i: int)
    requires OccursAt(text, lw, i) && IsBoundary(text, i) && IsBoundary(text, i + |lw|)
    ensures Test([WordBoundary] + Lits(lw) + [WordBoundary], text)
  {
    MatchBounded(lw, text, i);
  }

  lemma OneWordHitMeaning(text: string, lw: string)
    ensures Test([WordBoundary] + Lits(lw) + [WordBoundary], text)
      <==> exists i :: OccursAt(text, lw, i) && IsBoundary(text, i) && IsBoundary(text, i + |lw|)
  {
    if Test([WordBoundary] + Lits(lw) + [WordBoundary], text) {
      OneWordHitSound(text, lw);
    }
    if exists i :: OccursAt(text, lw, i) && IsBoundary(text, i) && IsBoundary(text, i + |lw|) {
      var i :| OccursAt(text, lw, i) && IsBoundary(text, i) && IsBoundary(text, i + |lw|);
      OneWordHitComplete(text, lw, i);
    }
  }

  /** The source's test of one keyword is exactly `KeywordMatches` of the
      lower-cased keyword: escaping never changes what the pattern matches. */
  lemma KeywordHitMeaning(text: string, w: string)
    ensures KeywordHit(text, w) <==> KeywordMatches(text, Lower(w))
  {
    LowerKeepsSpace(w);
    if ' ' !in w {
      HitIsTest(text, w);
      OneWordHitMeaning(text, Lower(w));
    }
  }

  /** The keyword starts and ends with a word character, as every one-word
      table keyword does. */
  predicate WordEdges(w: string) {
    |w| > 0 && IsWordChar(w[0]) && IsWordChar(w[|w| - 1])
  }

  /** For such a keyword the two boundaries say: the character before and the
      character after the occurrence are absent or no word character. So
      "art" does not match inside "artist". */
  lemma BoundariesAreEdges(text: string, w: string, i: int)
    requires WordEdges(w) && OccursAt(text, w, i)
    ensures IsBoundary(text, i) <==> !WordAt(text, i - 1)
    ensures IsBoundary(text, i + |w|) <==> !WordAt(text, i + |w|)
  {
    assert text[i] == w[0];
    assert text[i + |w| - 1] == w[|w| - 1];
  }

  lemma ArtIsNotInArtist()
    ensures !KeywordMatches("artist", "art")
    ensures KeywordMatches("art show", "art")
  {
    var t := "artist";
    forall i | OccursAt(t, "art", i)
      ensures !IsBoundary(t, i + 3)
    {
      assert t[i] == 'a' && t[i + 1] == 'r' && t[i + 2] == 't';
      assert i == 0;
      assert WordAt(t, 3) && WordAt(t, 2);
    }
    var s := "art show";
    assert OccursAt(s, "art", 0) && IsBoundary(s, 0) && IsBoundary(s, 3);
  }

  // ---------------------------------------------------------------------
  // Matching one table entry

  /** Every element is at least as long as every later one. */
  predicate LongestFirst(s: seq<string>) {
    forall i, j :: 0 <= i < j < |s| ==> |s[i]| >= |s[j]|
  }

  /** Places `w` before the first element that is no longer than it, so that
      equally long keywords keep their relative order. */
  function InsertByLength(w: string, s: seq<string>): (r: seq<string>)
    requires LongestFirst(s)
    ensures LongestFirst(r)
    ensures multiset(r) == multiset(s) + multiset{w}
    ensures forall i :: 0 <= i < |r| ==> |r[i]| <= |w| || (s != [] && |r[i]| <= |s[0]|)
  {
    if s == [] || |s[0]| <= |w| then
      LongestFirstCons(w, s);
      [w] + s
    else
      var rest := InsertByLength(w, s[1..]);
      assert s == [s[0]] + s[1..];
      LongestFirstCons(s[0], rest);
      [s[0]] + rest
  }

  lemma LongestFirstCons(x: string, rest: seq<string>)
    requires LongestFirst(rest)
    requires forall i :: 0 <= i < |rest| ==> |rest[i]| <= |x|
    ensures LongestFirst([x] + rest)
  {
  }

  /** `[...words].sort((a, b) => b.length - a.length)`: the same keywords,
      longest first. */
  function SortByLength(ws: seq<string>): (r: seq<string>)
    ensures LongestFirst(r)
    ensures multiset(r) == multiset(ws)
  {
    if ws == [] then []
    else
      assert ws == [ws[0]] + ws[1..];
      InsertByLength(ws[0], SortByLength(ws[1..]))
  }

  /** The inner `for (const w of sorted)` loop: some keyword hits. */
  function HitIn(ws: seq<string>, text: string): bool {
    if ws == [] then false
    else if KeywordHit(text, ws[0]) then true
    else HitIn(ws[1..], text)
  }

  /** The loop hits exactly when some keyword of the list hits; the order
      of the list does not matter. */
  lemma {:induction false} HitInMeaning(ws: seq<string>, text: string)
    ensures HitIn(ws, text) ==> exists w :: w in ws && KeywordHit(text, w)
    ensures (exists w :: w in ws && KeywordHit(text, w)) ==> HitIn(ws, text)
    decreases |ws|
  {
    if ws != [] && !KeywordHit(text, ws[0]) {
      HitInMeaning(ws[1..], text);
      assert forall w :: w in ws && w != ws[0] ==> w in ws[1..];
      assert forall w :: w in ws[1..] ==> w in ws;
    }
  }

  /** One table entry hits, scanning its keywords longest first. */
  function RuleHit(rule: Rule, text: string): bool {
    HitIn(SortByLength(rule.words), text)
  }

  /** What a table entry's match means: one of its keywords matches. */
  ghost predicate RuleMatches(rule: Rule, text: string) {
    exists w :: w in rule.words && KeywordMatches(text, Lower(w))
  }

  /** Sorting the keywords by length never changes whether an entry hits. */
  lemma SortNeverChangesHit(ws: seq<string>, text: string)
    ensures HitIn(SortByLength(ws), text) == HitIn(ws, text)
  {
    var sorted := SortByLength(ws);
    HitInMeaning(sorted, text);
    HitInMeaning(ws, text);
    if HitIn(sorted, text) {
      var w :| w in sorted && KeywordHit(text, w);
      assert w in multiset(sorted);
    }
    if HitIn(ws, text) {
      var w :| w in ws && KeywordHit(text, w);
      assert w in multiset(ws);
    }
  }

  lemma RuleHitMeaning(rule: Rule, text: string)
    ensures RuleHit(rule, text) <==> RuleMatches(rule, text)
  {
    SortNeverChangesHit(rule.words, text);
    HitInMeaning(rule.words, text);
    if RuleHit(rule, text) {
      var w :| w in rule.words && KeywordHit(text, w);
      KeywordHitMeaning(text, w);
    }
    if RuleMatches(rule, text) {
      var w :| w in rule.words && KeywordMatches(text, Lower(w));
      KeywordHitMeaning(text, w);
    }
  }

  // ---------------------------------------------------------------------
  // Scanning the table

  /** The outer `for (const {code, words} of INTENT_KEYWORDS)` loop from entry
      `from` on: the index of the first entry that hits. */
  function FirstHit(table: seq<Rule>, text: string, from: nat): (r: Option<nat>)
    requires from <= |table|
    ensures r.Some? ==> from <= r.value < |table|
    decreases |table| - from
  {
    if from == |table| then None
    else if RuleHit(table[from], text) then Some(from)
    else FirstHit(table, text, from + 1)
  }

  /** The scan stops at an entry that hits, after entries that do not, and
      finds nothing only when no entry from `from` on hits. */
  lemma {:induction false} FirstHitIsFirst(table: seq<Rule>, text: string, from: nat)
    requires from <= |table|
    ensures FirstHit(table, text, from).Some? ==>
      RuleHit(table[FirstHit(table, text, from).value], text)
      && forall j :: from <= j < FirstHit(table, text, from).value ==> !RuleHit(table[j], text)
    ensures FirstHit(table, text, from).None? ==> forall j :: from <= j < |table| ==> !RuleHit(table[j], text)
    decreases |table| - from
  {
    if from < |table| {
      var h := RuleHit(table[from], text);
      if h {
        assert FirstHit(table, text, from) == Some(from);
      } else {
        FirstHitIsFirst(table, text, from + 1);
        var r := FirstHit(table, text, from + 1);
        assert FirstHit(table, text, from) == r;
        if r.Some? {
          forall j | from <= j < r.value ensures !RuleHit(table[j], text) {
            if j > from {
              assert from + 1 <= j < r.value;
            }
          }
        } else {
          forall j | from <= j < |table| ensures !RuleHit(table[j], text) {
            if j > from {
              assert from + 1 <= j < |table|;
            }
          }
        }
      }
    }
  }

  /** Entry `i` is the first entry of the table whose keywords match. */
  ghost predicate FirstMatching(table: seq<Rule>, text: string, i: int) {
    && 0 <= i < |table|
    && RuleMatches(table[i], text)
    && forall j :: 0 <= j < i ==> !RuleMatches(table[j], text)
  }

  ghost predicate NoneMatching(table: seq<Rule>, text: string) {
    forall j :: 0 <= j < |table| ==> !RuleMatches(table[j], text)
  }

  // ---------------------------------------------------------------------
  // The explicit prefix

  /** The first index at or after `i` that is not an ASCII letter, or `|s|`. */
  function LetterRun(s: string, i: nat): (j: nat)
    requires i <= |s|
    ensures i <= j <= |s|
    ensures forall m :: i <= m < j ==> IsAsciiLetter(s[m])
    ensures j < |s| ==> !IsAsciiLetter(s[j])
    decreases |s| - i
  {
    if i < |s| && IsAsciiLetter(s[i]) then LetterRun(s, i + 1) else i
  }

  /** The token captured by the prefix pattern of `detectIntent` (optional
      white space, two or three letters in either case, optional white space,
      a colon), if the goal matches it. */
  function PrefixToken(goal: string): Option<string> {
    var i := SkipSpaces(goal, 0);
    var j := LetterRun(goal, i);
    var k := SkipSpaces(goal, j);
    if 2 <= j - i <= 3 && k < |goal| && goal[k] == ':' then Some(goal[i..j]) else None
  }

  /** The goal is white space, then `tok` (two or three ASCII letters) from
      index `i`, then white space, then a colon at index `k`. */
  ghost predicate PrefixShape(goal: string, tok: string, i: int, k: int) {
    && 0 <= i && i + |tok| <= k < |goal|
    && AllSpace(goal[..i])
    && goal[i..i + |tok|] == tok
    && 2 <= |tok| <= 3 && AllLetters(tok)
    && AllSpace(goal[i + |tok|..k])
    && goal[k] == ':'
  }

  /** The goal has the form `ws tok ws ":" rest`. */
  ghost predicate PrefixForm(goal: string, tok: string) {
    exists i, k :: PrefixShape(goal, tok, i, k)
  }

  lemma LettersAreNotSpace(c: char)
    requires IsAsciiLetter(c)
    ensures !IsSpace(c) && c != ':'
  {
  }

  lemma SkipSpacesStopsAt(s: string, from: nat, j: nat)
    requires from <= j < |s|
    requires forall m :: from <= m < j ==> IsSpace(s[m])
    requires !IsSpace(s[j])
    ensures SkipSpaces(s, from) == j
  {
  }

  lemma LetterRunStopsAt(s: string, from: nat, j: nat)
    requires from <= j < |s|
    requires forall m :: from <= m < j ==> IsAsciiLetter(s[m])
    requires !IsAsciiLetter(s[j])
    ensures LetterRun(s, from) == j
  {
  }

  /** What `PrefixToken` finds has the prefix form. */
  lemma PrefixTokenSound(goal: string)
    ensures PrefixToken(goal).Some? ==> PrefixForm(goal, PrefixToken(goal).value)
  {
    var i0 := SkipSpaces(goal, 0);
    var j0 := LetterRun(goal, i0);
    var k0 := SkipSpaces(goal, j0);
    if PrefixToken(goal).Some? {
      var tok := goal[i0..j0];
      assert PrefixShape(goal, tok, i0, k0);
    }
  }

  /** The token of the prefix form is what `PrefixToken` finds. */
  lemma PrefixTokenComplete(goal: string, tok: string, i: int, k: int)
    requires PrefixShape(goal, tok, i, k)
    ensures PrefixToken(goal) == Some(tok)
  {
    assert goal[i] == tok[0];
    LettersAreNotSpace(tok[0]);
    forall m | 0 <= m < i ensures IsSpace(goal[m]) {
      assert goal[..i][m] == goal[m];
    }
    SkipSpacesStopsAt(goal, 0, i);
    var e := i + |tok|;
    forall m | i <= m < e ensures IsAsciiLetter(goal[m]) {
      assert goal[m] == tok[m - i];
    }
    forall m | e <= m < k ensures IsSpace(goal[m]) {
      assert goal[e..k][m - e] == goal[m];
    }
    assert !IsAsciiLetter(goal[e]) by {
      if e < k { assert IsSpace(goal[e]); }
    }
    LetterRunStopsAt(goal, i, e);
    SkipSpacesStopsAt(goal, e, k);
  }

  /** `PrefixToken` finds exactly the token of the prefix form, so the token
      is unique when there is one. */
  lemma PrefixTokenExact(goal: string, tok: string)
    ensures PrefixToken(goal) == Some(tok) ==> PrefixForm(goal, tok)
    ensures PrefixForm(goal, tok) ==> PrefixToken(goal) == Some(tok)
  {
    PrefixTokenSound(goal);
    if PrefixForm(goal, tok) {
      var i, k :| PrefixShape(goal, tok, i, k);
      PrefixTokenComplete(goal, tok, i, k);
    }
  }

  // ---------------------------------------------------------------------
  // detectIntent and updateDetected

  /** `detectIntent(goal)` against the label table and a keyword table. */
  function Classify(table: seq<Rule>, labels: LabelMap, goal: string): (r: string)
    ensures HasLabel(labels, r) || r == "ArA" || r == DefaultCode || exists i :: 0 <= i < |table| && table[i].code == r
  {
    var tok := PrefixToken(goal);
    if tok.Some? && HasLabel(labels, Upper(tok.value)) then Upper(tok.value)
    else if tok.Some? && Upper(tok.value) == "ARA" then "ArA"
    else match FirstHit(table, Lower(goal), 0)
      case Some(i) => table[i].code
      case None => DefaultCode
  }

  /** `detectIntent(goal)`: the result is always a labelled category or a
      code of the keyword table. */
  function DetectIntent(labels: LabelMap, goal: string): (r: string)
    ensures HasLabel(labels, r) || IsTableCode(r)
  {
    TableCodes();
    ClassifyCodes(IntentKeywords, labels, goal);
    Classify(IntentKeywords, labels, goal)
  }

  /** Over a table of known codes, the classifier answers a labelled
      category or a known code. */
  lemma ClassifyCodes(table: seq<Rule>, labels: LabelMap, goal: string)
    requires forall i :: 0 <= i < |table| ==> IsTableCode(table[i].code)
    ensures HasLabel(labels, Classify(table, labels, goal)) || IsTableCode(Classify(table, labels, goal))
  {
    var r := Classify(table, labels, goal);
    if !HasLabel(labels, r) && r != "ArA" && r != DefaultCode {
      var i :| 0 <= i < |table| && table[i].code == r;
    }
  }

  /** Prefix override: a goal of the form `ws tok ws ":" rest` whose
      upper-cased token is a labelled code yields that code, whatever
      `rest` says. */
  lemma DetectPrefixOverride(labels: LabelMap, goal: string, tok: string)
    requires PrefixForm(goal, tok) && HasLabel(labels, Upper(tok))
    ensures DetectIntent(labels, goal) == Upper(tok)
  {
    PrefixTokenExact(goal, tok);
  }

  /** The token `ara` in any case yields `ArA` when `ARA` itself is not a
      labelled code. */
  lemma DetectAraPrefix(labels: LabelMap, goal: string, tok: string)
    requires PrefixForm(goal, tok) && Upper(tok) == "ARA" && !HasLabel(labels, "ARA")
    ensures DetectIntent(labels, goal) == "ArA"
  {
    PrefixTokenExact(goal, tok);
  }

  /** The scan of a table returns the first entry whose keywords match, and
      nothing when no entry matches. */
  lemma FirstHitMeaning(table: seq<Rule>, text: string)
    ensures forall i :: FirstMatching(table, text, i) ==> FirstHit(table, text, 0) == Some(i)
    ensures NoneMatching(table, text) ==> FirstHit(table, text, 0) == None
  {
    FirstHitIsFirst(table, text, 0);
    var r := FirstHit(table, text, 0);
    if r.Some? {
      RuleHitMeaning(table[r.value], text);
    }
    forall i | FirstMatching(table, text, i) ensures r == Some(i) {
      RuleHitMeaning(table[i], text);
    }
  }

  lemma ClassifyByKeywords(table: seq<Rule>, labels: LabelMap, goal: string)
    requires forall tok :: PrefixForm(goal, tok) ==> !HasLabel(labels, Upper(tok)) && Upper(tok) != "ARA"
    ensures forall i :: FirstMatching(table, Lower(goal), i) ==> Classify(table, labels, goal) == table[i].code
    ensures NoneMatching(table, Lower(goal)) ==> Classify(table, labels, goal) == DefaultCode
  {
    PrefixTokenSound(goal);
    FirstHitMeaning(table, Lower(goal));
  }

  /** Without an honoured prefix, the whole lower-cased goal (prefix
      included) goes to the keyword table: the first entry with a matching
      keyword wins, and `TA` is the answer when none matches. */
  lemma DetectByKeywords(labels: LabelMap, goal: string)
    requires forall tok :: PrefixForm(goal, tok) ==> !HasLabel(labels, Upper(tok)) && Upper(tok) != "ARA"
    ensures forall i :: FirstMatching(IntentKeywords, Lower(goal), i) ==> DetectIntent(labels, goal) == IntentKeywords[i].code
    ensures NoneMatching(IntentKeywords, Lower(goal)) ==> DetectIntent(labels, goal) == DefaultCode
  {
    ClassifyByKeywords(IntentKeywords, labels, goal);
  }

  /** The detected code and the label shown for it. */
  datatype Detected = Detected(code: string, shown: string)

  /** `updateDetected(goal)`: the `?intent=` value when it names a labelled
      category, otherwise `detectIntent(goal)`; the label is the table's label
      for the code, or the code itself. */
  function UpdateDetected(labels: LabelMap, query: Option<string>, goal: string): (d: Detected)
    ensures HasLabel(labels, d.code) || IsTableCode(d.code)
    ensures HasLabel(labels, d.code) ==> d.shown == labels[d.code]
    ensures !HasLabel(labels, d.code) ==> d.shown == d.code
  {
    var code := match UrlOverride(labels, query)
      case Some(v) => v
      case None => DetectIntent(labels, goal);
    Detected(code, LabelOr(labels, code))
  }

  /** The query value wins over everything the goal says whenever it is a
      labelled category; otherwise the query is ignored. */
  lemma UrlOverridePrecedence(labels: LabelMap, query: Option<string>, goal: string)
    ensures query.Some? && query.value != "" && HasLabel(labels, query.value) ==>
      UpdateDetected(labels, query, goal).code == query.value
    ensures !(query.Some? && query.value != "" && HasLabel(labels, query.value)) ==>
      UpdateDetected(labels, query, goal) == UpdateDetected(labels, None, goal)
    ensures UpdateDetected(labels, None, goal).code == DetectIntent(labels, goal)
  {
  }

  /** `updateDetected` as written, with the lookup that also sees inherited
      object members; `memberText` is the engine's text for such a member,
      which becomes the label shown. */
  function UpdateDetectedAsWritten(labels: LabelMap, query: Option<string>, goal: string,
                                   memberText: string -> string): Detected {
    var code := match UrlOverrideAsWritten(labels, query)
      case Some(v) => v
      case None => DetectIntent(labels, goal);
    Detected(code, LabelOrAsWritten(labels, code, memberText))
  }

  /** As written, `?intent=toString` becomes the detected code, although it
      is neither a category nor a table code, and the label shown is the
      text of the inherited `toString` function. */
  lemma InheritedNameBecomesCode(goal: string, memberText: string -> string)
    ensures UpdateDetectedAsWritten(DefaultLabels, Some("toString"), goal, memberText).code == "toString"
    ensures UpdateDetectedAsWritten(DefaultLabels, Some("toString"), goal, memberText).shown == memberText("toString")
    ensures !HasLabel(DefaultLabels, "toString") && !IsTableCode("toString")
  {
    UrlOverrideAcceptsInheritedName(DefaultLabels);
  }
}
