/** Worked cases of the classifier: the default for an empty goal, the
    table-order tie-break on a keyword listed twice, and a colon that is not
    an explicit prefix.

    The example goals are parameters fixed by a `requires goal == "..."`
    rather than literals written into the `ensures`: a literal there is
    unfolded by the verifier through every definition it reaches, which makes
    the proofs far costlier without changing what they state. */
module IntentExamples {
  import opened Wrappers
  import opened Chars
  import opened RegExp
  import opened Labels
  import opened Intent

  /** No keyword matches the empty text: an empty occurrence has no word
      boundary on either side, and a non-empty one does not fit. */
  lemma NothingMatchesEmpty(w: string)
    ensures !KeywordMatches("", w)
  {
    forall i ensures !(OccursAt("", w, i) && IsBoundary("", i)) {
    }
  }

  /** A goal without a colon has no explicit prefix. */
  lemma NoColonNoPrefix(goal: string)
    requires ':' !in goal
    ensures forall tok :: !PrefixForm(goal, tok)
  {
    forall tok, i, k ensures !PrefixShape(goal, tok, i, k) {
      if 0 <= k < |goal| {
        assert goal[k] in goal;
      }
    }
  }

  /** The empty goal is classified `TA`, whatever the label table. */
  lemma EmptyGoalIsDefault(labels: LabelMap)
    ensures DetectIntent(labels, "") == DefaultCode
  {
    assert Lower("") == "";
    NoColonNoPrefix("");
    forall j, w | 0 <= j < |IntentKeywords| && w in IntentKeywords[j].words
      ensures !KeywordMatches("", Lower(w))
    {
      NothingMatchesEmpty(Lower(w));
    }
    DetectByKeywords(labels, "");
  }

  /** A keyword with a character the text lacks does not match it. */
  lemma MissingChar(text: string, w: string, m: int)
    requires 0 <= m < |w| && w[m] !in text
    ensures !KeywordMatches(text, w)
  {
    forall i | 0 <= i && i + |w| <= |text|
      ensures !OccursAt(text, w, i)
    {
      assert text[i..i + |w|][m] == text[i + m];
    }
  }

  /** A keyword whose first character appears nowhere it could start does
      not match. */
  lemma NoStart(text: string, w: string)
    requires |w| > 0
    requires |w| <= |text| ==> w[0] !in text[..|text| - |w| + 1]
    ensures !KeywordMatches(text, w)
  {
    forall i | 0 <= i && i + |w| <= |text|
      ensures !OccursAt(text, w, i)
    {
      assert text[i..i + |w|][0] == text[..|text| - |w| + 1][i];
    }
  }

  lemma LowerOfLowercase(w: string)
    requires forall i :: 0 <= i < |w| ==> !('A' <= w[i] <= 'Z')
    ensures Lower(w) == w
  {
  }

  /** The lower-cased keyword `w` has the character `w[m]`, which "outreach"
      lacks. */
  lemma OutreachLacks(w: string, m: int)
    requires 0 <= m < |w| && w[m] !in "outreach"
    requires forall i :: 0 <= i < |w| ==> !('A' <= w[i] <= 'Z')
    ensures !KeywordMatches("outreach", Lower(w))
  {
    LowerOfLowercase(w);
    MissingChar("outreach", w, m);
  }

  /** The lower-cased keyword `w` could only start at "outreach"'s `r`, where
      it does not fit. */
  lemma OutreachCannotStart(w: string)
    requires 0 < |w| && (|w| <= 8 ==> w[0] !in "outreach"[..9 - |w|])
    requires forall i :: 0 <= i < |w| ==> !('A' <= w[i] <= 'Z')
    ensures !KeywordMatches("outreach", Lower(w))
  {
    LowerOfLowercase(w);
    NoStart("outreach", w);
  }

  lemma OutreachPressWords1()
    ensures !KeywordMatches("outreach", Lower("press release"))
      && !KeywordMatches("outreach", Lower("press"))
      && !KeywordMatches("outreach", Lower("media"))
  {
    OutreachLacks("press release", 0);
    OutreachLacks("press", 0);
    OutreachLacks("media", 0);
  }

  lemma OutreachPressWords2()
    ensures !KeywordMatches("outreach", Lower("newsroom"))
      && !KeywordMatches("outreach", Lower("announcement draft"))
      && !KeywordMatches("outreach", Lower("journalist"))
  {
    OutreachLacks("newsroom", 0);
    OutreachLacks("announcement draft", 1);
    OutreachLacks("journalist", 0);
  }

  /** No PA keyword occurs in "outreach". */
  lemma OutreachIsNotPress()
    ensures !RuleMatches(IntentKeywords[0], "outreach")
  {
    OutreachPressWords1();
    OutreachPressWords2();
  }

  lemma OutreachJobsWords1()
    ensures !KeywordMatches("outreach", Lower("resume"))
      && !KeywordMatches("outreach", Lower("cover letter"))
      && !KeywordMatches("outreach", Lower("job"))
      && !KeywordMatches("outreach", Lower("hiring"))
  {
    OutreachLacks("resume", 2);
    OutreachLacks("cover letter", 2);
    OutreachLacks("job", 0);
    OutreachLacks("hiring", 1);
  }

  lemma OutreachJobsWords2()
    ensures !KeywordMatches("outreach", Lower("interview"))
      && !KeywordMatches("outreach", Lower("career"))
      && !KeywordMatches("outreach", Lower("applicant"))
      && !KeywordMatches("outreach", Lower("application"))
  {
    OutreachLacks("interview", 0);
    OutreachCannotStart("career");
    OutreachLacks("applicant", 1);
    OutreachLacks("application", 1);
  }

  /** No JA keyword occurs in "outreach". */
  lemma OutreachIsNotJobs()
    ensures !RuleMatches(IntentKeywords[1], "outreach")
  {
    OutreachJobsWords1();
    OutreachJobsWords2();
  }

  lemma OutreachTechWords1()
    ensures !KeywordMatches("outreach", Lower("wifi"))
      && !KeywordMatches("outreach", Lower("wi\U{2011}fi"))
      && !KeywordMatches("outreach", Lower("printer"))
      && !KeywordMatches("outreach", Lower("computer"))
  {
    OutreachLacks("wifi", 0);
    OutreachLacks("wi\U{2011}fi", 0);
    OutreachLacks("printer", 0);
    OutreachLacks("computer", 2);
  }

  lemma OutreachTechWords2()
    ensures !KeywordMatches("outreach", Lower("laptop"))
      && !KeywordMatches("outreach", Lower("phone"))
      && !KeywordMatches("outreach", Lower("software"))
      && !KeywordMatches("outreach", Lower("bug"))
  {
    OutreachLacks("laptop", 0);
    OutreachLacks("phone", 0);
    OutreachLacks("software", 0);
    OutreachLacks("bug", 0);
  }

  lemma OutreachTechWords3()
    ensures !KeywordMatches("outreach", Lower("error"))
      && !KeywordMatches("outreach", Lower("troubleshoot"))
      && !KeywordMatches("outreach", Lower("network"))
      && !KeywordMatches("outreach", Lower("router"))
  {
    OutreachCannotStart("error");
    OutreachLacks("troubleshoot", 4);
    OutreachLacks("network", 0);
    OutreachCannotStart("router");
  }

  /** No TA keyword occurs in "outreach". */
  lemma OutreachIsNotTech()
    ensures !RuleMatches(IntentKeywords[2], "outreach")
  {
    OutreachTechWords1();
    OutreachTechWords2();
    OutreachTechWords3();
  }

  /** Without an explicit prefix, the first matching entry decides. */
  lemma DetectFirstMatching(labels: LabelMap, goal: string, i: int)
    requires forall tok :: !PrefixForm(goal, tok)
    requires FirstMatching(IntentKeywords, Lower(goal), i)
    ensures DetectIntent(labels, goal) == IntentKeywords[i].code
  {
    DetectByKeywords(labels, goal);
  }

  /** "outreach" is itself an SA keyword. */
  lemma OutreachMatchesSales(goal: string)
    requires goal == "outreach"
    ensures RuleMatches(IntentKeywords[3], goal)
  {
    assert IntentKeywords[3].words[2] == goal;
    LowerOfLowercase(goal);
    assert OccursAt(goal, goal, 0) && IsBoundary(goal, 0) && IsBoundary(goal, |goal|);
    assert KeywordMatches(goal, Lower(goal));
  }

  /** "outreach" is first matched by the SA entry. */
  lemma OutreachFirstMatchesSales(goal: string)
    requires goal == "outreach"
    ensures FirstMatching(IntentKeywords, goal, 3)
  {
    OutreachMatchesSales(goal);
    forall j | 0 <= j < 3 ensures !RuleMatches(IntentKeywords[j], goal) {
      if j == 0 {
        OutreachIsNotPress();
      } else if j == 1 {
        OutreachIsNotJobs();
      } else {
        OutreachIsNotTech();
      }
    }
  }

  /** "outreach" is listed under SA and under CA; the table order makes it
      SA, whatever the label table. */
  lemma OutreachIsSales(labels: LabelMap, goal: string)
    requires goal == "outreach"
    ensures DetectIntent(labels, goal) == "SA"
  {
    LowerOfLowercase(goal);
    NoColonNoPrefix(goal);
    OutreachFirstMatchesSales(goal);
    SalesWhenFirst(labels, goal);
  }

  lemma SalesWhenFirst(labels: LabelMap, goal: string)
    requires forall tok :: !PrefixForm(goal, tok)
    requires FirstMatching(IntentKeywords, Lower(goal), 3)
    ensures DetectIntent(labels, goal) == "SA"
  {
    SalesRow();
    DetectFirstMatching(labels, goal, 3);
  }

  lemma SalesRow()
    ensures IntentKeywords[3].code == "SA"
  {
  }

  /** The colon of "press release: quarterly update" follows a five-letter
      word, so the goal has no explicit prefix. */
  lemma PressReleaseHasNoPrefix(goal: string)
    requires goal == "press release: quarterly update"
    ensures forall tok :: !PrefixForm(goal, tok)
  {
    SkipSpacesStopsAt(goal, 0, 0);
    LetterRunStopsAt(goal, 0, 5);
    assert PrefixToken(goal) == None;
    forall tok ensures !PrefixForm(goal, tok) {
      PrefixTokenExact(goal, tok);
    }
  }

  /** "press release: quarterly update" contains the first PA keyword. */
  lemma PressReleaseFirstMatchesPress(goal: string)
    requires goal == "press release: quarterly update"
    ensures FirstMatching(IntentKeywords, goal, 0)
  {
    var w := "press release";
    assert IntentKeywords[0].words[0] == w;
    LowerOfLowercase(w);
    assert ' ' in w;
    assert OccursAt(goal, w, 0);
  }

  /** "press release: quarterly update" has a colon but no explicit prefix,
      and its keywords make it PA, whatever the label table. */
  lemma PressReleaseIsPress(labels: LabelMap, goal: string)
    requires goal == "press release: quarterly update"
    ensures DetectIntent(labels, goal) == "PA"
  {
    PressReleaseHasNoPrefix(goal);
    LowerOfLowercase(goal);
    PressReleaseFirstMatchesPress(goal);
    DetectFirstMatching(labels, goal, 0);
  }
}
