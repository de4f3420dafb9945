# A model of the single-prompt web UI

The web UI (`webui/app.js`) is a one-page client for a hub of category
agents: IT, sales, press, farming, wildlife, church, jobs, arts and
recreation. The user types a goal. The page guesses the category from the
text, or from a `?intent=` query value or an explicit `xx:` prefix. It
sends the goal to the backend's `/run` endpoint and renders the structured
answer as HTML. When `/health` fails at start-up, the page switches to an
offline demo mode. In that mode, canned answers are generated locally,
keyed by category code.

This project models that client's logic as pure Dafny functions, methods
and lemmas:

- **Labels** (`labels.dfy`): the category label table (`AGENT_LABELS`) and
  JavaScript truthiness of its lookups. It also covers the `?intent=`
  override and the start-up merge of the server's agent list, including
  the `ARA` to `ArA` rename. The offline agent list is here too.
- **Chars** (`chars.dfy`): JavaScript white space, ASCII case mapping and
  `trim`.
- **RegExp** (`regexp.dfy`): `escapeRegExp`, plus the fragment of regular
  expressions the classifier builds from it. That fragment is literals
  between `\b` word boundaries, with their matching semantics.
- **Intent** (`intent.dfy`): the keyword table and the longest-first keyword
  order. It also holds `detectIntent` (prefix override, keyword scan, `TA`
  default) and `updateDetected`.
- **IntentExamples** (`intent_examples.dfy`): worked classifications that
  follow from the general lemmas.
- **Html** (`html.dfy`): `escapeHtml` and a decoder that inverts it.
- **Results** (`results.dfy`): the run-result records. It also holds
  `makeOfflineResult` and the ten handlers of `OfflineDemo.run` with their
  dispatch.
- **Render** (`render.dfy`): `showResultPretty` as a pure builder of the
  markup string.
- **ReadBack** (`readback.dfy`): readers that parse the generated markup
  back. Each reader proves that the values shown are exactly the values
  given, whatever characters they contain.
- **App** (`app.dfy`): `bootstrap` and the Run button's click handler, with
  the network replies passed in as parameters.

Two behaviours of the code are easy to misread, and the model follows the
code in both:

- With no keyword match, `detectIntent` returns `"TA"`
  (`webui/app.js:230`). The first table entry is `PA`, so the default is
  not the first category of the table.
- On a failed run, the error text is stored in `data.error`
  (`webui/app.js:373`). No branch of the renderer (`webui/app.js:263-321`)
  reads that field, so the error text is never displayed
  (`App.RejectedView`).

## Model

| member | source | states |
|---|---|---|
| Labels.UrlOverride | webui/app.js:204-208 | the query value is taken exactly when it is non-empty and names a category with a non-empty label; an empty value never overrides, whatever the table holds |
| Labels.UrlOverrideAsWritten | webui/app.js:204-208 | the override as written: it agrees with the intended one whenever that accepts, also accepts a name that finds an inherited member (no own key of that name), never accepts an empty value, and returns nothing but the query value |
| Labels.OwnKeyHidesInherited | webui/app.js:207 | an own `toString` key with an empty label hides the inherited member, so the as-written override refuses it |
| Labels.LabelOrAsWritten | webui/app.js:239 | the label lookup as written: the own label when truthy, the inherited member's text for a name that finds one, and otherwise the code |
| Labels.UrlOverrideAcceptsInheritedName | webui/app.js:207 | `?intent=toString` passes the as-written check but not the intended one |
| Labels.Collect | webui/app.js:346-347 | the map built from the agent list has exactly the mentioned codes except `__proto__` (assigning that name to a plain object stores no own key), and each stored code maps to the label of its last entry |
| Labels.RenamesAraExact | webui/app.js:348 | the rename happens exactly when the collected map has a truthy `ARA` label and no truthy `ArA` label |
| Labels.RenameAra | webui/app.js:348 | a truthy `ARA` label with no truthy `ArA` label moves to `ArA` and `ARA` disappears; otherwise the map is unchanged; every other key is kept |
| Labels.Merge | webui/app.js:344-349 | the merged table keeps every default key, gains only stored codes (or `ArA` by the rename), takes the last label the list gives a code, leaves defaults the list does not store alone, and has `__proto__` only if the defaults do |
| Labels.MergeIgnoresProtoCode | webui/app.js:346-347 | an agent list whose one entry has the code `__proto__` collects to the empty map and leaves the table unchanged |
| Labels.OfflineAgents | webui/app.js:31-33 | the offline agent list has one `{code, label}` entry per table entry, and exactly those |
| Labels.MergeOwnEntries | webui/app.js:344-349 | merging the table's own entries back into it (offline start-up) leaves the table unchanged |
| Chars.Trim | webui/app.js:359 | the trimmed goal is a middle part of the field value with only white space around it; it is empty exactly when the value is all white space, and otherwise it starts and ends with a non-space |
| RegExp.EscapeRegExp | webui/app.js:233 | every metacharacter gains exactly one backslash, and a string with no metacharacter is unchanged |
| RegExp.BoundedPattern | webui/app.js:225 | the escaped keyword between two `\b` parses back to the keyword's own literal characters between two boundaries, so no metacharacter keeps its meaning |
| RegExp.Test | webui/app.js:226 | `re.test` holds exactly when the pattern matches at some position of the text |
| RegExp.MatchBounded | webui/app.js:225-226 | the bounded pattern matches at a position exactly when the keyword occurs there with a word boundary on both sides |
| Intent.Includes | webui/app.js:223 | `text.includes(w)` holds exactly when `w` occurs at some index |
| Intent.KeywordHitMeaning | webui/app.js:222-227 | a keyword hits the lower-cased text exactly when a phrase with a space occurs anywhere, or a one-word keyword occurs with a boundary on both sides |
| Intent.ArtIsNotInArtist | webui/app.js:225-226 | the one-word keyword `art` does not match "artist" but does match "art show" |
| Intent.BoundariesAreEdges | webui/app.js:225 | for a keyword that starts and ends with a word character, the boundaries mean the characters just outside the occurrence are not word characters |
| Intent.SortByLength | webui/app.js:220 | the sorted keywords are a permutation of the entry's keywords, each at least as long as every later one |
| Intent.HitInMeaning | webui/app.js:221-228 | the inner loop returns exactly when some keyword of the list hits, whatever the order |
| Intent.SortNeverChangesHit | webui/app.js:220-221 | sorting by length never changes whether an entry hits |
| Intent.FirstHitMeaning | webui/app.js:219-229 | the scan returns the first table entry with a matching keyword, and nothing when no entry matches |
| Intent.PrefixTokenExact | webui/app.js:211 | the prefix token is found exactly when the goal is white space, two or three ASCII letters, white space and a colon, and it is those letters |
| Intent.DetectIntent | webui/app.js:210-231 | the detected code is always a category with a label or a code of the keyword table |
| Intent.DetectPrefixOverride | webui/app.js:211-214 | a prefix whose upper-cased token is a labelled code decides the category, whatever follows the colon |
| Intent.DetectAraPrefix | webui/app.js:211-215 | the prefix `ara` in any case gives `ArA` when `ARA` itself has no label |
| Intent.DetectByKeywords | webui/app.js:218-230 | without an honoured prefix, the first table entry with a matching keyword decides, and `TA` is the answer when none matches |
| Intent.UpdateDetected | webui/app.js:235-241 | the code is a labelled category or a table code, and the label shown is the code's label, or the code itself when it has no label |
| Intent.UrlOverridePrecedence | webui/app.js:236-237 | a non-empty query value naming a labelled category wins over the goal text; any other query value, the empty one included, is ignored |
| Intent.InheritedNameBecomesCode | webui/app.js:235-241 | as written, `?intent=toString` becomes the detected code, though it is neither a category nor a table code, and the label shown is the text of the inherited function |
| IntentExamples.EmptyGoalIsDefault | webui/app.js:230 | the empty goal is classified `TA` under any label table |
| IntentExamples.OutreachIsSales | webui/app.js:192-202 | "outreach" is listed under both SA and CA, and the table order makes it SA |
| IntentExamples.PressReleaseIsPress | webui/app.js:210-223 | "press release: quarterly update" has a colon but no two- or three-letter prefix, and it is classified PA |
| Html.EscapeHtml | webui/app.js:249-251 | the output is longer by 4, 3, 3 and 5 characters for each `&`, `<`, `>` and `"`; text without these is unchanged |
| Html.EscapedIsMarkupFree | webui/app.js:250 | escaped text contains no `<`, `>` or `"` |
| Html.UnescapeEscape | webui/app.js:249-251 | decoding the four entities recovers the input exactly, so escaping loses nothing |
| Html.EscapeValue | webui/app.js:250 | a null or undefined value escapes to the empty string; a string escapes as itself |
| Results.HandlerFor | webui/app.js:158 | each of the nine codes has its own handler; every other intent, `default` included, gets the default handler |
| Results.BaseGoal | webui/app.js:35 | the goal phrase is never empty and is the goal itself when that is non-empty |
| Results.TechHandler | webui/app.js:37-45 | a summary ending with the goal phrase, and data with three steps (the first mentioning the goal) and nothing else |
| Results.SalesHandler | webui/app.js:46-58 | a summary ending with the goal phrase; only a pitch, with a headline mentioning the goal, three value props and a call to action |
| Results.PressHandler | webui/app.js:59-71 | only a press release titled "Community Update: " and the goal, with a lead mentioning the goal and three bullet points |
| Results.FarmingHandler | webui/app.js:72-84 | only a plan, with a three-step crop rotation, a soil test and a note |
| Results.WildlifeHandler | webui/app.js:85-99 | only guidance, with two safety items, two contacts and a note |
| Results.ChurchHandler | webui/app.js:100-112 | only an outline, with an announcement mentioning the goal, a three-item schedule whose second item mentions it, and a note |
| Results.JobsHandler | webui/app.js:113-121 | only a three-item checklist whose second item mentions the goal |
| Results.ArtsHandler | webui/app.js:122-130 | only three steps, the first mentioning the goal |
| Results.RecreationHandler | webui/app.js:131-147 | only an itinerary, with a three-item half-day plan whose second item mentions the goal, three gear items and a note |
| Results.FallbackHandler | webui/app.js:148-156 | only three steps, the first mentioning the goal |
| Results.MakeOfflineResult | webui/app.js:17-28 | a success carrying the summary and data, with a receipt naming the intent, its label (or the intent itself) and the goal as given |
| Results.OfflineRun | webui/app.js:34-160 | always a success whose receipt names the intent, its label and the goal; its data fills exactly the section of the intent's handler; its summary ends with the goal phrase and a full stop |
| Render.FieldsOf | webui/app.js:255-260 | the header shows the receipt's label and goal when they are truthy, and otherwise the label on screen and the field's value; the summary falls back to empty |
| Render.Show | webui/app.js:253-254 | no response shows the text "No response yet." and every response shows markup |
| Render.SectionsOf | webui/app.js:263-321 | the sections emitted are exactly the present ones, in the template's fixed order, none twice |
| Render.SingleSection | webui/app.js:263-321 | data filling one section renders as that section alone |
| Render.NoSectionNoBody | webui/app.js:263-321 | data with no section present, such as a bare error, renders nothing after the header |
| ReadBack.ReadHeaderOf | webui/app.js:256-261 | the header reads back as exactly the four values it was built from, whatever they contain |
| ReadBack.ShowReadsBack | webui/app.js:253-261 | a shown response reads back as its status, summary, agent and goal, followed by the body |
| ReadBack.ReadListOf | webui/app.js:265 | a rendered list reads back as exactly its items, so an item cannot end its `<li>` early |
| ReadBack.ListSectionReadsBack | webui/app.js:264-266 | the checklist and next-steps sections read back as the data's items |
| ReadBack.StrongReadsBack | webui/app.js:301 | an emphasised line reads back as its text |
| ReadBack.PressTitleReadsBack | webui/app.js:272-276 | a press release opens with its title, or with "Community Update" when the title is missing or empty |
| ReadBack.PitchHeadlineReadsBack | webui/app.js:267-270 | a pitch opens with its headline, or with an empty line when there is none |
| App.Bootstrap | webui/app.js:326-356 | a failed health check means offline with the default table; online, the agent list is merged over the defaults and a failed call changes nothing; no default category is lost; the detection (code and label) is the one `updateDetected` computes for the final table, the query and the goal field |
| App.OfflineCodeIsCategory | webui/app.js:158 | with the default table and the corrected override, the detected code is always one of the nine categories, so the offline generator never needs the default handler |
| App.ShownNotEmpty | webui/app.js:239 | the label on screen is never empty |
| App.FailureRecord | webui/app.js:372-373 | a rejected run becomes a failure with summary "Request failed", the error or "Unknown error", no section, and the goal in the receipt |
| App.Click | webui/app.js:358-377 | a goal that is only white space does nothing else; otherwise the trimmed goal is classified, and the answer (offline result, backend body or failure record) is rendered with the detected label and the raw field value |
| App.RejectedView | webui/app.js:372-373 | a rejected run shows the failure header with the label on screen and the trimmed goal, and nothing below it |
| App.OfflineView | webui/app.js:253-321 | an offline run shows the success header with the code's label and the trimmed goal, then exactly the code's section |

## Left out

- Network I/O (`fetch`, HTTP status, JSON parsing) is not modelled. The
  outcome of each call is a parameter: whether `/health` answered, the
  agent list or nothing, and how `/run` settled.
- The DOM is not modelled: focus, `aria-invalid`, the busy spinner, status
  chips, the origin label, `innerHTML` versus `textContent`, the clear
  button and the `input` listener. The result area is a `View` value, and
  the detected code and label are a `Detected` value.
- The base URL (`Api.base`) is left out because it only affects where
  requests go.
- The text a JavaScript engine gives an inherited member, such as
  `function toString() { [native code] }`, depends on the engine. It is the
  parameter `memberText` of `Labels.LabelOrAsWritten`.
- Parsing `window.location.href` is left out. The `?intent=` value is
  passed in as an optional string.
- Asynchrony is left out. The model takes the goal field's value and the
  detected label at click time. In the page, the `input` listener
  (`webui/app.js:379-381`) can change both while the request awaited at
  `webui/app.js:370` is pending, and `showResultPretty` falls back to the
  values current when it runs (`webui/app.js:259-260`).
- `String.prototype.toLowerCase` and `toUpperCase` are modelled on ASCII
  letters only. Non-ASCII case mappings are left out. JavaScript strings
  are UTF-16 code units, while Dafny strings are Unicode scalar values;
  the two agree on the Basic Multilingual Plane.
- `Labels.Merge`: the order of keys (`Object.entries`) is not modelled,
  because maps are unordered. Agent list values other than strings are
  left out too.
- `Labels.UrlOverride`: inherited object members are excluded on purpose
  (see Findings). The as-written lookup is `Labels.UrlOverrideAsWritten`.
- `Results.OfflineRun`: the handlers' prose is not stated word for word.
  The contracts cover each answer's shape, sizes and mentions of the goal.
- Results.TechHandler and the other handler methods: each is stated by its
  shape, the counts of its items and where the goal is mentioned, not by
  its exact sentences.
- The offline handler lookup for an inherited name such as `toString`
  (`handlers[intent]` at `webui/app.js:158`, which finds
  `Object.prototype.toString`) is not modelled. As written, that case is
  reachable: offline with `?intent=toString`, the detected code is
  `toString` (`Intent.InheritedNameBecomesCode`). The model uses the
  corrected override, and only that rules the case out
  (`App.OfflineCodeIsCategory`).
- Showing that escaping leaves every table keyword unchanged is left out.
  Instead, `RegExp.BoundedPattern` proves that the escaped pattern matches
  the keyword literally, for every keyword.
- Response fields of the wrong JSON type are not modelled. For example, a
  `checklist` that is not an array is skipped by `Array.isArray`; here,
  optional list fields are either absent or sequences of strings.
- `data.error` is not rendered by `showResultPretty`, so no member renders
  it.

## Findings

| source | as written | input that shows it | evidently intended | confidence | as-written member | corrected member |
|---|---|---|---|---|---|---|
| webui/app.js:207 | `AGENT_LABELS[val]` is a property lookup, so names inherited from `Object.prototype` pass the check | the page opened with `?intent=toString` classifies every goal as `toString`, shows the function's text as the label, and sends `toString` to `/run` as the intent | only the table's own category codes override detection | medium, not executed | Labels.UrlOverrideAsWritten, Labels.UrlOverrideAcceptsInheritedName, Intent.UpdateDetectedAsWritten, Intent.InheritedNameBecomesCode | Labels.UrlOverride, Intent.UpdateDetected |
