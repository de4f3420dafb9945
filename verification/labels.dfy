/** The category label table (`AGENT_LABELS`): its default contents, lookups
    with JavaScript truthiness, the `?intent=` override and the merge of the
    server's agent list done at start-up. */
module Labels {
  import opened Wrappers

  /** Category code to display label. */
  type LabelMap = map<string, string>

  /** One entry of the agent list, `{code, label}`. */
  datatype Agent = Agent(code: string, labelText: string)

  const DefaultLabels: LabelMap := map[
    "TA" := "IT Agent", "SA" := "Sales Agent", "PA" := "Press Agent",
    "FA" := "Farming Agent", "WA" := "Wildlife Agent", "CA" := "Church Agent",
    "JA" := "Job Agent", "ArA" := "Arts Agent", "RA" := "Recreation Agent"]

  /** `AGENT_LABELS[code]` is truthy: an own key whose label is not empty. */
  predicate HasLabel(labels: LabelMap, code: string) {
    code in labels && labels[code] != ""
  }

  /** `AGENT_LABELS[code] || code`: the label shown for a code. */
  function LabelOr(labels: LabelMap, code: string): string {
    if HasLabel(labels, code) then labels[code] else code
  }

  /** `getUrlIntentOverride` given the extracted query value: the value when
      it names a labelled category, nothing otherwise. */
  function UrlOverride(labels: LabelMap, query: Option<string>): (r: Option<string>)
    ensures r.Some? ==> r == query
    ensures r.Some? <==> query.Some? && query.value != "" && HasLabel(labels, query.value)
  {
    if query.Some? && query.value != "" && HasLabel(labels, query.value) then query else None
  }

  /** Names every plain JavaScript object inherits from `Object.prototype`;
      an object lookup `obj[name]` finds a (truthy) member for each of them. */
  const InheritedNames: set<string> := {
    "constructor", "hasOwnProperty", "isPrototypeOf", "propertyIsEnumerable",
    "toLocaleString", "toString", "valueOf", "__proto__",
    "__defineGetter__", "__defineSetter__", "__lookupGetter__", "__lookupSetter__"}

  /** `AGENT_LABELS[name]` finds an inherited member: the name is no own key
      of the table and `Object.prototype` has a member of that name. An own
      key, even one with an empty label, hides the inherited member. */
  predicate FindsInherited(labels: LabelMap, name: string) {
    name !in labels && name in InheritedNames
  }

  /** `getUrlIntentOverride` as written: `AGENT_LABELS[val]` is a property
      lookup, so an inherited member name passes the truthiness test too. */
  function UrlOverrideAsWritten(labels: LabelMap, query: Option<string>): (r: Option<string>)
    ensures r.Some? ==> r == query && r.value != ""
    ensures r.Some? ==> HasLabel(labels, r.value) || FindsInherited(labels, r.value)
    ensures UrlOverride(labels, query).Some? ==> r == UrlOverride(labels, query)
    ensures query.Some? && FindsInherited(labels, query.value) ==> r == query
  {
    if query.Some? && query.value != "" && (HasLabel(labels, query.value) || FindsInherited(labels, query.value))
    then query else None
  }

  /** `AGENT_LABELS[code] || code` as written: for a code that finds an
      inherited member, the label is that member (an object, so truthy)
      converted to text, which the JavaScript engine decides and
      `memberText` stands for. */
  function LabelOrAsWritten(labels: LabelMap, code: string, memberText: string -> string): (r: string)
    ensures HasLabel(labels, code) ==> r == labels[code]
    ensures FindsInherited(labels, code) ==> r == memberText(code)
    ensures !HasLabel(labels, code) && !FindsInherited(labels, code) ==> r == code
  {
    if HasLabel(labels, code) then labels[code]
    else if FindsInherited(labels, code) then memberText(code)
    else code
  }

  /** The as-written override accepts `?intent=toString`, a name that is no
      category of the default table (nor of any table without that key). */
  lemma UrlOverrideAcceptsInheritedName(labels: LabelMap)
    requires "toString" !in labels
    ensures UrlOverrideAsWritten(labels, Some("toString")) == Some("toString")
    ensures UrlOverride(labels, Some("toString")) == None
  {
  }

  /** An own `toString` key with an empty label hides the inherited member:
      the lookup finds the falsy own label and the override is refused. */
  lemma OwnKeyHidesInherited(labels: LabelMap)
    ensures UrlOverrideAsWritten(labels["toString" := ""], Some("toString")) == None
  {
  }

  /** `i` is the last position of the list whose code is `k`. */
  predicate LastFor(list: seq<Agent>, k: string, i: int) {
    && 0 <= i < |list|
    && list[i].code == k
    && forall j :: i < j < |list| ==> list[j].code != k
  }

  predicate Mentions(list: seq<Agent>, k: string) {
    exists i :: 0 <= i < |list| && list[i].code == k
  }

  /** The one name a plain object `{}` does not store as an own key on
      assignment: `obj["__proto__"] = v` calls the inherited setter, which
      ignores a string. */
  const ProtoKey: string := "__proto__"

  /** The codes the loop stores: those the list mentions, except `__proto__`. */
  predicate Stores(list: seq<Agent>, k: string) {
    Mentions(list, k) && k != ProtoKey
  }

  /** The loop `for (const a of list) map[a.code] = a.label` (the field is
      `labelText` here): the keys are the codes the list mentions, except
      `__proto__`, and each maps to the label of its last entry. */
  function Collect(list: seq<Agent>): (m: LabelMap)
    ensures forall k :: k in m <==> Stores(list, k)
    ensures ProtoKey !in m
    ensures forall k, i :: LastFor(list, k, i) && k != ProtoKey ==> k in m && m[k] == list[i].labelText
    decreases |list|
  {
    if list == [] then map[]
    else
      var prev := Collect(list[..|list| - 1]);
      var a := list[|list| - 1];
      assert forall k, i :: LastFor(list, k, i) && k != a.code ==> LastFor(list[..|list| - 1], k, i);
      assert forall k :: Mentions(list[..|list| - 1], k) ==> Mentions(list, k);
      assert forall k :: Mentions(list, k) && k != a.code ==> Mentions(list[..|list| - 1], k);
      if a.code == ProtoKey then prev else prev[a.code := a.labelText]
  }

  /** The list's last label for `ARA` is truthy and its last label for `ArA`,
      if any, is not: the case in which the merge renames `ARA` to `ArA`. */
  ghost predicate RenamesAra(list: seq<Agent>) {
    && (exists i :: LastFor(list, "ARA", i) && list[i].labelText != "")
    && (forall i :: LastFor(list, "ArA", i) ==> list[i].labelText == "")
  }

  /** The start-up merge `AGENT_LABELS = {...AGENT_LABELS, ...map}` after the
      `ARA` to `ArA` rename. */
  function Merge(defaults: LabelMap, list: seq<Agent>): (r: LabelMap)
    // every default code is still a key, and nothing else becomes one
    ensures defaults.Keys <= r.Keys
    ensures forall k :: k in r ==> k in defaults || Stores(list, k) || (k == "ArA" && RenamesAra(list))
    // a code the list mentions takes its last label from the list
    ensures forall k, i :: LastFor(list, k, i) && k != "ARA" && k != "ArA" && k != ProtoKey ==>
      k in r && r[k] == list[i].labelText
    // a code the list does not store keeps its default label; `__proto__` never comes from the list
    ensures forall k :: k in defaults && k != "ArA" && !Stores(list, k) ==> r[k] == defaults[k]
    ensures ProtoKey in r <==> ProtoKey in defaults
    ensures !Mentions(list, "ArA") && !RenamesAra(list) && "ArA" in defaults ==> r["ArA"] == defaults["ArA"]
    // the rename: `ArA` takes the `ARA` label and `ARA` comes only from the defaults
    ensures RenamesAra(list) ==>
      && (forall i :: LastFor(list, "ARA", i) ==> "ArA" in r && r["ArA"] == list[i].labelText)
      && ("ARA" in r <==> "ARA" in defaults)
      && ("ARA" in defaults ==> r["ARA"] == defaults["ARA"])
    // without the rename both spellings behave like any other code
    ensures !RenamesAra(list) ==>
      && (forall i :: LastFor(list, "ARA", i) ==> "ARA" in r && r["ARA"] == list[i].labelText)
      && (forall i :: LastFor(list, "ArA", i) ==> "ArA" in r && r["ArA"] == list[i].labelText)
  {
    var m := Collect(list);
    RenamesAraExact(list);
    defaults + RenameAra(m)
  }

  /** An agent with the code `__proto__` leaves the table as it was: the
      assignment at start-up stores nothing for it. */
  lemma MergeIgnoresProtoCode(defaults: LabelMap, labelText: string)
    ensures Collect([Agent(ProtoKey, labelText)]) == map[]
    ensures Merge(defaults, [Agent(ProtoKey, labelText)]) == defaults
  {
  }

  /** The rename step `if (map["ARA"] && !map["ArA"]) { map["ArA"] = map["ARA"]; delete map["ARA"]; }`. */
  function RenameAra(m: LabelMap): (r: LabelMap)
    ensures HasLabel(m, "ARA") && !HasLabel(m, "ArA") ==>
      "ARA" !in r && "ArA" in r && r["ArA"] == m["ARA"] && r.Keys == m.Keys - {"ARA"} + {"ArA"}
    ensures !(HasLabel(m, "ARA") && !HasLabel(m, "ArA")) ==> r == m
    ensures forall k :: k in m && k != "ARA" && k != "ArA" ==> k in r && r[k] == m[k]
  {
    if HasLabel(m, "ARA") && !HasLabel(m, "ArA") then (m - {"ARA"})["ArA" := m["ARA"]] else m
  }

  /** `RenamesAra` is exactly the rename condition evaluated on the collected map. */
  lemma RenamesAraExact(list: seq<Agent>)
    ensures RenamesAra(list) <==> HasLabel(Collect(list), "ARA") && !HasLabel(Collect(list), "ArA")
  {
    var m := Collect(list);
    if HasLabel(m, "ARA") {
      var i := LastIndex(list, "ARA");
      assert LastFor(list, "ARA", i);
    }
    if Mentions(list, "ArA") {
      var i := LastIndex(list, "ArA");
      assert forall j :: LastFor(list, "ArA", j) ==> j == i;
    }
  }

  /** The last position of `k` in a list that mentions it. */
  function LastIndex(list: seq<Agent>, k: string): (i: nat)
    requires Mentions(list, k)
    ensures LastFor(list, k, i)
    decreases |list|
  {
    if list[|list| - 1].code == k then |list| - 1
    else
      assert Mentions(list[..|list| - 1], k);
      LastIndex(list[..|list| - 1], k)
  }

  /** The list lists exactly the entries of `labels`, each code once, as
      `Object.entries(AGENT_LABELS).map(...)` does. */
  ghost predicate ListsEntries(labels: LabelMap, list: seq<Agent>) {
    && (forall i :: 0 <= i < |list| ==> list[i].code in labels && labels[list[i].code] == list[i].labelText)
    && (forall k :: k in labels ==> Mentions(list, k))
    && (forall i, j :: 0 <= i < j < |list| ==> list[i].code != list[j].code)
  }

  /** `OfflineDemo.agents`: the entries of the label table as an agent list.
      The order of `Object.entries` (insertion order) is left open. */
  method OfflineAgents(labels: LabelMap) returns (list: seq<Agent>)
    ensures ListsEntries(labels, list)
    ensures |list| == |labels|
  {
    var keys := labels.Keys;
    list := [];
    while keys != {}
      invariant keys <= labels.Keys
      invariant forall i :: 0 <= i < |list| ==> list[i].code in labels && labels[list[i].code] == list[i].labelText
      invariant forall i :: 0 <= i < |list| ==> list[i].code !in keys
      invariant forall k :: k in labels ==> k in keys || Mentions(list, k)
      invariant forall i, j :: 0 <= i < j < |list| ==> list[i].code != list[j].code
      invariant |list| + |keys| == |labels|
      decreases keys
    {
      var k :| k in keys;
      var next := list + [Agent(k, labels[k])];
      assert next[|list|].code == k;
      assert forall k' :: Mentions(list, k') ==> Mentions(next, k') by {
        forall k' | Mentions(list, k') ensures Mentions(next, k') {
          var i :| 0 <= i < |list| && list[i].code == k';
          assert next[i].code == k';
        }
      }
      list := next;
      keys := keys - {k};
    }
  }

  /** Merging a table with its own entry list (the offline start-up path)
      changes nothing, provided the table has no truthy `ARA` label to rename. */
  lemma MergeOwnEntries(labels: LabelMap, list: seq<Agent>)
    requires ListsEntries(labels, list)
    requires !HasLabel(labels, "ARA")
    ensures Merge(labels, list) == labels
  {
    var r := Merge(labels, list);
    forall k | k in labels
      ensures k in r && r[k] == labels[k]
    {
      assert Mentions(list, k);
      var i := LastIndex(list, k);
      assert LastFor(list, k, i);
    }
    assert r.Keys == labels.Keys;
  }
}
