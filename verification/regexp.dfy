/** `escapeRegExp` and the fragment of JavaScript regular expressions the
    keyword classifier builds from it: literal characters (escaped where
    needed) and the `\b` word-boundary assertion. */
module RegExp {
  import opened Wrappers
  import opened Chars

  /** The characters `escapeRegExp` prefixes with a backslash: `.*+?^${}()|[]\`. */
  predicate IsMeta(c: char) {
    || c == '.' || c == '*' || c == '+' || c == '?' || c == '^' || c == '$'
    || c == '{' || c == '}' || c == '(' || c == ')' || c == '|' || c == '['
    || c == ']' || c == '\\'
  }

  function MetaCount(s: string): nat {
    if s == [] then 0 else (if IsMeta(s[0]) then 1 else 0) + MetaCount(s[1..])
  }

  function EscapeChar(c: char): string {
    if IsMeta(c) then ['\\', c] else [c]
  }

  /** `s.replace(/[.*+?^${}()|[\]\\]/g, "\\$&")`: one backslash before every
      metacharacter, every other character kept. */
  function EscapeRegExp(s: string): (r: string)
    ensures |r| == |s| + MetaCount(s)
    ensures (forall i :: 0 <= i < |s| ==> !IsMeta(s[i])) ==> r == s
  {
    if s == [] then [] else EscapeChar(s[0]) + EscapeRegExp(s[1..])
  }

  datatype Atom = WordBoundary | Lit(c: char)

  /** The atoms matching `w` literally, one per character. */
  function Lits(w: string): (r: seq<Atom>)
    ensures |r| == |w|
    ensures forall i :: 0 <= i < |w| ==> r[i] == Lit(w[i])
  {
    seq(|w|, i requires 0 <= i < |w| => Lit(w[i]))
  }

  lemma EscapeCons(w: string, tail: string)
    requires w != []
    ensures EscapeRegExp(w) + tail == EscapeChar(w[0]) + (EscapeRegExp(w[1..]) + tail)
  {
  }

  lemma ConsAssoc(a: Atom, x: seq<Atom>, y: seq<Atom>)
    ensures ([a] + x) + y == [a] + (x + y)
  {
  }

  lemma LitsCons(w: string)
    requires w != []
    ensures Lits(w) == [Lit(w[0])] + Lits(w[1..])
  {
  }

  function Prepend(a: Atom, rest: Option<seq<Atom>>): Option<seq<Atom>> {
    match rest
    case Some(atoms) => Some([a] + atoms)
    case None => None
  }

  /** Reads a pattern of the fragment: `\b`, a backslash before a
      metacharacter, or a character that is no metacharacter. Anything else
      (quantifiers, groups, classes, other escapes) is outside the fragment
      and answers `None`. */
  function Parse(p: string): Option<seq<Atom>>
    decreases |p|
  {
    if p == [] then Some([])
    else if p[0] == '\\' then
      if |p| == 1 then None
      else if p[1] == 'b' then Prepend(WordBoundary, Parse(p[2..]))
      else if IsMeta(p[1]) then Prepend(Lit(p[1]), Parse(p[2..]))
      else None
    else if IsMeta(p[0]) then None
    else Prepend(Lit(p[0]), Parse(p[1..]))
  }

  /** One escaped character reads back as that character, taken literally. */
  lemma ParseEscapedChar(c: char, rest: string)
    ensures Parse(EscapeChar(c) + rest) == Prepend(Lit(c), Parse(rest))
  {
    var p := EscapeChar(c) + rest;
    if IsMeta(c) {
      assert p[0] == '\\' && p[1] == c && p[2..] == rest;
    } else {
      assert p[0] == c && p[1..] == rest;
    }
  }

  /** Escaping is undone by parsing: whatever follows, the escaped text reads
      back as its characters taken literally. */
  lemma {:induction false} ParseEscaped(w: string, tail: string)
    ensures Parse(tail).Some? ==> Parse(EscapeRegExp(w) + tail) == Some(Lits(w) + Parse(tail).value)
    ensures Parse(tail).None? ==> Parse(EscapeRegExp(w) + tail).None?
    decreases |w|
  {
    if w == [] {
      assert EscapeRegExp(w) + tail == tail;
      assert Lits(w) == [];
      if Parse(tail).Some? {
        assert Lits(w) + Parse(tail).value == Parse(tail).value;
      }
    } else {
      ParseEscaped(w[1..], tail);
      var rest := EscapeRegExp(w[1..]) + tail;
      EscapeCons(w, tail);
      ParseEscapedChar(w[0], rest);
      LitsCons(w);
      if Parse(tail).Some? {
        ConsAssoc(Lit(w[0]), Lits(w[1..]), Parse(tail).value);
      }
    }
  }

  /** The pattern `\b<escaped w>\b` the classifier builds for a one-word
      keyword always parses, and means "`w` between two word boundaries". */
  lemma BoundedPattern(w: string)
    ensures Parse("\\b" + EscapeRegExp(w) + "\\b") == Some([WordBoundary] + Lits(w) + [WordBoundary])
  {
    var e := EscapeRegExp(w);
    var b := "\\b";
    assert b[0] == '\\' && b[1] == 'b' && b[2..] == [];
    assert Parse(b[2..]) == Some([]);
    assert Parse(b) == Prepend(WordBoundary, Some([]));
    assert [WordBoundary] + [] == [WordBoundary];
    ParseEscaped(w, b);
    var p := b + e + b;
    assert p[0] == '\\' && p[1] == 'b' && p[2..] == e + b;
    assert Parse(p) == Prepend(WordBoundary, Parse(e + b));
    assert [WordBoundary] + (Lits(w) + [WordBoundary]) == [WordBoundary] + Lits(w) + [WordBoundary];
  }

  /** The character at `k` exists and is a word character. */
  predicate WordAt(text: string, k: int) {
    0 <= k < |text| && IsWordChar(text[k])
  }

  /** `\b` at position `pos`: exactly one side is a word character. */
  predicate IsBoundary(text: string, pos: int) {
    WordAt(text, pos - 1) != WordAt(text, pos)
  }

  /** The atoms match `text` starting at `pos`. */
  function MatchAt(atoms: seq<Atom>, text: string, pos: nat): bool
    requires pos <= |text|
    decreases |atoms|
  {
    if atoms == [] then true
    else match atoms[0]
      case WordBoundary => IsBoundary(text, pos) && MatchAt(atoms[1..], text, pos)
      case Lit(c) => pos < |text| && text[pos] == c && MatchAt(atoms[1..], text, pos + 1)
  }

  /** `re.test(text)` (no flags): a match starts at some position. */
  function Test(atoms: seq<Atom>, text: string): (r: bool)
    ensures r ==> exists pos: nat :: pos <= |text| && MatchAt(atoms, text, pos)
    ensures (exists pos: nat :: pos <= |text| && MatchAt(atoms, text, pos)) ==> r
  {
    SearchFrom(atoms, text, 0)
  }

  function SearchFrom(atoms: seq<Atom>, text: string, from: nat): (r: bool)
    requires from <= |text|
    ensures r ==> exists pos: nat :: from <= pos <= |text| && MatchAt(atoms, text, pos)
    ensures (exists pos: nat :: from <= pos <= |text| && MatchAt(atoms, text, pos)) ==> r
    decreases |text| - from
  {
    if MatchAt(atoms, text, from) then true
    else if from == |text| then false
    else SearchFrom(atoms, text, from + 1)
  }

  /** `w` occurs in `text` at index `i`. */
  predicate OccursAt(text: string, w: string, i: int) {
    0 <= i && i + |w| <= |text| && text[i..i + |w|] == w
  }

  /** Literal atoms consume exactly the characters of `w`. */
  lemma {:induction false} MatchLits(w: string, tail: seq<Atom>, text: string, pos: nat)
    requires pos <= |text|
    ensures MatchAt(Lits(w) + tail, text, pos) <==>
      OccursAt(text, w, pos) && MatchAt(tail, text, pos + |w|)
    decreases |w|
  {
    if w == [] {
      assert Lits(w) + tail == tail;
    } else {
      var atoms := Lits(w) + tail;
      assert atoms[0] == Lit(w[0]);
      assert atoms[1..] == Lits(w[1..]) + tail;
      if pos < |text| && text[pos] == w[0] {
        MatchLits(w[1..], tail, text, pos + 1);
        if OccursAt(text, w[1..], pos + 1) {
          assert text[pos..pos + |w|] == [text[pos]] + text[pos + 1..pos + 1 + |w[1..]|];
          assert w == [w[0]] + w[1..];
        }
        if OccursAt(text, w, pos) {
          assert text[pos + 1..pos + 1 + |w[1..]|] == text[pos..pos + |w|][1..];
        }
      }
    }
  }

  /** The bounded pattern matches at `pos` exactly when `w` occurs there
      with a word boundary on each side. */
  lemma MatchBounded(w: string, text: string, pos: nat)
    requires pos <= |text|
    ensures MatchAt([WordBoundary] + Lits(w) + [WordBoundary], text, pos) <==>
      OccursAt(text, w, pos) && IsBoundary(text, pos) && IsBoundary(text, pos + |w|)
  {
    var atoms := [WordBoundary] + Lits(w) + [WordBoundary];
    assert atoms[1..] == Lits(w) + [WordBoundary];
    MatchLits(w, [WordBoundary], text, pos);
    if OccursAt(text, w, pos) {
      assert [WordBoundary][1..] == [];
    }
  }
}
