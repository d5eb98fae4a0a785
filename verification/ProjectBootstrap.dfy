/** Names derived from a repository's directory name (core/project_bootstrap.py). */
module ProjectBootstrap {
  import opened Identifiers

  /** An ASCII letter or digit of a lower-cased name. */
  predicate IsWordChar(c: char) {
    'a' <= c <= 'z' || '0' <= c <= '9'
  }

  const DASH := '-'
  const UNDERSCORE := '_'

  /** Every character that is no ASCII letter or digit becomes the separator. */
  function Marked(name: string, sep: char): string {
    if name == "" then ""
    else
      var last := name[|name| - 1];
      Marked(name[..|name| - 1], sep) + [if IsWordChar(last) then last else sep]
  }

  /** Each run of separators becomes one. */
  function Collapse(s: string, sep: char): string {
    if s == "" then ""
    else if |s| >= 2 && s[0] == sep == s[1] then Collapse(s[1..], sep)
    else [s[0]] + Collapse(s[1..], sep)
  }

  function LStripSep(s: string, sep: char): string {
    if s != "" && s[0] == sep then LStripSep(s[1..], sep) else s
  }

  function RStripSep(s: string, sep: char): string {
    if s != "" && s[|s| - 1] == sep then RStripSep(s[..|s| - 1], sep) else s
  }

  function Sanitized(lowered: string, sep: char): string {
    RStripSep(LStripSep(Collapse(Marked(lowered, sep), sep), sep), sep)
  }

  method SanitizeRepoName(lowered: string, sep: char) returns (r: string)
    ensures r == Sanitized(lowered, sep)
  {
    var chars := "";
    for i := 0 to |lowered|
      invariant chars == Marked(lowered[..i], sep)
    {
      assert lowered[..i + 1][..i] == lowered[..i];
      chars := chars + [if IsWordChar(lowered[i]) then lowered[i] else sep];
    }
    assert lowered[..|lowered|] == lowered;
    return RStripSep(LStripSep(Collapse(chars, sep), sep), sep);
  }

  function FinalizeIdentifier(candidate: string, fallback: string): string {
    var cut := if |candidate| > 64 then candidate[..64] else candidate;
    var trimmed := RStripSep(LStripSep(cut, UNDERSCORE), UNDERSCORE);
    if trimmed != "" && IsIdentifier(trimmed) then trimmed else fallback
  }

  const ADAPTER_SUFFIX := "_adapter"

  function DeriveAdapterName(base: string): string {
    var candidate :=
      if |base| + |ADAPTER_SUFFIX| <= 64 then base + ADAPTER_SUFFIX
      else RStripSep(base[..64 - |ADAPTER_SUFFIX|], UNDERSCORE) + ADAPTER_SUFFIX;
    FinalizeIdentifier(candidate, "default_adapter")
  }

  datatype Identity = Identity(projectId: string, slug: string, adapterName: string)

  /** The name that identifiers are built on: never starting with a digit. */
  function Base(lowered: string): string {
    var s := Sanitized(lowered, UNDERSCORE);
    if s != "" && !('a' <= s[0] <= 'z') then "repo_" + s else s
  }

  function DeriveIdentity(lowered: string): Identity {
    var slugCandidate := Sanitized(lowered, DASH);
    var slug := if slugCandidate != "" && IsSlug(slugCandidate, DASH) then slugCandidate else "default-project";
    var base := Base(lowered);
    if base == "" then Identity("default_project", slug, "default_adapter")
    else Identity(FinalizeIdentifier(base, "default_project"), slug, DeriveAdapterName(base))
  }

  // ----- Words joined by single separators ---------------------------------------------------------

  /** Words of letters and digits, joined by single separators. */
  predicate IsSlug(s: string, sep: char) {
    && s != "" && IsWordChar(s[0]) && IsWordChar(s[|s| - 1])
    && (forall i | 0 <= i < |s| :: IsWordChar(s[i]) || s[i] == sep)
    && NoDoubles(s, sep)
  }

  predicate NoDoubles(s: string, sep: char) {
    forall i | 0 <= i < |s| - 1 :: s[i] != sep || s[i + 1] != sep
  }

  predicate OverAlphabet(s: string, sep: char) {
    forall i | 0 <= i < |s| :: IsWordChar(s[i]) || s[i] == sep
  }

  predicate HasWordChar(s: string) {
    exists i :: 0 <= i < |s| && IsWordChar(s[i])
  }

  /** The letters and digits, in order. */
  function WordChars(s: string): string {
    if s == "" then ""
    else
      var rest := WordChars(s[1..]);
      if IsWordChar(s[0]) then [s[0]] + rest else rest
  }

  lemma {:induction false} WordCharsConcat(s: string, t: string)
    ensures WordChars(s + t) == WordChars(s) + WordChars(t)
  {
    if s == "" {
      assert s + t == t;
    } else {
      assert (s + t)[1..] == s[1..] + t;
      WordCharsConcat(s[1..], t);
      assert [s[0]] + (WordChars(s[1..]) + WordChars(t)) == [s[0]] + WordChars(s[1..]) + WordChars(t);
    }
  }

  lemma {:induction false} MarkedFacts(name: string, sep: char)
    requires !IsWordChar(sep)
    ensures OverAlphabet(Marked(name, sep), sep) && WordChars(Marked(name, sep)) == WordChars(name)
  {
    if name != "" {
      var init, last := name[..|name| - 1], name[|name| - 1];
      MarkedFacts(init, sep);
      WordCharsConcat(init, [last]);
      WordCharsConcat(Marked(init, sep), [if IsWordChar(last) then last else sep]);
      assert name == init + [last];
    }
  }

  lemma {:induction false} CollapseFacts(s: string, sep: char)
    requires !IsWordChar(sep) && OverAlphabet(s, sep)
    ensures var c := Collapse(s, sep);
            && OverAlphabet(c, sep) && NoDoubles(c, sep) && WordChars(c) == WordChars(s)
            && (s == "" <==> c == "") && (s != "" ==> c[0] == s[0])
  {
    if s != "" {
      CollapseFacts(s[1..], sep);
      var rest := Collapse(s[1..], sep);
      if !(|s| >= 2 && s[0] == sep == s[1]) {
        assert ([s[0]] + rest)[1..] == rest;
      }
    }
  }

  lemma {:induction false} LStripFacts(s: string, sep: char)
    requires !IsWordChar(sep) && OverAlphabet(s, sep) && NoDoubles(s, sep)
    ensures var t := LStripSep(s, sep);
            OverAlphabet(t, sep) && NoDoubles(t, sep) && WordChars(t) == WordChars(s) && (t != "" ==> IsWordChar(t[0]))
  {
    if s != "" && s[0] == sep {
      LStripFacts(s[1..], sep);
    }
  }

  lemma {:induction false} RStripFacts(s: string, sep: char)
    requires !IsWordChar(sep) && OverAlphabet(s, sep) && NoDoubles(s, sep) && (s != "" ==> IsWordChar(s[0]))
    ensures var t := RStripSep(s, sep);
            WordChars(t) == WordChars(s) && t <= s && (t == "" <==> s == "") && (t != "" ==> IsSlug(t, sep))
  {
    if s != "" && s[|s| - 1] == sep {
      WordCharsConcat(s[..|s| - 1], [sep]);
      assert s == s[..|s| - 1] + [sep];
      RStripFacts(s[..|s| - 1], sep);
    }
  }

  /** A sanitised name is empty exactly if the name has no ASCII letter or digit; otherwise it
      is words joined by single separators, and it has lost none of the name's letters and digits. */
  lemma SanitizeTheorem(lowered: string, sep: char)
    requires !IsWordChar(sep)
    ensures var r := Sanitized(lowered, sep);
            && WordChars(r) == WordChars(lowered)
            && (r == "" <==> !HasWordChar(lowered))
            && (r != "" ==> IsSlug(r, sep))
  {
    MarkedFacts(lowered, sep);
    CollapseFacts(Marked(lowered, sep), sep);
    LStripFacts(Collapse(Marked(lowered, sep), sep), sep);
    RStripFacts(LStripSep(Collapse(Marked(lowered, sep), sep), sep), sep);
    NoWordChars(lowered);
    var r := Sanitized(lowered, sep);
    NoWordChars(r);
  }

  lemma {:induction false} NoWordChars(s: string)
    ensures WordChars(s) == "" <==> !HasWordChar(s)
  {
    if s != "" {
      NoWordChars(s[1..]);
      assert forall i | 1 <= i < |s| :: s[i] == s[1..][i - 1];
      assert forall i | 0 <= i < |s| - 1 :: s[1..][i] == s[i + 1];
    }
  }

  // ----- The words of a name ----------------------------------------------------------------------

  /** The longest runs of letters and digits, in order. */
  function Words(s: string): seq<string> {
    if s == "" then []
    else
      var rest := Words(s[1..]);
      if !IsWordChar(s[0]) then rest
      else if |s| == 1 || !IsWordChar(s[1]) || rest == [] then [[s[0]]] + rest
      else [[s[0]] + rest[0]] + rest[1..]
  }

  function Join(words: seq<string>, sep: char): string {
    if words == [] then ""
    else if |words| == 1 then words[0]
    else words[0] + [sep] + Join(words[1..], sep)
  }

  lemma {:induction false} WordsSame(s: string, t: string)
    requires |s| == |t|
    requires forall i | 0 <= i < |s| :: if IsWordChar(s[i]) then t[i] == s[i] else !IsWordChar(t[i])
    ensures Words(s) == Words(t)
  {
    if s != "" {
      WordsSame(s[1..], t[1..]);
    }
  }

  lemma {:induction false} MarkedAt(name: string, sep: char)
    requires !IsWordChar(sep)
    ensures |Marked(name, sep)| == |name|
    ensures forall i | 0 <= i < |name| :: Marked(name, sep)[i] == if IsWordChar(name[i]) then name[i] else sep
  {
    if name != "" {
      MarkedAt(name[..|name| - 1], sep);
    }
  }

  lemma {:induction false} WordsOfCollapsed(s: string, sep: char)
    requires !IsWordChar(sep) && OverAlphabet(s, sep)
    ensures Words(Collapse(s, sep)) == Words(s)
  {
    if s != "" {
      WordsOfCollapsed(s[1..], sep);
      CollapseFacts(s[1..], sep);
      CollapseFacts(s, sep);
      if !(|s| >= 2 && s[0] == sep == s[1]) {
        assert ([s[0]] + Collapse(s[1..], sep))[1..] == Collapse(s[1..], sep);
      }
    }
  }

  lemma {:induction false} WordsOfLStripped(s: string, sep: char)
    requires !IsWordChar(sep)
    ensures Words(LStripSep(s, sep)) == Words(s)
  {
    if s != "" && s[0] == sep {
      WordsOfLStripped(s[1..], sep);
    }
  }

  lemma {:induction false} WordsOfOneMore(s: string, sep: char)
    requires !IsWordChar(sep)
    ensures Words(s + [sep]) == Words(s)
  {
    if s != "" {
      WordsOfOneMore(s[1..], sep);
      assert (s + [sep])[1..] == s[1..] + [sep];
    }
  }

  lemma {:induction false} WordsOfRStripped(s: string, sep: char)
    requires !IsWordChar(sep)
    ensures Words(RStripSep(s, sep)) == Words(s)
  {
    if s != "" && s[|s| - 1] == sep {
      WordsOfRStripped(s[..|s| - 1], sep);
      WordsOfOneMore(s[..|s| - 1], sep);
      assert s == s[..|s| - 1] + [sep];
    }
  }

  /** A slug is its words with one separator between each two. */
  lemma {:induction false} SlugIsJoined(s: string, sep: char)
    requires !IsWordChar(sep) && IsSlug(s, sep)
    ensures Words(s) != [] && s == Join(Words(s), sep)
    ensures |s| >= 2 && IsWordChar(s[1]) ==> Words(s[1..]) != []
  {
    if |s| == 1 {
      assert s[1..] == "";
    } else if IsWordChar(s[1]) {
      assert IsSlug(s[1..], sep);
      SlugIsJoined(s[1..], sep);
      FirstWordGrows(s, sep);
    } else {
      assert s[1] == sep && |s| >= 3;
      assert IsSlug(s[2..], sep);
      SlugIsJoined(s[2..], sep);
      assert s[1..][1..] == s[2..];
      assert Words(s) == [[s[0]]] + Words(s[2..]);
      assert s == [s[0]] + [sep] + s[2..];
    }
  }

  lemma FirstWordGrows(s: string, sep: char)
    requires |s| >= 2 && IsWordChar(s[0]) && IsWordChar(s[1])
    requires Words(s[1..]) != [] && s[1..] == Join(Words(s[1..]), sep)
    ensures s == Join(Words(s), sep)
  {
    var rest := Words(s[1..]);
    assert Words(s) == [[s[0]] + rest[0]] + rest[1..];
    assert Words(s)[1..] == rest[1..];
    assert s == [s[0]] + s[1..];
    if |rest| > 1 {
      assert [s[0]] + (rest[0] + [sep] + Join(rest[1..], sep)) == [s[0]] + rest[0] + [sep] + Join(rest[1..], sep);
    }
  }

  /** A sanitised name is exactly the words of the name with one separator between each two. */
  lemma WordsTheorem(lowered: string, sep: char)
    requires !IsWordChar(sep)
    ensures Sanitized(lowered, sep) == Join(Words(lowered), sep)
  {
    var marked := Marked(lowered, sep);
    var collapsed := Collapse(marked, sep);
    MarkedAt(lowered, sep);
    WordsSame(lowered, marked);
    MarkedFacts(lowered, sep);
    WordsOfCollapsed(marked, sep);
    WordsOfLStripped(collapsed, sep);
    WordsOfRStripped(LStripSep(collapsed, sep), sep);
    SanitizeTheorem(lowered, sep);
    hide Marked, Collapse, LStripSep, RStripSep, WordChars, HasWordChar, IsSlug;
    var r := Sanitized(lowered, sep);
    if r == "" {
      assert Words(r) == [];
    } else {
      SlugIsJoined(r, sep);
    }
  }

  lemma {:induction false} RStripOfWord(s: string, sep: char)
    requires s != "" && s[0] != sep
    ensures RStripSep(s, sep) != "" && RStripSep(s, sep) <= s && RStripSep(s, sep)[|RStripSep(s, sep)| - 1] != sep
    ensures forall i | |RStripSep(s, sep)| <= i < |s| :: s[i] == sep
  {
    if s[|s| - 1] == sep {
      RStripOfWord(s[..|s| - 1], sep);
    }
  }

  /** The first n characters, or all if there are fewer, without the underscores at their end. */
  ghost predicate IsTrimmed(s: string, n: nat, r: string) {
    var cut := if |s| > n then s[..n] else s;
    r <= cut && (r == "" || r[|r| - 1] != '_') && forall i | |r| <= i < |cut| :: cut[i] == '_'
  }

  /** A candidate of identifier characters that starts with a letter is kept, up to a cut and
      to trailing underscores. */
  lemma FinalizeKeeps(candidate: string, fallback: string)
    requires candidate != "" && 'a' <= candidate[0] <= 'z' && OverAlphabet(candidate, UNDERSCORE)
    ensures var r := FinalizeIdentifier(candidate, fallback);
            IsIdentifier(r) && r != "" && r <= candidate
            && (|candidate| <= 64 && candidate[|candidate| - 1] != UNDERSCORE ==> r == candidate)
            && IsTrimmed(candidate, 64, r)
  {
    var cut := if |candidate| > 64 then candidate[..64] else candidate;
    RStripOfWord(cut, UNDERSCORE);
  }

  lemma BaseFacts(lowered: string)
    ensures var base := Base(lowered);
            && (base == "" <==> !HasWordChar(lowered))
            && (base != "" ==> 'a' <= base[0] <= 'z' && OverAlphabet(base, UNDERSCORE))
  {
    var s := Sanitized(lowered, UNDERSCORE);
    SanitizeTheorem(lowered, UNDERSCORE);
    hide Sanitized, HasWordChar, WordChars;
    if s != "" && !('a' <= s[0] <= 'z') {
      var base := "repo_" + s;
      forall i | 0 <= i < |base| ensures IsWordChar(base[i]) || base[i] == UNDERSCORE {
        assert i >= 5 ==> base[i] == s[i - 5];
      }
    }
  }

  /** The name's words joined by underscores, with a word of its own before a leading digit. */
  lemma BaseIsWords(lowered: string)
    ensures var words := Join(Words(lowered), '_');
            Base(lowered) == if words != "" && '0' <= words[0] <= '9' then "repo_" + words else words
  {
    WordsTheorem(lowered, '_');
    SanitizeTheorem(lowered, '_');
    hide Sanitized, Words, Join, HasWordChar, WordChars;
  }

  /** For every name: the slug, the project id and the adapter name are well formed, the ids
      within 64 characters. The fallbacks are taken for exactly the names without an ASCII letter
      or digit; any other project id is the name's base, cut and trimmed to 64 characters, and any
      other adapter name is the base, cut and trimmed if need be, with its suffix. */
  lemma IdentityTheorem(lowered: string)
    ensures var d, base := DeriveIdentity(lowered), Base(lowered);
            && IsSlug(d.slug, DASH) && IsIdentifier(d.projectId) && IsIdentifier(d.adapterName)
            && if !HasWordChar(lowered) then
                 d == Identity("default_project", "default-project", "default_adapter")
               else
                 && d.slug == Sanitized(lowered, DASH)
                 && d.projectId != "" && IsTrimmed(base, 64, d.projectId)
                 && exists t: string :: t != "" && IsAdapterStem(base, t) && d.adapterName == t + "_adapter"
  {
    hide Base, Sanitized, FinalizeIdentifier, DeriveAdapterName, IsSlug, IsIdentifier, OverAlphabet, WordChars,
      HasWordChar;
    FallbacksWellFormed();
    SanitizeTheorem(lowered, DASH);
    BaseFacts(lowered);
    var base := Base(lowered);
    if base != "" {
      FinalizeKeeps(base, "default_project");
      AdapterFacts(base);
    }
  }

  lemma FallbacksWellFormed()
    ensures IsSlug("default-project", DASH) && IsIdentifier("default_project") && IsIdentifier("default_adapter")
  {
  }

  /** All of the base if the suffix fits behind it, else what is left of its first 56 characters. */
  ghost predicate IsAdapterStem(base: string, t: string) {
    if |base| <= 56 then t == base else IsTrimmed(base, 56, t)
  }

  lemma AdapterFacts(base: string)
    requires base != "" && 'a' <= base[0] <= 'z' && OverAlphabet(base, UNDERSCORE)
    ensures IsIdentifier(DeriveAdapterName(base))
    ensures exists t: string :: t != "" && IsAdapterStem(base, t) && DeriveAdapterName(base) == t + "_adapter"
  {
    var t := base;
    if |base| + |ADAPTER_SUFFIX| > 64 {
      RStripOfWord(base[..64 - |ADAPTER_SUFFIX|], UNDERSCORE);
      t := RStripSep(base[..64 - |ADAPTER_SUFFIX|], UNDERSCORE);
    }
    FinalizeKeeps(t + ADAPTER_SUFFIX, "default_adapter");
  }
}
