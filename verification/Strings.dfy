/** The few operations of Python's `str` that the pipeline relies on. */
module Strings {

  /** The characters `str.strip()` removes: Python's `str.isspace`. */
  predicate IsSpace(c: char) {
    || '\t' <= c <= '\r'
    || '\U{1C}' <= c <= '\U{20}'
    || c == '\U{85}' || c == '\U{A0}' || c == '\U{1680}'
    || '\U{2000}' <= c <= '\U{200A}'
    || c == '\U{2028}' || c == '\U{2029}' || c == '\U{202F}' || c == '\U{205F}' || c == '\U{3000}'
  }

  function LStrip(s: string): string {
    if s != "" && IsSpace(s[0]) then LStrip(s[1..]) else s
  }

  function RStrip(s: string): string {
    if s != "" && IsSpace(s[|s| - 1]) then RStrip(s[..|s| - 1]) else s
  }

  function Strip(s: string): string {
    RStrip(LStrip(s))
  }

  /** `not s.strip()`: the source's test for an empty text. */
  predicate IsBlank(s: string) {
    Strip(s) == ""
  }

  predicate AllSpaces(s: string) {
    forall c | c in s :: IsSpace(c)
  }

  lemma {:induction false} RStripLast(s: string)
    ensures RStrip(s) != "" ==> !IsSpace(RStrip(s)[|RStrip(s)| - 1])
    ensures RStrip(s) == "" <==> AllSpaces(s)
    ensures RStrip(s) <= s
  {
    if s != "" && IsSpace(s[|s| - 1]) {
      RStripLast(s[..|s| - 1]);
      assert s == s[..|s| - 1] + [s[|s| - 1]];
    }
  }

  lemma {:induction false} LStripFirst(s: string)
    ensures LStrip(s) != "" ==> !IsSpace(LStrip(s)[0])
    ensures AllSpaces(LStrip(s)) <==> AllSpaces(s)
    ensures |LStrip(s)| <= |s| && LStrip(s) == s[|s| - |LStrip(s)|..]
  {
    if s != "" && IsSpace(s[0]) {
      LStripFirst(s[1..]);
      assert s == [s[0]] + s[1..];
    }
  }

  /** A text is blank exactly when it has no character other than whitespace. */
  lemma BlankIsAllSpaces(s: string)
    ensures IsBlank(s) <==> AllSpaces(s)
  {
    LStripFirst(s);
    RStripLast(LStrip(s));
  }

  /** Stripping around a core with solid ends strips only the surroundings. */
  lemma {:induction false} StripAround(prefix: string, core: string, suffix: string)
    requires core != "" && !IsSpace(core[0]) && !IsSpace(core[|core| - 1])
    ensures Strip(prefix + core + suffix) == LStrip(prefix) + core + RStrip(suffix)
  {
    LStripBefore(prefix, core + suffix);
    assert prefix + core + suffix == prefix + (core + suffix);
    assert LStrip(prefix) + (core + suffix) == (LStrip(prefix) + core) + suffix;
    RStripAfter(LStrip(prefix) + core, suffix);
  }

  lemma {:induction false} LStripBefore(prefix: string, rest: string)
    requires rest != "" && !IsSpace(rest[0])
    ensures LStrip(prefix + rest) == LStrip(prefix) + rest
  {
    if prefix == "" {
      assert prefix + rest == rest;
    } else if IsSpace(prefix[0]) {
      assert (prefix + rest)[1..] == prefix[1..] + rest;
      LStripBefore(prefix[1..], rest);
    }
  }

  lemma {:induction false} RStripAfter(rest: string, suffix: string)
    requires rest != "" && !IsSpace(rest[|rest| - 1])
    ensures RStrip(rest + suffix) == rest + RStrip(suffix)
  {
    var t := rest + suffix;
    if suffix == "" {
      assert t == rest;
    } else if IsSpace(suffix[|suffix| - 1]) {
      assert t[..|t| - 1] == rest + suffix[..|suffix| - 1];
      RStripAfter(rest, suffix[..|suffix| - 1]);
    }
  }
}
