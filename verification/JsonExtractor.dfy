/** Extraction of a JSON object from prose (core/json_extractor.py). The decoder
    `json.loads` and the fence pattern are oracles; the brace scan is modelled in full. */
module JsonExtractor {
  import opened Wrappers
  import opened Strings

  // ----- The scan -------------------------------------------------------------------------------

  /** Where in the text the scan is: outside string literals, inside one, or right after a
      backslash inside one. */
  datatype Mode = Outside | Inside | Escaped

  /** The mode after one more character. */
  function After(mode: Mode, c: char): Mode {
    match mode
    case Escaped => Inside
    case Inside => if c == '\\' then Escaped else if c == '"' then Outside else Inside
    case Outside => if c == '"' then Inside else Outside
  }

  /** The mode after a text that starts outside string literals. */
  function ModeOf(text: string): Mode {
    if text == "" then Outside else After(ModeOf(text[..|text| - 1]), text[|text| - 1])
  }

  /** Opening minus closing braces of a text, not counting those in string literals. */
  function Depth(text: string): int {
    if text == "" then 0
    else
      var init, c := text[..|text| - 1], text[|text| - 1];
      Depth(init) +
      (if ModeOf(init) != Outside then 0 else if c == '{' then 1 else if c == '}' then -1 else 0)
  }

  /** The text up to n closes every brace it opens, outside string literals. */
  predicate Balances(text: string, n: nat) {
    0 < n <= |text| && Depth(text[..n]) == 0
  }

  /** `text.find(c)`: the first position of a character. */
  function Find(text: string, c: char): (r: Option<nat>)
    ensures match r
            case None => c !in text
            case Some(i) => i < |text| && text[i] == c && forall j | 0 <= j < i :: text[j] != c
  {
    if text == "" then None
    else if text[0] == c then Some(0)
    else
      assert forall d | d in text :: d == text[0] || d in text[1..];
      match Find(text[1..], c)
      case None => None
      case Some(i) => Some(i + 1)
  }

  /** The candidate of the brace scan: the shortest text from the first opening brace whose
      braces balance; there is none when there is no brace or none ever balances. */
  ghost predicate IsCandidate(text: string, candidate: Option<string>) {
    match Find(text, '{')
    case None => candidate == None
    case Some(start) =>
      match candidate
      case None => forall n: nat :: !Balances(text[start..], n)
      case Some(c) =>
        && c <= text[start..] && Balances(text[start..], |c|)
        && forall n: nat | n < |c| :: !Balances(text[start..], n)
  }

  lemma CandidateUnique(text: string, c: Option<string>, d: Option<string>)
    requires IsCandidate(text, c) && IsCandidate(text, d)
    ensures c == d
  {
    if Find(text, '{').Some? {
      var rest := text[Find(text, '{').value..];
      assert c.Some? ==> Balances(rest, |c.value|);
      assert d.Some? ==> Balances(rest, |d.value|);
      if c.Some? && d.Some? {
        assert |c.value| == |d.value|;
        assert c.value == rest[..|c.value|] && d.value == rest[..|d.value|];
      }
    }
  }

  /** _extract_by_brace_scan, up to the point where the candidate is handed to the decoder. */
  method BraceScan(text: string) returns (candidate: Option<string>)
    ensures IsCandidate(text, candidate)
  {
    var start := Find(text, '{');
    if start.None? {
      return None;
    }
    ghost var rest := text[start.value..];
    var depth := 0;
    var inString := false;
    var escapeNext := false;
    for i := start.value to |text|
      invariant ModeOf(rest[..i - start.value]) ==
                (if escapeNext then Escaped else if inString then Inside else Outside)
      invariant escapeNext ==> inString
      invariant depth == Depth(rest[..i - start.value])
      invariant i > start.value ==> depth > 0
      invariant forall n: nat | n <= i - start.value :: !Balances(rest, n)
    {
      var c := text[i];
      ghost var k := i - start.value;
      assert rest[..k + 1][..k] == rest[..k] && rest[..k + 1][k] == c;
      if escapeNext {
        escapeNext := false;
        continue;
      }
      if c == '\\' && inString {
        escapeNext := true;
        continue;
      }
      if c == '"' {
        inString := !inString;
        continue;
      }
      if inString {
        continue;
      }
      if c == '{' {
        depth := depth + 1;
      } else if c == '}' {
        depth := depth - 1;
        if depth == 0 {
          assert text[start.value..i + 1] == rest[..k + 1];
          return Some(text[start.value..i + 1]);
        }
      }
    }
    assert rest[..|rest|] == rest;
    return None;
  }

  // ----- JSON texts -----------------------------------------------------------------------------

  /** One character of a string literal (RFC 8259, section 7): unescaped, an escaped single
      character, or a four-digit code. */
  datatype StrChar = Plain(c: char) | Escape(c: char) | Unicode(digits: string)

  /** The shape of a JSON text (RFC 8259): scalars that are not strings by their own text,
      and white space as written - `ws` precedes an element and `end` a closing bracket. */
  datatype Value =
    | Scalar(text: string)
    | Str(chars: seq<StrChar>)
    | Arr(items: seq<Item>, end: string)
    | Obj(members: seq<Member>, end: string)

  datatype Item = Item(before: string, value: Value, after: string)

  datatype Member = Member(before: string, name: seq<StrChar>, middle: string, between: string, value: Value,
                           after: string)

  /** No quotation mark and no brace: true of white space, numbers, true, false and null. */
  predicate Neutral(text: string) {
    forall i | 0 <= i < |text| :: text[i] != '"' && text[i] != '{' && text[i] != '}'
  }

  predicate ValidChar(c: StrChar) {
    match c
    case Plain(c) => c != '"' && c != '\\'
    case Escape(c) => true
    case Unicode(digits) => |digits| == 4 && forall i | 0 <= i < 4 :: digits[i] != '"' && digits[i] != '\\'
  }

  predicate ValidString(chars: seq<StrChar>) {
    forall c | c in chars :: ValidChar(c)
  }

  predicate ValidValue(v: Value) {
    match v
    case Scalar(text) => Neutral(text)
    case Str(chars) => ValidString(chars)
    case Arr(items, end) =>
      Neutral(end) && forall i | i in items :: Neutral(i.before) && ValidValue(i.value) && Neutral(i.after)
    case Obj(members, end) =>
      Neutral(end) && forall m | m in members :: ValidMember(m)
  }

  predicate ValidMember(m: Member) {
    Neutral(m.before) && ValidString(m.name) && Neutral(m.middle) && Neutral(m.between) && ValidValue(m.value)
        && Neutral(m.after)
  }

  function PrintChar(c: StrChar): string {
    match c
    case Plain(c) => [c]
    case Escape(c) => ['\\', c]
    case Unicode(digits) => ['\\', 'u'] + digits
  }

  function PrintChars(chars: seq<StrChar>): string {
    if chars == [] then "" else PrintChars(chars[..|chars| - 1]) + PrintChar(chars[|chars| - 1])
  }

  function PrintString(chars: seq<StrChar>): string {
    "\"" + PrintChars(chars) + "\""
  }

  /** The text of a value. */
  function Print(v: Value): string {
    match v
    case Scalar(text) => text
    case Str(chars) => PrintString(chars)
    case Arr(items, end) => "[" + PrintItems(items) + end + "]"
    case Obj(members, end) => "{" + PrintMembers(members) + end + "}"
  }

  function PrintItems(items: seq<Item>): string {
    if items == [] then ""
    else
      var last := items[|items| - 1];
      PrintItems(items[..|items| - 1]) + (if |items| == 1 then "" else ",") + last.before + Print(last.value) +
          last.after
  }

  function PrintMembers(members: seq<Member>): string {
    if members == [] then ""
    else
      var last := members[|members| - 1];
      PrintMembers(members[..|members| - 1]) + (if |members| == 1 then "" else ",") + PrintMember(last)
  }

  function PrintMember(m: Member): string {
    m.before + PrintString(m.name) + m.middle + ":" + m.between + Print(m.value) + m.after
  }

  // ----- What the scan makes of a printed value -----------------------------------------------------

  lemma OneMoreChar(text: string, c: char)
    ensures ModeOf(text + [c]) == After(ModeOf(text), c)
    ensures Depth(text + [c]) == Depth(text) +
              (if ModeOf(text) != Outside then 0 else if c == '{' then 1 else if c == '}' then -1 else 0)
  {
    assert (text + [c])[..|text|] == text;
  }

  /** After a text that ends outside string literals the scan starts afresh. */
  lemma {:induction false} Afresh(a: string, b: string)
    requires ModeOf(a) == Outside
    ensures ModeOf(a + b) == ModeOf(b)
    ensures Depth(a + b) == Depth(a) + Depth(b)
  {
    if b == "" {
      assert a + b == a;
    } else {
      var init, c := b[..|b| - 1], b[|b| - 1];
      Afresh(a, init);
      assert a + b == a + init + [c] && b == init + [c];
      OneMoreChar(a + init, c);
      OneMoreChar(init, c);
    }
  }

  /** A text that opens no string literal and no brace without closing it, and never closes
      more than it opened. */
  ghost predicate Quiet(text: string) {
    && ModeOf(text) == Outside && Depth(text) == 0
    && forall n: nat | n <= |text| :: Depth(text[..n]) >= 0
  }

  lemma QuietConcat(a: string, b: string)
    requires Quiet(a) && Quiet(b)
    ensures Quiet(a + b)
  {
    Afresh(a, b);
    forall n: nat | n <= |a + b| ensures Depth((a + b)[..n]) >= 0 {
      if n <= |a| {
        assert (a + b)[..n] == a[..n];
      } else {
        assert (a + b)[..n] == a + b[..n - |a|];
        Afresh(a, b[..n - |a|]);
      }
    }
  }

  lemma {:induction false} NeutralQuiet(text: string)
    requires Neutral(text)
    ensures Quiet(text)
  {
    if text == "" {
      assert text[..0] == "";
    } else {
      var init, c := text[..|text| - 1], text[|text| - 1];
      assert text == init + [c];
      NeutralQuiet(init);
      OneMoreChar(init, c);
      forall n: nat | n <= |text| ensures Depth(text[..n]) >= 0 {
        if n < |text| {
          assert text[..n] == init[..n];
        } else {
          assert text[..n] == text;
        }
      }
    }
  }

  /** From its second character on, the scan of this text stays inside one string literal. */
  ghost predicate InLiteral(text: string) {
    text != "" && forall n: nat | 1 <= n <= |text| :: ModeOf(text[..n]) != Outside && Depth(text[..n]) == 0
  }

  lemma LiteralGoesOn(text: string, c: char)
    requires InLiteral(text) && After(ModeOf(text), c) != Outside
    ensures InLiteral(text + [c]) && ModeOf(text + [c]) == After(ModeOf(text), c)
  {
    var longer := text + [c];
    assert text[..|text|] == text && longer[..|longer|] == longer;
    OneMoreChar(text, c);
    forall n: nat | 1 <= n <= |longer| ensures ModeOf(longer[..n]) != Outside && Depth(longer[..n]) == 0 {
      if n <= |text| {
        assert longer[..n] == text[..n];
      }
    }
  }

  lemma DigitsGoOn(text: string, digits: string)
    requires InLiteral(text) && ModeOf(text) == Inside
    requires |digits| == 4 && forall i | 0 <= i < 4 :: digits[i] != '"' && digits[i] != '\\'
    ensures InLiteral(text + digits) && ModeOf(text + digits) == Inside
  {
    LiteralGoesOn(text, digits[0]);
    LiteralGoesOn(text + [digits[0]], digits[1]);
    LiteralGoesOn(text + [digits[0]] + [digits[1]], digits[2]);
    LiteralGoesOn(text + [digits[0]] + [digits[1]] + [digits[2]], digits[3]);
    assert text + digits == text + [digits[0]] + [digits[1]] + [digits[2]] + [digits[3]];
  }

  /** A printed character, escaped or not, never ends the literal it stands in. */
  lemma CharGoesOn(text: string, c: StrChar)
    requires InLiteral(text) && ModeOf(text) == Inside && ValidChar(c)
    ensures InLiteral(text + PrintChar(c)) && ModeOf(text + PrintChar(c)) == Inside
  {
    match c
    case Plain(x) => LiteralGoesOn(text, x);
    case Escape(x) =>
      LiteralGoesOn(text, '\\');
      LiteralGoesOn(text + ['\\'], x);
      assert text + ['\\', x] == text + ['\\'] + [x];
    case Unicode(digits) =>
      LiteralGoesOn(text, '\\');
      LiteralGoesOn(text + ['\\'], 'u');
      DigitsGoOn(text + ['\\'] + ['u'], digits);
      assert text + (['\\', 'u'] + digits) == text + ['\\'] + ['u'] + digits;
  }

  lemma QuoteOpens()
    ensures InLiteral("\"") && ModeOf("\"") == Inside
  {
    OneMoreChar("", '"');
    assert "" + ['"'] == "\"";
    assert ("\"")[..1] == "\"";
  }

  lemma LastChar(chars: seq<StrChar>)
    requires chars != []
    ensures "\"" + PrintChars(chars) == "\"" + PrintChars(chars[..|chars| - 1]) + PrintChar(chars[|chars| - 1])
  {
    var a, b := PrintChars(chars[..|chars| - 1]), PrintChar(chars[|chars| - 1]);
    hide PrintChar;
    assert "\"" + (a + b) == "\"" + a + b;
  }

  lemma {:induction false} CharsGoOn(chars: seq<StrChar>)
    requires ValidString(chars)
    ensures InLiteral("\"" + PrintChars(chars)) && ModeOf("\"" + PrintChars(chars)) == Inside
  {
    if chars == [] {
      QuoteOpens();
      assert "\"" + PrintChars(chars) == "\"";
    } else {
      var init, c := chars[..|chars| - 1], chars[|chars| - 1];
      CharsGoOn(init);
      CharGoesOn("\"" + PrintChars(init), c);
      LastChar(chars);
      hide InLiteral, ModeOf, PrintChar, PrintChars;
    }
  }

  lemma StringQuiet(chars: seq<StrChar>)
    requires ValidString(chars)
    ensures Quiet(PrintString(chars))
  {
    var open := "\"" + PrintChars(chars);
    CharsGoOn(chars);
    assert open[..|open|] == open;
    OneMoreChar(open, '"');
    var text := open + ['"'];
    assert PrintString(chars) == text;
    forall n: nat | n <= |text| ensures Depth(text[..n]) >= 0 {
      if n == |text| {
        assert text[..n] == text;
      } else if n >= 1 {
        assert text[..n] == open[..n];
      }
    }
  }

  /** Braces around a quiet text stay open until the very last character. */
  lemma Braced(inner: string)
    requires Quiet(inner)
    ensures var text := "{" + inner + "}";
            && Quiet(text)
            && forall n: nat | 0 < n < |text| :: Depth(text[..n]) >= 1
  {
    var text := "{" + inner + "}";
    OneMoreChar("", '{');
    assert "" + ['{'] == "{";
    Afresh("{", inner);
    OneMoreChar("{" + inner, '}');
    assert "{" + inner + ['}'] == text;
    forall n: nat | 0 < n < |text| ensures Depth(text[..n]) >= 1 {
      assert text[..n] == "{" + inner[..n - 1];
      Afresh("{", inner[..n - 1]);
    }
    forall n: nat | n <= |text| ensures Depth(text[..n]) >= 0 {
      if n == |text| {
        assert text[..n] == text;
      }
    }
  }

  lemma Quiet3(a: string, b: string, c: string)
    requires Quiet(a) && Quiet(b) && Quiet(c)
    ensures Quiet(a + b + c)
  {
    QuietConcat(a, b);
    QuietConcat(a + b, c);
  }

  /** Every printed value is quiet, however its strings are escaped and spaced. */
  lemma {:induction false} ValueQuiet(v: Value)
    requires ValidValue(v)
    ensures Quiet(Print(v))
    decreases v, 1
  {
    match v
    case Scalar(text) => NeutralQuiet(text);
    case Str(chars) => StringQuiet(chars);
    case Arr(_, _) => ArrayQuiet(v);
    case Obj(members, end) =>
      ObjectInner(v);
      Braced(PrintMembers(members) + end);
      ObjectText(v);
      hide Quiet, ModeOf, Depth, PrintMembers;
  }

  lemma ObjectText(v: Value)
    requires v.Obj?
    ensures Print(v) == "{" + (PrintMembers(v.members) + v.end) + "}"
  {
  }

  lemma {:induction false} ArrayQuiet(v: Value)
    requires v.Arr? && ValidValue(v)
    ensures Quiet(Print(v))
    decreases v, 0
  {
    NeutralQuiet("[");
    NeutralQuiet("]");
    NeutralQuiet(v.end);
    ItemsQuiet(v, v.items);
    Quiet3("[", PrintItems(v.items), v.end);
    QuietConcat("[" + PrintItems(v.items) + v.end, "]");
    hide Quiet, PrintItems;
  }

  lemma {:induction false} ObjectInner(v: Value)
    requires v.Obj? && ValidValue(v)
    ensures Quiet(PrintMembers(v.members) + v.end)
    decreases v, 0
  {
    MembersQuiet(v, v.members);
    NeutralQuiet(v.end);
    QuietConcat(PrintMembers(v.members), v.end);
  }

  lemma {:induction false} ItemsQuiet(v: Value, items: seq<Item>)
    requires v.Arr? && items <= v.items && ValidValue(v)
    ensures Quiet(PrintItems(items))
    decreases v, 0, |items|
  {
    NeutralQuiet("");
    if items != [] {
      var init, last := items[..|items| - 1], items[|items| - 1];
      ItemsQuiet(v, init);
      assert last == v.items[|items| - 1] && last in v.items;
      var comma := if |items| == 1 then "" else ",";
      NeutralQuiet(",");
      NeutralQuiet(last.before);
      NeutralQuiet(last.after);
      ValueQuiet(last.value);
      Quiet3(PrintItems(init), comma, last.before);
      Quiet3(PrintItems(init) + comma + last.before, Print(last.value), last.after);
    }
  }

  lemma {:induction false} MembersQuiet(v: Value, members: seq<Member>)
    requires v.Obj? && members <= v.members && ValidValue(v)
    ensures Quiet(PrintMembers(members))
    decreases v, 0, |members|
  {
    NeutralQuiet("");
    if members != [] {
      var init, m := members[..|members| - 1], members[|members| - 1];
      MembersQuiet(v, init);
      assert m == v.members[|members| - 1] && m in v.members;
      var comma := if |members| == 1 then "" else ",";
      NeutralQuiet(",");
      NeutralQuiet(":");
      NeutralQuiet(m.before);
      NeutralQuiet(m.middle);
      NeutralQuiet(m.between);
      NeutralQuiet(m.after);
      StringQuiet(m.name);
      ValueQuiet(m.value);
      Quiet3(m.before, PrintString(m.name), m.middle);
      Quiet3(m.before + PrintString(m.name) + m.middle, ":", m.between);
      Quiet3(m.before + PrintString(m.name) + m.middle + ":" + m.between, Print(m.value), m.after);
      Quiet3(PrintMembers(init), comma, PrintMember(m));
    }
  }

  // ----- The scan inverts the printer -----------------------------------------------------------------

  lemma FindAfter(prefix: string, rest: string)
    requires rest != "" && rest[0] == '{' && '{' !in prefix
    ensures Find(prefix + rest, '{') == Some(|prefix|)
  {
    var text := prefix + rest;
    assert text[|prefix|] == '{';
    assert forall j | 0 <= j < |prefix| :: text[j] == prefix[j];
  }

  /** The candidate is the first braced piece, whatever stands after it. */
  lemma ScanFindsFirstBraced(prefix: string, inner: string, suffix: string)
    requires '{' !in prefix && Quiet(inner)
    ensures IsCandidate(prefix + ("{" + inner + "}") + suffix, Some("{" + inner + "}"))
  {
    var braced := "{" + inner + "}";
    var text := prefix + braced + suffix;
    assert text == prefix + (braced + suffix);
    FindAfter(prefix, braced + suffix);
    var rest := text[|prefix|..];
    assert rest == braced + suffix;
    Braced(inner);
    assert rest[..|braced|] == braced;
    forall n: nat | n < |braced| ensures !Balances(rest, n) {
      assert rest[..n] == braced[..n];
    }
  }

  /** Whatever prose surrounds a printed object, the scan's candidate starts where the object
      starts and is exactly that object if, and only if, the prose before it has no opening
      brace: with one, the scan starts too early. */
  lemma ScanInvertsPrinter(prefix: string, o: Value, suffix: string)
    requires o.Obj? && ValidValue(o)
    ensures var text := prefix + Print(o) + suffix;
            && Find(text, '{').Some?
            && (Find(text, '{').value == |prefix| <==> '{' !in prefix)
            && ('{' !in prefix ==> IsCandidate(text, Some(Print(o))))
  {
    var text := prefix + Print(o) + suffix;
    ObjectText(o);
    if '{' in prefix {
      var j :| 0 <= j < |prefix| && prefix[j] == '{';
      assert text[j] == '{';
    } else {
      ObjectInner(o);
      ScanFindsFirstBraced(prefix, PrintMembers(o.members) + o.end, suffix);
      assert text == prefix + (Print(o) + suffix);
      FindAfter(prefix, Print(o) + suffix);
    }
  }

  // ----- The strategies -------------------------------------------------------------------------------

  /** The text inside a Markdown fence, stripped, if there is a fence; else the text. */
  function StripFences(text: string, fence: string -> Option<string>): string {
    match fence(text)
    case Some(content) => Strip(content)
    case None => text
  }

  /** The order of the strategies: the whole text, the fenced text, the scan's candidate. */
  ghost predicate Extracts<D>(text: string, loads: string -> Option<D>, fence: string -> Option<string>, r: Option<D>) {
    var t := Strip(text);
    if t == "" then r == None
    else if loads(t).Some? then r == loads(t)
    else
      var fenced := StripFences(t, fence);
      if fenced != t && loads(fenced).Some? then r == loads(fenced)
      else exists c :: IsCandidate(t, c) && r == (if c.Some? then loads(c.value) else None)
  }

  method ExtractJsonObject<D>(text: string, loads: string -> Option<D>,
                              fence: string -> Option<string>) returns (r: Option<D>)
    ensures Extracts(text, loads, fence, r)
  {
    var t := Strip(text);
    if t == "" {
      return None;
    }
    r := loads(t);
    if r.Some? {
      return;
    }
    var fenced := StripFences(t, fence);
    if fenced != t {
      r := loads(fenced);
      if r.Some? {
        return;
      }
    }
    var candidate := BraceScan(t);
    r := if candidate.Some? then loads(candidate.value) else None;
  }

  lemma {:induction false} LStripKeepsOut(prefix: string, c: char)
    requires c !in prefix
    ensures c !in LStrip(prefix)
  {
    LStripFirst(prefix);
  }

  /** An object printed into prose without an opening brace before it is the object that is
      extracted, whenever the decoder takes neither the whole text nor a fenced part. */
  lemma PrintedObjectIsExtracted<D>(prefix: string, o: Value, suffix: string,
                                    loads: string -> Option<D>, fence: string -> Option<string>, r: Option<D>)
    requires o.Obj? && ValidValue(o) && '{' !in prefix
    requires var text := prefix + Print(o) + suffix;
             && Extracts(text, loads, fence, r)
             && loads(Strip(text)).None? && loads(StripFences(Strip(text), fence)).None?
    ensures r == loads(Print(o))
  {
    ObjectText(o);
    hide Print;
    StripAround(prefix, Print(o), suffix);
    LStripKeepsOut(prefix, '{');
    ScanInvertsPrinter(LStrip(prefix), o, RStrip(suffix));
    var t := LStrip(prefix) + Print(o) + RStrip(suffix);
    assert Strip(prefix + Print(o) + suffix) == t && t != "";
    var c :| IsCandidate(t, c) && r == (if c.Some? then loads(c.value) else None);
    CandidateUnique(t, c, Some(Print(o)));
  }

  /** Without prose and fences the decoder sees the object itself at once. */
  lemma BareObjectIsExtracted<D>(prefix: string, o: Value, suffix: string,
                                 loads: string -> Option<D>, fence: string -> Option<string>, r: Option<D>)
    requires o.Obj? && ValidValue(o) && AllSpaces(prefix) && AllSpaces(suffix)
    requires Extracts(prefix + Print(o) + suffix, loads, fence, r) && loads(Print(o)).Some?
    ensures r == loads(Print(o))
  {
    ObjectText(o);
    hide Print, Extracts;
    SpacesGo(prefix, Print(o), suffix);
    hide Strip;
    WholeTextFirst(prefix + Print(o) + suffix, loads, fence, r);
  }

  lemma WholeTextFirst<D>(text: string, loads: string -> Option<D>, fence: string -> Option<string>, r: Option<D>)
    requires Extracts(text, loads, fence, r) && Strip(text) != "" && loads(Strip(text)).Some?
    ensures r == loads(Strip(text))
  {
    hide Strip, IsCandidate, StripFences;
  }

  /** White space around a text that neither starts nor ends with any. */
  lemma SpacesGo(before: string, text: string, after: string)
    requires text != "" && !IsSpace(text[0]) && !IsSpace(text[|text| - 1]) && AllSpaces(before) && AllSpaces(after)
    ensures Strip(before + text + after) == text
  {
    StripAround(before, text, after);
    LStripFirst(before);
    RStripLast(after);
    assert "" + text + "" == text;
  }

  /** A fenced object is the object that is extracted, with any white space around it in its
      fence and whatever braces the prose has, unless the decoder takes the whole text. */
  lemma FencedObjectIsExtracted<D>(text: string, before: string, o: Value, after: string,
                                   loads: string -> Option<D>, fence: string -> Option<string>, r: Option<D>)
    requires o.Obj? && ValidValue(o) && AllSpaces(before) && AllSpaces(after)
    requires Extracts(text, loads, fence, r) && Strip(text) != "" && loads(Strip(text)).None?
    requires fence(Strip(text)) == Some(before + Print(o) + after) && loads(Print(o)).Some?
    ensures r == loads(Print(o))
  {
    ObjectText(o);
    hide Print, IsCandidate;
    SpacesGo(before, Print(o), after);
    hide Strip;
  }

  /** Nothing is extracted from a text without any character but white space. */
  lemma BlankHoldsNothing<D>(text: string, loads: string -> Option<D>, fence: string -> Option<string>, r: Option<D>)
    requires Extracts(text, loads, fence, r) && AllSpaces(text)
    ensures r == None
  {
    BlankIsAllSpaces(text);
  }

  /** Exactly when the scan decides: neither the whole text nor what a fence holds is taken. */
  lemma ScanIsLast<D>(text: string, loads: string -> Option<D>, fence: string -> Option<string>, r: Option<D>,
                      c: Option<string>)
    requires Extracts(text, loads, fence, r) && IsCandidate(Strip(text), c) && Strip(text) != ""
    requires loads(Strip(text)).None?
    requires fence(Strip(text)).Some? ==> loads(Strip(fence(Strip(text)).value)).None?
    ensures r == if c.Some? then loads(c.value) else None
  {
    hide IsCandidate;
    forall d | IsCandidate(Strip(text), d) ensures c == d {
      CandidateUnique(Strip(text), c, d);
    }
  }

  /** Braces in the prose hide every later object: only the first braced piece is tried, and
      when the decoder refuses it nothing is extracted. */
  lemma EarlierBracesHideObject<D>(prefix: string, prose: string, rest: string,
                                   loads: string -> Option<D>, fence: string -> Option<string>, r: Option<D>)
    requires '{' !in prefix && Neutral(prose)
    requires var text := prefix + ("{" + prose + "}") + rest;
             && Strip(text) == text && Extracts(text, loads, fence, r)
             && loads(text).None? && loads(StripFences(text, fence)).None? && loads("{" + prose + "}").None?
    ensures r == None
  {
    var text := prefix + ("{" + prose + "}") + rest;
    NeutralQuiet(prose);
    ScanFindsFirstBraced(prefix, prose, rest);
    assert text != "";
    var c :| IsCandidate(text, c) && r == (if c.Some? then loads(c.value) else None);
    CandidateUnique(text, c, Some("{" + prose + "}"));
  }
}
