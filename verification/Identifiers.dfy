/** Identifiers and sequence numbers of the agent bus (core/agent_bus.py). */
module Identifiers {
  import opened Wrappers
  import opened Strings

  predicate IsDigit(c: char) { '0' <= c <= '9' }

  predicate IsLower(c: char) { 'a' <= c <= 'z' }

  /** The pattern ^[a-z][a-z0-9_]{0,63}$ */
  predicate IsIdentifier(s: string) {
    1 <= |s| <= 64 && IsLower(s[0]) && forall i | 1 <= i < |s| :: IsLower(s[i]) || IsDigit(s[i]) || s[i] == '_'
  }

  // ----- Decimal numbers ------------------------------------------------------------------------

  function Digit(d: nat): char
    requires d < 10
  {
    '0' + d as char
  }

  function DigitValue(c: char): nat
    requires IsDigit(c)
  {
    (c - '0') as nat
  }

  predicate AllDigits(s: string) {
    forall i | 0 <= i < |s| :: IsDigit(s[i])
  }

  /** `str(n)` */
  function Decimal(n: nat): string {
    if n < 10 then [Digit(n)] else Decimal(n / 10) + [Digit(n % 10)]
  }

  /** `f"{n:06d}"` */
  function Pad6(n: nat): string {
    LeftPad(Decimal(n))
  }

  function LeftPad(s: string): string
    decreases 6 - |s|
  {
    if |s| >= 6 then s else LeftPad("0" + s)
  }

  /** `int(s)` */
  function ParseDecimal(s: string): nat
    requires AllDigits(s)
  {
    if s == "" then 0 else 10 * ParseDecimal(s[..|s| - 1]) + DigitValue(s[|s| - 1])
  }

  lemma {:induction false} DecimalParses(n: nat)
    ensures AllDigits(Decimal(n)) && Decimal(n) != "" && ParseDecimal(Decimal(n)) == n
  {
    if n < 10 {
      assert Decimal(n)[..0] == "";
    } else {
      DecimalParses(n / 10);
      assert Decimal(n)[..|Decimal(n)| - 1] == Decimal(n / 10);
    }
  }

  lemma {:induction false} LeadingZero(s: string)
    requires AllDigits(s)
    ensures AllDigits("0" + s) && ParseDecimal("0" + s) == ParseDecimal(s)
  {
    var t := "0" + s;
    if s == "" {
      assert t[..0] == "";
    } else {
      LeadingZero(s[..|s| - 1]);
      assert t[..|t| - 1] == "0" + s[..|s| - 1];
    }
  }

  lemma {:induction false} LeftPadParses(s: string)
    requires AllDigits(s)
    ensures AllDigits(LeftPad(s)) && ParseDecimal(LeftPad(s)) == ParseDecimal(s) && |LeftPad(s)| >= 6
    decreases 6 - |s|
  {
    if |s| < 6 {
      LeadingZero(s);
      LeftPadParses("0" + s);
    }
  }

  /** Reading a padded number back gives the number, whatever its length. */
  lemma Pad6Parses(n: nat)
    ensures AllDigits(Pad6(n)) && |Pad6(n)| >= 6 && ParseDecimal(Pad6(n)) == n
  {
    DecimalParses(n);
    LeftPadParses(Decimal(n));
  }

  /** Six digits up to 999999, and then no more than the number needs. */
  lemma Pad6Width(n: nat)
    ensures if n < 1000000 then |Pad6(n)| == 6 else |Pad6(n)| > 6 && Pad6(n)[0] != '0'
  {
    DecimalWidth(n);
    LeftPadWidth(Decimal(n));
  }

  lemma {:induction false} DecimalWidth(n: nat)
    ensures Decimal(n) != "" && (n > 0 ==> Decimal(n)[0] != '0')
    ensures n < 1000000 <==> |Decimal(n)| <= 6
  {
    DecimalBelow(n, 6);
    DecimalFirst(n);
  }

  function Power10(k: nat): nat {
    if k == 0 then 1 else 10 * Power10(k - 1)
  }

  lemma {:induction false} DecimalBelow(n: nat, k: nat)
    requires k >= 1
    ensures n < Power10(k) <==> |Decimal(n)| <= k
  {
    if k == 1 {
      assert Power10(1) == 10 * Power10(0) == 10;
      if n >= 10 {
        DecimalFirst(n / 10);
      }
    } else if n < 10 {
      PowerAtLeast(k);
    } else {
      DecimalBelow(n / 10, k - 1);
    }
  }

  lemma {:induction false} PowerAtLeast(k: nat)
    requires k >= 1
    ensures Power10(k) >= 10
  {
    if k > 1 {
      PowerAtLeast(k - 1);
    }
  }

  lemma {:induction false} DecimalFirst(n: nat)
    ensures Decimal(n) != "" && (n > 0 ==> Decimal(n)[0] != '0')
  {
    if n >= 10 {
      DecimalFirst(n / 10);
    }
  }

  lemma {:induction false} LeftPadWidth(s: string)
    ensures |LeftPad(s)| == if |s| >= 6 then |s| else 6
    ensures |s| >= 6 ==> LeftPad(s) == s
    decreases 6 - |s|
  {
    if |s| < 6 {
      LeftPadWidth("0" + s);
    }
  }

  // ----- Sequenced identifiers --------------------------------------------------------------------

  const THREAD_ID_PREFIX := "thread_"
  const MESSAGE_ID_PREFIX := "msg_"

  function Sequenced(prefix: string, n: nat): string {
    prefix + Pad6(n)
  }

  /** The number of an id with this prefix, if it is well formed. */
  function NumberOf(prefix: string, id: string): Option<nat> {
    if prefix <= id && |id| > |prefix| && AllDigits(id[|prefix|..]) then Some(ParseDecimal(id[|prefix|..])) else None
  }

  lemma SequencedNumber(prefix: string, n: nat)
    ensures NumberOf(prefix, Sequenced(prefix, n)) == Some(n)
  {
    Pad6Parses(n);
    assert Sequenced(prefix, n)[|prefix|..] == Pad6(n);
  }

  /** Different numbers make different identifiers. */
  lemma SequencedInjective(prefix: string, m: nat, n: nat)
    requires Sequenced(prefix, m) == Sequenced(prefix, n)
    ensures m == n
  {
    SequencedNumber(prefix, m);
    SequencedNumber(prefix, n);
  }

  /** `str.lower()`, as far as its result can be ASCII: besides the capital letters only the
      Kelvin sign has an ASCII letter as its lower case. */
  function LowerChar(c: char): char {
    if 'A' <= c <= 'Z' then c - 'A' + 'a' else if c == '\U{212A}' then 'k' else c
  }

  function Lower(s: string): string {
    seq(|s|, i requires 0 <= i < |s| => LowerChar(s[i]))
  }

  /** An identifier as given, in normal form; None where the source refuses it. */
  function Normalize(s: string): Option<string> {
    var t := Lower(Strip(s));
    if IsIdentifier(t) then Some(t) else None
  }

  /** The pattern ^[a-z0-9][a-z0-9_-]{0,63}$ of task ids, likewise after stripping and lower-casing. */
  predicate IsTaskId(t: string) {
    && 1 <= |t| <= 64 && (IsLower(t[0]) || IsDigit(t[0]))
    && forall i | 1 <= i < |t| :: IsLower(t[i]) || IsDigit(t[i]) || t[i] == '_' || t[i] == '-'
  }

  function NormalizeTaskId(s: string): Option<string> {
    var t := Lower(Strip(s));
    if IsTaskId(t) then Some(t) else None
  }

  lemma NormalIsFixed(s: string)
    requires IsIdentifier(s)
    ensures Normalize(s) == Some(s)
  {
    assert LStrip(s) == s && RStrip(s) == s;
    assert Lower(s) == s;
  }

  /** The same identifier in another writing: any letters may be capital. */
  predicate SameLetters(written: string, id: string) {
    && |written| == |id|
    && forall i | 0 <= i < |id| ::
         written[i] == id[i] || ('a' <= id[i] <= 'z' && 'A' <= written[i] <= 'Z' && written[i] - 'A' == id[i] - 'a')
  }

  /** White space around it and capital letters do not matter to an identifier or a task id. */
  lemma WritingsAreOne(before: string, written: string, after: string, id: string)
    requires IsIdentifier(id) || IsTaskId(id)
    requires SameLetters(written, id) && AllSpaces(before) && AllSpaces(after)
    ensures IsIdentifier(id) ==> Normalize(before + written + after) == Some(id)
    ensures IsTaskId(id) ==> NormalizeTaskId(before + written + after) == Some(id)
  {
    assert !IsSpace(written[0]) && !IsSpace(written[|written| - 1]);
    StripAround(before, written, after);
    LStripFirst(before);
    RStripLast(after);
    assert Strip(before + written + after) == written by { assert "" + written + "" == written; }
    hide Strip;
    assert Lower(written) == id;
  }

  /** What is in normal form is an identifier and no other writing of it. */
  lemma NormalIsIdentifier(s: string)
    ensures Normalize(s).Some? ==> IsIdentifier(Normalize(s).value) && Normalize(Normalize(s).value) == Normalize(s)
    ensures NormalizeTaskId(s).Some? ==> IsTaskId(NormalizeTaskId(s).value)
  {
    if Normalize(s).Some? {
      NormalIsFixed(Normalize(s).value);
    }
    hide Strip;
  }

  /** The number of a stored id. */
  function StoredNumber(prefix: string, id: string): Option<nat> {
    match Normalize(id)
    case None => None
    case Some(t) => NumberOf(prefix, t)
  }

  /** Every id in the list is a stored id of this prefix. */
  predicate WellFormedIds(prefix: string, ids: seq<string>) {
    forall i | 0 <= i < |ids| :: StoredNumber(prefix, ids[i]).Some?
  }

  /** One above the largest number in the list. */
  function NextNumber(prefix: string, ids: seq<string>): nat
    requires WellFormedIds(prefix, ids)
  {
    if ids == [] then 1
    else
      var earlier, last := NextNumber(prefix, ids[..|ids| - 1]), StoredNumber(prefix, ids[|ids| - 1]).value;
      if last + 1 > earlier then last + 1 else earlier
  }

  lemma {:induction false} NextNumberIs(prefix: string, ids: seq<string>)
    requires WellFormedIds(prefix, ids)
    ensures var n := NextNumber(prefix, ids);
            && n >= 1
            && (forall i | 0 <= i < |ids| :: StoredNumber(prefix, ids[i]).value < n)
            && (n == 1 || exists i :: 0 <= i < |ids| && StoredNumber(prefix, ids[i]) == Some((n - 1) as nat))
  {
    hide StoredNumber;
    if ids != [] {
      var init := ids[..|ids| - 1];
      NextNumberIs(prefix, init);
      var n := NextNumber(prefix, init);
      if n > 1 {
        var i :| 0 <= i < |init| && StoredNumber(prefix, init[i]) == Some((n - 1) as nat);
        assert ids[i] == init[i];
      }
      forall i | 0 <= i < |ids| ensures StoredNumber(prefix, ids[i]).value < NextNumber(prefix, ids) {
        assert i < |init| ==> ids[i] == init[i];
      }
    }
  }

  function Allocate(prefix: string, ids: seq<string>): Option<string> {
    if WellFormedIds(prefix, ids) then Some(Sequenced(prefix, NextNumber(prefix, ids))) else None
  }

  /** _next_sequenced_identifier: one above the largest number in use; ids that are not well
      formed are refused. */
  method NextSequencedIdentifier(existing: seq<string>, prefix: string) returns (r: Option<string>)
    ensures r == Allocate(prefix, existing)
  {
    hide StoredNumber, Sequenced;
    var nextNumber := 1;
    for i := 0 to |existing|
      invariant WellFormedIds(prefix, existing[..i]) && nextNumber == NextNumber(prefix, existing[..i])
    {
      assert existing[..i + 1][..i] == existing[..i];
      var number := StoredNumber(prefix, existing[i]);
      if number.None? {
        return None;
      }
      if number.value + 1 > nextNumber {
        nextNumber := number.value + 1;
      }
    }
    assert existing[..|existing|] == existing;
    return Some(Sequenced(prefix, nextNumber));
  }

  /** The allocated id is none of the stored ones, however they are written. */
  lemma AllocatedIsNew(prefix: string, ids: seq<string>, i: nat)
    requires Allocate(prefix, ids).Some? && i < |ids|
    ensures Normalize(ids[i]) != Allocate(prefix, ids)
  {
    var n := NextNumber(prefix, ids);
    SequencedNumber(prefix, n);
    NextNumberIs(prefix, ids);
    hide NumberOf, Sequenced, Normalize;
    assert StoredNumber(prefix, ids[i]).value < n;
  }

  /** On ids with rising numbers it allocates one above the last. */
  lemma AllocatesAfterLast(prefix: string, ids: seq<string>)
    requires forall i | 0 <= i < |ids| :: IsIdentifier(ids[i]) && NumberOf(prefix, ids[i]).Some?
    requires forall i, j | 0 <= i < j < |ids| :: NumberOf(prefix, ids[i]).value < NumberOf(prefix, ids[j]).value
    ensures Allocate(prefix, ids) ==
            Some(Sequenced(prefix, if ids == [] then 1 else NumberOf(prefix, ids[|ids| - 1]).value + 1))
  {
    forall i | 0 <= i < |ids| ensures StoredNumber(prefix, ids[i]) == NumberOf(prefix, ids[i]) {
      NormalIsFixed(ids[i]);
    }
    hide NumberOf, Normalize, IsIdentifier, StoredNumber, Sequenced;
    NextNumberIs(prefix, ids);
    assert ids != [] ==> StoredNumber(prefix, ids[|ids| - 1]).value < NextNumber(prefix, ids);
  }
}
