/** `truncateToolResult` of internal/agent/limits.go. */
module TruncateResult {
  import opened Utf8
  import opened Wrappers

  const MAX_TOOL_RESULT_BYTES: nat := 24 * 1024

  const HEAD: string := "\n\n[result truncated: "
  const MIDDLE: string := " of "
  const TAIL: string := " bytes shown. Query a shorter range or a coarser bucket for the full series.]"

  /** The first character start at or below `p`, or 0. */
  function ScanBack(s: Bytes, p: nat): (cut: nat)
    requires p < |s|
    ensures cut <= p
    ensures cut == 0 || RuneStart(s[cut])
    ensures forall q :: cut < q <= p ==> !RuneStart(s[q])
  {
    if 0 < p && !RuneStart(s[p]) then ScanBack(s, p - 1) else p
  }

  function Decimal(n: nat): Bytes {
    if n < 10 then [48 + n] else Decimal(n / 10) + [48 + n % 10]
  }

  function Notice(shown: nat, total: nat): Bytes {
    Ascii(HEAD) + Decimal(shown) + Ascii(MIDDLE) + Decimal(total) + Ascii(TAIL)
  }

  function Truncated(s: Bytes): Bytes {
    if |s| <= MAX_TOOL_RESULT_BYTES then s
    else
      var cut := ScanBack(s, MAX_TOOL_RESULT_BYTES);
      s[..cut] + Notice(cut, |s|)
  }

  method TruncateToolResult(s: Bytes) returns (r: Bytes)
    ensures r == Truncated(s)
    ensures |s| <= MAX_TOOL_RESULT_BYTES ==> r == s
  {
    if |s| <= MAX_TOOL_RESULT_BYTES {
      return s;
    }
    var cut := MAX_TOOL_RESULT_BYTES;
    while 0 < cut && !RuneStart(s[cut])
      invariant 0 <= cut <= MAX_TOOL_RESULT_BYTES
      invariant ScanBack(s, cut) == ScanBack(s, MAX_TOOL_RESULT_BYTES)
    {
      cut := cut - 1;
    }
    r := s[..cut] + Notice(cut, |s|);
  }

  // ----- The cut -----

  /** A valid text is cut within three bytes of the cap, at the last place where both
      halves are valid, and what the model gets to see is valid. */
  lemma {:induction false} CutKeepsUtf8(s: Bytes)
    requires Valid(s) && MAX_TOOL_RESULT_BYTES < |s|
    ensures var cut := ScanBack(s, MAX_TOOL_RESULT_BYTES);
            && MAX_TOOL_RESULT_BYTES - 3 <= cut <= MAX_TOOL_RESULT_BYTES
            && Valid(s[..cut]) && Valid(s[cut..])
            && (forall q :: cut < q <= MAX_TOOL_RESULT_BYTES ==> !(Valid(s[..q]) && Valid(s[q..])))
    ensures Valid(Truncated(s))
  {
    var cut := ScanBack(s, MAX_TOOL_RESULT_BYTES);
    var near := StartIsNear(s, MAX_TOOL_RESULT_BYTES);
    assert near <= cut;
    StartsAreBoundaries(s, cut);
    forall q | cut < q <= MAX_TOOL_RESULT_BYTES ensures !(Valid(s[..q]) && Valid(s[q..])) {
      StartsAreBoundaries(s, q);
    }
    NoticeIsAscii(cut, |s|);
    AsciiIsValid(Notice(cut, |s|));
    ValidConcat(s[..cut], Notice(cut, |s|));
  }

  lemma {:induction false} DecimalIsDigits(n: nat)
    ensures |Decimal(n)| > 0
    ensures forall x <- Decimal(n) :: 48 <= x <= 57
  {
    if 10 <= n {
      DecimalIsDigits(n / 10);
    }
  }

  lemma NoticeIsAscii(shown: nat, total: nat)
    ensures forall x <- Notice(shown, total) :: x < 0x80
  {
    DecimalIsDigits(shown);
    DecimalIsDigits(total);
  }

  // ----- Its size -----

  function Pow10(k: nat): nat {
    if k == 0 then 1 else 10 * Pow10(k - 1)
  }

  lemma {:induction false} DecimalLength(n: nat, k: nat)
    requires 0 < k && n < Pow10(k)
    ensures |Decimal(n)| <= k
  {
    if 10 <= n {
      DecimalLength(n / 10, k - 1);
    }
  }

  /** Whatever a tool returns, and valid UTF-8 or not, its result takes at most 200 bytes above the cap. */
  lemma TruncatedIsBounded(s: Bytes)
    requires |s| < 0x8000_0000_0000_0000
    ensures |Truncated(s)| <= MAX_TOOL_RESULT_BYTES + 200
  {
    if MAX_TOOL_RESULT_BYTES < |s| {
      assert Pow10(9) == 1_000_000_000;
      assert Pow10(19) == 10_000_000_000_000_000_000 by {
        assert Pow10(14) == 100_000 * Pow10(9);
      }
      DecimalLength(ScanBack(s, MAX_TOOL_RESULT_BYTES), 9);
      DecimalLength(|s|, 19);
      assert |HEAD| == 21 && |MIDDLE| == 4 && |TAIL| == 77;
    }
  }

  // ----- The notice reads back -----

  predicate Digit(x: byte) {
    48 <= x <= 57
  }

  function TrailingDigits(b: Bytes): (n: nat)
    ensures n <= |b|
  {
    if 0 < |b| && Digit(b[|b| - 1]) then 1 + TrailingDigits(b[..|b| - 1]) else 0
  }

  function Number(b: Bytes): int {
    if |b| == 0 then 0 else 10 * Number(b[..|b| - 1]) + b[|b| - 1] - 48
  }

  function Without(b: Bytes, end: Bytes): Option<Bytes> {
    if |end| <= |b| && b[|b| - |end|..] == end then Some(b[..|b| - |end|]) else None
  }

  /** Takes `end` and a number before it off a text. */
  function Strip(b: Bytes, end: Bytes): Option<(Bytes, int)> {
    match Without(b, end)
    case None => None
    case Some(c) =>
      var t := |c| - TrailingDigits(c);
      Some((c[..t], Number(c[t..])))
  }

  datatype Reading = Reading(kept: Bytes, shown: int, total: int)

  /** Reads a notice off the end of a result: what was kept, and the two counts. */
  function ReadNotice(r: Bytes): Option<Reading> {
    match Strip(r, Ascii(TAIL))
    case None => None
    case Some((b, total)) =>
      match Strip(b, Ascii(MIDDLE))
      case None => None
      case Some((c, shown)) =>
        match Without(c, Ascii(HEAD))
        case None => None
        case Some(kept) => Some(Reading(kept, shown, total))
  }

  lemma {:induction false} DigitsReadBack(a: Bytes, n: nat)
    requires a != [] && !Digit(a[|a| - 1])
    ensures TrailingDigits(a + Decimal(n)) == |Decimal(n)|
    ensures Number(Decimal(n)) == n
  {
    var b := a + Decimal(n);
    if n < 10 {
      assert b[..|b| - 1] == a;
    } else {
      DigitsReadBack(a, n / 10);
      assert b[..|b| - 1] == a + Decimal(n / 10);
    }
  }

  lemma WithoutAppended(a: Bytes, end: Bytes)
    ensures Without(a + end, end) == Some(a)
  {
    assert (a + end)[|a|..] == end && (a + end)[..|a|] == a;
  }

  lemma StripsOff(a: Bytes, n: nat, end: Bytes)
    requires a != [] && !Digit(a[|a| - 1])
    ensures Strip(a + Decimal(n) + end, end) == Some((a, n as int))
  {
    var c := a + Decimal(n);
    WithoutAppended(c, end);
    DigitsReadBack(a, n);
    assert c[..|a|] == a && c[|a|..] == Decimal(n);
  }

  lemma EndsInSpace(a: Bytes, s: string)
    requires s != "" && s[|s| - 1] == ' '
    ensures var b := a + Ascii(s); b != [] && !Digit(b[|b| - 1])
  {
  }

  /** The notice can be read back unambiguously, whatever text was kept. */
  lemma NoticeReadsBack(kept: Bytes, shown: nat, total: nat)
    ensures ReadNotice(kept + Notice(shown, total)) == Some(Reading(kept, shown, total))
  {
    var h := kept + Ascii(HEAD);
    var m := h + Decimal(shown) + Ascii(MIDDLE);
    assert kept + Notice(shown, total) == m + Decimal(total) + Ascii(TAIL);
    EndsInSpace(h + Decimal(shown), MIDDLE);
    StripsOff(m, total, Ascii(TAIL));
    EndsInSpace(kept, HEAD);
    StripsOff(h, shown, Ascii(MIDDLE));
    WithoutAppended(kept, Ascii(HEAD));
  }

  /** What the model gets to see of a tool's text: all of it up to the cap, and above the cap
      a beginning of it with a notice that says so. */
  predicate Faithful(kept: Bytes, text: Bytes) {
    && (|text| <= MAX_TOOL_RESULT_BYTES ==> kept == text)
    && (MAX_TOOL_RESULT_BYTES < |text| ==>
          exists cut: nat :: cut <= MAX_TOOL_RESULT_BYTES && Shows(kept, text, cut))
  }

  predicate Shows(kept: Bytes, text: Bytes, cut: nat) {
    cut <= |text| && ReadNotice(kept) == Some(Reading(text[..cut], cut, |text|))
  }

  lemma TruncatedIsFaithful(s: Bytes)
    ensures |s| <= MAX_TOOL_RESULT_BYTES ==> Truncated(s) == s
    ensures MAX_TOOL_RESULT_BYTES < |s| ==>
              Shows(Truncated(s), s, ScanBack(s, MAX_TOOL_RESULT_BYTES))
    ensures Faithful(Truncated(s), s)
  {
    if MAX_TOOL_RESULT_BYTES < |s| {
      var cut := ScanBack(s, MAX_TOOL_RESULT_BYTES);
      hide Notice, ReadNotice;
      NoticeReadsBack(s[..cut], cut, |s|);
      assert Shows(Truncated(s), s, cut);
    }
  }
}
