/** `retro_cheat_set`: free-form cheat text is scanned one character at a time;
    hexadecimal digits accumulate, and a separator (or the terminating NUL) that
    arrives with at least 12 accumulated digits submits them as a 12-digit CBA
    code, a 16-digit GSA code, or reports them as invalid.

    The calls into the core's cheat list (`cheatsAddCBACode`, `cheatsAddGSACode`)
    and the error log are recorded as events. */
module Cheats {
  import opened Common

  /** Digits in a CBA-family code; its canonical form has a space after digit 8. */
  const CbaDigits: nat := 12

  /** Digits in a GSA-family code. */
  const GsaDigits: nat := 16

  datatype CheatEvent =
    | AddCbaCode(code: string, name: string)
    | AddGsaCode(code: string, name: string, v3: bool)
    | InvalidCode(fragment: string)

  /** The decoder state: the digits accumulated since the last flush (`codeLine[0..codePos)`)
      and the events emitted so far. */
  datatype Decoder = Decoder(acc: string, events: seq<CheatEvent>)

  const Start: Decoder := Decoder([], [])

  /** How `%d` prints an `unsigned`: as the signed 32-bit value with the same bits. */
  function SignedView(index: u32): int {
    if index < 0x8000_0000 then index as int else index as int - 0x1_0000_0000
  }

  /** `sprintf(name, "cheat_%d", index)`. */
  function CheatName(index: u32): string {
    "cheat_" + IntText(SignedView(index))
  }

  /** Different cheat indices get different names. */
  lemma CheatNamesDistinct(i: u32, j: u32)
    requires CheatName(i) == CheatName(j)
    ensures i == j
  {
    assert CheatName(i)[6..] == IntText(SignedView(i));
    assert CheatName(j)[6..] == IntText(SignedView(j));
    IntTextInjective(SignedView(i), SignedView(j));
  }

  /** The 12-digit reformat: the last four digits move one place right and a space
      fills position 8, giving a 13-character record. */
  function CbaText(digits: string): (code: string)
    requires |digits| == CbaDigits
    ensures |code| == 13 && code[8] == ' '
    ensures code[..8] + code[9..] == digits
  {
    digits[..8] + " " + digits[8..]
  }

  /** What a flush submits for an accumulated run of at least 12 digits. */
  function Flush(run: string, name: string): CheatEvent
    requires |run| >= CbaDigits
  {
    if |run| == CbaDigits then AddCbaCode(CbaText(run), name)
    else if |run| == GsaDigits then AddGsaCode(run, name, true)
    else InvalidCode(run)
  }

  /** One iteration of the scanning loop. */
  function Step(d: Decoder, c: char, name: string): Decoder {
    if IsHexDigit(c) then d.(acc := d.acc + [ToUpper(c)])
    else if |d.acc| >= CbaDigits then Decoder([], d.events + [Flush(d.acc, name)])
    else d
  }

  /** The decoder after scanning `text` from state `d`. */
  function Run(d: Decoder, text: string, name: string): Decoder
    decreases |text|
  {
    if text == [] then d else Step(Run(d, text[..|text| - 1], name), text[|text| - 1], name)
  }

  /** The characters the loop visits: the C string and its terminating NUL, after which
      it breaks out. */
  function Scanned(code: string): string {
    CString(code) + [NUL]
  }

  /** `retro_cheat_set`: the events for one call. The `enabled` flag is not consulted. */
  function CheatSet(index: u32, enabled: bool, code: string): seq<CheatEvent> {
    Run(Start, Scanned(code), CheatName(index)).events
  }

  /** The number of hexadecimal digits in `text`. */
  function HexCount(text: string): nat
    decreases |text|
  {
    if text == [] then 0 else HexCount(text[..|text| - 1]) + (if IsHexDigit(text[|text| - 1]) then 1 else 0)
  }

  /** The upper-cased copy of `text`. */
  function UpperText(text: string): (u: string)
    ensures |u| == |text|
    ensures forall i :: 0 <= i < |u| ==> u[i] == ToUpper(text[i])
    decreases |text|
  {
    if text == [] then [] else UpperText(text[..|text| - 1]) + [ToUpper(text[|text| - 1])]
  }

  /** The shape of everything the decoder submits under `name`: CBA records are eight
      upper-case hex digits, a space and four more; GSA records are sixteen upper-case
      hex digits with the v3 flag set; rejected runs are upper-case hex of a length
      that is at least 12 but neither 12 nor 16. */
  predicate WellFormedEvent(e: CheatEvent, name: string) {
    match e
    case AddCbaCode(code, n) =>
      n == name && |code| == 13 && code[8] == ' ' && AllUpperHex(code[..8]) && AllUpperHex(code[9..])
    case AddGsaCode(code, n, v3) =>
      n == name && |code| == GsaDigits && AllUpperHex(code) && v3
    case InvalidCode(fragment) =>
      |fragment| >= CbaDigits && |fragment| != CbaDigits && |fragment| != GsaDigits && AllUpperHex(fragment)
  }

  predicate WellFormedDecoder(d: Decoder, name: string) {
    AllUpperHex(d.acc) && forall i :: 0 <= i < |d.events| ==> WellFormedEvent(d.events[i], name)
  }

  /** One step keeps the decoder well formed and spends at least 12 digits per event. */
  lemma StepKeepsWellFormed(d: Decoder, c: char, name: string)
    requires WellFormedDecoder(d, name)
    ensures WellFormedDecoder(Step(d, c, name), name)
    ensures |Step(d, c, name).events| * CbaDigits + |Step(d, c, name).acc|
            <= |d.events| * CbaDigits + |d.acc| + (if IsHexDigit(c) then 1 else 0)
  {
    var d' := Step(d, c, name);
    if IsHexDigit(c) {
      assert IsUpperHexDigit(ToUpper(c));
      assert forall i :: 0 <= i < |d'.acc| ==> d'.acc[i] == if i < |d.acc| then d.acc[i] else ToUpper(c);
    } else if |d.acc| >= CbaDigits {
      var e := Flush(d.acc, name);
      if |d.acc| == CbaDigits {
        var code := CbaText(d.acc);
        assert code[..8] == d.acc[..8];
        assert code[9..] == d.acc[8..];
      }
      assert WellFormedEvent(e, name);
      assert forall i :: 0 <= i < |d'.events| ==> d'.events[i] == if i < |d.events| then d.events[i] else e;
    }
  }

  /** From any well-formed state, scanning any text yields well-formed events only, and
      spends at least 12 hex digits of the text per new event. */
  lemma {:induction false} RunWellFormed(d: Decoder, text: string, name: string)
    requires WellFormedDecoder(d, name)
    ensures WellFormedDecoder(Run(d, text, name), name)
    ensures |Run(d, text, name).events| * CbaDigits + |Run(d, text, name).acc|
            <= |d.events| * CbaDigits + |d.acc| + HexCount(text)
    decreases |text|
  {
    if text != [] {
      var prefix := text[..|text| - 1];
      RunWellFormed(d, prefix, name);
      StepKeepsWellFormed(Run(d, prefix, name), text[|text| - 1], name);
    }
  }

  /** Every event of a call is well formed and names the cheat by its index. */
  lemma CheatSetWellFormed(index: u32, enabled: bool, code: string)
    ensures forall i :: 0 <= i < |CheatSet(index, enabled, code)| ==>
              WellFormedEvent(CheatSet(index, enabled, code)[i], CheatName(index))
    ensures |CheatSet(index, enabled, code)| * CbaDigits <= HexCount(code)
  {
    var text := Scanned(code);
    RunWellFormed(Start, text, CheatName(index));
    HexCountPrefix(code, |CString(code)|);
    assert text[..|text| - 1] == CString(code);
    assert code[..|CString(code)|] == CString(code);
  }

  /** A prefix holds no more hex digits than the whole text. */
  lemma {:induction false} HexCountPrefix(text: string, k: nat)
    requires k <= |text|
    ensures HexCount(text[..k]) <= HexCount(text)
    decreases |text|
  {
    if k < |text| {
      var prefix := text[..|text| - 1];
      assert prefix[..k] == text[..k];
      HexCountPrefix(prefix, k);
    } else {
      assert text[..k] == text;
    }
  }

  /** Scanning `a` and then `b` is scanning `a + b`. */
  lemma {:induction false} RunAppend(d: Decoder, a: string, b: string, name: string)
    ensures Run(d, a + b, name) == Run(Run(d, a, name), b, name)
    decreases |b|
  {
    if b == [] {
      assert a + b == a;
    } else {
      var b' := b[..|b| - 1];
      assert (a + b)[..|a + b| - 1] == a + b';
      assert (a + b)[|a + b| - 1] == b[|b| - 1];
      RunAppend(d, a, b', name);
    }
  }

  /** Scanning a single character is one step. */
  lemma RunOne(d: Decoder, c: char, name: string)
    ensures Run(d, [c], name) == Step(d, c, name)
  {
    assert [c][..0] == [];
  }

  /** A run of hex digits only accumulates: it is appended, upper-cased, and nothing
      is emitted. */
  lemma {:induction false} HexRunAccumulates(d: Decoder, digits: string, name: string)
    requires forall i :: 0 <= i < |digits| ==> IsHexDigit(digits[i])
    ensures Run(d, digits, name) == Decoder(d.acc + UpperText(digits), d.events)
    decreases |digits|
  {
    if digits != [] {
      var prefix := digits[..|digits| - 1];
      HexRunAccumulates(d, prefix, name);
      assert UpperText(digits) == UpperText(prefix) + [ToUpper(digits[|digits| - 1])];
    }
  }

  /** A separator seen with fewer than 12 digits accumulated changes nothing: the run
      continues across it. */
  lemma SeparatorBelowTwelveIsSkipped(d: Decoder, c: char, name: string)
    requires !IsHexDigit(c) && |d.acc| < CbaDigits
    ensures Step(d, c, name) == d
  {
  }

  /** A separator seen with 12 or more digits flushes them and clears the accumulator,
      whatever the outcome of the flush. */
  lemma SeparatorFlushes(d: Decoder, c: char, name: string)
    requires !IsHexDigit(c) && |d.acc| >= CbaDigits
    ensures Step(d, c, name).acc == []
    ensures Step(d, c, name).events == d.events + [Flush(d.acc, name)]
  {
  }

  /** Scanning hex digits and then the terminator flushes a run of 12 or more digits
      and silently drops a shorter one. */
  lemma HexOnlyScan(digits: string, name: string)
    requires forall i :: 0 <= i < |digits| ==> IsHexDigit(digits[i])
    ensures |digits| >= CbaDigits ==> Run(Start, digits + [NUL], name).events == [Flush(UpperText(digits), name)]
    ensures |digits| < CbaDigits ==> Run(Start, digits + [NUL], name).events == []
  {
    RunAppend(Start, digits, [NUL], name);
    HexRunAccumulates(Start, digits, name);
    var d := Run(Start, digits, name);
    assert d == Decoder(UpperText(digits), []);
    RunOne(d, NUL, name);
    assert !IsHexDigit(NUL);
  }

  /** Text without NUL is scanned entirely, then its terminator. */
  lemma ScannedNulFree(code: string)
    requires NUL !in code
    ensures Scanned(code) == code + [NUL]
  {
    CStringOfNulFree(code);
  }

  /** Cheat text made of hex digits only yields one submission when it has at least
      12 digits, and nothing otherwise: the terminating NUL flushes a long trailing run
      and silently drops a short one. */
  lemma HexOnlyCode(index: u32, enabled: bool, code: string)
    requires forall i :: 0 <= i < |code| ==> IsHexDigit(code[i])
    ensures |code| >= CbaDigits ==> CheatSet(index, enabled, code) == [Flush(UpperText(code), CheatName(index))]
    ensures |code| < CbaDigits ==> CheatSet(index, enabled, code) == []
  {
    assert forall i :: 0 <= i < |code| ==> code[i] != NUL;
    CStringOfNulFree(code);
    HexOnlyScan(code, CheatName(index));
  }

  /** Upper-casing leaves upper-case hex text alone. */
  lemma UpperTextOfUpper(s: string)
    requires AllUpperHex(s)
    ensures UpperText(s) == s
  {
    assert forall i :: 0 <= i < |s| ==> UpperText(s)[i] == s[i];
  }

  /** Upper-case hex text is submitted as typed when it has at least 12 digits. */
  lemma UpperHexCode(index: u32, enabled: bool, code: string)
    requires AllUpperHex(code)
    ensures |code| >= CbaDigits ==> CheatSet(index, enabled, code) == [Flush(code, CheatName(index))]
    ensures |code| < CbaDigits ==> CheatSet(index, enabled, code) == []
  {
    assert forall i :: 0 <= i < |code| ==> IsHexDigit(code[i]);
    HexOnlyCode(index, enabled, code);
    UpperTextOfUpper(code);
  }

  /** "1234567890ab" is submitted as the CBA record "12345678 90AB".
      Here and below, a literal code is a parameter fixed by `requires` rather than written
      into the contract: that keeps the verifier from unfolding the decoder on a literal. */
  lemma TwelveDigitsExample(index: u32, enabled: bool, code: string)
    requires code == "1234567890ab"
    ensures CheatSet(index, enabled, code) == [AddCbaCode("12345678 90AB", CheatName(index))]
  {
    HexOnlyCode(index, enabled, code);
    UpperOfTwelve(code);
    CbaOfTwelve(UpperText(code));
  }

  lemma UpperOfTwelve(code: string)
    requires code == "1234567890ab"
    ensures UpperText(code) == "1234567890AB"
  {
  }

  lemma CbaOfTwelve(digits: string)
    requires digits == "1234567890AB"
    ensures |digits| == CbaDigits && AllUpperHex(digits)
    ensures CbaText(digits) == "12345678 90AB"
  {
  }

  /** "1234567890ABCDEF" is submitted unchanged as a GSA record. */
  lemma SixteenDigitsExample(index: u32, enabled: bool, code: string)
    requires code == "1234567890ABCDEF"
    ensures CheatSet(index, enabled, code) == [AddGsaCode(code, CheatName(index), true)]
  {
    assert AllUpperHex(code);
    UpperHexCode(index, enabled, code);
  }

  /** "ABCDE" is too short: nothing is submitted and nothing is reported. */
  lemma ShortTailExample(index: u32, enabled: bool, code: string)
    requires code == "ABCDE"
    ensures CheatSet(index, enabled, code) == []
  {
    HexOnlyCode(index, enabled, code);
  }

  /** A run of 12 or more digits closed by a separator is flushed there; the
      terminator that follows finds nothing left to flush. */
  lemma SeparatedRun(lead: char, digits: string, sep: char, name: string)
    requires !IsHexDigit(lead) && !IsHexDigit(sep)
    requires forall i :: 0 <= i < |digits| ==> IsHexDigit(digits[i])
    requires |digits| >= CbaDigits
    ensures Run(Start, [lead] + digits + [sep] + [NUL], name).events == [Flush(UpperText(digits), name)]
  {
    var d2 := Decoder(UpperText(digits), []);
    assert Run(Start, [lead] + digits, name) == d2 by {
      RunOne(Start, lead, name);
      RunAppend(Start, [lead], digits, name);
      HexRunAccumulates(Start, digits, name);
    }
    var d3 := Decoder([], [Flush(UpperText(digits), name)]);
    assert Run(Start, [lead] + digits + [sep], name) == d3 by {
      RunAppend(Start, [lead] + digits, [sep], name);
      RunOne(d2, sep, name);
    }
    assert Run(Start, [lead] + digits + [sep] + [NUL], name) == d3 by {
      RunAppend(Start, [lead] + digits + [sep], [NUL], name);
      RunOne(d3, NUL, name);
    }
  }

  /** A separator met with fewer than 12 digits accumulated is skipped: the digits on
      both sides form one run. */
  lemma {:induction false} JoinedRun(first: string, sep: char, rest: string, name: string)
    requires !IsHexDigit(sep)
    requires forall i :: 0 <= i < |first| ==> IsHexDigit(first[i])
    requires |first| < CbaDigits
    ensures Run(Start, first + [sep] + rest, name) == Run(Start, first + rest, name)
  {
    HexRunAccumulates(Start, first, name);
    var d1 := Decoder(UpperText(first), []);
    RunAppend(Start, first, [sep], name);
    RunOne(d1, sep, name);
    RunAppend(Start, first + [sep], rest, name);
    RunAppend(Start, first, rest, name);
  }

  /** A 14-digit run between separators is reported as invalid and not submitted. */
  lemma FourteenDigitsExample(index: u32, enabled: bool, code: string)
    requires code == "-1234567890ABCD-"
    ensures CheatSet(index, enabled, code) == [InvalidCode("1234567890ABCD")]
  {
    ScannedNulFree(code);
    assert code == "-" + "1234567890ABCD" + "-";
    FourteenDigitsScan("1234567890ABCD", CheatName(index));
  }

  lemma FourteenDigitsScan(digits: string, name: string)
    requires digits == "1234567890ABCD"
    ensures Run(Start, "-" + digits + "-" + [NUL], name).events == [InvalidCode(digits)]
  {
    assert UpperText(digits) == digits;
    SeparatedRun('-', digits, '-', name);
  }

  /** A separator inside a short run does not split it: "123456-789012" is one CBA code. */
  lemma SplitRunExample(index: u32, enabled: bool, code: string)
    requires code == "123456-789012"
    ensures CheatSet(index, enabled, code) == [AddCbaCode("12345678 9012", CheatName(index))]
  {
    var name := CheatName(index);
    ScannedNulFree(code);
    assert code == "123456" + "-" + "789012";
    assert "123456" + "789012" == "123456789012";
    SplitRunScan("123456", "789012", name);
    TwelveDigitsScan("123456789012", name);
  }

  lemma SplitRunScan(first: string, second: string, name: string)
    requires first == "123456" && second == "789012"
    ensures Run(Start, first + "-" + second + [NUL], name) == Run(Start, first + second + [NUL], name)
  {
    var rest := second + [NUL];
    assert first + "-" + second + [NUL] == first + ['-'] + rest;
    assert first + second + [NUL] == first + rest;
    JoinedRun(first, '-', rest, name);
  }

  lemma TwelveDigitsScan(digits: string, name: string)
    requires digits == "123456789012"
    ensures Run(Start, digits + [NUL], name).events == [AddCbaCode("12345678 9012", name)]
  {
    HexOnlyScan(digits, name);
    assert UpperText(digits) == digits;
    assert CbaText(digits) == "12345678 9012";
  }

  /** The `enabled` argument has no effect on what is submitted. */
  lemma EnabledIsIgnored(index: u32, code: string)
    ensures CheatSet(index, true, code) == CheatSet(index, false, code)
  {
  }

  /** The character the loop reads at `cursor`: the C string, then its NUL. */
  lemma ScannedAt(code: string, cursor: nat)
    requires cursor <= |CString(code)|
    ensures Scanned(code)[cursor] == if cursor < |CString(code)| then CString(code)[cursor] else NUL
    ensures Scanned(code)[..cursor + 1] == Scanned(code)[..cursor] + [Scanned(code)[cursor]]
  {
  }

  /** The decoder after the first `cursor` characters, with the facts the scratch buffer
      relies on: upper-case hex digits, no more of them than characters read. */
  lemma PrefixState(code: string, cursor: nat, name: string)
    requires cursor <= |Scanned(code)|
    ensures AllUpperHex(Run(Start, Scanned(code)[..cursor], name).acc)
    ensures |Run(Start, Scanned(code)[..cursor], name).acc| <= cursor
  {
    var prefix := Scanned(code)[..cursor];
    RunWellFormed(Start, prefix, name);
    HexCountAtMostLength(prefix);
  }

  lemma {:induction false} HexCountAtMostLength(text: string)
    ensures HexCount(text) <= |text|
    decreases |text|
  {
    if text != [] {
      HexCountAtMostLength(text[..|text| - 1]);
    }
  }

  /** `retro_cheat_set` on its scratch buffer: `codeLine` has `strlen(code) + 5` cells,
      digits are written at `codePos`, a 12-digit run is reformatted in place by shifting
      its last four digits and writing the space and terminator, and each flush clears the
      buffer. Every index stays inside the buffer, and the submitted texts are what the
      functional decoder produces. */
  method CheatSetBuffer(index: u32, enabled: bool, code: string) returns (events: seq<CheatEvent>)
    ensures events == CheatSet(index, enabled, code)
  {
    var text := CString(code);
    var scanned := Scanned(code);
    var name := CheatName(index);
    var codeLine := new char[|text| + 5](_ => NUL);
    var codePos: nat := 0;
    var cursor: nat := 0;
    events := [];
    while cursor <= |text|
      invariant cursor <= |text| + 1
      invariant codePos <= cursor && codePos <= codeLine.Length
      invariant Run(Start, scanned[..cursor], name) == Decoder(codeLine[..codePos], events)
      invariant forall j :: codePos <= j < codeLine.Length ==> codeLine[j] == NUL
      decreases |text| + 1 - cursor
    {
      ScannedAt(code, cursor);
      PrefixState(code, cursor, name);
      var c := if cursor < |text| then text[cursor] else NUL;
      ghost var before := Run(Start, scanned[..cursor], name);
      assert scanned[..cursor + 1][..cursor] == scanned[..cursor];
      assert Run(Start, scanned[..cursor + 1], name) == Step(before, c, name);
      codePos, events := ScanChar(codeLine, codePos, c, before, name, events);
      cursor := cursor + 1;
      if c == NUL {
        break;
      }
    }
    assert cursor == |text| + 1;
    assert scanned[..cursor] == scanned;
  }

  /** One pass of the loop body on the scratch buffer: a hex digit is stored upper-cased
      at `codePos`; a separator after 12 or more digits flushes; anything else is
      skipped. */
  method ScanChar(codeLine: array<char>, codePos: nat, c: char, ghost d: Decoder, name: string,
                  events: seq<CheatEvent>) returns (pos: nat, after: seq<CheatEvent>)
    requires codePos == |d.acc| && AllUpperHex(d.acc) && events == d.events
    requires codePos + 5 <= codeLine.Length
    requires codeLine[..codePos] == d.acc
    requires forall j :: codePos <= j < codeLine.Length ==> codeLine[j] == NUL
    modifies codeLine
    ensures pos <= codePos + 1 && pos <= codeLine.Length
    ensures Step(d, c, name) == Decoder(codeLine[..pos], after)
    ensures forall j :: pos <= j < codeLine.Length ==> codeLine[j] == NUL
  {
    pos, after := codePos, events;
    if IsHexDigit(c) {
      codeLine[codePos] := ToUpper(c);
      pos := codePos + 1;
      assert codeLine[..pos] == d.acc + [ToUpper(c)];
    } else if codePos >= CbaDigits {
      var e := FlushLine(codeLine, codePos, d.acc, name);
      after := events + [e];
      pos := 0;
    }
  }

  /** The flush branch on the scratch buffer: the 12-digit reformat, the 16-digit
      terminator, or the terminator after an invalid run; then `memset` clears the
      buffer. The texts handed on are the buffer read as a C string. */
  method FlushLine(codeLine: array<char>, codePos: nat, ghost acc: string, name: string) returns (e: CheatEvent)
    requires codePos == |acc| && codePos >= CbaDigits && AllUpperHex(acc)
    requires codePos + 5 <= codeLine.Length
    requires codeLine[..codePos] == acc
    requires forall j :: codePos <= j < codeLine.Length ==> codeLine[j] == NUL
    modifies codeLine
    ensures e == Flush(acc, name)
    ensures forall j :: 0 <= j < codeLine.Length ==> codeLine[j] == NUL
  {
    var line: string;
    if codePos == CbaDigits {
      ShiftLastFour(codeLine, acc);
      codeLine[8] := ' ';
      codeLine[13] := NUL;
      CbaLine(codeLine[..], acc);
      line := CString(codeLine[..]);
      e := AddCbaCode(line, name);
    } else if codePos == GsaDigits {
      codeLine[16] := NUL;
      RunLine(codeLine[..], acc);
      line := CString(codeLine[..]);
      e := AddGsaCode(line, name, true);
    } else {
      codeLine[codePos] := NUL;
      RunLine(codeLine[..], acc);
      line := CString(codeLine[..]);
      e := InvalidCode(line);
    }
    forall j | 0 <= j < codeLine.Length {
      codeLine[j] := NUL;
    }
  }

  /** The in-place reformat of a 12-digit run: `codeLine[12 - i] = codeLine[11 - i]` for
      i = 0 .. 3 moves digits 8 .. 11 one cell right. */
  method ShiftLastFour(codeLine: array<char>, ghost acc: string)
    requires |acc| == CbaDigits && codeLine.Length >= GsaDigits + 1
    requires codeLine[..CbaDigits] == acc
    requires forall j :: CbaDigits <= j < codeLine.Length ==> codeLine[j] == NUL
    modifies codeLine
    ensures codeLine[..8] == acc[..8] && codeLine[9..13] == acc[8..]
    ensures forall j :: 13 <= j < codeLine.Length ==> codeLine[j] == NUL
  {
    var i := 0;
    while i < 4
      invariant 0 <= i <= 4
      invariant forall j :: 0 <= j < CbaDigits - i ==> codeLine[j] == acc[j]
      invariant forall j :: CbaDigits - i < j <= CbaDigits ==> codeLine[j] == acc[j - 1]
      invariant forall j :: 13 <= j < codeLine.Length ==> codeLine[j] == NUL
    {
      codeLine[CbaDigits - i] := codeLine[CbaDigits - i - 1];
      i := i + 1;
    }
  }

  /** After the space and terminator are written, the buffer reads as the CBA record. */
  lemma CbaLine(line: string, acc: string)
    requires |acc| == CbaDigits && AllUpperHex(acc) && |line| > 13
    requires line[..8] == acc[..8] && line[8] == ' ' && line[9..13] == acc[8..] && line[13] == NUL
    ensures CString(line) == CbaText(acc)
  {
    forall i | 0 <= i < 13
      ensures line[i] != NUL
    {
      if i < 8 {
        assert line[i] == acc[i];
      } else if i > 8 {
        assert line[i] == line[9..13][i - 9] == acc[i - 1];
      }
    }
    CStringAt(line, 13);
    assert line[..13] == CbaText(acc);
  }

  /** A buffer holding a run of digits followed by NUL reads as the run. */
  lemma RunLine(line: string, acc: string)
    requires AllUpperHex(acc) && |acc| < |line|
    requires line[..|acc|] == acc && line[|acc|] == NUL
    ensures CString(line) == acc
  {
    forall i | 0 <= i < |acc|
      ensures line[i] != NUL
    {
      assert line[i] == acc[i];
    }
    CStringAt(line, |acc|);
  }

  /** Decoding with the log callback taken into account. `retro_init` leaves `log_cb`
      NULL when the frontend has no log interface; a call through it then ends the
      process. `Crashed` keeps what reached the cheat list before that call. */
  datatype Progress = Running(d: Decoder) | Crashed(events: seq<CheatEvent>)

  /** One iteration with logging. `guarded` says whether the log calls are wrapped in
      `if (log_cb)` as at every other call site of the file; as written they are not.
      The add call comes before its log line, the invalid-code log line is the only call. */
  function StepLogged(p: Progress, c: char, name: string, hasLogger: bool, guarded: bool): Progress {
    match p
    case Crashed(_) => p
    case Running(d) =>
      if !IsHexDigit(c) && |d.acc| >= CbaDigits && !hasLogger && !guarded then
        var e := Flush(d.acc, name);
        Crashed(if e.InvalidCode? then d.events else d.events + [e])
      else Running(Step(d, c, name))
  }

  function RunLogged(text: string, name: string, hasLogger: bool, guarded: bool): Progress
    decreases |text|
  {
    if text == [] then Running(Start)
    else StepLogged(RunLogged(text[..|text| - 1], name, hasLogger, guarded), text[|text| - 1], name, hasLogger, guarded)
  }

  /** `retro_cheat_set` as written, with or without a logger. */
  function CheatSetAsWritten(index: u32, enabled: bool, code: string, hasLogger: bool): Progress {
    RunLogged(Scanned(code), CheatName(index), hasLogger, false)
  }

  /** `retro_cheat_set` with its three log calls guarded by `if (log_cb)`. */
  function CheatSetGuarded(index: u32, enabled: bool, code: string, hasLogger: bool): Progress {
    RunLogged(Scanned(code), CheatName(index), hasLogger, true)
  }

  /** Events are only ever appended. */
  lemma {:induction false} RunEventsGrow(text: string, k: nat, name: string)
    requires k <= |text|
    ensures |Run(Start, text[..k], name).events| <= |Run(Start, text, name).events|
    decreases |text|
  {
    if k < |text| {
      var prefix := text[..|text| - 1];
      assert prefix[..k] == text[..k];
      RunEventsGrow(prefix, k, name);
    } else {
      assert text[..k] == text;
    }
  }

  /** With a logger, or with the guards, logging never interferes: the run is the
      decoder's run. */
  lemma {:induction false} LoggedRunAgrees(text: string, name: string, hasLogger: bool, guarded: bool)
    requires hasLogger || guarded
    ensures RunLogged(text, name, hasLogger, guarded) == Running(Run(Start, text, name))
    decreases |text|
  {
    if text != [] {
      LoggedRunAgrees(text[..|text| - 1], name, hasLogger, guarded);
    }
  }

  /** Without a logger the code as written crashes exactly when the text contains
      something to flush, and otherwise behaves as the decoder. */
  lemma {:induction false} UnguardedCrashesOnFlush(text: string, name: string)
    ensures RunLogged(text, name, false, false).Crashed? <==> Run(Start, text, name).events != []
    ensures RunLogged(text, name, false, false).Running? ==> RunLogged(text, name, false, false) == Running(Run(Start, text, name))
    decreases |text|
  {
    if text != [] {
      var prefix := text[..|text| - 1];
      UnguardedCrashesOnFlush(prefix, name);
      RunEventsGrow(text, |text| - 1, name);
    }
  }

  /** As written: a lone 12-digit code with no log interface crashes on the terminator,
      after the code was added. */
  lemma UnguardedCrashExample(index: u32, enabled: bool, code: string)
    requires code == "1234567890AB"
    ensures CheatSetAsWritten(index, enabled, code, false).Crashed?
    ensures CheatSetAsWritten(index, enabled, code, false).events == [AddCbaCode("12345678 90AB", CheatName(index))]
  {
    ScannedNulFree(code);
    CbaOfTwelve(code);
    UnguardedTwelveDigits(code, CheatName(index));
  }

  /** Twelve digits then the terminator: the add happens, then the unguarded log call. */
  lemma UnguardedTwelveDigits(digits: string, name: string)
    requires |digits| == CbaDigits && AllUpperHex(digits)
    ensures RunLogged(digits + [NUL], name, false, false) == Crashed([AddCbaCode(CbaText(digits), name)])
  {
    assert forall i :: 0 <= i < |digits| ==> IsHexDigit(digits[i]);
    HexRunAccumulates(Start, digits, name);
    assert UpperText(digits) == digits;
    GuardedPrefix(digits, name);
    var text := digits + [NUL];
    assert text[..|text| - 1] == digits;
    assert text[|text| - 1] == NUL;
    assert RunLogged(digits, name, false, false) == Running(Decoder(digits, []));
    assert RunLogged(text, name, false, false) == StepLogged(Running(Decoder(digits, [])), NUL, name, false, false);
    assert !IsHexDigit(NUL);
    assert Flush(digits, name) == AddCbaCode(CbaText(digits), name);
  }

  /** A run of digits alone never flushes, so no log call happens while reading it. */
  lemma GuardedPrefix(digits: string, name: string)
    requires forall i :: 0 <= i < |digits| ==> IsHexDigit(digits[i])
    ensures RunLogged(digits, name, false, false) == Running(Run(Start, digits, name))
  {
    HexRunAccumulates(Start, digits, name);
    UnguardedCrashesOnFlush(digits, name);
  }

  /** Corrected: with the guards a call never crashes, logger or not, and produces the
      decoder's events. */
  lemma GuardedNeverCrashes(index: u32, enabled: bool, code: string, hasLogger: bool)
    ensures CheatSetGuarded(index, enabled, code, hasLogger) == Running(Run(Start, Scanned(code), CheatName(index)))
    ensures CheatSetGuarded(index, enabled, code, hasLogger).d.events == CheatSet(index, enabled, code)
  {
    LoggedRunAgrees(Scanned(code), CheatName(index), hasLogger, true);
  }
}
