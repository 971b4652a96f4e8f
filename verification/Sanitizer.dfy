/** The terminal sanitizer: an index-jumping scanner, and the one-rune-at-a-time automaton it
    is proved equal to. Sequence shapes follow section 5.4 (control sequences) and section 5.6
    (control strings) of ECMA-48, with BEL as a further terminator of control strings. */
module Sanitizer {

  const ESC: char := '\U{1b}'
  const BEL: char := '\U{07}'
  const DEL: char := '\U{7f}'

  /** C0 controls other than newline and tab, DEL, and the C1 range. */
  predicate IsStrippedControl(r: char) {
    r != '\n' && r != '\t' && (r <= '\U{1f}' || r == DEL || '\U{80}' <= r <= '\U{9f}')
  }

  predicate IsFinalByte(r: char) { '\U{40}' <= r <= '\U{7e}' }

  // ---------------------------------------------------------------------------------------
  // The automaton
  // ---------------------------------------------------------------------------------------

  /** `OscEscape` is inside a control string, just after an ESC that may begin its terminator. */
  datatype Mode = Ground | Escape | Csi | Osc | OscEscape

  function After(m: Mode, r: char): Mode {
    match m
    case Ground => if r == ESC then Escape else Ground
    case Escape => if r == '[' then Csi else if r == ']' then Osc else Ground
    case Csi => if IsFinalByte(r) then Ground else Csi
    case Osc => if r == BEL then Ground else if r == ESC then OscEscape else Osc
    case OscEscape => if r == BEL || r == '\\' then Ground else if r == ESC then OscEscape else Osc
  }

  /** What a rune leaves on the screen. */
  function Shown(m: Mode, r: char): string {
    if m == Ground && !IsStrippedControl(r) then [r] else ""
  }

  function ModeAfter(m: Mode, s: string): Mode
    decreases |s|
  {
    if s == "" then m else ModeAfter(After(m, s[0]), s[1..])
  }

  function Filter(m: Mode, s: string): string
    decreases |s|
  {
    if s == "" then "" else Shown(m, s[0]) + Filter(After(m, s[0]), s[1..])
  }

  lemma {:induction false} FilterAppend(m: Mode, a: string, b: string)
    ensures Filter(m, a + b) == Filter(m, a) + Filter(ModeAfter(m, a), b)
    ensures ModeAfter(m, a + b) == ModeAfter(ModeAfter(m, a), b)
    decreases |a|
  {
    if a == "" {
      assert a + b == b;
    } else {
      assert (a + b)[1..] == a[1..] + b;
      FilterAppend(After(m, a[0]), a[1..], b);
    }
  }

  // ---------------------------------------------------------------------------------------
  // The scanner
  // ---------------------------------------------------------------------------------------

  lemma OneRune(runes: string, m: Mode, i: nat)
    requires i < |runes|
    ensures Filter(m, runes[i..]) == Shown(m, runes[i]) + Filter(After(m, runes[i]), runes[i + 1..])
    ensures Shown(m, runes[i]) == "" ==> Filter(m, runes[i..]) == Filter(After(m, runes[i]), runes[i + 1..])
  {
    assert runes[i..][1..] == runes[i + 1..];
  }

  lemma NothingLeft(runes: string, m: Mode)
    ensures Filter(m, runes[|runes|..]) == ""
  {
  }

  /** Strips control bytes and escape sequences: computes what the automaton shows. */
  method Sanitize(s: string) returns (out: string)
    ensures out == Filter(Ground, s)
  {
    hide Filter;
    out := "";
    var i := 0;
    NothingLeft(s, Ground);
    assert s[0..] == s;
    while i < |s|
      invariant 0 <= i <= |s|
      invariant out + Filter(Ground, s[i..]) == Filter(Ground, s)
    {
      var r := s[i];
      OneRune(s, Ground, i);
      if r == ESC {
        i := SkipEscapeSequence(s, i);
      } else if !IsStrippedControl(r) {
        out := out + [r];
      }
      i := i + 1;
    }
  }

  /** Returns the index of the last rune of the sequence that begins at `i`; a sequence that is
      cut off consumes the rest. */
  method SkipEscapeSequence(runes: string, i: nat) returns (last: nat)
    requires i < |runes| && runes[i] == ESC
    ensures i <= last < |runes|
    ensures Filter(Ground, runes[i..]) == Filter(Ground, runes[last + 1..])
  {
    hide Filter;
    NothingLeft(runes, Ground);
    NothingLeft(runes, Escape);
    OneRune(runes, Ground, i);
    if i + 1 >= |runes| {
      return i;
    }
    OneRune(runes, Escape, i + 1);
    if runes[i + 1] == '[' {
      last := SkipCSI(runes, i + 2);
    } else if runes[i + 1] == ']' {
      last := SkipOSC(runes, i + 2);
    } else {
      last := i + 1;
    }
  }

  method SkipCSI(runes: string, start: nat) returns (last: nat)
    requires 0 < start <= |runes|
    ensures start - 1 <= last < |runes|
    ensures Filter(Csi, runes[start..]) == Filter(Ground, runes[last + 1..])
  {
    hide Filter;
    NothingLeft(runes, Csi);
    NothingLeft(runes, Ground);
    var j := start;
    while j < |runes|
      invariant start <= j <= |runes|
      invariant Filter(Csi, runes[start..]) == Filter(Csi, runes[j..])
    {
      OneRune(runes, Csi, j);
      if IsFinalByte(runes[j]) {
        return j;
      }
      j := j + 1;
    }
    return j - 1;
  }

  method SkipOSC(runes: string, start: nat) returns (last: nat)
    requires 1 < start <= |runes| && runes[start - 1] == ']'
    ensures start - 1 <= last < |runes|
    ensures Filter(Osc, runes[start..]) == Filter(Ground, runes[last + 1..])
  {
    hide Filter;
    NothingLeft(runes, Osc);
    NothingLeft(runes, OscEscape);
    NothingLeft(runes, Ground);
    var j := start;
    while j < |runes|
      invariant start <= j <= |runes|
      invariant Filter(Osc, runes[start..]) == Filter(Osc, runes[j..]) ||
                (j > start && runes[j - 1] == ESC && Filter(Osc, runes[start..]) == Filter(OscEscape, runes[j..]))
      invariant j < |runes| && runes[j] == '\\' ==> Filter(Osc, runes[start..]) == Filter(Osc, runes[j..])
    {
      OneRune(runes, Osc, j);
      OneRune(runes, OscEscape, j);
      if runes[j] == BEL {
        return j;
      }
      if runes[j] == ESC && j + 1 < |runes| && runes[j + 1] == '\\' {
        OneRune(runes, OscEscape, j + 1);
        return j + 1;
      }
      j := j + 1;
    }
    return j - 1;
  }

  // ---------------------------------------------------------------------------------------
  // What sanitized text is like
  // ---------------------------------------------------------------------------------------

  predicate Clean(s: string) { forall i :: 0 <= i < |s| ==> !IsStrippedControl(s[i]) }

  lemma {:induction false} FilterIsClean(m: Mode, s: string)
    ensures Clean(Filter(m, s))
    decreases |s|
  {
    if s != "" {
      FilterIsClean(After(m, s[0]), s[1..]);
    }
  }

  ghost predicate Subsequence(a: string, b: string) {
    a == "" || (b != "" && (Subsequence(a, b[1..]) || (a[0] == b[0] && Subsequence(a[1..], b[1..]))))
  }

  lemma {:induction false} FilterIsSubsequence(m: Mode, s: string)
    ensures Subsequence(Filter(m, s), s)
    decreases |s|
  {
    if s != "" {
      FilterIsSubsequence(After(m, s[0]), s[1..]);
      var rest := Filter(After(m, s[0]), s[1..]);
      assert Filter(m, s) == rest || (Filter(m, s)[0] == s[0] && Filter(m, s)[1..] == rest);
    }
  }

  lemma {:induction false} FilterKeepsCleanText(s: string)
    requires Clean(s)
    ensures Filter(Ground, s) == s && ModeAfter(Ground, s) == Ground
  {
    if s != "" {
      FilterKeepsCleanText(s[1..]);
    }
  }

  /** Sanitizing is exact: the output is clean, in order, part of the input; it is the input
      itself exactly when that was clean; and sanitizing again changes nothing. */
  lemma SanitizedText(s: string)
    ensures Clean(Filter(Ground, s)) && Subsequence(Filter(Ground, s), s)
    ensures Filter(Ground, s) == s <==> Clean(s)
    ensures Filter(Ground, Filter(Ground, s)) == Filter(Ground, s)
  {
    FilterIsClean(Ground, s);
    FilterIsSubsequence(Ground, s);
    FilterKeepsCleanText(Filter(Ground, s));
    if Clean(s) {
      FilterKeepsCleanText(s);
    }
  }

  /** Sanitizing piece by piece, as the transcript does with streamed deltas, is sanitizing the
      whole exactly when no sequence is open at the cut. */
  lemma PiecewiseExactlyFromGround(a: string)
    ensures (forall b :: Filter(Ground, a + b) == Filter(Ground, a) + Filter(Ground, b)) <==>
            ModeAfter(Ground, a) == Ground
  {
    forall b ensures Filter(Ground, a + b) == Filter(Ground, a) + Filter(ModeAfter(Ground, a), b) {
      FilterAppend(Ground, a, b);
    }
    if ModeAfter(Ground, a) != Ground {
      var m := ModeAfter(Ground, a);
      assert Filter(m, "@") == "" && Filter(Ground, "@") == "@";
      assert Filter(Ground, a + "@") != Filter(Ground, a) + Filter(Ground, "@");
    }
  }

  // ---------------------------------------------------------------------------------------
  // Which runes vanish
  // ---------------------------------------------------------------------------------------

  /** Outside sequences a rune stays, unless it is a control other than newline and tab. */
  lemma PlainRunesStay(r: char, rest: string)
    requires r != '\U{1b}'
    ensures Filter(Ground, [r] + rest) ==
            (if r == '\n' || r == '\t' || ' ' <= r <= '~' || '\U{a0}' <= r then [r] else "") + Filter(Ground, rest)
  {
    assert ([r] + rest)[1..] == rest;
  }

  /** A control sequence vanishes from its introducer to the first rune from `@` to `~`; without
      one, the rest of the text does. */
  lemma ControlSequencesVanish(params: string, final: char, rest: string)
    requires forall i :: 0 <= i < |params| ==> !('@' <= params[i] <= '~')
    requires '@' <= final <= '~'
    ensures Filter(Ground, "\U{1b}[" + params) == ""
    ensures Filter(Ground, "\U{1b}[" + params + [final] + rest) == Filter(Ground, rest)
  {
    hide Filter, ModeAfter;
    Introduced('[');
    FilterAppend(Ground, "\U{1b}[", params);
    InSequence(params);
    SequenceEnds(final, rest);
    var open := "\U{1b}[" + params;
    FilterAppend(Ground, open, [final] + rest);
    ThreeParts(open, [final], rest);
  }

  lemma ThreeParts(a: string, b: string, c: string)
    ensures a + b + c == a + (b + c)
  {
  }

  lemma SequenceEnds(final: char, rest: string)
    requires '@' <= final <= '~'
    ensures Filter(Csi, [final] + rest) == Filter(Ground, rest)
  {
    assert ([final] + rest)[1..] == rest;
  }

  lemma Introduced(second: char)
    ensures Filter(Ground, ['\U{1b}', second]) == ""
    ensures ModeAfter(Ground, ['\U{1b}', second]) ==
            if second == '[' then Csi else if second == ']' then Osc else Ground
  {
    var text, tail := ['\U{1b}', second], [second];
    assert text[0] == ESC && text[1..] == tail && tail[1..] == "";
    assert Filter(Escape, tail) == "" && ModeAfter(Escape, tail) == After(Escape, second);
    assert Filter(Ground, text) == Shown(Ground, ESC) + Filter(Escape, tail);
    assert ModeAfter(Ground, text) == ModeAfter(Escape, tail);
  }

  lemma {:induction false} InSequence(params: string)
    requires forall i :: 0 <= i < |params| ==> !('@' <= params[i] <= '~')
    ensures Filter(Csi, params) == "" && ModeAfter(Csi, params) == Csi
  {
    if params != "" {
      InSequence(params[1..]);
    }
  }

  /** A control string vanishes from its introducer to the first BEL, or the first ESC that a
      backslash follows; without either, the rest of the text does. */
  lemma ControlStringsVanish(payload: string, rest: string)
    requires '\U{07}' !in payload
    requires forall i :: 0 <= i < |payload| - 1 ==> !(payload[i] == '\U{1b}' && payload[i + 1] == '\\')
    ensures Filter(Ground, "\U{1b}]" + payload) == ""
    ensures Filter(Ground, "\U{1b}]" + payload + "\U{07}" + rest) == Filter(Ground, rest)
    ensures Filter(Ground, "\U{1b}]" + payload + "\U{1b}\\" + rest) == Filter(Ground, rest)
  {
    hide Filter, ModeAfter;
    Introduced(']');
    FilterAppend(Ground, "\U{1b}]", payload);
    InString(payload);
    StringEnds(rest);
    var open := "\U{1b}]" + payload;
    FilterAppend(Ground, open, "\U{07}" + rest);
    FilterAppend(Ground, open, "\U{1b}\\" + rest);
    ThreeParts(open, "\U{07}", rest);
    ThreeParts(open, "\U{1b}\\", rest);
  }

  lemma StringEnds(rest: string)
    ensures forall m :: m == Osc || m == OscEscape ==>
      Filter(m, "\U{07}" + rest) == Filter(Ground, rest) && Filter(m, "\U{1b}\\" + rest) == Filter(Ground, rest)
  {
    assert ("\U{07}" + rest)[1..] == rest;
    assert ("\U{1b}\\" + rest)[1..] == "\\" + rest && ("\\" + rest)[1..] == rest;
    assert Filter(OscEscape, "\\" + rest) == Filter(Ground, rest);
  }

  lemma {:induction false} InString(payload: string)
    requires '\U{07}' !in payload
    requires forall i :: 0 <= i < |payload| - 1 ==> !(payload[i] == '\U{1b}' && payload[i + 1] == '\\')
    ensures Filter(Osc, payload) == ""
    ensures ModeAfter(Osc, payload) ==
            if payload != "" && payload[|payload| - 1] == '\U{1b}' then OscEscape else Osc
  {
    if payload != "" {
      var n := |payload| - 1;
      InString(payload[..n]);
      FilterAppend(Osc, payload[..n], [payload[n]]);
      assert payload == payload[..n] + [payload[n]] && [payload[n]][1..] == "";
      assert payload[n] in payload;
    }
  }

  /** Any other escape takes the rune behind it along, if there is one. */
  lemma OtherEscapesVanish(r: char, rest: string)
    requires r != '[' && r != ']'
    ensures Filter(Ground, "\U{1b}") == ""
    ensures Filter(Ground, ['\U{1b}', r] + rest) == Filter(Ground, rest)
  {
    Introduced(r);
    FilterAppend(Ground, ['\U{1b}', r], rest);
  }
}
