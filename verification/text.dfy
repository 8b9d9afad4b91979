/** The string handling the input parser relies on: JavaScript's notion of
    white space (what `String.prototype.trim` removes and what `\s` matches),
    trimming, splitting a line into white-space separated tokens, and the
    decimal integer conversions `parseInt(token, 10)` and number-to-string. */
module Text {
  import opened Wrappers

  /** The ECMAScript WhiteSpace and LineTerminator code points: tab, line feed,
      vertical tab, form feed, carriage return, space, no-break space, the
      Unicode space separators, line and paragraph separators, and the byte
      order mark. */
  predicate IsSpace(c: char) {
    || c == ' '
    || ('\t' <= c <= '\r')
    || ('\U{A0}' <= c && IsWideSpace(c))
  }

  /** The white-space code points outside ASCII. */
  predicate IsWideSpace(c: char) {
    var n := c as int;
    || n == 0xA0 || n == 0x1680
    || (0x2000 <= n <= 0x200A)
    || n == 0x2028 || n == 0x2029 || n == 0x202F || n == 0x205F
    || n == 0x3000 || n == 0xFEFF
  }

  predicate AllSpace(s: string) {
    forall i :: 0 <= i < |s| ==> IsSpace(s[i])
  }

  predicate NoSpace(s: string) {
    forall i :: 0 <= i < |s| ==> !IsSpace(s[i])
  }

  /** `s` without its leading white space. */
  function TrimStart(s: string): (t: string)
    ensures |t| <= |s| && t == s[|s| - |t|..]
    ensures forall i :: 0 <= i < |s| - |t| ==> IsSpace(s[i])
    ensures t != [] ==> !IsSpace(t[0])
  {
    if s != [] && IsSpace(s[0]) then
      var t := TrimStart(s[1..]);
      assert forall i :: 1 <= i < |s| ==> s[i] == s[1..][i - 1];
      t
    else s
  }

  /** `s` without its trailing white space. */
  function TrimEnd(s: string): (t: string)
    ensures |t| <= |s| && t == s[..|t|]
    ensures forall i :: |t| <= i < |s| ==> IsSpace(s[i])
    ensures t != [] ==> !IsSpace(t[|t| - 1])
  {
    if s != [] && IsSpace(s[|s| - 1]) then TrimEnd(s[..|s| - 1]) else s
  }

  /** `t` is the stretch of `s` starting at `i`, with only white space
      before and after it. */
  predicate TrimmedAt(s: string, t: string, i: int) {
    && 0 <= i <= |s| - |t| && t == s[i..i + |t|]
    && AllSpace(s[..i]) && AllSpace(s[i + |t|..])
  }

  lemma TrimmedAtLead(s: string, a: string, t: string)
    requires |a| <= |s| && a == s[|s| - |a|..]
    requires forall k :: 0 <= k < |s| - |a| ==> IsSpace(s[k])
    requires |t| <= |a| && t == a[..|t|]
    requires forall k :: |t| <= k < |a| ==> IsSpace(a[k])
    ensures TrimmedAt(s, t, |s| - |a|)
  {
    var i := |s| - |a|;
    assert forall k :: 0 <= k < i ==> s[..i][k] == s[k];
    var rest := s[i + |t|..];
    assert rest == a[|t|..];
    assert forall k :: 0 <= k < |rest| ==> rest[k] == a[|t|..][k];
  }

  /** `String.prototype.trim`. */
  function Trim(s: string): (t: string)
    ensures |t| <= |s|
    ensures exists i :: TrimmedAt(s, t, i)
    ensures t != [] ==> !IsSpace(t[0]) && !IsSpace(t[|t| - 1])
    ensures t == [] <==> AllSpace(s)
  {
    var a := TrimStart(s);
    var t := TrimEnd(a);
    TrimmedAtLead(s, a, t);
    assert t == [] ==> AllSpace(s) by {
      if t == [] {
        assert s == s[..|s| - |a|] + a;
        assert a == a[|t|..];
      }
    }
    t
  }

  /** A line the input loop ignores: nothing but white space, so that
      `line.trim()` is the empty, falsy, string (see `BlankIffTrimEmpty`). */
  predicate IsBlank(line: string) {
    AllSpace(line)
  }

  lemma BlankIffTrimEmpty(line: string)
    ensures IsBlank(line) <==> Trim(line) == []
  {
  }

  /** A token: non-empty and free of white space. */
  predicate IsWord(w: string) {
    w != [] && NoSpace(w)
  }

  /** The longest prefix of `s` that holds no white space. */
  function Word(s: string): (w: string)
    ensures w <= s && NoSpace(w)
    ensures |w| < |s| ==> IsSpace(s[|w|])
    ensures s != [] && !IsSpace(s[0]) ==> w != []
  {
    if s == [] || IsSpace(s[0]) then [] else [s[0]] + Word(s[1..])
  }

  /** `line.trim().split(/\s+/g)` for a line that is not blank: the maximal
      runs of non-white-space characters, in order. */
  function Tokens(s: string): (ts: seq<string>)
    ensures forall i :: 0 <= i < |ts| ==> IsWord(ts[i])
    decreases |s|
  {
    if s == [] then []
    else if IsSpace(s[0]) then Tokens(s[1..])
    else
      var w := Word(s);
      [w] + Tokens(s[|w|..])
  }

  /** Words joined by single spaces: the shape of every line the simulator prints. */
  function Join(ws: seq<string>): string {
    if |ws| == 0 then []
    else if |ws| == 1 then ws[0]
    else ws[0] + " " + Join(ws[1..])
  }

  lemma {:induction false} WordOfJoined(w: string, rest: string)
    requires NoSpace(w)
    requires rest == [] || IsSpace(rest[0])
    ensures Word(w + rest) == w
    decreases |w|
  {
    if w == [] {
    } else {
      assert (w + rest)[1..] == w[1..] + rest;
      WordOfJoined(w[1..], rest);
    }
  }

  lemma {:induction false} TokensSkipSpace(c: char, rest: string)
    requires IsSpace(c)
    ensures Tokens([c] + rest) == Tokens(rest)
  {
    assert ([c] + rest)[1..] == rest;
  }

  lemma {:induction false} TokensOfWordThen(w: string, rest: string)
    requires w != [] && NoSpace(w)
    requires rest == [] || IsSpace(rest[0])
    ensures Tokens(w + rest) == [w] + Tokens(rest)
  {
    WordOfJoined(w, rest);
    assert (w + rest)[|w|..] == rest;
  }

  /** Splitting a joined line gives back the words: `Tokens` and `Join` are inverse
      on lists of non-empty words free of white space. */
  lemma {:induction false} TokensOfJoin(ws: seq<string>)
    requires forall i :: 0 <= i < |ws| ==> IsWord(ws[i])
    ensures Tokens(Join(ws)) == ws
    decreases |ws|
  {
    if |ws| == 0 {
    } else if |ws| == 1 {
      TokensOfWordThen(ws[0], []);
      assert ws[0] + [] == ws[0];
    } else {
      var rest := Join(ws[1..]);
      assert Join(ws) == ws[0] + (" " + rest);
      TokensOfWordThen(ws[0], " " + rest);
      TokensSkipSpace(' ', rest);
      TokensOfJoin(ws[1..]);
    }
  }

  /** A line laid out as white-space gaps around words:
      `gaps[0] + ws[0] + gaps[1] + ... + ws[n - 1] + gaps[n]`. */
  function Layout(gaps: seq<string>, ws: seq<string>): string
    requires |gaps| == |ws| + 1
    decreases |ws|
  {
    if ws == [] then gaps[0] else gaps[0] + ws[0] + Layout(gaps[1..], ws[1..])
  }

  /** Every gap is white space (tabs and runs included), the gaps between two
      words are not empty, and every word is a token. */
  predicate WellSpaced(gaps: seq<string>, ws: seq<string>)
    requires |gaps| == |ws| + 1
  {
    && (forall i :: 0 <= i < |gaps| ==> AllSpace(gaps[i]))
    && (forall i :: 0 < i < |ws| ==> gaps[i] != [])
    && (forall i :: 0 <= i < |ws| ==> IsWord(ws[i]))
  }

  lemma {:induction false} TokensSkipGap(gap: string, rest: string)
    requires AllSpace(gap)
    ensures Tokens(gap + rest) == Tokens(rest)
    decreases |gap|
  {
    if gap == [] {
      assert gap + rest == rest;
    } else {
      var tail := gap[1..] + rest;
      assert gap + rest == [gap[0]] + tail;
      TokensSkipSpace(gap[0], tail);
      assert AllSpace(gap[1..]) by {
        assert forall k :: 0 <= k < |gap[1..]| ==> gap[1..][k] == gap[k + 1];
      }
      TokensSkipGap(gap[1..], rest);
    }
  }

  /** `split(/\s+/g)` of a trimmed line: however the words are separated,
      and whatever white space surrounds them, the tokens are the words. */
  lemma {:induction false} TokensOfLayout(gaps: seq<string>, ws: seq<string>)
    requires |gaps| == |ws| + 1 && WellSpaced(gaps, ws)
    ensures Tokens(Layout(gaps, ws)) == ws
    decreases |ws|
  {
    if ws == [] {
      assert gaps[0] + [] == gaps[0];
      TokensSkipGap(gaps[0], []);
    } else {
      var gs, rs := gaps[1..], ws[1..];
      var rest := Layout(gs, rs);
      assert Layout(gaps, ws) == gaps[0] + (ws[0] + rest);
      TokensSkipGap(gaps[0], ws[0] + rest);
      WellSpacedTail(gaps, ws);
      LayoutLead(gs, rs);
      TokensOfWordThen(ws[0], rest);
      TokensOfLayout(gs, rs);
    }
  }

  lemma WellSpacedTail(gaps: seq<string>, ws: seq<string>)
    requires |gaps| == |ws| + 1 && WellSpaced(gaps, ws) && ws != []
    ensures WellSpaced(gaps[1..], ws[1..])
    ensures AllSpace(gaps[0]) && IsWord(ws[0])
  {
    var gs, rs := gaps[1..], ws[1..];
    assert forall i :: 0 <= i < |gs| ==> gs[i] == gaps[i + 1];
    assert forall i :: 0 <= i < |rs| ==> rs[i] == ws[i + 1];
  }

  /** A layout whose leading gap is white space, and not empty when a word
      follows, is empty or starts with white space. */
  lemma LayoutLead(gaps: seq<string>, ws: seq<string>)
    requires |gaps| == |ws| + 1 && AllSpace(gaps[0])
    requires ws != [] ==> gaps[0] != []
    ensures var l := Layout(gaps, ws); l == [] || IsSpace(l[0])
  {
    if ws != [] {
      assert Layout(gaps, ws) == gaps[0] + (ws[0] + Layout(gaps[1..], ws[1..]));
    }
  }

  /** The white space around and between the tokens of a line: together with
      `TokensOfLayout` this pins `Tokens` down on every line, since every line
      is laid out from its own tokens. */
  ghost function Gaps(s: string): (gaps: seq<string>)
    ensures |gaps| == |Tokens(s)| + 1 && WellSpaced(gaps, Tokens(s))
    ensures Layout(gaps, Tokens(s)) == s
    ensures s != [] && IsSpace(s[0]) ==> gaps[0] != []
    decreases |s|
  {
    if s == [] then [[]]
    else if IsSpace(s[0]) then
      var g := Gaps(s[1..]);
      WiderLead(s[0], g, Tokens(s[1..]));
      assert s == [s[0]] + s[1..];
      [[s[0]] + g[0]] + g[1..]
    else
      var w := Word(s);
      var rest := s[|w|..];
      var g := Gaps(rest);
      assert Tokens(s) == [w] + Tokens(rest);
      assert s == w + rest;
      WordFirst(w, g, Tokens(rest));
      [[]] + g
  }

  /** Widening the leading gap of a layout by one white-space character. */
  lemma WiderLead(c: char, gaps: seq<string>, ws: seq<string>)
    requires IsSpace(c) && |gaps| == |ws| + 1 && WellSpaced(gaps, ws)
    ensures var wider := [[c] + gaps[0]] + gaps[1..];
      && WellSpaced(wider, ws) && wider[0] != []
      && Layout(wider, ws) == [c] + Layout(gaps, ws)
  {
    WiderLeadLayout(c, gaps, ws);
    WiderLeadSpaced(c, gaps, ws);
  }

  lemma WiderLeadLayout(c: char, gaps: seq<string>, ws: seq<string>)
    requires |gaps| == |ws| + 1
    ensures Layout([[c] + gaps[0]] + gaps[1..], ws) == [c] + Layout(gaps, ws)
  {
    var wider := [[c] + gaps[0]] + gaps[1..];
    assert wider[0] == [c] + gaps[0] && wider[1..] == gaps[1..];
  }

  lemma WiderLeadSpaced(c: char, gaps: seq<string>, ws: seq<string>)
    requires IsSpace(c) && |gaps| == |ws| + 1 && WellSpaced(gaps, ws)
    ensures WellSpaced([[c] + gaps[0]] + gaps[1..], ws)
  {
    var wider := [[c] + gaps[0]] + gaps[1..];
    SpaceCons(c, gaps[0]);
    assert forall i :: 0 < i < |wider| ==> wider[i] == gaps[i];
  }

  lemma SpaceCons(c: char, gap: string)
    requires IsSpace(c) && AllSpace(gap)
    ensures AllSpace([c] + gap)
  {
    var g := [c] + gap;
    assert forall k :: 0 < k < |g| ==> g[k] == gap[k - 1];
  }

  /** A word in front of a layout whose leading gap separates it from the
      next word. */
  lemma WordFirst(w: string, gaps: seq<string>, ws: seq<string>)
    requires IsWord(w) && |gaps| == |ws| + 1 && WellSpaced(gaps, ws)
    requires ws != [] ==> gaps[0] != []
    ensures WellSpaced([[]] + gaps, [w] + ws)
    ensures Layout([[]] + gaps, [w] + ws) == w + Layout(gaps, ws)
  {
    var gs, rs := [[]] + gaps, [w] + ws;
    assert gs[1..] == gaps && rs[1..] == ws;
    assert forall i :: 0 < i < |gs| ==> gs[i] == gaps[i - 1];
    assert forall i :: 0 < i < |rs| ==> rs[i] == ws[i - 1];
    assert [] + w == w;
  }

  // ---- decimal numbers ----

  predicate IsDigit(c: char) {
    '0' <= c <= '9'
  }

  predicate AllDigits(s: string) {
    forall i :: 0 <= i < |s| ==> IsDigit(s[i])
  }

  function DigitChar(d: nat): (c: char)
    requires d < 10
    ensures IsDigit(c) && DigitValue(c) == d
  {
    (('0' as int) + d) as char
  }

  function DigitValue(c: char): (d: nat)
    requires IsDigit(c)
    ensures d < 10
  {
    (c as int) - ('0' as int)
  }

  /** The decimal rendering of a natural number, without leading zeros. */
  function NatToString(n: nat): (s: string)
    ensures s != [] && AllDigits(s)
    ensures |s| > 1 ==> s[0] != '0'
    decreases n
  {
    if n < 10 then [DigitChar(n)] else NatToString(n / 10) + [DigitChar(n % 10)]
  }

  /** How JavaScript prints an integral number (template-literal interpolation). */
  function IntToString(n: int): (s: string)
    ensures s != [] && NoSpace(s)
    ensures n < 0 <==> s[0] == '-'
  {
    if n < 0 then "-" + NatToString(-n) else NatToString(n)
  }

  /** The value of a string of decimal digits, most significant first. */
  function DigitsValue(ds: string): nat
    requires AllDigits(ds)
  {
    if ds == [] then 0 else DigitsValue(ds[..|ds| - 1]) * 10 + DigitValue(ds[|ds| - 1])
  }

  /** Length of the run of decimal digits that starts `s`. */
  function DigitRun(s: string): (k: nat)
    ensures k <= |s| && AllDigits(s[..k])
    ensures k < |s| ==> !IsDigit(s[k])
  {
    if s == [] || !IsDigit(s[0]) then 0 else 1 + DigitRun(s[1..])
  }

  /** `parseInt(token, 10)`: an optional sign, then the longest run of decimal
      digits; anything after that run is ignored. `None` stands for the NaN the
      source gets when no digit follows the sign. */
  function ParseInt(tok: string): (r: Option<int>)
    ensures r.Some? <==> exists k :: 0 <= k <= 1 && k < |tok| && IsDigit(tok[k]) && (k == 1 ==> tok[0] in "+-")
  {
    var signed := tok != [] && (tok[0] == '-' || tok[0] == '+');
    var body := if signed then tok[1..] else tok;
    var k := DigitRun(body);
    if k == 0 then None
    else
      var v: int := DigitsValue(body[..k]);
      Some(if signed && tok[0] == '-' then -v else v)
  }

  lemma {:induction false} DigitsValueOfNatToString(n: nat)
    ensures DigitsValue(NatToString(n)) == n
    decreases n
  {
    var s := NatToString(n);
    if n >= 10 {
      assert s[..|s| - 1] == NatToString(n / 10);
      DigitsValueOfNatToString(n / 10);
    }
  }

  lemma {:induction false} DigitRunOfDigits(s: string)
    requires AllDigits(s)
    ensures DigitRun(s) == |s|
    decreases |s|
  {
    if s != [] {
      DigitRunOfDigits(s[1..]);
    }
  }

  /** Printing an integer and parsing it back with `parseInt` gives the integer. */
  lemma IntToStringRoundTrip(n: int)
    ensures ParseInt(IntToString(n)) == Some(n)
  {
    var m: nat := if n < 0 then -n else n;
    var ds := NatToString(m);
    DigitRunOfDigits(ds);
    DigitsValueOfNatToString(m);
    assert ds[..|ds|] == ds;
    if n < 0 {
      assert ("-" + ds)[1..] == ds;
    }
  }
}
