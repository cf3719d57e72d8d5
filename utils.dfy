/**
 * The shared helpers of the card renderer: the integer part of the offset
 * heuristic, the longest line of a text, text sanitising, the Koishi-style
 * flag parser and the merge of parsed options over defaults.
 */
module Utils {
  import opened Wrappers
  import opened Text
  import opened Numbers
  import opened Tokens

  // ---------------------------------------------------------------------
  // calculateOffsets
  // ---------------------------------------------------------------------

  /** Height of the card the text is centred on. */
  const CardHeight := 600
  /** Bound on the vertical offset, either way. */
  const OffsetBound := 240

  /** `text.split('\n')`. */
  function Lines(text: string): (r: seq<string>)
    ensures |r| >= 1
  {
    SplitOn(text, '\n')
  }

  /**
   * `calculateOffsets` given `line_height = int(font_size * line_spacing)`:
   * a quarter of the font size across, and the text block centred on the
   * card, clamped to the offset bound.  Python's `//` is floor division,
   * which is what `/` does on `int` for a positive divisor.
   */
  function Offsets(text: string, fontSize: int, lineHeight: int): (r: (int, int))
    ensures r.0 * 4 <= fontSize < r.0 * 4 + 4
    ensures -OffsetBound <= r.1 <= OffsetBound
    ensures var centred := (CardHeight - lineHeight * |Lines(text)|) / 2;
      (-OffsetBound <= centred <= OffsetBound ==> r.1 == centred)
      && (centred > OffsetBound ==> r.1 == OffsetBound)
      && (centred < -OffsetBound ==> r.1 == -OffsetBound)
  {
    var totalHeight := lineHeight * |Lines(text)|;
    var offsetY := (CardHeight - totalHeight) / 2;
    (fontSize / 4, if offsetY > OffsetBound then OffsetBound else if offsetY < -OffsetBound then -OffsetBound else offsetY)
  }

  /** For a non-negative line height, more lines never move the text further down. */
  lemma {:induction false} OffsetsMoreLines(a: string, b: string, fontSize: int, lineHeight: int)
    requires lineHeight >= 0 && |Lines(a)| <= |Lines(b)|
    ensures Offsets(b, fontSize, lineHeight).1 <= Offsets(a, fontSize, lineHeight).1
  {
    var ha, hb := lineHeight * |Lines(a)|, lineHeight * |Lines(b)|;
    assert ha <= hb by {
      MultiplyMonotone(lineHeight, |Lines(a)|, |Lines(b)|);
    }
    assert (CardHeight - hb) / 2 <= (CardHeight - ha) / 2;
  }

  lemma MultiplyMonotone(k: int, x: int, y: int)
    requires k >= 0 && x <= y
    ensures k * x <= k * y
  {
  }

  // ---------------------------------------------------------------------
  // findLongestLine
  // ---------------------------------------------------------------------

  /** `[line for line in lines if line.strip()]`. */
  function NonBlank(lines: seq<string>): (r: seq<string>)
    ensures forall l | l in r :: !Blank(l) && l in lines
    ensures forall l | l in lines && !Blank(l) :: l in r
  {
    if lines == [] then []
    else
      assert forall l | l in lines[1..] :: l in lines;
      assert forall l | l in lines :: l == lines[0] || l in lines[1..];
      if Blank(lines[0]) then NonBlank(lines[1..]) else [lines[0]] + NonBlank(lines[1..])
  }

  /** Index of what `max(s, key=len)` returns: the first of the longest elements. */
  function FirstLongest(s: seq<string>): (i: nat)
    requires s != []
    ensures i < |s|
    ensures forall j :: 0 <= j < |s| ==> |s[j]| <= |s[i]|
    ensures forall j :: 0 <= j < i ==> |s[j]| < |s[i]|
  {
    if |s| == 1 then 0
    else
      var k := FirstLongest(s[1..]) + 1;
      if |s[0]| >= |s[k]| then 0 else k
  }

  /** `findLongestLine`: "" for empty or all-blank text, else the first longest non-blank line. */
  function LongestLine(text: string): (r: string)
    ensures r == [] <==> forall l | l in Lines(text) :: Blank(l)
    ensures r != [] ==> r in Lines(text) && !Blank(r)
    ensures forall l | l in Lines(text) && !Blank(l) :: |l| <= |r|
  {
    if text == [] then
      assert Lines(text) == [[]];
      ""
    else
      var candidates := NonBlank(Lines(text));
      if candidates == [] then ""
      else
        var i := FirstLongest(candidates);
        assert candidates[i] in candidates;
        assert forall l | l in candidates :: |l| <= |candidates[i]|;
        candidates[i]
  }

  /** The line chosen comes before every other non-blank line of the same length. */
  lemma {:induction false} LongestLineFirst(text: string)
    requires LongestLine(text) != []
    ensures exists i :: (0 <= i < |NonBlank(Lines(text))| && NonBlank(Lines(text))[i] == LongestLine(text)
                         && forall j :: 0 <= j < i ==> |NonBlank(Lines(text))[j]| < |LongestLine(text)|)
  {
    var candidates := NonBlank(Lines(text));
    assert text != [] && candidates != [];
    var i := FirstLongest(candidates);
    assert candidates[i] == LongestLine(text);
  }

  // ---------------------------------------------------------------------
  // sanitizeText
  // ---------------------------------------------------------------------

  /** `re.sub(r'\s+', ' ', s)`: each run of whitespace becomes one space. */
  function Collapse(s: string): (r: string)
    decreases |s|
  {
    if s == [] then []
    else if IsSpace(s[0]) then " " + Collapse(TrimLeft(s))
    else
      var w := WordPrefix(s);
      w + Collapse(s[|w|..])
  }

  /** `s[:n]` for a possibly negative `n`, which counts from the end. */
  function PrefixUpTo(s: string, n: int): (r: string)
    ensures n >= 0 ==> r == s[..if n <= |s| then n else |s|]
    ensures n < 0 ==> r == s[..if |s| + n >= 0 then |s| + n else 0]
  {
    if n >= 0 then (if n <= |s| then s[..n] else s)
    else if |s| + n >= 0 then s[..|s| + n] else []
  }

  /** `sanitizeText`: whitespace collapsed and trimmed, then cut to `maxLength` ending in "...". */
  function Sanitize(text: string, maxLength: int): (r: string)
  {
    if text == [] then ""
    else
      var t := Collapse(Strip(text));
      if |t| > maxLength then PrefixUpTo(t, maxLength - 3) + "..." else t
  }

  /** Collapsing the stripped text is `" ".join(text.split())`. */
  lemma {:induction false} SanitizedWords(text: string)
    ensures Collapse(Strip(text)) == Join(Words(text), " ")
  {
    StripWords(text);
    StripTrimmed(text);
    CollapseTrimmed(Strip(text));
  }

  /** A text short enough comes back as its words joined by single spaces. */
  lemma {:induction false} SanitizeShort(text: string, maxLength: int)
    requires |Join(Words(text), " ")| <= maxLength
    ensures Sanitize(text, maxLength) == Join(Words(text), " ")
  {
    SanitizedWords(text);
    if text == [] {
      assert Words(text) == [];
    }
  }

  /** A text too long is cut to exactly `maxLength` characters, ending in "...", when `maxLength >= 3`. */
  lemma {:induction false} SanitizeLong(text: string, maxLength: int)
    requires maxLength >= 3 && |Join(Words(text), " ")| > maxLength
    ensures var r := Sanitize(text, maxLength);
      |r| == maxLength && r[maxLength - 3..] == "..."
      && r[..maxLength - 3] == Join(Words(text), " ")[..maxLength - 3]
  {
    SanitizedWords(text);
    NoWordsInEmpty();
    var t := Join(Words(text), " ");
    assert text != [];
    assert Sanitize(text, maxLength) == PrefixUpTo(t, maxLength - 3) + "...";
    CutWithEllipsis(t, maxLength);
  }

  lemma CutWithEllipsis(t: string, maxLength: int)
    requires 3 <= maxLength < |t|
    ensures var r := PrefixUpTo(t, maxLength - 3) + "...";
      |r| == maxLength && r[maxLength - 3..] == "..." && r[..maxLength - 3] == t[..maxLength - 3]
  {
  }

  lemma NoWordsInEmpty()
    ensures Words("") == []
  {
  }

  /** Below 3 the cut counts from the end, so the result is longer than `maxLength`. */
  lemma {:induction false} SanitizeTinyLimit(text: string, maxLength: int)
    requires maxLength < 3 && |Join(Words(text), " ")| > maxLength
    ensures |Sanitize(text, maxLength)| > maxLength
  {
    SanitizedWords(text);
    if text == [] {
      assert Words(text) == [];
    }
  }

  lemma StripTrimmed(s: string)
    ensures Trimmed(Strip(s))
  {
  }

  lemma {:induction false} StripWords(s: string)
    ensures Words(Strip(s)) == Words(s)
  {
    WordsOfTrimLeft(s);
    WordsOfTrimRight(TrimLeft(s));
  }

  /** Trailing whitespace separates no word. */
  lemma {:induction false} WordsOfTrimRight(s: string)
    ensures Words(TrimRight(s)) == Words(s)
  {
    var t := TrimRight(s);
    assert s == t + s[|t|..];
    WordsAppendBlank(t, s[|t|..]);
  }

  /** On text with no whitespace at either end, collapsing is joining the words with one space. */
  lemma {:induction false} CollapseTrimmed(t: string)
    requires Trimmed(t)
    ensures Collapse(t) == Join(Words(t), " ")
    decreases |t|
  {
    if t != [] {
      var w := WordPrefix(t);
      var rest := t[|w|..];
      WordFirst(t);
      if rest == [] {
        assert Words(rest) == [] && Collapse(rest) == [];
        calc {
          Collapse(t);
          w + [];
          w;
          Join([w], " ");
          { assert Words(t) == [w] + []; }
          Join(Words(t), " ");
        }
      } else {
        var next := SpaceFirst(t, rest);
        CollapseTrimmed(next);
        JoinCons(w, Words(next), " ");
        var tail := Join(Words(next), " ");
        calc {
          Collapse(t);
          w + Collapse(rest);
          w + (" " + tail);
          { ConcatAssociative(w, " ", tail); }
          w + " " + tail;
          Join([w] + Words(next), " ");
          Join(Words(t), " ");
        }
      }
    }
  }

  lemma ConcatAssociative<T>(a: seq<T>, b: seq<T>, c: seq<T>)
    ensures a + (b + c) == a + b + c
  {
  }

  /** Text that starts with a word: the word leads both the collapsed text and the words. */
  lemma WordFirst(t: string)
    requires t != [] && !IsSpace(t[0])
    ensures Collapse(t) == WordPrefix(t) + Collapse(t[|WordPrefix(t)|..])
    ensures Words(t) == [WordPrefix(t)] + Words(t[|WordPrefix(t)|..])
  {
    assert TrimLeft(t) == t;
  }

  /**
   * The whitespace after the first word of trimmed text `t`: it becomes one
   * space and is followed by more trimmed text, `next`.
   */
  lemma SpaceFirst(t: string, rest: string) returns (next: string)
    requires t != [] && !IsSpace(t[0]) && !IsSpace(t[|t| - 1])
    requires rest == t[|WordPrefix(t)|..] && rest != []
    ensures next == TrimLeft(rest) && |next| < |t| && next != []
    ensures !IsSpace(next[0]) && !IsSpace(next[|next| - 1])
    ensures Collapse(rest) == " " + Collapse(next)
    ensures Words(rest) == Words(next) && Words(next) != []
  {
    next := TrimLeft(rest);
    assert IsSpace(rest[0]);
    assert rest[|rest| - 1] == t[|t| - 1];
    assert rest[..|rest|] == rest;
    assert next[|next| - 1] == rest[|rest| - 1];
    WordsOfTrimLeft(rest);
    assert TrimLeft(next) == next;
  }

  // ---------------------------------------------------------------------
  // parseKoishiFlags: tokenising
  // ---------------------------------------------------------------------

  /** The longest prefix of `s` with neither whitespace nor a double quote: `[^\s"]+`. */
  function PlainPrefix(s: string): (p: string)
    ensures |p| <= |s| && p == s[..|p|]
    ensures forall i :: 0 <= i < |p| ==> !IsSpace(p[i]) && p[i] != '"'
    ensures |p| == |s| || IsSpace(s[|p|]) || s[|p|] == '"'
  {
    if s == [] || IsSpace(s[0]) || s[0] == '"' then [] else [s[0]] + PlainPrefix(s[1..])
  }

  /** Length of one unit of `(?:[^\s"]+|"[^"]*")` at the start of `s`, or 0 when neither alternative matches. */
  function UnitLength(s: string): (n: nat)
    ensures n <= |s|
  {
    if s == [] then 0
    else if s[0] == '"' then
      var close := IndexOf(s[1..], '"');
      if close == |s| - 1 then 0 else close + 2
    else |PlainPrefix(s)|
  }

  /** Length of the greedy match of `(?:[^\s"]+|"[^"]*")+` at the start of `s` (0: no match). */
  function RunLength(s: string): (n: nat)
    ensures n <= |s|
    decreases |s|
  {
    var u := UnitLength(s);
    if u == 0 then 0 else u + RunLength(s[u..])
  }

  /** `re.findall(r'(?:[^\s"]+|"[^"]*")+', s)`: runs of text, a quoted stretch kept whole. */
  function FindParts(s: string): (r: seq<string>)
    ensures forall p | p in r :: p != []
    decreases |s|
  {
    if s == [] then []
    else
      var n := RunLength(s);
      if n == 0 then FindParts(s[1..]) else [s[..n]] + FindParts(s[n..])
  }

  /** Without double quotes the parts are exactly `s.split()`. */
  lemma {:induction false} FindPartsUnquoted(s: string)
    requires '"' !in s
    ensures FindParts(s) == Words(s)
    decreases |s|
  {
    if s != [] {
      assert '"' !in s[1..];
      if IsSpace(s[0]) {
        assert s == [s[0]] + s[1..];
        WordsAfterSpace(s[0], s[1..]);
        FindPartsUnquoted(s[1..]);
      } else {
        var w := WordPrefix(s);
        assert PlainPrefix(s) == w by {
          PlainIsWord(s);
        }
        var rest := s[|w|..];
        assert rest == [] || IsSpace(rest[0]);
        assert UnitLength(rest) == 0;
        assert RunLength(s) == |w|;
        assert TrimLeft(s) == s;
        assert '"' !in rest;
        FindPartsUnquoted(rest);
      }
    }
  }

  lemma {:induction false} PlainIsWord(s: string)
    requires '"' !in s
    ensures PlainPrefix(s) == WordPrefix(s)
    decreases |s|
  {
    if s != [] && !IsSpace(s[0]) {
      assert '"' !in s[1..];
      PlainIsWord(s[1..]);
    }
  }

  /** A double-quoted stretch followed by whitespace or the end is one part, and stripping its quotes gives back what it holds. */
  lemma QuotedPart(q: string, rest: string)
    requires '"' !in q
    requires rest == [] || IsSpace(rest[0])
    ensures FindParts("\"" + q + "\"" + rest) == ["\"" + q + "\""] + FindParts(rest)
    ensures StripQuotes("\"" + q + "\"") == q
  {
    var u := "\"" + q + "\"";
    var s := u + rest;
    assert s[1..] == q + ['"'] + rest;
    IndexAfterFree(q, '"', rest);
    assert UnitLength(s) == |q| + 2;
    assert s[|q| + 2..] == rest;
    assert UnitLength(rest) == 0;
    assert RunLength(s) == |q| + 2;
    assert s[..|q| + 2] == u;
    assert u[1..] == q + "\"";
    UnquotedTail(q);
  }

  lemma UnquotedTail(q: string)
    requires '"' !in q
    ensures StripQuotes(q + "\"") == q
  {
    if q == [] {
      assert q + "\"" == "\"";
      assert StripQuotes("\""[1..]) == [];
    } else {
      var t := q + "\"";
      assert t[0] == q[0] && q[0] in q;
      assert t[..|t| - 1] == q;
      assert q[|q| - 1] in q;
    }
  }

  /** `s.strip('"')`: every double quote at either end removed. */
  function StripQuotes(s: string): (r: string)
    ensures |r| <= |s|
    ensures r == [] || (r[0] != '"' && r[|r| - 1] != '"')
    decreases |s|
  {
    if s == [] then []
    else if s[0] == '"' then StripQuotes(s[1..])
    else if s[|s| - 1] == '"' then StripQuotes(s[..|s| - 1])
    else s
  }

  // ---------------------------------------------------------------------
  // parseKoishiFlags: the scan
  // ---------------------------------------------------------------------

  /** A value of the options dictionary. */
  datatype Value = Null | Str(s: string) | Int(n: int) | Num(x: Float) | Bool(b: bool)

  const TextKey := "text"
  const OffsetXKey := "offset_x"
  const OffsetYKey := "offset_y"
  const RoleKey := "role"
  const FontSizeKey := "font_size"
  const LineSpacingKey := "line_spacing"
  const CurveKey := "curve"
  const DefaultFontKey := "default_font"

  /** The eight keys every non-empty parse returns. */
  function FlagKeys(): set<string> {
    {TextKey, OffsetXKey, OffsetYKey, RoleKey, FontSizeKey, LineSpacingKey, CurveKey, DefaultFontKey}
  }

  /** The dictionary the parser starts from: every field None except `default_font`. */
  function InitialFlags(): (m: map<string, Value>)
    ensures m.Keys == FlagKeys()
    ensures forall k | k in m && k != DefaultFontKey :: m[k] == Null
    ensures m[DefaultFontKey] == Bool(false)
  {
    map[TextKey := Null, OffsetXKey := Null, OffsetYKey := Null, RoleKey := Null,
        FontSizeKey := Null, LineSpacingKey := Null, CurveKey := Null, DefaultFontKey := Bool(false)]
  }

  /** `flags[key] = int(token)`, skipped on `ValueError`. */
  function SetInt(flags: map<string, Value>, key: string, token: string): map<string, Value> {
    match ParseIntLiteral(token)
    case None => flags
    case Some(n) => flags[key := Int(n)]
  }

  /** `flags[key] = float(token)`, skipped on `ValueError`. */
  function SetFloat(flags: map<string, Value>, key: string, token: string): map<string, Value> {
    match ParseFloatLiteral(token)
    case None => flags
    case Some(x) => flags[key := Num(x)]
  }

  /** The flags that take the next part as their value. */
  predicate TakesValue(part: string) {
    part == "-n" || part == "-x" || part == "-y" || part == "-r" || part == "-s" || part == "-l"
  }

  /** One turn of the scan at index `i`: the next index and the updated dictionary. */
  function Step(parts: seq<string>, i: nat, flags: map<string, Value>): (r: (nat, map<string, Value>))
    requires i < |parts|
    ensures i < r.0 <= |parts| && r.0 <= i + 2
    ensures flags.Keys <= r.1.Keys <= flags.Keys + FlagKeys()
  {
    var part := StripQuotes(parts[i]);
    var more := i + 1 < |parts|;
    if part == "-n" && more then (i + 2, flags[TextKey := Str(StripQuotes(parts[i + 1]))])
    else if part == "-x" && more then (i + 2, SetInt(flags, OffsetXKey, parts[i + 1]))
    else if part == "-y" && more then (i + 2, SetInt(flags, OffsetYKey, parts[i + 1]))
    else if part == "-r" && more then (i + 2, flags[RoleKey := Str(StripQuotes(parts[i + 1]))])
    else if part == "-s" && more then (i + 2, SetInt(flags, FontSizeKey, parts[i + 1]))
    else if part == "-l" && more then (i + 2, SetFloat(flags, LineSpacingKey, parts[i + 1]))
    else if part == "-c" then (i + 1, flags[CurveKey := Bool(true)])
    else if part == "--daf" then (i + 1, flags[DefaultFontKey := Bool(true)])
    else (i + 1, flags)
  }

  /** The scan from index `i` to the end. */
  function Scan(parts: seq<string>, i: nat, flags: map<string, Value>): map<string, Value>
    decreases |parts| - i
  {
    if i >= |parts| then flags
    else
      var (next, updated) := Step(parts, i, flags);
      Scan(parts, next, updated)
  }

  /** What `parseKoishiFlags` returns. */
  function Flags(commandArgs: string): map<string, Value> {
    if commandArgs == [] then map[] else Scan(FindParts(commandArgs), 0, InitialFlags())
  }

  /** `parseKoishiFlags`: the index-driven loop over the parts. */
  method ParseKoishiFlags(commandArgs: string) returns (flags: map<string, Value>)
    ensures flags == Flags(commandArgs)
  {
    if commandArgs == [] {
      return map[];
    }
    flags := InitialFlags();
    var parts := FindParts(commandArgs);
    var i := 0;
    while i < |parts|
      invariant Scan(parts, i, flags) == Flags(commandArgs)
      decreases |parts| - i
    {
      i, flags := ScanPart(parts, i, flags);
    }
  }

  /** The body of the `parseKoishiFlags` loop: one part, or a flag and its value, consumed. */
  method ScanPart(parts: seq<string>, i: nat, flags: map<string, Value>) returns (next: nat, updated: map<string, Value>)
    requires i < |parts|
    ensures (next, updated) == Step(parts, i, flags)
  {
    updated := flags;
    var part := StripQuotes(parts[i]);
    if part == "-n" && i + 1 < |parts| {
      updated := updated[TextKey := Str(StripQuotes(parts[i + 1]))];
      next := i + 2;
    } else if part == "-x" && i + 1 < |parts| {
      updated := SetInt(updated, OffsetXKey, parts[i + 1]);
      next := i + 2;
    } else if part == "-y" && i + 1 < |parts| {
      updated := SetInt(updated, OffsetYKey, parts[i + 1]);
      next := i + 2;
    } else if part == "-r" && i + 1 < |parts| {
      updated := updated[RoleKey := Str(StripQuotes(parts[i + 1]))];
      next := i + 2;
    } else if part == "-s" && i + 1 < |parts| {
      updated := SetInt(updated, FontSizeKey, parts[i + 1]);
      next := i + 2;
    } else if part == "-l" && i + 1 < |parts| {
      updated := SetFloat(updated, LineSpacingKey, parts[i + 1]);
      next := i + 2;
    } else if part == "-c" {
      updated := updated[CurveKey := Bool(true)];
      next := i + 1;
    } else if part == "--daf" {
      updated := updated[DefaultFontKey := Bool(true)];
      next := i + 1;
    } else {
      next := i + 1;
    }
  }

  /** The scan writes only the eight keys, so it keeps that key set. */
  lemma {:induction false} ScanKeepsKeys(parts: seq<string>, i: nat, flags: map<string, Value>)
    requires flags.Keys == FlagKeys()
    ensures Scan(parts, i, flags).Keys == FlagKeys()
    decreases |parts| - i
  {
    if i < |parts| {
      var (next, updated) := Step(parts, i, flags);
      assert updated.Keys == FlagKeys();
      ScanKeepsKeys(parts, next, updated);
    }
  }

  /** Empty input gives an empty dictionary; any other input exactly the eight keys. */
  lemma {:induction false} FlagsKeys(commandArgs: string)
    ensures commandArgs == [] ==> Flags(commandArgs) == map[]
    ensures commandArgs != [] ==> Flags(commandArgs).Keys == FlagKeys()
  {
    if commandArgs != [] {
      ScanKeepsKeys(FindParts(commandArgs), 0, InitialFlags());
    }
  }

  /** A value flag followed by a part consumes it; a flag at the end, or any other part, advances by one. */
  lemma StepAdvances(parts: seq<string>, i: nat, flags: map<string, Value>)
    requires i < |parts|
    ensures Step(parts, i, flags).0 == if TakesValue(StripQuotes(parts[i])) && i + 1 < |parts| then i + 2 else i + 1
    ensures Step(parts, i, flags).0 <= |parts|
  {
  }

  /** `-n` and `-r` store the next part with its quotes stripped. */
  lemma StepQuotedValue(parts: seq<string>, i: nat, flags: map<string, Value>)
    requires i + 1 < |parts| && (StripQuotes(parts[i]) == "-n" || StripQuotes(parts[i]) == "-r")
    ensures Step(parts, i, flags).1 == flags[(if StripQuotes(parts[i]) == "-n" then TextKey else RoleKey) := Str(StripQuotes(parts[i + 1]))]
  {
  }

  /**
   * A number that does not parse leaves its field as it was, and the part is still
   * consumed: an integer after `-x`, `-y` or `-s`, a float after `-l`.
   */
  lemma StepBadNumber(parts: seq<string>, i: nat, flags: map<string, Value>)
    requires i + 1 < |parts|
    requires || ((StripQuotes(parts[i]) == "-x" || StripQuotes(parts[i]) == "-y" || StripQuotes(parts[i]) == "-s")
                 && ParseIntLiteral(parts[i + 1]).None?)
             || (StripQuotes(parts[i]) == "-l" && ParseFloatLiteral(parts[i + 1]).None?)
    ensures Step(parts, i, flags) == (i + 2, flags)
  {
  }

  /** An integer that parses after `-x`, `-y` or `-s` is stored under that flag's key, and the part is consumed. */
  lemma StepGoodInt(parts: seq<string>, i: nat, flags: map<string, Value>)
    requires i + 1 < |parts| && ParseIntLiteral(parts[i + 1]).Some?
    ensures var n := ParseIntLiteral(parts[i + 1]).value;
      && (StripQuotes(parts[i]) == "-x" ==> Step(parts, i, flags) == (i + 2, flags[OffsetXKey := Int(n)]))
      && (StripQuotes(parts[i]) == "-y" ==> Step(parts, i, flags) == (i + 2, flags[OffsetYKey := Int(n)]))
      && (StripQuotes(parts[i]) == "-s" ==> Step(parts, i, flags) == (i + 2, flags[FontSizeKey := Int(n)]))
  {
    var part := StripQuotes(parts[i]);
    if part == "-x" {
      assert Step(parts, i, flags) == (i + 2, SetInt(flags, OffsetXKey, parts[i + 1]));
    } else if part == "-y" {
      assert part != "-x";
      assert Step(parts, i, flags) == (i + 2, SetInt(flags, OffsetYKey, parts[i + 1]));
    } else if part == "-s" {
      assert part != "-x" && part != "-y" && part != "-r";
      assert Step(parts, i, flags) == (i + 2, SetInt(flags, FontSizeKey, parts[i + 1]));
    }
  }

  /** A float that parses after `-l` is stored as the line spacing, and the part is consumed. */
  lemma StepGoodFloat(parts: seq<string>, i: nat, flags: map<string, Value>)
    requires i + 1 < |parts| && StripQuotes(parts[i]) == "-l" && ParseFloatLiteral(parts[i + 1]).Some?
    ensures Step(parts, i, flags) == (i + 2, flags[LineSpacingKey := Num(ParseFloatLiteral(parts[i + 1]).value)])
  {
  }

  /** `-c` and `--daf` take no value: each sets its switch to true and consumes one part, even at the end. */
  lemma StepSwitches(parts: seq<string>, i: nat, flags: map<string, Value>)
    requires i < |parts|
    ensures StripQuotes(parts[i]) == "-c" ==> Step(parts, i, flags) == (i + 1, flags[CurveKey := Bool(true)])
    ensures StripQuotes(parts[i]) == "--daf" ==> Step(parts, i, flags) == (i + 1, flags[DefaultFontKey := Bool(true)])
  {
  }

  /** Any part that is not one of the eight flags is skipped and changes nothing. */
  lemma StepSkipsUnknown(parts: seq<string>, i: nat, flags: map<string, Value>)
    requires i < |parts| && !TakesValue(StripQuotes(parts[i]))
    requires StripQuotes(parts[i]) != "-c" && StripQuotes(parts[i]) != "--daf"
    ensures Step(parts, i, flags) == (i + 1, flags)
  {
  }

  // ---------------------------------------------------------------------
  // applyDefaults
  // ---------------------------------------------------------------------

  /** `applyDefaults`: the defaults copied in, then every option written over them. */
  method ApplyDefaults(options: map<string, Value>, defaults: map<string, Value>) returns (result: map<string, Value>)
    ensures result.Keys == options.Keys + defaults.Keys
    ensures forall k | k in options :: result[k] == options[k]
    ensures forall k | k in defaults && k !in options :: result[k] == defaults[k]
  {
    result := map[];
    result := CopyEntries(result, defaults);
    result := CopyEntries(result, options);
  }

  /** `for key, value in source.items(): result[key] = value`. */
  method CopyEntries(result: map<string, Value>, source: map<string, Value>) returns (r: map<string, Value>)
    ensures r.Keys == result.Keys + source.Keys
    ensures forall k | k in source :: r[k] == source[k]
    ensures forall k | k in result && k !in source :: r[k] == result[k]
  {
    r := result;
    var pending := source.Keys;
    while pending != {}
      invariant pending <= source.Keys
      invariant forall k :: k in r <==> k in result || (k in source && k !in pending)
      invariant forall k | k in source && k !in pending :: r[k] == source[k]
      invariant forall k | k in result && (k !in source || k in pending) :: r[k] == result[k]
      decreases |pending|
    {
      var key :| key in pending;
      r := r[key := source[key]];
      pending := pending - {key};
    }
  }
}
