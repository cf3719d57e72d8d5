/**
 * Tokenising an adjustment command: the first whitespace-separated token
 * and the rest of the message, the dotted head of that token with its
 * variants, and the whitespace-separated arguments.
 */
module Tokens {
  import opened Text

  /** The first token and the remainder: `message.strip().split(maxsplit=1)`, padded with "". */
  function ExtractFirstToken(message: string): (r: (string, string))
    ensures r.0 == [] <==> Blank(message)
    ensures r.0 == [] ==> r.1 == []
    ensures NoSpace(r.0)
    ensures r.1 == [] || (!IsSpace(r.1[0]) && !IsSpace(r.1[|r.1| - 1]))
  {
    SplitFirst(Strip(message))
  }

  /** The first token is the longest whitespace-free prefix of the stripped message. */
  lemma ExtractFirstTokenHead(message: string)
    ensures var t := Strip(message); var r := ExtractFirstToken(message);
      && r.0 == t[..|r.0|]
      && (|r.0| < |t| ==> IsSpace(t[|r.0|]))
  {
    SplitFirstHead(Strip(message), ExtractFirstToken(message));
  }

  /**
   * The remainder is the stripped message's own text after the first token
   * and the whitespace that follows it: inner whitespace and line breaks are
   * kept as typed.
   */
  lemma ExtractFirstTokenRest(message: string)
    ensures var t := Strip(message); var r := ExtractFirstToken(message);
      && |r.0| + |r.1| <= |t|
      && r.1 == t[|t| - |r.1|..]
      && (forall i | |r.0| <= i < |t| - |r.1| :: IsSpace(t[i]))
  {
    SplitFirstRest(Strip(message), ExtractFirstToken(message));
  }

  /** `SplitFirst`'s head layout, for a result already in hand; keeps `Strip` out of the proof above. */
  lemma SplitFirstHead(t: string, r: (string, string))
    requires r == SplitFirst(t)
    ensures r.0 == t[..|r.0|]
    ensures |r.0| < |t| ==> IsSpace(t[|r.0|])
  {
  }

  /** `SplitFirst`'s remainder layout, for a result already in hand. */
  lemma SplitFirstRest(t: string, r: (string, string))
    requires r == SplitFirst(t)
    ensures |r.0| + |r.1| <= |t|
    ensures r.1 == t[|t| - |r.1|..]
    ensures forall i | |r.0| <= i < |t| - |r.1| :: IsSpace(t[i])
  {
  }

  /**
   * `t.split(maxsplit=1)` of a text without surrounding whitespace: the
   * longest whitespace-free prefix, then the rest verbatim after the
   * whitespace that follows it.
   */
  function SplitFirst(t: string): (r: (string, string))
    ensures NoSpace(r.0)
    ensures t != [] && !IsSpace(t[0]) ==> r.0 != []
    ensures r.1 == [] || !IsSpace(r.1[0])
    ensures |r.0| + |r.1| <= |t|
    ensures r.0 == t[..|r.0|]
    ensures r.1 == t[|t| - |r.1|..]
    ensures forall i | |r.0| <= i < |t| - |r.1| :: IsSpace(t[i])
    ensures |r.0| < |t| ==> IsSpace(t[|r.0|])
    ensures t != [] && !IsSpace(t[|t| - 1]) ==> r.1 == [] || !IsSpace(r.1[|r.1| - 1])
  {
    var k := WordEnd(t, 0);
    var j := SpaceEnd(t, k);
    (t[..k], t[j..])
  }

  /** The end of the run of non-whitespace characters of `t` that starts at `i`. */
  function WordEnd(t: string, i: nat): (k: nat)
    requires i <= |t|
    ensures i <= k <= |t|
    ensures forall n | i <= n < k :: !IsSpace(t[n])
    ensures k == |t| || IsSpace(t[k])
    decreases |t| - i
  {
    if i < |t| && !IsSpace(t[i]) then WordEnd(t, i + 1) else i
  }

  /** The end of the run of whitespace characters of `t` that starts at `i`. */
  function SpaceEnd(t: string, i: nat): (j: nat)
    requires i <= |t|
    ensures i <= j <= |t|
    ensures forall n | i <= n < j :: IsSpace(t[n])
    ensures j == |t| || !IsSpace(t[j])
    decreases |t| - i
  {
    if i < |t| && IsSpace(t[i]) then SpaceEnd(t, i + 1) else i
  }

  /** The non-empty pieces, in order. */
  function NonEmpty(pieces: seq<string>): (r: seq<string>)
    ensures forall p | p in r :: p != [] && p in pieces
    ensures (forall p | p in pieces :: p != []) ==> r == pieces
  {
    if pieces == [] then []
    else
      assert pieces[0] in pieces;
      assert forall p | p in pieces[1..] :: p in pieces;
      if pieces[0] == [] then NonEmpty(pieces[1..])
      else [pieces[0]] + NonEmpty(pieces[1..])
  }

  /** The command head and its dotted variants: `[s for s in token.split(".") if s]`, split into first and rest. */
  function SplitToken(token: string): (r: (string, seq<string>))
    ensures r.0 == [] ==> r.1 == []
    ensures r.0 != [] ==> '.' !in r.0 && [r.0] + r.1 == NonEmpty(SplitOn(token, '.'))
    ensures forall v | v in r.1 :: v != [] && '.' !in v
    ensures r.0 == [] <==> forall p | p in SplitOn(token, '.') :: p == []
  {
    var pieces := NonEmpty(SplitOn(token, '.'));
    if pieces == [] then
      NoPieces(SplitOn(token, '.'));
      ("", [])
    else
      assert pieces[0] in pieces;
      assert forall v | v in pieces[1..] :: v in pieces;
      (pieces[0], pieces[1..])
  }

  /** The arguments after the command token: `[p for p in text.split() if p]`. */
  function SplitArgs(text: string): (r: seq<string>)
    ensures forall a | a in r :: a != [] && NoSpace(a)
    ensures r == Words(text)
  {
    if text == [] then [] else Words(text)
  }

  // ---------------------------------------------------------------------
  // Properties
  // ---------------------------------------------------------------------

  lemma {:induction false} NoPieces(pieces: seq<string>)
    ensures NonEmpty(pieces) == [] <==> forall p | p in pieces :: p == []
  {
    if pieces != [] {
      NoPieces(pieces[1..]);
      assert pieces[0] in pieces;
      assert forall p | p in pieces[1..] :: p in pieces;
      assert forall p | p in pieces :: p == pieces[0] || p in pieces[1..];
    }
  }

  /** A token written as `head.v1.v2…` splits back into its head and variants. */
  lemma SplitTokenOfJoin(head: string, variants: seq<string>)
    requires head != [] && '.' !in head
    requires forall v | v in variants :: v != [] && '.' !in v
    ensures SplitToken(Join([head] + variants, ".")) == (head, variants)
  {
    var parts := [head] + variants;
    assert forall p | p in parts :: p != [] && '.' !in p;
    SplitOnOfJoin(parts, '.');
    assert Join(parts, ".") == Join(parts, ['.']);
  }

  /** Arguments without whitespace, joined by spaces, split back into the same arguments. */
  lemma SplitArgsOfJoin(args: seq<string>)
    requires forall i :: 0 <= i < |args| ==> args[i] != [] && NoSpace(args[i])
    ensures SplitArgs(Join(args, " ")) == args
  {
    WordsOfJoin(args);
  }

  // ---------------------------------------------------------------------
  // Words of the stripped message
  // ---------------------------------------------------------------------

  /** The first token is the first word of `message.split()` and the remainder holds the other words. */
  lemma ExtractFirstTokenWords(message: string)
    requires !Blank(message)
    ensures Words(message) == [ExtractFirstToken(message).0] + Words(ExtractFirstToken(message).1)
  {
    FirstTokenSplitsWords(message);
    SplitFirstAgrees(Strip(message));
  }

  /** `SplitFirst` cuts where `WordPrefix` ends and `TrimLeft` resumes. */
  lemma SplitFirstAgrees(t: string)
    ensures var w := WordPrefix(t);
      SplitFirst(t) == (w, TrimLeft(t[|w|..]))
  {
    var w := WordPrefix(t);
    var k := WordEnd(t, 0);
    SameWordEnd(t, w, k);
    SameSpaceEnd(t, k, TrimLeft(t[k..]), SpaceEnd(t, k));
  }

  /** A whitespace-free prefix followed by whitespace or the end has one length only. */
  lemma SameWordEnd(t: string, w: string, k: nat)
    requires |w| <= |t| && w == t[..|w|] && NoSpace(w)
    requires |w| == |t| || IsSpace(t[|w|])
    requires k <= |t| && (forall n | 0 <= n < k :: !IsSpace(t[n]))
    requires k == |t| || IsSpace(t[k])
    ensures |w| == k && w == t[..k]
  {
  }

  /** The suffix of `t[k..]` left by `TrimLeft` starts where the whitespace run from `k` ends. */
  lemma SameSpaceEnd(t: string, k: nat, q: string, j: nat)
    requires k <= j <= |t|
    requires var s := t[k..]; |q| <= |s| && q == s[|s| - |q|..] && Blank(s[..|s| - |q|])
    requires q == [] || !IsSpace(q[0])
    requires (forall n | k <= n < j :: IsSpace(t[n])) && (j == |t| || !IsSpace(t[j]))
    ensures q == t[j..]
  {
  }

  lemma FirstTokenSplitsWords(message: string)
    requires Strip(message) != []
    ensures var t := Strip(message);
      var w := WordPrefix(t);
      Words(message) == [w] + Words(TrimLeft(t[|w|..]))
  {
    var l := TrimLeft(message);
    var t := Strip(message);
    StripPadding(message);
    WordsOfTrimLeft(message);
    WordsOfPadded(l, t, l[|t|..]);
  }

  /** `message.lstrip()` is `message.strip()` followed by the trailing whitespace. */
  lemma StripPadding(message: string)
    ensures var l := TrimLeft(message); var t := Strip(message);
      |t| <= |l| && l == t + l[|t|..] && Blank(l[|t|..])
  {
    RightPadding(TrimLeft(message));
  }

  /** `l` is `l.rstrip()` followed by the whitespace it dropped. */
  lemma RightPadding(l: string)
    ensures var t := TrimRight(l);
      |t| <= |l| && l == t + l[|t|..] && Blank(l[|t|..])
  {
    var t := TrimRight(l);
    assert l == t + l[|t|..];
  }

  /** The words of a text that starts with a word and ends in blanks: its first word, then the words after it. */
  lemma WordsOfPadded(l: string, t: string, blanks: string)
    requires l == t + blanks && Blank(blanks)
    requires t != [] && !IsSpace(t[0])
    ensures var w := WordPrefix(t);
      Words(l) == [w] + Words(TrimLeft(t[|w|..]))
  {
    var w := WordPrefix(t);
    WordPrefixAppendBlank(t, blanks);
    assert TrimLeft(l) == l;
    assert Words(l) == [w] + Words(l[|w|..]);
    SliceOfAppend(t, blanks, |w|);
    WordsAppendBlank(t[|w|..], blanks);
    WordsOfTrimLeft(t[|w|..]);
  }

  lemma WordsOfTrimLeft(s: string)
    ensures Words(TrimLeft(s)) == Words(s)
  {
    TrimLeftIdempotent(s);
  }

  lemma {:induction false} TrimLeftIdempotent(s: string)
    ensures TrimLeft(TrimLeft(s)) == TrimLeft(s)
  {
    var t := TrimLeft(s);
    assert t == [] || !IsSpace(t[0]);
  }

  /** Trailing whitespace does not lengthen the first word. */
  lemma WordPrefixAppendBlank(t: string, blanks: string)
    requires Blank(blanks)
    ensures WordPrefix(t + blanks) == WordPrefix(t)
  {
    var w := WordPrefix(t);
    if |w| < |t| {
      assert t + blanks == w + (t[|w|..] + blanks);
      WordPrefixOf(w, t[|w|..] + blanks);
    } else {
      assert w == t;
      WordPrefixOf(t, blanks);
    }
  }

  lemma {:induction false} TrimLeftAppendBlank(x: string, blanks: string)
    requires Blank(blanks)
    ensures TrimLeft(x + blanks) == if Blank(x) then [] else TrimLeft(x) + blanks
    decreases |x|
  {
    if x == [] {
      assert x + blanks == blanks;
      BlankTrimsAway(blanks);
    } else if IsSpace(x[0]) {
      assert (x + blanks)[1..] == x[1..] + blanks;
      TrimLeftAppendBlank(x[1..], blanks);
      assert Blank(x) <==> Blank(x[1..]);
    } else {
      assert !Blank(x);
    }
  }

  lemma BlankTrimsAway(s: string)
    requires Blank(s)
    ensures TrimLeft(s) == []
  {
  }

  /** Trailing whitespace adds no words. */
  lemma {:induction false} WordsAppendBlank(x: string, blanks: string)
    requires Blank(blanks)
    ensures Words(x + blanks) == Words(x)
    decreases |x|
  {
    TrimLeftAppendBlank(x, blanks);
    var t := TrimLeft(x);
    if Blank(x) {
      BlankTrimsAway(x);
      assert TrimLeft(x + blanks) == [];
      assert Words(x + blanks) == [];
    } else {
      assert t != [];
      var w := WordPrefix(t);
      WordPrefixAppendBlank(t, blanks);
      SliceOfAppend(t, blanks, |w|);
      WordsAppendBlank(t[|w|..], blanks);
      assert Words(x + blanks) == [w] + Words(t[|w|..] + blanks);
      assert Words(x) == [w] + Words(t[|w|..]);
    }
  }
}
