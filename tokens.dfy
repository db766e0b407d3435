/** Whitespace tokenising as done by Python's `str.split()` called with no
    argument: the string is cut at runs of whitespace, and leading, trailing
    and repeated whitespace produce no empty tokens. */
module Tokens {

  /** Python's whitespace test on the ASCII range: HT, LF, VT, FF, CR, the
      four information separators 0x1C-0x1F, and the space. */
  predicate IsSpace(c: char) {
    var n := c as int;
    n == 32 || 9 <= n <= 13 || 28 <= n <= 31
  }

  /** The characters below 128 that `str.split()` cuts at, listed. */
  lemma IsSpaceTable(c: char)
    requires c as int < 128
    ensures IsSpace(c) <==> c in {'\t', '\n', '\U{0B}', '\U{0C}', '\r', '\U{1C}', '\U{1D}', '\U{1E}', '\U{1F}', ' '}
  {
  }

  predicate AllSpace(s: string) {
    forall i :: 0 <= i < |s| ==> IsSpace(s[i])
  }

  /** What `str.split()` can yield: a non-empty run with no whitespace. */
  predicate IsWord(w: string) {
    w != [] && forall i :: 0 <= i < |w| ==> !IsSpace(w[i])
  }

  /** A token may end here: nothing follows, or whitespace does. */
  predicate AtBoundary(s: string) {
    s == [] || IsSpace(s[0])
  }

  /** The longest prefix of `s` holding no whitespace. */
  function Word(s: string): (w: string)
    ensures w <= s
    ensures forall i :: 0 <= i < |w| ==> !IsSpace(w[i])
    ensures AtBoundary(s[|w|..])
  {
    if s == [] || IsSpace(s[0]) then [] else [s[0]] + Word(s[1..])
  }

  /** The number of whitespace characters `s` starts with. */
  function LeadingSpaceCount(s: string): (n: nat)
    ensures n <= |s|
    ensures AllSpace(s[..n])
    ensures n == |s| || !IsSpace(s[n])
  {
    if s == [] || !IsSpace(s[0]) then 0 else 1 + LeadingSpaceCount(s[1..])
  }

  /** `s.split()`: the maximal whitespace-free runs of `s`, in order. */
  function Split(s: string): (r: seq<string>)
    ensures forall k :: 0 <= k < |r| ==> IsWord(r[k])
    decreases |s|
  {
    if s == [] then []
    else if IsSpace(s[0]) then Split(s[1..])
    else
      var w := Word(s);
      [w] + Split(s[|w|..])
  }

  /** `gaps[0] + toks[0] + gaps[1] + ... + toks[n-1] + gaps[n]`: tokens laid
      out between runs of separators. */
  function Layout(gaps: seq<string>, toks: seq<string>): string
    requires |gaps| == |toks| + 1
    decreases toks
  {
    if toks == [] then gaps[0] else gaps[0] + toks[0] + Layout(gaps[1..], toks[1..])
  }

  /** The tokens are words and the gaps whitespace, and each gap that stands
      between two tokens is non-empty. */
  predicate ValidLayout(gaps: seq<string>, toks: seq<string>) {
    |gaps| == |toks| + 1 &&
    (forall k :: 0 <= k < |toks| ==> IsWord(toks[k])) &&
    (forall k :: 0 <= k < |gaps| ==> AllSpace(gaps[k])) &&
    (forall k :: 0 < k < |toks| ==> gaps[k] != [])
  }

  /** The whitespace runs of `s` around the tokens `Split(s)` returns. */
  function Gaps(s: string): (g: seq<string>)
    ensures |g| == |Split(s)| + 1
    ensures s != [] && IsSpace(s[0]) ==> g[0] != []
    decreases |s|
  {
    if s == [] then [[]]
    else if IsSpace(s[0]) then
      var g := Gaps(s[1..]);
      [[s[0]] + g[0]] + g[1..]
    else
      [[]] + Gaps(s[|Word(s)|..])
  }

  /** Leading whitespace never changes the tokens. */
  lemma {:induction false} SplitSkipsSpaces(g: string, s: string)
    requires AllSpace(g)
    ensures Split(g + s) == Split(s)
    decreases |g|
  {
    if g == [] {
      assert g + s == s;
    } else {
      assert (g + s)[0] == g[0] && IsSpace(g[0]);
      assert (g + s)[1..] == g[1..] + s;
      SplitSkipsSpaces(g[1..], s);
    }
  }

  lemma {:induction false} WordBeforeBoundary(w: string, rest: string)
    requires IsWord(w) && AtBoundary(rest)
    ensures Word(w + rest) == w
    decreases |w|
  {
    assert (w + rest)[1..] == w[1..] + rest;
    if |w| > 1 {
      WordBeforeBoundary(w[1..], rest);
    } else {
      assert w == [w[0]];
    }
  }

  /** A word followed by a token boundary is the next token. */
  lemma {:induction false} SplitWordThen(w: string, rest: string)
    requires IsWord(w) && AtBoundary(rest)
    ensures Split(w + rest) == [w] + Split(rest)
  {
    WordBeforeBoundary(w, rest);
    assert (w + rest)[|w|..] == rest;
  }

  lemma LayoutTail(gaps: seq<string>, toks: seq<string>)
    requires ValidLayout(gaps, toks) && toks != []
    ensures ValidLayout(gaps[1..], toks[1..])
    ensures AtBoundary(Layout(gaps[1..], toks[1..]))
  {
  }

  /** Round trip: splitting a valid layout gives back its tokens, whatever
      the separators. */
  lemma {:induction false} SplitOfLayout(gaps: seq<string>, toks: seq<string>)
    requires ValidLayout(gaps, toks)
    ensures Split(Layout(gaps, toks)) == toks
    decreases toks
  {
    if toks == [] {
      SplitSkipsSpaces(gaps[0], []);
      assert gaps[0] + [] == gaps[0];
    } else {
      var rest := Layout(gaps[1..], toks[1..]);
      LayoutTail(gaps, toks);
      SplitOfLayout(gaps[1..], toks[1..]);
      SplitWordThen(toks[0], rest);
      assert gaps[0] + toks[0] + rest == gaps[0] + (toks[0] + rest);
      SplitSkipsSpaces(gaps[0], toks[0] + rest);
    }
  }

  lemma LayoutWiderGap(c: string, g: seq<string>, toks: seq<string>)
    requires |g| == |toks| + 1
    ensures Layout([c + g[0]] + g[1..], toks) == c + Layout(g, toks)
  {
  }

  /** The whitespace runs and tokens of `s` lay it out again. */
  predicate LaysOut(s: string) {
    ValidLayout(Gaps(s), Split(s)) && Layout(Gaps(s), Split(s)) == s
  }

  /** Unfolding `Split` and `Gaps` once at a whitespace character. */
  lemma SplitAtSpace(s: string)
    requires s != [] && IsSpace(s[0])
    ensures Split(s) == Split(s[1..])
    ensures Gaps(s) == [[s[0]] + Gaps(s[1..])[0]] + Gaps(s[1..])[1..]
  {
  }

  lemma LayoutAfterSpace(c: char, rest: string, g: seq<string>, t: seq<string>)
    requires IsSpace(c) && ValidLayout(g, t) && Layout(g, t) == rest
    ensures ValidLayout([[c] + g[0]] + g[1..], t) && Layout([[c] + g[0]] + g[1..], t) == [c] + rest
  {
    var g' := [[c] + g[0]] + g[1..];
    LayoutWiderGap([c], g, t);
    assert forall k :: 0 < k < |g'| ==> g'[k] == g[k];
  }

  lemma LaysOutAfterSpace(s: string)
    requires s != [] && IsSpace(s[0]) && LaysOut(s[1..])
    ensures LaysOut(s)
  {
    SplitAtSpace(s);
    LayoutAfterSpace(s[0], s[1..], Gaps(s[1..]), Split(s[1..]));
    assert [s[0]] + s[1..] == s;
  }

  lemma LayoutCons(g0: string, w: string, g: seq<string>, toks: seq<string>)
    requires |g| == |toks| + 1
    ensures Layout([g0] + g, [w] + toks) == g0 + w + Layout(g, toks)
  {
  }

  lemma ValidLayoutCons(w: string, g: seq<string>, toks: seq<string>)
    requires IsWord(w) && ValidLayout(g, toks)
    requires toks != [] ==> g[0] != []
    ensures ValidLayout([[]] + g, [w] + toks)
  {
  }

  /** Unfolding `Split` and `Gaps` once at a word. */
  lemma SplitAtWord(s: string)
    requires s != [] && !IsSpace(s[0])
    ensures IsWord(Word(s))
    ensures Split(s) == [Word(s)] + Split(s[|Word(s)|..])
    ensures Gaps(s) == [[]] + Gaps(s[|Word(s)|..])
  {
  }

  lemma WordThenRest(s: string)
    ensures Word(s) + s[|Word(s)|..] == s
  {
  }

  /** After a word, a further token needs a non-empty gap before it. */
  lemma GapAfterWord(rest: string)
    requires AtBoundary(rest)
    ensures Split(rest) != [] ==> Gaps(rest)[0] != []
  {
  }

  lemma LayoutAfterWord(w: string, rest: string, g: seq<string>, t: seq<string>)
    requires IsWord(w) && ValidLayout(g, t) && Layout(g, t) == rest
    requires t != [] ==> g[0] != []
    ensures ValidLayout([[]] + g, [w] + t) && Layout([[]] + g, [w] + t) == w + rest
  {
    LayoutCons([], w, g, t);
    ValidLayoutCons(w, g, t);
    assert [] + w + rest == w + rest;
  }

  lemma LaysOutAfterWord(s: string)
    requires s != [] && !IsSpace(s[0]) && LaysOut(s[|Word(s)|..])
    ensures LaysOut(s)
  {
    var rest := s[|Word(s)|..];
    SplitAtWord(s);
    WordThenRest(s);
    GapAfterWord(rest);
    LayoutAfterWord(Word(s), rest, Gaps(rest), Split(rest));
  }

  /** Every string is the layout of its tokens between its whitespace runs. */
  lemma {:induction false} LayoutOfSplit(s: string)
    ensures ValidLayout(Gaps(s), Split(s))
    ensures Layout(Gaps(s), Split(s)) == s
    decreases |s|
  {
    if s == [] {
    } else if IsSpace(s[0]) {
      LayoutOfSplit(s[1..]);
      LaysOutAfterSpace(s);
    } else {
      LayoutOfSplit(s[|Word(s)|..]);
      LaysOutAfterWord(s);
    }
  }

  /** Both directions: `s.split() == toks` exactly when `s` is `toks` laid out
      between whitespace runs, the inner ones non-empty. */
  lemma SplitCharacterization(s: string, toks: seq<string>)
    ensures Split(s) == toks <==> exists gaps :: ValidLayout(gaps, toks) && Layout(gaps, toks) == s
  {
    if Split(s) == toks {
      LayoutOfSplit(s);
    }
    if gaps: seq<string> :| ValidLayout(gaps, toks) && Layout(gaps, toks) == s {
      SplitOfLayout(gaps, toks);
    }
  }

  /** `s.split()` is empty exactly when `s` holds only whitespace. */
  lemma {:induction false} SplitEmptyIff(s: string)
    ensures Split(s) == [] <==> AllSpace(s)
  {
    if AllSpace(s) {
      SplitSkipsSpaces(s, []);
      assert s + [] == s;
    }
    if Split(s) == [] {
      LayoutOfSplit(s);
    }
  }

  /** The first token is the whitespace-free run that starts after the
      leading whitespace. */
  lemma {:induction false} FirstTokenAfterSpaces(s: string)
    requires Split(s) != []
    ensures Split(s)[0] == Word(s[LeadingSpaceCount(s)..])
    decreases |s|
  {
    if IsSpace(s[0]) {
      FirstTokenAfterSpaces(s[1..]);
      assert s[LeadingSpaceCount(s)..] == s[1..][LeadingSpaceCount(s[1..])..];
    }
  }

  /** `" ".join(toks)`: the tokens separated by one space each. */
  function JoinSpace(toks: seq<string>): string
    requires toks != []
  {
    if |toks| == 1 then toks[0] else toks[0] + " " + JoinSpace(toks[1..])
  }

  /** Splitting `" ".join(toks)` gives `toks` back. */
  lemma {:induction false} SplitJoinSpace(toks: seq<string>)
    requires toks != []
    requires forall k :: 0 <= k < |toks| ==> IsWord(toks[k])
    ensures Split(JoinSpace(toks)) == toks
    decreases |toks|
  {
    if |toks| == 1 {
      SplitWordThen(toks[0], []);
      assert toks[0] + [] == toks[0];
      assert toks == [toks[0]];
    } else {
      var rest := JoinSpace(toks[1..]);
      SplitJoinSpace(toks[1..]);
      SplitSkipsSpaces(" ", rest);
      assert IsSpace((" " + rest)[0]);
      SplitWordThen(toks[0], " " + rest);
      assert toks[0] + " " + rest == toks[0] + (" " + rest);
      assert toks == [toks[0]] + toks[1..];
    }
  }
}
