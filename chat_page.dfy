/**
 * The chat screen (pages/ChatPage.tsx): the message formatter (HTML
 * escaping, then bold and link rewriting), the send handler and the rules
 * that disable the input box and the send button.
 */
module ChatPage {
  import opened Types
  import opened Text
  import Chat

  /** A character JavaScript's `.` does not match. */
  predicate IsLineTerminator(c: char)
  {
    c == '\n' || c == '\r' || c == '\U{2028}' || c == '\U{2029}'
  }

  /** The characters the escape step rewrites. */
  predicate IsSpecial(c: char)
  {
    c == '&' || c == '<' || c == '>'
  }

  /** `s` does not contain `c`. */
  predicate Lacks(s: string, c: char)
  {
    forall i :: 0 <= i < |s| ==> s[i] != c
  }

  predicate NoSpecial(s: string)
  {
    forall i :: 0 <= i < |s| ==> !IsSpecial(s[i])
  }

  predicate NoLineBreak(s: string)
  {
    forall i :: 0 <= i < |s| ==> !IsLineTerminator(s[i])
  }

  /** Where the line holding `p` ends: the first line terminator at or after `p`, or the end of `s`. */
  function LineEnd(s: string, p: nat): (e: nat)
    decreases |s| - p
    ensures p <= e && (p <= |s| ==> e <= |s|)
    ensures forall i :: p <= i < e ==> i < |s| && !IsLineTerminator(s[i])
    ensures e < |s| ==> IsLineTerminator(s[e])
  {
    if p >= |s| || IsLineTerminator(s[p]) then p else LineEnd(s, p + 1)
  }

  lemma LacksAppend(a: string, b: string, c: char)
    requires Lacks(a, c) && Lacks(b, c)
    ensures Lacks(a + b, c)
  {
    forall i | 0 <= i < |a + b|
      ensures (a + b)[i] != c
    {
      if i >= |a| {
        assert (a + b)[i] == b[i - |a|];
      }
    }
  }

  lemma NoSpecialAppend(a: string, b: string)
    requires NoSpecial(a) && NoSpecial(b)
    ensures NoSpecial(a + b)
  {
    forall i | 0 <= i < |a + b|
      ensures !IsSpecial((a + b)[i])
    {
      if i >= |a| {
        assert (a + b)[i] == b[i - |a|];
      }
    }
  }

  // ---------------------------------------------------------------- escape

  /** The three `replace` calls of the escape step, in source order. */
  function Escape(s: string): string
  {
    ReplaceChar(ReplaceChar(ReplaceChar(s, '&', "&amp;"), '<', "&lt;"), '>', "&gt;")
  }

  /** Reference escape: every special character replaced by its entity at once. */
  function EscapeChar(c: char): string
  {
    if c == '&' then "&amp;" else if c == '<' then "&lt;" else if c == '>' then "&gt;" else [c]
  }

  function EscapeEach(s: string): string
  {
    if s == [] then [] else EscapeChar(s[0]) + EscapeEach(s[1..])
  }

  /** Reading the three entities back. */
  function Unescape(s: string): string
  {
    if s == [] then []
    else if StartsWith(s, "&amp;") then "&" + Unescape(s[5..])
    else if StartsWith(s, "&lt;") then "<" + Unescape(s[4..])
    else if StartsWith(s, "&gt;") then ">" + Unescape(s[4..])
    else [s[0]] + Unescape(s[1..])
  }

  lemma {:induction false} ReplaceCharAbsent(s: string, c: char, rep: string)
    requires Lacks(s, c)
    ensures ReplaceChar(s, c, rep) == s
  {
    if s != [] {
      ReplaceCharAbsent(s[1..], c, rep);
    }
  }

  lemma {:induction false} CountAbsent(s: string, c: char)
    requires Lacks(s, c)
    ensures Count(c, s) == 0
  {
    if s != [] {
      CountAbsent(s[1..], c);
    }
  }

  /** The escape step works piece by piece. */
  lemma EscapeAppend(a: string, b: string)
    ensures Escape(a + b) == Escape(a) + Escape(b)
  {
    var a1, b1 := ReplaceChar(a, '&', "&amp;"), ReplaceChar(b, '&', "&amp;");
    ReplaceCharAppend(a, b, '&', "&amp;");
    var a2, b2 := ReplaceChar(a1, '<', "&lt;"), ReplaceChar(b1, '<', "&lt;");
    ReplaceCharAppend(a1, b1, '<', "&lt;");
    ReplaceCharAppend(a2, b2, '>', "&gt;");
  }

  lemma ReplaceCharSingle(x: char, c: char, rep: string)
    ensures ReplaceChar([x], c, rep) == if x == c then rep else [x]
  {
    assert [x][1..] == [];
    assert ReplaceChar([x], c, rep) == (if x == c then rep else [x]) + ReplaceChar([], c, rep);
  }

  /** On one character, the chained replacements give its entity: the later steps leave earlier entities alone. */
  lemma EscapeSingle(x: char)
    ensures Escape([x]) == EscapeChar(x)
  {
    ReplaceCharSingle(x, '&', "&amp;");
    if x == '&' {
      ReplaceCharAbsent("&amp;", '<', "&lt;");
      ReplaceCharAbsent("&amp;", '>', "&gt;");
    } else if x == '<' {
      ReplaceCharSingle(x, '<', "&lt;");
      ReplaceCharAbsent("&lt;", '>', "&gt;");
    } else {
      ReplaceCharSingle(x, '<', "&lt;");
      ReplaceCharSingle(x, '>', "&gt;");
    }
  }

  /**
   * Replacing `&` first keeps the later steps from touching the entities
   * already written, so the chained replacements escape every character at
   * once.
   */
  lemma {:induction false} EscapeIsEach(s: string)
    ensures Escape(s) == EscapeEach(s)
  {
    if s != [] {
      assert s == [s[0]] + s[1..];
      EscapeAppend([s[0]], s[1..]);
      EscapeSingle(s[0]);
      EscapeIsEach(s[1..]);
    }
  }

  lemma UnescapeAmp(r: string)
    ensures Unescape("&amp;" + r) == "&" + Unescape(r)
  {
    var e := "&amp;" + r;
    assert e[..5] == "&amp;" && e[5..] == r;
  }

  lemma UnescapeLt(r: string)
    ensures Unescape("&lt;" + r) == "<" + Unescape(r)
  {
    var e := "&lt;" + r;
    assert e[..4] == "&lt;" && e[4..] == r;
    assert !StartsWith(e, "&amp;") by {
      if |e| >= 5 {
        assert e[..5][1] == e[1] == 'l';
      }
    }
  }

  lemma UnescapeGt(r: string)
    ensures Unescape("&gt;" + r) == ">" + Unescape(r)
  {
    var e := "&gt;" + r;
    assert e[..4] == "&gt;" && e[4..] == r;
    assert !StartsWith(e, "&amp;") by {
      if |e| >= 5 {
        assert e[..5][1] == e[1] == 'g';
      }
    }
    assert !StartsWith(e, "&lt;") by {
      assert e[..4][1] == e[1] == 'g';
    }
  }

  lemma UnescapeOther(x: char, r: string)
    requires x != '&'
    ensures Unescape([x] + r) == [x] + Unescape(r)
  {
    var e := [x] + r;
    assert e[0] == x && e[1..] == r;
  }

  lemma {:induction false} UnescapeEach(s: string)
    ensures Unescape(EscapeEach(s)) == s
  {
    if s != [] {
      var x, r := s[0], EscapeEach(s[1..]);
      if x == '&' {
        UnescapeAmp(r);
      } else if x == '<' {
        UnescapeLt(r);
      } else if x == '>' {
        UnescapeGt(r);
      } else {
        UnescapeOther(x, r);
      }
      UnescapeEach(s[1..]);
      assert s == [x] + s[1..];
    }
  }

  /** Each entity holds one `&` and neither `<` nor `>`. */
  lemma EscapeCharCounts(x: char)
    ensures Count('<', EscapeChar(x)) == 0 && Count('>', EscapeChar(x)) == 0
    ensures Count('&', EscapeChar(x)) == (if IsSpecial(x) then 1 else 0)
  {
    var e := EscapeChar(x);
    CountAbsent(e, '<');
    CountAbsent(e, '>');
    CountAbsent(e[1..], '&');
  }

  lemma {:induction false} EscapeEachCounts(s: string)
    ensures Count('<', EscapeEach(s)) == 0 && Count('>', EscapeEach(s)) == 0
    ensures Count('&', EscapeEach(s)) == Count('&', s) + Count('<', s) + Count('>', s)
  {
    if s != [] {
      CountAppend('<', EscapeChar(s[0]), EscapeEach(s[1..]));
      CountAppend('>', EscapeChar(s[0]), EscapeEach(s[1..]));
      CountAppend('&', EscapeChar(s[0]), EscapeEach(s[1..]));
      EscapeCharCounts(s[0]);
      EscapeEachCounts(s[1..]);
      assert s == [s[0]] + s[1..];
      CountAppend('<', [s[0]], s[1..]);
      CountAppend('>', [s[0]], s[1..]);
      CountAppend('&', [s[0]], s[1..]);
    }
  }

  lemma {:induction false} EscapeEachPlain(s: string)
    requires NoSpecial(s)
    ensures EscapeEach(s) == s
  {
    if s != [] {
      EscapeEachPlain(s[1..]);
    }
  }

  /**
   * The escaped text holds no `<` and no `>`; it has one `&` for each `&`,
   * `<` and `>` of the input; text without those characters is unchanged;
   * and the three entities read back to the original text.
   */
  lemma EscapeSpec(s: string)
    ensures Count('<', Escape(s)) == 0 && Count('>', Escape(s)) == 0
    ensures Count('&', Escape(s)) == Count('&', s) + Count('<', s) + Count('>', s)
    ensures NoSpecial(s) ==> Escape(s) == s
    ensures Unescape(Escape(s)) == s
  {
    EscapeIsEach(s);
    EscapeEachCounts(s);
    UnescapeEach(s);
    if NoSpecial(s) {
      EscapeEachPlain(s);
    }
  }

  // ---------------------------------------------------------------- bold

  const STRONG_OPEN: string := "<strong>"
  const STRONG_CLOSE: string := "</strong>"

  /** `**` at `p`. */
  predicate DoubleStar(s: string, p: nat)
  {
    p + 1 < |s| && s[p] == '*' && s[p + 1] == '*'
  }

  /**
   * Where the lazy `(.*?)\*\*` starting at `p` stops: the first `**` on the
   * line, and no match when the line holds none.
   */
  function BoldClose(s: string, p: nat): (r: Option<nat>)
    decreases |s| - p
    ensures r.Some? ==> p <= r.value && DoubleStar(s, r.value)
  {
    if DoubleStar(s, p) then Some(p)
    else if p < |s| && !IsLineTerminator(s[p]) then BoldClose(s, p + 1)
    else None
  }

  // `replace(/\*\*(.*?)\*\*/g, '<strong>$1</strong>')`, scanning left to right.
  function Bold(s: string): string
    decreases |s|
  {
    if s == [] then []
    else if DoubleStar(s, 0) && BoldClose(s, 2).Some? then
      var j := BoldClose(s, 2).value;
      STRONG_OPEN + s[2..j] + STRONG_CLOSE + Bold(s[j + 2..])
    else [s[0]] + Bold(s[1..])
  }

  /**
   * The bold search stops at the first `**` of the line, and finds nothing
   * when the line holds none: the lazy quantifier's shortest match.
   */
  lemma {:induction false} BoldCloseFirst(s: string, p: nat)
    ensures BoldClose(s, p).Some? ==> p <= BoldClose(s, p).value < LineEnd(s, p)
    ensures BoldClose(s, p).Some? ==>
              forall i :: p <= i < BoldClose(s, p).value ==> !DoubleStar(s, i) && !IsLineTerminator(s[i])
    ensures BoldClose(s, p).None? ==> forall i :: p <= i < LineEnd(s, p) ==> !DoubleStar(s, i)
    decreases |s| - p
  {
    if !DoubleStar(s, p) && p < |s| && !IsLineTerminator(s[p]) {
      BoldCloseFirst(s, p + 1);
    }
  }

  /** No `**` anywhere in `s`. */
  predicate NoDoubleStar(s: string)
  {
    forall i :: 0 <= i < |s| ==> !DoubleStar(s, i)
  }

  /**
   * Nothing in `x` can close a bold span opened before it, even against a
   * following `**`: every `*` of `x` is followed, inside `x`, by another
   * character. So `x` holds no `**` and does not end in `*`.
   */
  predicate NoBoldClose(x: string)
  {
    forall i :: 0 <= i < |x| && x[i] == '*' ==> i + 1 < |x| && x[i + 1] != '*'
  }

  lemma LacksStarNoDoubleStar(s: string)
    requires Lacks(s, '*')
    ensures NoDoubleStar(s)
  {
    forall i | 0 <= i < |s|
      ensures !DoubleStar(s, i)
    {
      assert s[i] != '*';
    }
  }

  /** Text with no `**` is left alone by the bold step. */
  lemma {:induction false} BoldPlain(s: string)
    requires NoDoubleStar(s)
    ensures Bold(s) == s
  {
    if s != [] {
      assert !DoubleStar(s, 0);
      forall i | 0 <= i < |s| - 1
        ensures !DoubleStar(s[1..], i)
      {
        assert !DoubleStar(s, i + 1);
      }
      BoldPlain(s[1..]);
    }
  }

  /** The match that starts at the `**` of `**x**`: the shortest one, ending at the `**` after x. */
  lemma BoldCloseAt(s: string, x: string, rest: string)
    requires s == "**" + x + "**" + rest
    requires NoBoldClose(x) && NoLineBreak(x)
    ensures BoldClose(s, 2) == Some(2 + |x|)
  {
    var j := 2 + |x|;
    assert s[j] == '*' && s[j + 1] == '*';
    forall i | 2 <= i < j
      ensures !DoubleStar(s, i) && !IsLineTerminator(s[i])
    {
      assert s[i] == x[i - 2];
      if i + 1 < j {
        assert s[i + 1] == x[i - 1];
      }
    }
    assert j < LineEnd(s, 2);
    assert DoubleStar(s, j);
    BoldCloseFirst(s, 2);
    var r := BoldClose(s, 2);
    assert r.Some?;
    assert !(r.value < j);
    assert !(j < r.value);
  }

  /** One step of `Bold` at a match. */
  lemma BoldAt(s: string, j: nat)
    requires DoubleStar(s, 0) && BoldClose(s, 2) == Some(j)
    ensures Bold(s) == STRONG_OPEN + s[2..j] + STRONG_CLOSE + Bold(s[j + 2..])
  {
  }

  lemma BoldParts(s: string, x: string, rest: string)
    requires s == "**" + x + "**" + rest
    ensures DoubleStar(s, 0) && DoubleStar(s, 2 + |x|) && s[2..2 + |x|] == x && s[4 + |x|..] == rest
  {
  }

  /**
   * Text with no `**` is left alone; `**x**`, where nothing in x can close
   * the span and x holds no line break, becomes `<strong>x</strong>`, and
   * the scan goes on after it. So x may hold single `*`s, as in `**2*3**`.
   */
  lemma BoldSpec(x: string, rest: string)
    requires NoBoldClose(x) && NoLineBreak(x)
    ensures NoDoubleStar(rest) ==> Bold(rest) == rest
    ensures Bold("**" + x + "**" + rest) == STRONG_OPEN + x + STRONG_CLOSE + Bold(rest)
  {
    if NoDoubleStar(rest) {
      BoldPlain(rest);
    }
    var s := "**" + x + "**" + rest;
    BoldParts(s, x, rest);
    BoldCloseAt(s, x, rest);
    BoldAt(s, 2 + |x|);
  }

  // ---------------------------------------------------------------- links

  const USER_LINK_CLASS: string := "underline text-blue-100 hover:text-white"
  const AI_LINK_CLASS: string := "underline text-blue-600 hover:text-blue-800"
  const ANCHOR_HREF: string := "<a href=\""
  const ANCHOR_ATTRS: string := "\" target=\"_blank\" rel=\"noopener noreferrer\" class=\""
  const ANCHOR_CLOSE: string := "</a>"

  /** Links in the user's own (blue) bubbles and in the assistant's (grey) ones get different colours. */
  function LinkClass(isUser: bool): string
  {
    if isUser then USER_LINK_CLASS else AI_LINK_CLASS
  }

  function Anchor(text: string, url: string, cls: string): string
  {
    ANCHOR_HREF + url + ANCHOR_ATTRS + cls + "\">" + text + ANCHOR_CLOSE
  }

  /** Where the lazy `(.*?)\)` starting at `p` stops: the first `)` on the line, and no match when the line holds none. */
  function ParenClose(s: string, p: nat): (r: Option<nat>)
    decreases |s| - p
    ensures r.Some? ==> p <= r.value < |s| && s[r.value] == ')'
  {
    if p < |s| && s[p] == ')' then Some(p)
    else if p < |s| && !IsLineTerminator(s[p]) then ParenClose(s, p + 1)
    else None
  }

  /** `](` at `p`. */
  predicate OpensUrl(s: string, p: nat)
  {
    p + 1 < |s| && s[p] == ']' && s[p + 1] == '('
  }

  /** No `](` anywhere in `t`. */
  predicate NoUrlOpen(t: string)
  {
    forall i :: 0 <= i < |t| ==> !OpensUrl(t, i)
  }

  /**
   * The match of `(.*?)\]\((.*?)\)` starting at `p`, with the regex's
   * backtracking: the first `](` before a line break that a `)` follows on
   * the same line.
   */
  function LinkClose(s: string, p: nat): (r: Option<nat>)
    decreases |s| - p
    ensures r.Some? ==> p <= r.value && r.value + 2 <= |s| && ParenClose(s, r.value + 2).Some?
  {
    if OpensUrl(s, p) && ParenClose(s, p + 2).Some? then Some(p)
    else if p < |s| && !IsLineTerminator(s[p]) then LinkClose(s, p + 1)
    else None
  }

  /** Where the lazy `(.*?)\]\(` starting at `p` stops: the first `](` on the line, and no match when the line holds none. */
  function BracketClose(s: string, p: nat): (r: Option<nat>)
    decreases |s| - p
    ensures r.Some? ==> p <= r.value && OpensUrl(s, r.value)
  {
    if OpensUrl(s, p) then Some(p)
    else if p < |s| && !IsLineTerminator(s[p]) then BracketClose(s, p + 1)
    else None
  }

  /** The `)` search stops at the first `)` of the line, and finds nothing when the line holds none. */
  lemma {:induction false} ParenCloseFirst(s: string, p: nat)
    ensures ParenClose(s, p).Some? ==> ParenClose(s, p).value < LineEnd(s, p)
    ensures ParenClose(s, p).Some? ==>
              forall i :: p <= i < ParenClose(s, p).value ==> s[i] != ')' && !IsLineTerminator(s[i])
    ensures ParenClose(s, p).None? ==> forall i :: p <= i < LineEnd(s, p) ==> s[i] != ')'
    decreases |s| - p
  {
    if p < |s| && s[p] != ')' && !IsLineTerminator(s[p]) {
      ParenCloseFirst(s, p + 1);
    }
  }

  /** The `](` search stops at the first `](` of the line, and finds nothing when the line holds none. */
  lemma {:induction false} BracketCloseFirst(s: string, p: nat)
    ensures BracketClose(s, p).Some? ==> BracketClose(s, p).value < LineEnd(s, p)
    ensures BracketClose(s, p).Some? ==>
              forall i :: p <= i < BracketClose(s, p).value ==> !OpensUrl(s, i) && !IsLineTerminator(s[i])
    ensures BracketClose(s, p).None? ==> forall i :: p <= i < LineEnd(s, p) ==> !OpensUrl(s, i)
    decreases |s| - p
  {
    if !OpensUrl(s, p) && p < |s| && !IsLineTerminator(s[p]) {
      BracketCloseFirst(s, p + 1);
    }
  }

  /** Whether a link `[text](url)` starts at the head of `s`: a `[`, then a `](`, then a `)`, all on one line. */
  predicate LinkAtHead(s: string)
  {
    s != [] && s[0] == '[' && BracketClose(s, 1).Some? && ParenClose(s, BracketClose(s, 1).value + 2).Some?
  }

  /** How many characters one step of the scan consumes: the whole link, or one character. */
  function Consumed(s: string): (n: nat)
    requires s != []
    ensures 0 < n <= |s|
  {
    if LinkAtHead(s) then ParenClose(s, BracketClose(s, 1).value + 2).value + 1 else 1
  }

  /** What one step of the scan produces: the anchor for a link, the character itself otherwise. */
  function HeadOutput(s: string, cls: string): string
    requires s != []
  {
    if LinkAtHead(s) then
      var j := BracketClose(s, 1).value;
      Anchor(s[1..j], s[j + 2..ParenClose(s, j + 2).value], cls)
    else [s[0]]
  }

  // `replace(/\[(.*?)\]\((.*?)\)/g, '<a href="$2" ... class="cls">$1</a>')`, scanning left to right.
  function Links(s: string, cls: string): string
    decreases |s|
  {
    if s == [] then [] else HeadOutput(s, cls) + Links(s[Consumed(s)..], cls)
  }

  lemma {:induction false} ParenCloseSkip(s: string, p: nat, q: nat)
    requires p <= q <= |s|
    requires forall i :: p <= i < q ==> s[i] != ')' && !IsLineTerminator(s[i])
    ensures ParenClose(s, p) == ParenClose(s, q)
    decreases q - p
  {
    if p < q {
      ParenCloseSkip(s, p + 1, q);
    }
  }

  /** Past a failed `)` search, a later start on the same line fails too. */
  lemma {:induction false} ParenCloseNone(s: string, a: nat, b: nat)
    requires a <= b <= |s| && ParenClose(s, a).None?
    requires forall i :: a <= i < b ==> !IsLineTerminator(s[i])
    ensures ParenClose(s, b).None?
    decreases b - a
  {
    if a < b {
      ParenCloseNone(s, a + 1, b);
    }
  }

  /** The `](` search does not cross a line break. */
  lemma {:induction false} BracketCloseLine(s: string, p: nat)
    requires BracketClose(s, p).Some?
    ensures forall i :: p <= i < BracketClose(s, p).value ==> !IsLineTerminator(s[i])
    decreases |s| - p
  {
    if !OpensUrl(s, p) {
      BracketCloseLine(s, p + 1);
    }
  }

  /** When no `)` follows a `](` on its line, none follows the next `](` either. */
  lemma LaterBracketFails(s: string, p: nat)
    requires OpensUrl(s, p) && ParenClose(s, p + 2).None?
    ensures BracketClose(s, p + 1).Some? ==> ParenClose(s, BracketClose(s, p + 1).value + 2).None?
  {
    if BracketClose(s, p + 1).Some? {
      var k := BracketClose(s, p + 1).value;
      BracketCloseLine(s, p + 1);
      assert forall i :: p + 2 <= i < k + 2 ==> !IsLineTerminator(s[i]);
      ParenCloseNone(s, p + 2, k + 2);
    }
  }

  /**
   * The regex's backtracking search equals the two scans `Links` makes:
   * when no `)` follows the first `](` on its line, none follows any later
   * `](` on that line either.
   */
  lemma {:induction false} LinkCloseIsTwoScans(s: string, p: nat)
    ensures LinkClose(s, p) ==
              if BracketClose(s, p).Some? && ParenClose(s, BracketClose(s, p).value + 2).Some?
              then BracketClose(s, p) else None
    decreases |s| - p
  {
    if OpensUrl(s, p) {
      if ParenClose(s, p + 2).None? {
        LinkCloseIsTwoScans(s, p + 1);
        LaterBracketFails(s, p);
      }
    } else if p < |s| && !IsLineTerminator(s[p]) {
      LinkCloseIsTwoScans(s, p + 1);
    }
  }

  lemma {:induction false} LinksPlain(s: string, cls: string)
    requires Lacks(s, '[')
    ensures Links(s, cls) == s
  {
    if s != [] {
      assert !LinkAtHead(s);
      LinksPlain(s[1..], cls);
    }
  }

  /** The `](` search from just after the `[` of `[t](` stops at the `](`: the shortest match. */
  lemma BracketAt(s: string, t: string, j: nat)
    requires j == 1 + |t| && OpensUrl(s, j) && s[1..j] == t
    requires NoUrlOpen(t) && NoLineBreak(t)
    ensures BracketClose(s, 1) == Some(j)
  {
    forall i | 1 <= i < j
      ensures !OpensUrl(s, i) && !IsLineTerminator(s[i])
    {
      assert s[i] == t[i - 1];
      if i + 1 < j {
        assert s[i + 1] == t[i] && !OpensUrl(t, i - 1);
      } else {
        assert s[i + 1] == ']';
      }
    }
    assert j < LineEnd(s, 1);
    BracketCloseFirst(s, 1);
    var r := BracketClose(s, 1);
    assert r.Some?;
    assert !(r.value < j);
    assert !(j < r.value);
  }

  /** The `)` search from the start of `u)` stops at the `)`. */
  lemma ParenAt(s: string, u: string, a: nat, q: nat)
    requires a <= q < |s| && q == a + |u| && s[a..q] == u && s[q] == ')'
    requires Lacks(u, ')') && NoLineBreak(u)
    ensures ParenClose(s, a) == Some(q)
  {
    assert forall i :: a <= i < q ==> s[i] == u[i - a];
    ParenCloseSkip(s, a, q);
  }

  /** The head step at a match consumes the link and produces its anchor. */
  lemma HeadAt(s: string, cls: string, j: nat, q: nat)
    requires s != [] && s[0] == '[' && BracketClose(s, 1) == Some(j) && ParenClose(s, j + 2) == Some(q)
    ensures LinkAtHead(s) && Consumed(s) == q + 1 && j + 2 <= q
    ensures HeadOutput(s, cls) == Anchor(s[1..j], s[j + 2..q], cls)
  {
  }

  lemma LinksStep(s: string, cls: string)
    requires s != []
    ensures Links(s, cls) == HeadOutput(s, cls) + Links(s[Consumed(s)..], cls)
  {
  }

  lemma LinkParts(s: string, t: string, u: string, rest: string)
    requires s == "[" + t + "](" + u + ")" + rest
    ensures |s| == 4 + |t| + |u| + |rest| && s[0] == '[' && OpensUrl(s, 1 + |t|) && s[3 + |t| + |u|] == ')'
    ensures s[1..1 + |t|] == t && s[3 + |t|..3 + |t| + |u|] == u && s[4 + |t| + |u|..] == rest
  {
  }

  /**
   * Text with no `[` is left alone; `[t](u)`, with no `](` in t, no `)` in u
   * and no line break in either, becomes an anchor to u showing t, and the
   * scan goes on after it. So t may hold `]` and `[`, as in `[a]b](c)`.
   */
  lemma LinksSpec(t: string, u: string, rest: string, cls: string)
    requires NoUrlOpen(t) && NoLineBreak(t) && Lacks(u, ')') && NoLineBreak(u)
    ensures Lacks(rest, '[') ==> Links(rest, cls) == rest
    ensures Links("[" + t + "](" + u + ")" + rest, cls) == Anchor(t, u, cls) + Links(rest, cls)
  {
    if Lacks(rest, '[') {
      LinksPlain(rest, cls);
    }
    var s := "[" + t + "](" + u + ")" + rest;
    var j, q := 1 + |t|, 3 + |t| + |u|;
    LinkParts(s, t, u, rest);
    BracketAt(s, t, j);
    ParenAt(s, u, j + 2, q);
    HeadAt(s, cls, j, q);
    LinksStep(s, cls);
  }

  // ---------------------------------------------------------------- formatter

  /** `formatMessage`: escape, then bold, then links. */
  function FormatMessage(text: string, isUser: bool): string
  {
    Links(Bold(Escape(text)), LinkClass(isUser))
  }

  /** Text no step rewrites: no character to escape, no `**` and no `[`. */
  predicate Plain(s: string)
  {
    NoSpecial(s) && NoDoubleStar(s) && Lacks(s, '[')
  }

  /** The inside of a bold span that the formatter shows as it is. */
  predicate BoldText(x: string)
  {
    NoSpecial(x) && Lacks(x, '[') && NoLineBreak(x) && NoBoldClose(x)
  }

  /** The text of a link that the formatter shows as it is. */
  predicate LinkText(t: string)
  {
    NoSpecial(t) && Lacks(t, '*') && NoUrlOpen(t) && NoLineBreak(t)
  }

  /** The URL of a link that the formatter copies as it is. */
  predicate LinkUrl(u: string)
  {
    NoSpecial(u) && Lacks(u, '*') && Lacks(u, ')') && NoLineBreak(u)
  }

  lemma FormatPlain(x: string, cls: string)
    requires Plain(x)
    ensures Links(Bold(Escape(x)), cls) == x
  {
    EscapeSpec(x);
    BoldPlain(x);
    LinksPlain(x, cls);
  }

  lemma StrongLacksBracket(x: string)
    requires Lacks(x, '[')
    ensures Lacks(STRONG_OPEN + x + STRONG_CLOSE, '[')
  {
    assert Lacks(STRONG_OPEN, '[');
    assert Lacks(STRONG_CLOSE, '[');
    LacksAppend(STRONG_OPEN, x, '[');
    LacksAppend(STRONG_OPEN + x, STRONG_CLOSE, '[');
  }

  lemma FormatBold(x: string, cls: string)
    requires BoldText(x)
    ensures Links(Bold(Escape("**" + x + "**")), cls) == STRONG_OPEN + x + STRONG_CLOSE
  {
    var b := "**" + x + "**";
    assert NoSpecial("**");
    NoSpecialAppend("**", x);
    NoSpecialAppend("**" + x, "**");
    EscapeSpec(b);
    BoldSpec(x, []);
    assert b + [] == b;
    assert Bold([]) == [];
    var bs := STRONG_OPEN + x + STRONG_CLOSE;
    assert bs + [] == bs;
    StrongLacksBracket(x);
    LinksPlain(bs, cls);
  }

  lemma FormatLink(t: string, u: string, cls: string)
    requires LinkText(t) && LinkUrl(u)
    ensures Links(Bold(Escape("[" + t + "](" + u + ")")), cls) == Anchor(t, u, cls)
  {
    var l := "[" + t + "](" + u + ")";
    assert NoSpecial("[") && NoSpecial("](") && NoSpecial(")");
    assert Lacks("[", '*') && Lacks("](", '*') && Lacks(")", '*');
    NoSpecialAppend("[", t);
    NoSpecialAppend("[" + t, "](");
    NoSpecialAppend("[" + t + "](", u);
    NoSpecialAppend("[" + t + "](" + u, ")");
    LacksAppend("[", t, '*');
    LacksAppend("[" + t, "](", '*');
    LacksAppend("[" + t + "](", u, '*');
    LacksAppend("[" + t + "](" + u, ")", '*');
    EscapeSpec(l);
    LacksStarNoDoubleStar(l);
    BoldPlain(l);
    LinksSpec(t, u, [], cls);
    assert l + [] == l;
    assert Links([], cls) == [];
    assert Anchor(t, u, cls) + [] == Anchor(t, u, cls);
  }

  /**
   * Text with nothing to escape, no `**` and no `[` is shown as it is;
   * `**x**` becomes a `strong` element around x, even when x holds single
   * `*`s; `[t](u)` becomes an anchor to u showing t, even when t holds `]`
   * or `[`, and its class depends only on whether the user sent the message.
   */
  lemma FormatMessageSpec(x: string, b: string, t: string, u: string, isUser: bool)
    requires Plain(x) && BoldText(b) && LinkText(t) && LinkUrl(u)
    ensures FormatMessage(x, isUser) == x
    ensures FormatMessage("**" + b + "**", isUser) == STRONG_OPEN + b + STRONG_CLOSE
    ensures FormatMessage("[" + t + "](" + u + ")", isUser) == Anchor(t, u, LinkClass(isUser))
  {
    FormatPlain(x, LinkClass(isUser));
    FormatBold(b, LinkClass(isUser));
    FormatLink(t, u, LinkClass(isUser));
  }

  // ---------------------------------------------------------------- page state

  /** The page's text box over the chat session. */
  class ChatPageState {
    const session: Chat.ChatSession
    var input: string

    constructor (session: Chat.ChatSession)
      ensures this.session == session && input == ""
    {
      this.session := session;
      input := "";
    }

    /** The text box is disabled while loading, while an action awaits confirmation, or after a chat error. */
    predicate InputDisabled()
      reads this, session
    {
      session.isLoading || session.pendingAction.Some? || session.chatError.Some?
    }

    /** The send button is disabled in the same cases, and also for blank input. */
    predicate SendDisabled()
      reads this, session
    {
      IsBlank(input) || InputDisabled()
    }

    /** `onChange` of the text box. */
    method Type(text: string)
      modifies this
      ensures input == text
    {
      input := text;
    }

    /**
     * `handleSendMessage`: blank input is not sent; otherwise the box is
     * cleared and its text goes to `sendMessage`. Returns whether the
     * gateway was called.
     */
    method HandleSend() returns (requested: bool)
      modifies this, session
      ensures IsBlank(old(input)) ==>
                !requested && input == old(input) && session.messages == old(session.messages)
                && session.isLoading == old(session.isLoading)
      ensures !IsBlank(old(input)) ==> input == ""
      ensures !IsBlank(old(input)) && !old(session.isLoading) ==>
                session.messages == old(session.messages) + [Chat.ChatMessage(Chat.UserSender, old(input))]
      ensures requested <==> !IsBlank(old(input)) && !old(session.isLoading) && old(session.hasSession)
      ensures session.pendingAction == old(session.pendingAction)
    {
      var blank := TrimIsEmpty(input);
      if blank {
        return false;
      }
      var text := input;
      input := "";
      requested := session.SendStart(text);
    }

    /**
     * Submitting the form from the page: with the button or the box
     * disabled nothing happens, so a message is never sent while an action
     * awaits confirmation, while loading, or after a chat error.
     */
    method SubmitForm() returns (requested: bool)
      modifies this, session
      ensures old(SendDisabled()) ==>
                !requested && input == old(input) && session.messages == old(session.messages)
      ensures old(session.pendingAction).Some? || old(session.isLoading) || old(session.chatError).Some? ==>
                !requested && session.messages == old(session.messages)
      ensures !old(SendDisabled()) ==>
                requested == old(session.hasSession) && input == ""
                && session.messages == old(session.messages) + [Chat.ChatMessage(Chat.UserSender, old(input))]
    {
      if SendDisabled() {
        return false;
      }
      requested := HandleSend();
    }
  }
}
