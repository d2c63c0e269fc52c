/** The two global regular expressions of the South Plus route, as scans over a string:
    `/\[img\](.*?)\[\/img\]/gi` (image blocks: collected by an exec loop, and removed) and
    `/\[\/?.*?\]/g` (any remaining bracketed tag: removed).

    ECMAScript semantics kept here: `.` matches anything but a line terminator; `.*?` is
    lazy, so the closing literal is looked for after the shortest run; under the `i` flag
    without `u` no non-ASCII character matches an ASCII letter, so exactly the case variants
    of `img` match (`[IMG]` and `[iMg]` open a block); a global
    search finds the leftmost match and resumes where that match ended. */
module BbCode {
  import opened Wrappers
  import opened JsText

  /** `\[img\]` under the `i` flag, at the start of t. */
  predicate StartsWithOpenTag(t: string) {
    |t| >= 5 && t[0] == '[' && t[1] in "iI" && t[2] in "mM" && t[3] in "gG" && t[4] == ']'
  }

  /** `\[\/img\]` under the `i` flag, at the start of t. */
  predicate StartsWithCloseTag(t: string) {
    |t| >= 6 && t[0] == '[' && t[1] == '/' && t[2] in "iI" && t[3] in "mM" && t[4] in "gG" && t[5] == ']'
  }

  /** The literal that ends a lazy `.*?`. */
  datatype Closer = ImgClose | Bracket

  function CloserLen(c: Closer): nat {
    match c
    case ImgClose => 6
    case Bracket => 1
  }

  predicate ClosesAt(c: Closer, t: string) {
    match c
    case ImgClose => StartsWithCloseTag(t)
    case Bracket => |t| > 0 && t[0] == ']'
  }

  /** `.*?` followed by the closer, anchored at the start of u: the length of the shortest run
      of non-line-terminators after which the closer matches. */
  function LazyUntil(c: Closer, u: string): (r: Option<nat>)
    ensures r.Some? ==> r.value + CloserLen(c) <= |u|
  {
    if ClosesAt(c, u) then Some(0)
    else if u == [] || IsLineTerminator(u[0]) then None
    else
      match LazyUntil(c, u[1..])
      case Some(k) => Some(k + 1)
      case None => None
  }

  /** Stepping over a first character that is neither the closer nor a line terminator. */
  lemma StepOver(u: string)
    requires u != [] && !IsLineTerminator(u[0])
    ensures forall k :: 0 <= k < |u| ==> u[1..][k..] == u[k + 1..]
    ensures forall k :: 0 <= k < |u| ==>
      (NoLineTerminator(u[1..][..k]) <==> NoLineTerminator(u[..k + 1]))
  {
    forall k | 0 <= k < |u|
      ensures NoLineTerminator(u[1..][..k]) <==> NoLineTerminator(u[..k + 1])
    {
      assert u[..k + 1] == [u[0]] + u[1..][..k];
    }
  }

  /** When LazyUntil finds the closer, it is after the SHORTEST run without a line terminator. */
  lemma {:induction false} LazyUntilSome(c: Closer, u: string)
    requires LazyUntil(c, u).Some?
    ensures var k := LazyUntil(c, u).value;
      && ClosesAt(c, u[k..]) && NoLineTerminator(u[..k])
      && forall j :: 0 <= j < k ==> !ClosesAt(c, u[j..])
    decreases |u|
  {
    assert u[0..] == u;
    if !ClosesAt(c, u) {
      LazyUntilSome(c, u[1..]);
      StepOver(u);
      var k := LazyUntil(c, u[1..]).value;
      assert LazyUntil(c, u) == Some(k + 1);
      forall j | 0 < j < k + 1 ensures !ClosesAt(c, u[j..]) {
        assert u[1..][j - 1..] == u[j..];
      }
    }
  }

  /** LazyUntil finds nothing exactly when no run without a line terminator is followed by the
      closer. */
  lemma {:induction false} LazyUntilNone(c: Closer, u: string)
    requires LazyUntil(c, u).None?
    ensures forall k :: 0 <= k <= |u| && NoLineTerminator(u[..k]) ==> !ClosesAt(c, u[k..])
    decreases |u|
  {
    assert u[0..] == u;
    if u != [] && IsLineTerminator(u[0]) {
      forall k | 0 < k <= |u| ensures !NoLineTerminator(u[..k]) {
        assert u[..k][0] == u[0];
      }
    } else if u != [] {
      LazyUntilNone(c, u[1..]);
      StepOver(u);
      forall k | 0 < k <= |u| && NoLineTerminator(u[..k]) ensures !ClosesAt(c, u[k..]) {
        assert u[1..][k - 1..] == u[k..];
      }
    }
  }

  /** The two patterns; `\/?` in the tag pattern is absorbed by the `.*?` after it, so a tag
      runs from a `[` to the first `]` after it, provided no line ends in between. */
  datatype Pattern = ImgBlock | BBTag

  /** Length of the match of p anchored at the start of t, if there is one. */
  function MatchLen(p: Pattern, t: string): (r: Option<nat>)
    ensures r.Some? ==> 0 < r.value <= |t|
    ensures r.Some? && p == ImgBlock ==> 11 <= r.value
  {
    match p
    case ImgBlock =>
      if StartsWithOpenTag(t) then
        match LazyUntil(ImgClose, t[5..])
        case Some(k) => Some(k + 11)
        case None => None
      else None
    case BBTag =>
      if |t| > 0 && t[0] == '[' then
        match LazyUntil(Bracket, t[1..])
        case Some(k) => Some(k + 2)
        case None => None
      else None
  }

  /** p matches nowhere in s. */
  predicate NoMatch(p: Pattern, s: string) {
    forall i :: 0 <= i < |s| ==> MatchLen(p, s[i..]).None?
  }

  /** `s.replaceAll(p, '')` */
  function RemoveAll(p: Pattern, s: string): (r: string)
    ensures |r| <= |s|
    decreases |s|
  {
    if s == [] then []
    else
      match MatchLen(p, s)
      case Some(n) => RemoveAll(p, s[n..])
      case None => [s[0]] + RemoveAll(p, s[1..])
  }

  /** What can stand between `[img]` and `[/img]` and come back whole as a capture: no line
      terminator and no closing tag. */
  predicate IsCleanCapture(u: string) {
    NoLineTerminator(u) && forall k :: 0 <= k <= |u| ==> !StartsWithCloseTag(u[k..])
  }

  /** The captures that `while ((m = regex.exec(s)) !== null) imgs.push(m[1])` collects. */
  function Images(s: string): seq<string>
    decreases |s|
  {
    if s == [] then []
    else
      match MatchLen(ImgBlock, s)
      case Some(n) => [s[5..n - 6]] + Images(s[n..])
      case None => Images(s[1..])
  }

  /** Every image takes a whole block of at least 11 characters, `[img][/img]`. */
  lemma {:induction false} ImagesBound(s: string)
    ensures 11 * |Images(s)| <= |s|
    decreases |s|
  {
    if s != [] {
      match MatchLen(ImgBlock, s)
      case Some(n) => ImagesBound(s[n..]);
      case None => ImagesBound(s[1..]);
    }
  }

  /** Every capture is clean, so writing the captures back as image blocks gives them back. */
  lemma {:induction false} ImagesAreClean(s: string)
    ensures forall k :: 0 <= k < |Images(s)| ==> IsCleanCapture(Images(s)[k])
    decreases |s|
  {
    if s != [] {
      match MatchLen(ImgBlock, s)
      case Some(n) =>
        ImagesAreClean(s[n..]);
        CaptureIsClean(s[5..]);
        assert s[5..n - 6] == s[5..][..n - 11];
        var r := Images(s);
        assert r == [s[5..n - 6]] + Images(s[n..]);
        forall k | 0 < k < |r| ensures IsCleanCapture(r[k]) {
          assert r[k] == Images(s[n..])[k - 1];
        }
      case None =>
        ImagesAreClean(s[1..]);
    }
  }

  /** A closing tag at the start of a prefix is a closing tag at the start of the whole. */
  lemma CloseTagExtends(a: string, b: string)
    requires |a| <= |b| && a == b[..|a|]
    ensures StartsWithCloseTag(a) ==> StartsWithCloseTag(b)
  {
  }

  lemma CaptureIsClean(u: string)
    requires LazyUntil(ImgClose, u).Some?
    ensures IsCleanCapture(u[..LazyUntil(ImgClose, u).value])
  {
    LazyUntilSome(ImgClose, u);
    var k := LazyUntil(ImgClose, u).value;
    var w := u[..k];
    forall j | 0 <= j <= |w|
      ensures !StartsWithCloseTag(w[j..])
    {
      if j < k {
        CloseTagExtends(w[j..], u[j..]);
      }
    }
  }

  /** One match of `regex.exec(s)` with `regex.lastIndex == from`: the capture and the
      position where the next search starts. */
  datatype ImgMatch = ImgMatch(url: string, end: nat)

  /** Images read from position i on: one step of the scan, in positions of s. */
  lemma ImagesFrom(s: string, i: nat)
    requires i < |s|
    ensures var t := s[i..];
      match MatchLen(ImgBlock, t)
      case Some(n) => Images(t) == [s[i + 5..i + n - 6]] + Images(s[i + n..])
      case None => Images(t) == Images(s[i + 1..])
  {
    var t := s[i..];
    match MatchLen(ImgBlock, t)
    case Some(n) =>
      assert t[n..] == s[i + n..];
      assert t[5..n - 6] == s[i + 5..i + n - 6];
    case None =>
      assert t[1..] == s[i + 1..];
  }

  /** `regex.exec(s)` from `lastIndex == from`: the leftmost image block at or after from. */
  function Exec(s: string, from: nat): (r: Option<ImgMatch>)
    requires from <= |s|
    ensures r.Some? ==> from < r.value.end <= |s|
    decreases |s| - from
  {
    if from == |s| then None
    else
      match MatchLen(ImgBlock, s[from..])
      case Some(n) => Some(ImgMatch(s[from + 5..from + n - 6], from + n))
      case None => Exec(s, from + 1)
  }

  /** A match found from position from is the first image read from there on, and the next
      search resumes where its block ends; no match means no image from there on. */
  lemma {:induction false} ExecImages(s: string, from: nat)
    requires from <= |s|
    ensures var r := Exec(s, from);
      && (r.Some? ==> Images(s[from..]) == [r.value.url] + Images(s[r.value.end..]))
      && (r.None? ==> Images(s[from..]) == [])
    decreases |s| - from
  {
    if from < |s| {
      ImagesFrom(s, from);
      if MatchLen(ImgBlock, s[from..]).None? {
        ExecImages(s, from + 1);
      }
    }
  }

  /** `extractImages`: the exec loop, pushing each capture. */
  method ExtractImages(desc: string) returns (imgs: seq<string>)
    ensures imgs == Images(desc)
  {
    imgs := [];
    var lastIndex := 0;
    var m := Exec(desc, lastIndex);
    while m.Some?
      invariant lastIndex <= |desc|
      invariant m == Exec(desc, lastIndex)
      invariant imgs + Images(desc[lastIndex..]) == Images(desc)
      decreases |desc| - lastIndex
    {
      ExecImages(desc, lastIndex);
      assert imgs + Images(desc[lastIndex..]) == (imgs + [m.value.url]) + Images(desc[m.value.end..]);
      imgs := imgs + [m.value.url];
      lastIndex := m.value.end;
      m := Exec(desc, lastIndex);
    }
    ExecImages(desc, lastIndex);
    assert imgs + [] == imgs;
  }

  /** `cleanContent`: image blocks removed, then every other bracketed tag, then trimmed. */
  function CleanContent(desc: string): (r: string)
    ensures |r| <= |desc|
  {
    Trim(RemoveAll(BBTag, RemoveAll(ImgBlock, desc)))
  }

  // ---------------------------------------------------------------------------------------
  // Image markup: the inverse of extractImages.

  function ImgBlockOf(u: string): string {
    "[img]" + u + "[/img]"
  }

  /** Image blocks written one after another. */
  function ImgMarkup(us: seq<string>): string {
    if us == [] then "" else ImgBlockOf(us[0]) + ImgMarkup(us[1..])
  }

  /** After a clean capture, the lazy search stops at the first closing tag. */
  lemma {:induction false} LazyUntilCleanCapture(u: string, rest: string)
    requires IsCleanCapture(u)
    ensures LazyUntil(ImgClose, u + "[/img]" + rest) == Some(|u|)
    decreases |u|
  {
    var w := u + "[/img]" + rest;
    if u == [] {
      assert w[..6] == "[/img]";
    } else {
      assert !StartsWithCloseTag(w) by {
        if |u| >= 6 {
          assert w[..6] == u[..6];
          assert !StartsWithCloseTag(u[0..]);
        } else {
          assert w[|u|] == '[';
        }
      }
      assert IsCleanCapture(u[1..]) by {
        forall k | 0 <= k <= |u[1..]| ensures !StartsWithCloseTag(u[1..][k..]) {
          assert u[1..][k..] == u[k + 1..];
        }
      }
      LazyUntilCleanCapture(u[1..], rest);
      assert w[1..] == u[1..] + "[/img]" + rest;
    }
  }

  /** A block with a clean capture is matched whole at the start of the text. */
  lemma BlockMatchesWhole(u: string, rest: string)
    requires IsCleanCapture(u)
    ensures MatchLen(ImgBlock, ImgBlockOf(u) + rest) == Some(|ImgBlockOf(u)|)
    ensures (ImgBlockOf(u) + rest)[5..|u| + 5] == u
    ensures (ImgBlockOf(u) + rest)[|ImgBlockOf(u)|..] == rest
  {
    var t := ImgBlockOf(u) + rest;
    assert t[5..] == u + "[/img]" + rest;
    LazyUntilCleanCapture(u, rest);
  }

  /** extractImages undoes ImgMarkup: writing clean URLs as image blocks and extracting them
      gives the same URLs back, in order. */
  lemma {:induction false} ImagesOfMarkup(us: seq<string>)
    requires forall k :: 0 <= k < |us| ==> IsCleanCapture(us[k])
    ensures Images(ImgMarkup(us)) == us
  {
    if us != [] {
      var rest := ImgMarkup(us[1..]);
      BlockMatchesWhole(us[0], rest);
      ImagesOfMarkup(us[1..]);
    }
  }

  /** `extractImages('[img]' + u + '[/img]')` is `[u]` for a clean u. */
  lemma ImagesOfOneBlock(u: string)
    requires IsCleanCapture(u)
    ensures Images("[img]" + u + "[/img]") == [u]
  {
    BlockMatchesWhole(u, "");
    assert ImgBlockOf(u) + "" == "[img]" + u + "[/img]";
  }

  /** Text made only of image blocks has nothing left once the blocks are removed, so its
      cleaned content is empty. */
  lemma {:induction false} RemoveAllOfMarkup(us: seq<string>)
    requires forall k :: 0 <= k < |us| ==> IsCleanCapture(us[k])
    ensures RemoveAll(ImgBlock, ImgMarkup(us)) == ""
  {
    if us != [] {
      BlockMatchesWhole(us[0], ImgMarkup(us[1..]));
      RemoveAllOfMarkup(us[1..]);
    }
  }

  // ---------------------------------------------------------------------------------------
  // When nothing matches.

  /** No match in s: none at its first position and none in the rest. */
  lemma NoMatchUncons(p: Pattern, s: string)
    requires s != []
    ensures NoMatch(p, s) <==> MatchLen(p, s).None? && NoMatch(p, s[1..])
  {
    assert s[0..] == s;
    if NoMatch(p, s) {
      forall i | 0 <= i < |s[1..]| ensures MatchLen(p, s[1..][i..]).None? {
        assert s[1..][i..] == s[i + 1..];
      }
    }
    if MatchLen(p, s).None? && NoMatch(p, s[1..]) {
      forall i | 0 < i < |s| ensures MatchLen(p, s[i..]).None? {
        assert s[1..][i - 1..] == s[i..];
      }
    }
  }

  /** extractImages returns no image exactly when the text holds no `[img]`…`[/img]` pair. */
  lemma {:induction false} ImagesEmptyIff(s: string)
    ensures Images(s) == [] <==> NoMatch(ImgBlock, s)
    decreases |s|
  {
    if s != [] {
      NoMatchUncons(ImgBlock, s);
      if MatchLen(ImgBlock, s).None? {
        ImagesEmptyIff(s[1..]);
      }
    }
  }

  /** replaceAll leaves the text unchanged exactly when the pattern matches nowhere in it. */
  lemma {:induction false} RemoveAllUnchangedIff(p: Pattern, s: string)
    ensures RemoveAll(p, s) == s <==> NoMatch(p, s)
    decreases |s|
  {
    if s != [] {
      NoMatchUncons(p, s);
      if MatchLen(p, s).None? {
        RemoveAllUnchangedIff(p, s[1..]);
        assert s == [s[0]] + s[1..];
      }
    }
  }

  /** The exec loop and the first replaceAll of cleanContent see the same blocks: no image is
      extracted exactly when removing image blocks changes nothing. */
  lemma ImagesEmptyIffNothingRemoved(s: string)
    ensures Images(s) == [] <==> RemoveAll(ImgBlock, s) == s
  {
    ImagesEmptyIff(s);
    RemoveAllUnchangedIff(ImgBlock, s);
  }

  // ---------------------------------------------------------------------------------------
  // cleanContent.

  /** No `[` is followed by a `]` on the same line. */
  ghost predicate NoBracketPair(s: string) {
    forall i, j :: 0 <= i < j < |s| && s[i] == '[' && s[j] == ']' ==> !NoLineTerminator(s[i + 1..j])
  }

  /** The tag pattern matches nowhere exactly when no `[` is followed by a `]` on its line. */
  lemma NoTagIffNoBracketPair(s: string)
    ensures NoMatch(BBTag, s) <==> NoBracketPair(s)
  {
    if NoMatch(BBTag, s) {
      forall i, j | 0 <= i < j < |s| && s[i] == '[' && s[j] == ']'
        ensures !NoLineTerminator(s[i + 1..j])
      {
        var u := s[i..][1..];
        assert u == s[i + 1..];
        LazyUntilNone(Bracket, u);
        assert u[j - i - 1..][0] == s[j];
        assert u[..j - i - 1] == s[i + 1..j];
      }
    }
    if NoBracketPair(s) {
      forall i | 0 <= i < |s| && s[i] == '[' ensures MatchLen(BBTag, s[i..]).None? {
        assert s[i..][1..] == s[i + 1..];
        if LazyUntil(Bracket, s[i + 1..]).Some? {
          TagGivesBracketPair(s, i);
        }
      }
      forall i | 0 <= i < |s| && s[i] != '[' ensures MatchLen(BBTag, s[i..]).None? {
        assert s[i..][0] == s[i];
      }
    }
  }

  /** A tag starting at i is a `[` at i and a `]` later on the same line. */
  lemma TagGivesBracketPair(s: string, i: nat)
    requires i < |s| && s[i] == '[' && LazyUntil(Bracket, s[i + 1..]).Some?
    ensures var j := i + 1 + LazyUntil(Bracket, s[i + 1..]).value;
      j < |s| && s[j] == ']' && NoLineTerminator(s[i + 1..j])
  {
    var u := s[i + 1..];
    LazyUntilSome(Bracket, u);
    var k := LazyUntil(Bracket, u).value;
    assert u[k..][0] == s[i + 1 + k];
    assert u[..k] == s[i + 1..i + 1 + k];
  }

  /** Removing tags never brings a `]` onto the line of an unclosed `[`: if the rest of the line
      after it holds no `]`, neither does what is left of it. */
  lemma {:induction false} RemoveTagsKeepsLineOpen(u: string)
    requires LazyUntil(Bracket, u).None?
    ensures LazyUntil(Bracket, RemoveAll(BBTag, u)).None?
    decreases |u|
  {
    if u != [] && !IsLineTerminator(u[0]) {
      RemoveTagsKeepsLineOpen(u[1..]);
      var r := RemoveAll(BBTag, u[1..]);
      assert ([u[0]] + r)[1..] == r;
    }
  }

  /** Putting a character before text with no tag makes no tag, unless it is a `[` whose line
      holds a `]`. */
  lemma NoTagCons(c: char, t: string)
    requires NoMatch(BBTag, t)
    requires c == '[' ==> LazyUntil(Bracket, t).None?
    ensures NoMatch(BBTag, [c] + t)
  {
    var s := [c] + t;
    assert s[1..] == t;
    NoMatchUncons(BBTag, s);
  }

  /** After the tag replaceAll, no tag is left. */
  lemma {:induction false} RemoveTagsLeavesNone(s: string)
    ensures NoMatch(BBTag, RemoveAll(BBTag, s))
    decreases |s|
  {
    if s != [] {
      match MatchLen(BBTag, s)
      case Some(n) =>
        RemoveTagsLeavesNone(s[n..]);
      case None =>
        RemoveTagsLeavesNone(s[1..]);
        if s[0] == '[' {
          RemoveTagsKeepsLineOpen(s[1..]);
        }
        NoTagCons(s[0], RemoveAll(BBTag, s[1..]));
    }
  }

  /** Every piece cut out of a text without a same-line bracket pair has none either. */
  lemma NoBracketPairSlice(s: string, w: string, a: nat)
    requires a + |w| <= |s| && w == s[a..a + |w|] && NoBracketPair(s)
    ensures NoBracketPair(w)
  {
    forall i, j | 0 <= i < j < |w| && w[i] == '[' && w[j] == ']'
      ensures !NoLineTerminator(w[i + 1..j])
    {
      assert s[a + i] == '[' && s[a + j] == ']';
      var x, y := w[i + 1..j], s[a + i + 1..a + j];
      forall t | 0 <= t < |x| ensures x[t] == y[t] { }
      assert x == y;
    }
  }

  lemma TrimKeepsNoBracketPair(s: string)
    requires NoBracketPair(s)
    ensures NoBracketPair(Trim(s))
  {
    var t := TrimStart(s);
    NoBracketPairSlice(s, t, |s| - |t|);
    NoBracketPairSlice(t, TrimEnd(t), 0);
  }

  /** An image block starts with `[img]`, which is already a tag. */
  lemma ImgBlockIsTag(t: string)
    requires MatchLen(ImgBlock, t).Some?
    ensures MatchLen(BBTag, t).Some?
  {
    var u := t[1..];
    assert u[3..][0] == ']';
    assert LazyUntil(Bracket, u[3..]) == Some(0);
    assert u[2..][1..] == u[3..];
    assert LazyUntil(Bracket, u[2..]) == Some(1);
    assert u[1..][1..] == u[2..];
    assert LazyUntil(Bracket, u[1..]) == Some(2);
    assert LazyUntil(Bracket, u) == Some(3);
  }

  lemma NoTagNoImgBlock(s: string)
    requires NoMatch(BBTag, s)
    ensures NoMatch(ImgBlock, s)
  {
    forall i | 0 <= i < |s| ensures MatchLen(ImgBlock, s[i..]).None? {
      if MatchLen(ImgBlock, s[i..]).Some? {
        ImgBlockIsTag(s[i..]);
      }
    }
  }

  /** cleanContent leaves no whitespace at either end and no `[` followed by a `]` on the same
      line. */
  lemma CleanContentShape(desc: string)
    ensures IsTrimmed(CleanContent(desc))
    ensures NoBracketPair(CleanContent(desc))
  {
    var t := RemoveAll(BBTag, RemoveAll(ImgBlock, desc));
    RemoveTagsLeavesNone(RemoveAll(ImgBlock, desc));
    NoTagIffNoBracketPair(t);
    TrimKeepsNoBracketPair(t);
  }

  /** Cleaning cleaned content changes nothing. */
  lemma CleanContentIdempotent(desc: string)
    ensures CleanContent(CleanContent(desc)) == CleanContent(desc)
  {
    var r := CleanContent(desc);
    CleanContentShape(desc);
    NoTagIffNoBracketPair(r);
    NoTagNoImgBlock(r);
    RemoveAllUnchangedIff(ImgBlock, r);
    RemoveAllUnchangedIff(BBTag, r);
    TrimFixpoint(r);
  }

  /** Content with no `[` is only trimmed. */
  lemma CleanContentWithoutBracket(desc: string)
    requires '[' !in desc
    ensures CleanContent(desc) == Trim(desc)
  {
    forall i | 0 <= i < |desc| ensures desc[i..][0] == desc[i] { }
    assert NoMatch(ImgBlock, desc);
    assert NoMatch(BBTag, desc);
    RemoveAllUnchangedIff(ImgBlock, desc);
    RemoveAllUnchangedIff(BBTag, desc);
  }

  /** Image-only markup cleans to nothing. */
  lemma CleanContentOfMarkup(us: seq<string>)
    requires forall k :: 0 <= k < |us| ==> IsCleanCapture(us[k])
    ensures CleanContent(ImgMarkup(us)) == ""
  {
    RemoveAllOfMarkup(us);
  }
}
