/**
 * Bounded UTF-8 text: limitedStreamText, Truncate and the rune-aligned cuts of
 * internal/genai/genai.go, and boundedTraceBody of internal/proxy/attrs.go.
 * UTF-8 is that of section 4 of RFC 3629.
 */
module LimitedText {
  import opened Bytes

  const REPLACEMENT: Bytes := "\U{EF}\U{BF}\U{BD}"
  const ELLIPSIS: Bytes := "\U{E2}\U{80}\U{A6}"
  const TRUNCATE_LIMIT := 256
  const MAX_TRACED_BODY_SIZE := 262144

  predicate Between(c: char, lo: int, hi: int) {
    lo <= c as int <= hi
  }

  /** A byte that can begin a rune: anything but a continuation byte. */
  predicate RuneStart(c: char) {
    !Between(c, 0x80, 0xBF)
  }

  /** The number of bytes of the rune that b begins with, 0 when it begins with none. */
  function RuneSize(b: Bytes): (n: nat)
    ensures n <= |b| && n <= 4
    ensures n > 0 ==> RuneStart(b[0]) && forall i :: 0 < i < n ==> !RuneStart(b[i])
  {
    if b == "" then 0
    else if Between(b[0], 0, 0x7F) then 1
    else if |b| >= 2 && Between(b[0], 0xC2, 0xDF) && Between(b[1], 0x80, 0xBF) then 2
    else if |b| >= 3 && Between(b[0], 0xE0, 0xEF) && SecondByte(b[0], b[1]) && Between(b[2], 0x80, 0xBF) then 3
    else if |b| >= 4 && Between(b[0], 0xF0, 0xF4) && SecondByte(b[0], b[1])
            && Between(b[2], 0x80, 0xBF) && Between(b[3], 0x80, 0xBF) then 4
    else 0
  }

  predicate SecondByte(first: char, second: char) {
    && Between(second, 0x80, 0xBF)
    && (first as int == 0xE0 ==> second as int >= 0xA0)
    && (first as int == 0xED ==> second as int <= 0x9F)
    && (first as int == 0xF0 ==> second as int >= 0x90)
    && (first as int == 0xF4 ==> second as int <= 0x8F)
  }

  predicate ValidUTF8(b: Bytes) {
    b == "" || (RuneSize(b) > 0 && ValidUTF8(b[RuneSize(b)..]))
  }

  /** strings.ToValidUTF8 with U+FFFD: each run of bytes that begin no rune becomes one replacement. */
  function Sanitised(b: Bytes, inRun: bool := false): Bytes {
    var n := RuneSize(b);
    if b == "" then ""
    else if n == 0 then (if inRun then "" else REPLACEMENT) + Sanitised(b[1..], true)
    else b[..n] + Sanitised(b[n..], false)
  }

  lemma RuneSizePrefix(b: Bytes, rest: Bytes)
    requires RuneSize(b) == |b| > 0
    ensures RuneSize(b + rest) == |b|
  {
  }

  /** The first rune of b, alone, is valid text. */
  lemma FirstRune(b: Bytes)
    requires RuneSize(b) > 0
    ensures RuneSize(b[..RuneSize(b)]) == RuneSize(b)
    ensures ValidUTF8(b[..RuneSize(b)])
  {
    var n := RuneSize(b);
    var first := b[..n];
    assert |first| == n && first[0] == b[0];
    assert n > 1 ==> first[1] == b[1];
    assert n > 2 ==> first[2] == b[2];
    assert n > 3 ==> first[3] == b[3];
    assert RuneSize(first) == n;
    assert first[n..] == "";
  }

  lemma {:induction false} ValidAppend(a: Bytes, b: Bytes)
    requires ValidUTF8(a) && ValidUTF8(b)
    ensures ValidUTF8(a + b)
    decreases |a|
  {
    if a == "" {
      assert a + b == b;
    } else {
      var n := RuneSize(a);
      FirstRune(a);
      assert a + b == a[..n] + (a[n..] + b);
      RuneSizePrefix(a[..n], a[n..] + b);
      ValidAppend(a[n..], b);
      assert (a + b)[n..] == a[n..] + b;
    }
  }

  lemma {:induction false} SanitisedValid(b: Bytes, inRun: bool)
    ensures ValidUTF8(Sanitised(b, inRun))
    decreases |b|
  {
    var n := RuneSize(b);
    if b != "" && n == 0 {
      SanitisedValid(b[1..], true);
      assert ValidUTF8(REPLACEMENT) by { assert RuneSize(REPLACEMENT) == 3; }
      ValidAppend(if inRun then "" else REPLACEMENT, Sanitised(b[1..], true));
    } else if b != "" {
      SanitisedValid(b[n..], false);
      FirstRune(b);
      ValidAppend(b[..n], Sanitised(b[n..], false));
    }
  }

  /** Sanitising changes nothing that is valid already. */
  lemma {:induction false} SanitisedIdentity(b: Bytes, inRun: bool)
    requires ValidUTF8(b)
    ensures Sanitised(b, inRun) == b
    decreases |b|
  {
    if b != "" {
      SanitisedIdentity(b[RuneSize(b)..], false);
    }
  }

  // ---------- Cutting at a rune boundary ----------

  /** The last position up to n at which value can be cut without splitting a rune. */
  function Cut(value: Bytes, n: nat): (cut: nat)
    requires n < |value|
    ensures cut <= n
    ensures cut == 0 || RuneStart(value[cut])
    ensures forall i :: cut < i <= n ==> !RuneStart(value[i])
  {
    if n == 0 || RuneStart(value[n]) then n else Cut(value, n - 1)
  }

  lemma CutUnique(value: Bytes, n: nat, cut: nat)
    requires cut <= n < |value|
    requires cut == 0 || RuneStart(value[cut])
    requires forall i :: cut < i <= n ==> !RuneStart(value[i])
    ensures cut == Cut(value, n)
  {
  }

  lemma SliceOfAppend(a: Bytes, b: Bytes, n: nat)
    requires n <= |a|
    ensures (a + b)[..n] == a[..n] && (a + b)[n..] == a[n..] + b
  {
  }

  lemma Halves(a: Bytes, b: Bytes)
    ensures (a + b)[..|a|] == a && (a + b)[|a|..] == b
  {
  }

  /** Cutting valid text loses at most three bytes of the room and leaves two valid halves. */
  lemma {:induction false} CutHalves(value: Bytes, n: nat) returns (a: Bytes, b: Bytes)
    requires ValidUTF8(value) && n < |value|
    ensures value == a + b && |a| == Cut(value, n) >= n - 3
    ensures ValidUTF8(a) && ValidUTF8(b)
    decreases |value|
  {
    var first, rest := SplitRune(value);
    if n < |first| {
      CutInRune(value, n);
      a, b := "", value;
      assert value == a + b;
    } else {
      var more: Bytes;
      more, b := CutHalves(rest, n - |first|);
      HalvesBeyond(first, rest, more, b, n - |first|);
      a := first + more;
      assert |a| == |first| + |more|;
    }
  }

  lemma HalvesBeyond(first: Bytes, rest: Bytes, more: Bytes, b: Bytes, n: nat)
    requires ValidUTF8(first) && ValidUTF8(more) && rest == more + b
    requires n < |rest| && RuneStart(rest[0]) && |more| == Cut(rest, n)
    ensures first + rest == (first + more) + b && ValidUTF8(first + more)
    ensures Cut(first + rest, |first| + n) == |first + more|
  {
    Associative(first, more, b);
    CutBeyond(first, rest, n);
    ValidAppend(first, more);
  }

  lemma CutInRune(value: Bytes, n: nat)
    requires n < RuneSize(value)
    ensures n < |value| && Cut(value, n) == 0 && n <= 3
  {
    CutUnique(value, n, 0);
  }

  /** Valid text is a rune followed by valid text. */
  lemma SplitRune(value: Bytes) returns (first: Bytes, rest: Bytes)
    requires ValidUTF8(value) && value != ""
    ensures value == first + rest && |first| == RuneSize(value)
    ensures ValidUTF8(first) && ValidUTF8(rest) && (rest != "" ==> RuneStart(rest[0]))
  {
    FirstRune(value);
    first, rest := value[..RuneSize(value)], value[RuneSize(value)..];
  }

  lemma CutBeyond(a: Bytes, b: Bytes, n: nat)
    requires n < |b| && RuneStart(b[0])
    ensures Cut(a + b, |a| + n) == |a| + Cut(b, n)
  {
    CutUnique(a + b, |a| + n, |a| + Cut(b, n));
  }

  lemma CutValid(value: Bytes, n: nat)
    requires ValidUTF8(value) && n < |value|
    ensures ValidUTF8(value[..Cut(value, n)]) && ValidUTF8(value[Cut(value, n)..])
    ensures Cut(value, n) >= n - 3
  {
    var a, b := CutHalves(value, n);
    Halves(a, b);
  }

  // ---------- limitedStreamText ----------

  datatype Text = Text(value: Bytes, truncated: bool)

  const EMPTY := Text("", false)

  function Appended(t: Text, fragment: Bytes, limit: nat): Text {
    var value := Sanitised(fragment);
    var remaining := limit - |t.value|;
    if remaining <= 0 then (if value != "" then t.(truncated := true) else t)
    else if |value| <= remaining then t.(value := t.value + value)
    else Text(t.value + value[..Cut(value, remaining)], true)
  }

  function SetTo(fragment: Bytes, limit: nat): Text {
    Appended(EMPTY, fragment, limit)
  }

  function AppendAll(t: Text, fragments: seq<Bytes>, limit: nat): Text
    decreases |fragments|
  {
    if fragments == [] then t else AppendAll(Appended(t, fragments[0], limit), fragments[1..], limit)
  }

  /** Everything the fragments say, with no bound. */
  function Whole(fragments: seq<Bytes>): Bytes {
    if fragments == [] then "" else Sanitised(fragments[0]) + Whole(fragments[1..])
  }

  predicate WellFormed(t: Text, limit: nat) {
    ValidUTF8(t.value) && |t.value| <= limit
  }

  lemma AppendWellFormed(t: Text, fragment: Bytes, limit: nat)
    requires WellFormed(t, limit)
    ensures WellFormed(Appended(t, fragment, limit), limit)
  {
    var value := Sanitised(fragment);
    var remaining := limit - |t.value|;
    SanitisedValid(fragment, false);
    if 0 < remaining < |value| {
      CutValid(value, remaining);
      ValidAppend(t.value, value[..Cut(value, remaining)]);
    } else if 0 < remaining {
      ValidAppend(t.value, value);
    }
  }

  /** Valid text made of one piece of each fragment in turn, each a prefix of it that ends between two runes. */
  ghost predicate MadeOf(text: Bytes, fragments: seq<Bytes>) {
    if fragments == [] then text == ""
    else exists k :: 0 <= k <= |text| && PieceOf(text[..k], fragments[0]) && MadeOf(text[k..], fragments[1..])
  }

  predicate PieceOf(piece: Bytes, fragment: Bytes) {
    piece <= Sanitised(fragment) && ValidUTF8(piece) && ValidUTF8(Sanitised(fragment)[|piece|..])
  }

  /**
   * The text was cut in the i-th fragment, after n bytes: those are a prefix of the whole that
   * ends between two runes, within three bytes of the limit; the rest is pieces of the
   * fragments after the i-th.
   */
  ghost predicate CutIn(t: Text, said: Bytes, fragments: seq<Bytes>, i: nat, n: nat, limit: nat) {
    var whole := said + Whole(fragments);
    && 0 < i <= |fragments|
    && |said + Whole(fragments[..i - 1])| <= limit < |said + Whole(fragments[..i])|
    && limit - 3 <= n <= |t.value| <= limit && n <= |whole|
    && t.value[..n] == whole[..n] && ValidUTF8(whole[..n]) && ValidUTF8(whole[n..])
    && MadeOf(t.value[n..], fragments[i..])
  }

  /**
   * Since the last set, the text is truncated exactly when the fragments exceed the limit; until
   * then it is all they say; and once cut it is a rune-aligned prefix of at least limit - 3
   * bytes, followed by rune-aligned pieces of the fragments that came after the cut.
   */
  lemma BoundedText(fragments: seq<Bytes>, limit: nat)
    ensures var t := AppendAll(EMPTY, fragments, limit);
            var whole := Whole(fragments);
            && WellFormed(t, limit)
            && (t.truncated <==> |whole| > limit)
            && (!t.truncated ==> t.value == whole)
            && (t.truncated ==> exists i, n :: CutIn(t, "", fragments, i, n, limit))
  {
    AppendFrom("", fragments, limit);
    assert "" + Whole(fragments) == Whole(fragments);
  }

  /** The text after more fragments, when it still held everything said before. */
  lemma {:induction false} AppendFrom(said: Bytes, fragments: seq<Bytes>, limit: nat)
    requires ValidUTF8(said) && |said| <= limit
    ensures var t := AppendAll(Text(said, false), fragments, limit);
            var whole := said + Whole(fragments);
            && WellFormed(t, limit)
            && (t.truncated <==> |whole| > limit)
            && (!t.truncated ==> t.value == whole)
            && (t.truncated ==> exists i, n :: CutIn(t, said, fragments, i, n, limit))
    decreases |fragments|
  {
    if fragments == [] {
      assert said + Whole(fragments) == said;
    } else {
      var value, rest := Sanitised(fragments[0]), fragments[1..];
      SanitisedValid(fragments[0], false);
      Associative(said, value, Whole(rest));
      if |said + value| <= limit {
        NotYetCut(said, fragments[0], limit);
        ValidAppend(said, value);
        AppendFrom(said + value, rest, limit);
        var t := AppendAll(Text(said + value, false), rest, limit);
        if t.truncated {
          var i, n :| CutIn(t, said + value, rest, i, n, limit);
          CutLater(t, said, fragments, i, n, limit);
        }
      } else {
        CutNow(said, fragments, limit);
      }
    }
  }

  lemma NotYetCut(said: Bytes, fragment: Bytes, limit: nat)
    requires |said + Sanitised(fragment)| <= limit
    ensures Appended(Text(said, false), fragment, limit) == Text(said + Sanitised(fragment), false)
  {
    assert Sanitised(fragment) == "" ==> said + Sanitised(fragment) == said;
  }

  lemma CutLater(t: Text, said: Bytes, fragments: seq<Bytes>, i: nat, n: nat, limit: nat)
    requires fragments != [] && CutIn(t, said + Sanitised(fragments[0]), fragments[1..], i, n, limit)
    ensures CutIn(t, said, fragments, i + 1, n, limit)
  {
    var value, rest := Sanitised(fragments[0]), fragments[1..];
    Associative(said, value, Whole(rest));
    forall j: nat | j < |fragments| ensures said + Whole(fragments[..j + 1]) == said + value + Whole(rest[..j]) {
      assert fragments[..j + 1][1..] == rest[..j];
      Associative(said, value, Whole(rest[..j]));
    }
    assert rest[i..] == fragments[i + 1..];
  }

  /** The text is the first part of the whole, cut between two runes where the next one does not fit. */
  predicate CutBefore(t: Text, whole: Bytes, limit: nat) {
    var n := |t.value|;
    && t.truncated && limit - 3 <= n <= limit < |whole|
    && t.value <= whole && ValidUTF8(t.value) && ValidUTF8(whole[n..]) && RuneSize(whole[n..]) > limit - n
  }

  lemma CutBetween(said: Bytes, a: Bytes, b: Bytes, limit: nat)
    requires ValidUTF8(said) && ValidUTF8(a) && ValidUTF8(b) && RuneSize(b) > limit - |said + a|
    requires limit - 3 <= |said + a| <= limit < |said + (a + b)|
    ensures CutBefore(Text(said + a, true), said + (a + b), limit)
  {
    Associative(said, a, b);
    Halves(said + a, b);
    ValidAppend(said, a);
  }

  /** The fragment that exceeds the limit is cut so that its next rune does not fit. */
  lemma FirstCut(said: Bytes, fragment: Bytes, limit: nat)
    requires ValidUTF8(said) && |said| <= limit < |said + Sanitised(fragment)|
    ensures CutBefore(Appended(Text(said, false), fragment, limit), said + Sanitised(fragment), limit)
  {
    var value := Sanitised(fragment);
    SanitisedValid(fragment, false);
    if |said| == limit {
      CutBetween(said, "", value, limit);
      assert said + "" == said && "" + value == value;
    } else {
      var a, b := CutAsLateAsPossible(value, limit - |said|);
      CutAppended(said, fragment, a, limit);
      CutBetween(said, a, b, limit);
    }
  }

  lemma CutAppended(said: Bytes, fragment: Bytes, a: Bytes, limit: nat)
    requires |said| < limit < |said + Sanitised(fragment)|
    requires a == Sanitised(fragment)[..Cut(Sanitised(fragment), limit - |said|)]
    ensures Appended(Text(said, false), fragment, limit) == Text(said + a, true)
  {
  }

  /** A cut is made as late as possible: the next rune does not fit. */
  lemma CutLeavesNoRoom(value: Bytes, n: nat)
    requires ValidUTF8(value) && n < |value|
    ensures var c := Cut(value, n);
            c < |value| && ValidUTF8(value[c..]) && c + RuneSize(value[c..]) > n
  {
    CutValid(value, n);
    var c := Cut(value, n);
    var rest := value[c..];
    var k := RuneSize(rest);
    if k < |rest| {
      assert RuneStart(rest[k..][0]) && rest[k..][0] == value[c + k];
    }
  }

  lemma CutAsLateAsPossible(value: Bytes, n: nat) returns (a: Bytes, b: Bytes)
    requires ValidUTF8(value) && n < |value|
    ensures a == value[..Cut(value, n)] && value == a + b && ValidUTF8(a) && ValidUTF8(b)
    ensures n - 3 <= |a| <= n && |a| + RuneSize(b) > n
  {
    CutValid(value, n);
    CutLeavesNoRoom(value, n);
    a, b := value[..Cut(value, n)], value[Cut(value, n)..];
  }

  lemma CutNow(said: Bytes, fragments: seq<Bytes>, limit: nat)
    requires fragments != [] && ValidUTF8(said) && |said| <= limit < |said + Sanitised(fragments[0])|
    ensures var t := AppendAll(Text(said, false), fragments, limit);
            && WellFormed(t, limit) && t.truncated && |said + Whole(fragments)| > limit
            && exists n :: CutIn(t, said, fragments, 1, n, limit)
  {
    var rest, r := fragments[1..], Appended(Text(said, false), fragments[0], limit);
    FirstCut(said, fragments[0], limit);
    LaterPieces(r, rest, limit);
    CutIsWholeCut(r, said, fragments, limit);
    FirstWhole(said, fragments);
    CutInFirst(r, AppendAll(r, rest, limit), said, fragments, limit);
  }

  lemma CutInFirst(r: Text, t: Text, said: Bytes, fragments: seq<Bytes>, limit: nat)
    requires fragments != [] && CutBefore(r, said + Whole(fragments), limit)
    requires |said + Whole(fragments[..0])| <= limit < |said + Whole(fragments[..1])|
    requires r.value <= t.value && |t.value| <= limit && MadeOf(t.value[|r.value|..], fragments[1..])
    ensures CutIn(t, said, fragments, 1, |r.value|, limit)
  {
    var whole, n := said + Whole(fragments), |r.value|;
    assert whole[..n] == r.value && t.value[..n] == r.value;
  }

  lemma FirstWhole(said: Bytes, fragments: seq<Bytes>)
    requires fragments != []
    ensures said + Whole(fragments[..0]) == said
    ensures said + Whole(fragments[..1]) == said + Sanitised(fragments[0])
  {
    assert fragments[..1][1..] == [];
    assert Whole(fragments[..1]) == Sanitised(fragments[0]) + "";
  }

  /** What is valid on both sides of the cut stays so, whatever is said later. */
  lemma CutIsWholeCut(r: Text, said: Bytes, fragments: seq<Bytes>, limit: nat)
    requires fragments != []
    requires CutBefore(r, said + Sanitised(fragments[0]), limit)
    ensures CutBefore(r, said + Whole(fragments), limit)
  {
    var first, more := said + Sanitised(fragments[0]), Whole(fragments[1..]);
    Associative(said, Sanitised(fragments[0]), more);
    WholeValid(fragments[1..]);
    SliceOfAppend(first, more, |r.value|);
    ValidAppend(first[|r.value|..], more);
    RuneSizeExtends(first[|r.value|..], more);
  }

  lemma {:induction false} WholeValid(fragments: seq<Bytes>)
    ensures ValidUTF8(Whole(fragments))
  {
    if fragments != [] {
      SanitisedValid(fragments[0], false);
      WholeValid(fragments[1..]);
      ValidAppend(Sanitised(fragments[0]), Whole(fragments[1..]));
    }
  }

  /** What appending adds is a piece of the fragment. */
  lemma AppendedPiece(t: Text, fragment: Bytes, limit: nat)
    requires WellFormed(t, limit)
    ensures var r := Appended(t, fragment, limit);
            t.value <= r.value && PieceOf(r.value[|t.value|..], fragment) && (t.truncated ==> r.truncated)
  {
    var value, r := Sanitised(fragment), Appended(t, fragment, limit);
    var remaining := limit - |t.value|;
    SanitisedValid(fragment, false);
    if 0 < remaining < |value| {
      CutValid(value, remaining);
      Halves(t.value, value[..Cut(value, remaining)]);
    } else if remaining > 0 {
      Halves(t.value, value);
    }
  }

  lemma TwoSteps(a: Bytes, b: Bytes, c: Bytes)
    requires a <= b <= c
    ensures c[|a|..] == b[|a|..] + c[|b|..]
  {
  }

  lemma MadeOfMore(piece: Bytes, more: Bytes, fragments: seq<Bytes>)
    requires fragments != [] && PieceOf(piece, fragments[0]) && MadeOf(more, fragments[1..])
    ensures MadeOf(piece + more, fragments)
  {
    Halves(piece, more);
  }

  /** Once cut, a text takes pieces of what follows and nothing else. */
  lemma {:induction false} LaterPieces(t: Text, fragments: seq<Bytes>, limit: nat)
    requires WellFormed(t, limit) && t.truncated
    ensures var r := AppendAll(t, fragments, limit);
            && WellFormed(r, limit) && r.truncated && t.value <= r.value
            && MadeOf(r.value[|t.value|..], fragments)
    decreases |fragments|
  {
    if fragments != [] {
      var s := Appended(t, fragments[0], limit);
      AppendedPiece(t, fragments[0], limit);
      AppendWellFormed(t, fragments[0], limit);
      LaterPieces(s, fragments[1..], limit);
      var r := AppendAll(s, fragments[1..], limit);
      TwoSteps(t.value, s.value, r.value);
      MadeOfMore(s.value[|t.value|..], r.value[|s.value|..], fragments);
    }
  }

  // ---------- When the text is a prefix ----------

  /** The text has been cut, and the first rune of the fragment still fits. */
  predicate Overtakes(t: Text, fragment: Bytes, limit: nat) {
    t.truncated && 0 < RuneSize(Sanitised(fragment)) <= limit - |t.value|
  }

  predicate NoneOvertakes(t: Text, fragments: seq<Bytes>, limit: nat)
    decreases |fragments|
  {
    fragments == [] ||
    (!Overtakes(t, fragments[0], limit) && NoneOvertakes(Appended(t, fragments[0], limit), fragments[1..], limit))
  }

  /** The text is a prefix of all that was appended if and only if no fragment overtakes the rune that was cut off. */
  lemma PrefixExactly(fragments: seq<Bytes>, limit: nat)
    ensures AppendAll(EMPTY, fragments, limit).value <= Whole(fragments) <==> NoneOvertakes(EMPTY, fragments, limit)
  {
    PrefixFrom(EMPTY, "", fragments, limit);
    assert "" + Whole(fragments) == Whole(fragments);
  }

  /** What was said and, once it has been cut, that its next rune does not fit. */
  predicate InOrder(t: Text, said: Bytes, limit: nat) {
    ValidUTF8(said) && if t.truncated then CutBefore(t, said, limit) else t.value == said && |said| <= limit
  }

  predicate Diverged(value: Bytes, said: Bytes, i: nat) {
    i < |value| && i < |said| && value[i] != said[i]
  }

  lemma {:induction false} PrefixFrom(t: Text, said: Bytes, fragments: seq<Bytes>, limit: nat)
    requires InOrder(t, said, limit)
    ensures AppendAll(t, fragments, limit).value <= said + Whole(fragments) <==> NoneOvertakes(t, fragments, limit)
    decreases |fragments|
  {
    if fragments == [] {
      assert said + Whole(fragments) == said;
    } else {
      var value, rest := Sanitised(fragments[0]), fragments[1..];
      var r := Appended(t, fragments[0], limit);
      Associative(said, value, Whole(rest));
      if Overtakes(t, fragments[0], limit) {
        Overtaken(t, said, fragments[0], limit);
        StaysDiverged(r, rest, |t.value|, limit);
      } else {
        KeepsOrder(t, said, fragments[0], limit);
        PrefixFrom(r, said + value, rest, limit);
      }
    }
  }

  /** The first byte of a rune gives its size, and so do the bytes of the rune whatever follows it. */
  lemma RuneSizeByLead(a: Bytes, b: Bytes)
    requires RuneSize(a) > 0 && RuneSize(b) > 0
    ensures a[0] == b[0] ==> RuneSize(a) == RuneSize(b)
  {
  }

  lemma RuneSizeExtends(a: Bytes, b: Bytes)
    requires RuneSize(a) > 0
    ensures RuneSize(a + b) == RuneSize(a)
  {
  }

  lemma KeepsOrder(t: Text, said: Bytes, fragment: Bytes, limit: nat)
    requires InOrder(t, said, limit) && !Overtakes(t, fragment, limit)
    ensures InOrder(Appended(t, fragment, limit), said + Sanitised(fragment), limit)
  {
    var value := Sanitised(fragment);
    SanitisedValid(fragment, false);
    ValidAppend(said, value);
    if t.truncated {
      NothingTaken(t, fragment, limit);
      SliceOfAppend(said, value, |t.value|);
      RuneSizeExtends(said[|t.value|..], value);
      ValidAppend(said[|t.value|..], value);
    } else if |said + value| <= limit {
      NotYetCut(said, fragment, limit);
    } else {
      FirstCut(said, fragment, limit);
    }
  }

  /** A cut text takes nothing from a fragment whose first rune does not fit. */
  lemma NothingTaken(t: Text, fragment: Bytes, limit: nat)
    requires t.truncated && |t.value| <= limit && !Overtakes(t, fragment, limit)
    ensures Appended(t, fragment, limit) == t
  {
    var value, remaining := Sanitised(fragment), limit - |t.value|;
    SanitisedValid(fragment, false);
    if value != "" && 0 < remaining {
      CutInRune(value, remaining);
      assert value[..0] == "";
    }
    assert t.value + "" == t.value;
  }

  lemma Overtaken(t: Text, said: Bytes, fragment: Bytes, limit: nat)
    requires InOrder(t, said, limit) && Overtakes(t, fragment, limit)
    ensures Diverged(Appended(t, fragment, limit).value, said, |t.value|)
  {
    var value, n := Sanitised(fragment), |t.value|;
    var remaining, k := limit - n, RuneSize(value);
    SanitisedValid(fragment, false);
    if remaining < |value| {
      var first, rest := SplitRune(value);
      CutBeyond(first, rest, remaining - k);
    }
    assert Appended(t, fragment, limit).value[n] == value[0];
    RuneSizeByLead(value, said[n..]);
  }

  lemma {:induction false} StaysDiverged(t: Text, fragments: seq<Bytes>, i: nat, limit: nat)
    requires i < |t.value|
    ensures i < |AppendAll(t, fragments, limit).value| && AppendAll(t, fragments, limit).value[i] == t.value[i]
    decreases |fragments|
  {
    if fragments != [] {
      StaysDiverged(Appended(t, fragments[0], limit), fragments[1..], i, limit);
    }
  }

  /** After a cut inside a rune, a later short fragment is still taken in: the text need not be a prefix. */
  lemma NotAlwaysPrefix()
    ensures var t := AppendAll(EMPTY, ["a\U{C3}\U{A9}", "b"], 2);
            t == Text("ab", true) && !(t.value <= Whole(["a\U{C3}\U{A9}", "b"]))
  {
    var e := "a\U{C3}\U{A9}";
    assert RuneSize(e) == 1 && e[1..] == "\U{C3}\U{A9}" && RuneSize(e[1..]) == 2 && e[1..][2..] == "";
    assert Sanitised(e[1..]) == e[1..] by { SanitisedIdentity(e[1..], false); }
    assert Sanitised(e) == e by { SanitisedIdentity(e, false); }
    assert Sanitised("b") == "b" by { assert RuneSize("b") == 1 && "b"[1..] == ""; SanitisedIdentity("b", false); }
    assert !RuneStart(e[2]) && RuneStart(e[1]);
    assert Cut(e, 2) == 1;
    var t1 := Appended(EMPTY, e, 2);
    assert t1 == Text("a", true);
    assert [e, "b"][1..] == ["b"] && ["b"][1..] == [];
    assert Appended(t1, "b", 2) == Text("ab", true);
    assert AppendAll(t1, ["b"], 2) == Text("ab", true);
    assert Whole(["b"]) == "b" && Whole([e, "b"]) == e + "b";
    assert (e + "b")[1] == '\U{C3}' && "ab"[1] == 'b';
  }

  /** The builder of the source, updated in place. */
  class LimitedStreamText {
    var value: Bytes
    var truncated: bool

    ghost function Contents(): Text
      reads this
    {
      Text(value, truncated)
    }

    constructor ()
      ensures Contents() == EMPTY
    {
      value, truncated := "", false;
    }

    method Append(fragment: Bytes, limit: nat)
      modifies this
      ensures Contents() == Appended(old(Contents()), fragment, limit)
    {
      var text := Sanitised(fragment);
      var remaining := limit - |value|;
      if remaining <= 0 {
        if text != "" {
          truncated := true;
        }
        return;
      }
      if |text| <= remaining {
        value := value + text;
        return;
      }
      var cut := remaining;
      while cut > 0 && !RuneStart(text[cut])
        invariant 0 <= cut <= remaining
        invariant forall i :: cut < i <= remaining ==> !RuneStart(text[i])
      {
        cut := cut - 1;
      }
      CutUnique(text, remaining, cut);
      value := value + text[..cut];
      truncated := true;
    }

    method Set(fragment: Bytes, limit: nat)
      modifies this
      ensures Contents() == SetTo(fragment, limit)
    {
      value := "";
      truncated := false;
      Append(fragment, limit);
    }
  }

  // ---------- Truncate and boundedTraceBody ----------

  /** An error message of at most 256 bytes of valid text, marked when something is missing. */
  function Truncate(s: Bytes): Bytes {
    var text := Sanitised(s);
    if |text| <= TRUNCATE_LIMIT then text else text[..Cut(text, TRUNCATE_LIMIT)] + ELLIPSIS
  }

  lemma TruncateBounded(s: Bytes)
    ensures ValidUTF8(Truncate(s)) && |Truncate(s)| <= TRUNCATE_LIMIT + |ELLIPSIS|
    ensures |Sanitised(s)| > TRUNCATE_LIMIT ==>
              exists cut :: TRUNCATE_LIMIT - 3 <= cut <= TRUNCATE_LIMIT && Truncate(s) == Sanitised(s)[..cut] + ELLIPSIS
  {
    var text := Sanitised(s);
    SanitisedValid(s, false);
    if |text| > TRUNCATE_LIMIT {
      CutValid(text, TRUNCATE_LIMIT);
      assert ValidUTF8(ELLIPSIS) by { assert RuneSize(ELLIPSIS) == 3; }
      var cut := Cut(text, TRUNCATE_LIMIT);
      ValidAppend(text[..cut], ELLIPSIS);
    }
  }

  /** The part of a body that is traced: all of it, or a prefix cut where a rune begins. */
  method BoundedTraceBody(body: Bytes) returns (traced: Bytes, truncated: bool)
    ensures truncated <==> |body| > MAX_TRACED_BODY_SIZE
    ensures traced <= body && |traced| <= MAX_TRACED_BODY_SIZE
    ensures !truncated ==> traced == body
    ensures truncated && ValidUTF8(body) ==> ValidUTF8(traced) && |traced| >= MAX_TRACED_BODY_SIZE - 3
  {
    if |body| <= MAX_TRACED_BODY_SIZE {
      return body, false;
    }
    var cut := MAX_TRACED_BODY_SIZE;
    while cut > 0 && !RuneStart(body[cut])
      invariant 0 <= cut <= MAX_TRACED_BODY_SIZE
      invariant forall i :: cut < i <= MAX_TRACED_BODY_SIZE ==> !RuneStart(body[i])
    {
      cut := cut - 1;
    }
    CutUnique(body, MAX_TRACED_BODY_SIZE, cut);
    if ValidUTF8(body) {
      CutValid(body, MAX_TRACED_BODY_SIZE);
    }
    return body[..cut], true;
  }
}
