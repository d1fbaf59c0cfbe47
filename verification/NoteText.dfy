/** The free-text note of a property, as far as merging two notes goes. */
module NoteText {

  /** The characters that `str.strip` takes off. */
  predicate IsSpace(c: char) {
    || '\t' <= c <= '\r' || '\U{1c}' <= c <= ' ' || c == '\U{85}' || c == '\U{a0}' || c == '\U{1680}'
    || '\U{2000}' <= c <= '\U{200a}' || c == '\U{2028}' || c == '\U{2029}' || c == '\U{202f}'
    || c == '\U{205f}' || c == '\U{3000}'
  }

  function RStrip(s: string): string {
    if s != "" && IsSpace(s[|s| - 1]) then RStrip(s[..|s| - 1]) else s
  }

  function LStrip(s: string): string {
    if s != "" && IsSpace(s[0]) then LStrip(s[1..]) else s
  }

  function Strip(s: string): string {
    LStrip(RStrip(s))
  }

  /** `a` stands somewhere in `b`, at position `i`. */
  predicate At(a: string, b: string, i: nat) {
    i + |a| <= |b| && forall k | 0 <= k < |a| :: a[k] == b[i + k]
  }

  predicate Within(a: string, b: string) {
    exists i | 0 <= i <= |b| :: At(a, b, i)
  }

  /** The text of `note` is still there. */
  predicate Keeps(text: string, note: string) {
    Within(Strip(note), text)
  }

  const HEADING := "\n\nMerged duplicate note:\n"

  function MergedNotes(own: string, other: string): string {
    if own == "" then other
    else if other != "" && !Within(Strip(other), own) then RStrip(own) + HEADING + Strip(other)
    else own
  }

  lemma AtTrans(a: string, b: string, c: string, i: nat, j: nat)
    requires At(a, b, i) && At(b, c, j)
    ensures At(a, c, i + j)
  {
    forall k | 0 <= k < |a| ensures a[k] == c[i + j + k] {
      assert a[k] == b[i + k] == c[j + (i + k)];
    }
  }

  lemma WithinTrans(a: string, b: string, c: string)
    requires Within(a, b) && Within(b, c)
    ensures Within(a, c)
  {
    var i :| 0 <= i <= |b| && At(a, b, i);
    var j :| 0 <= j <= |c| && At(b, c, j);
    AtTrans(a, b, c, i, j);
  }

  lemma Pieces(x: string, y: string, z: string)
    ensures At(x, x + y + z, 0) && At(z, x + y + z, |x| + |y|)
  {
  }

  /** Stripping on the right drops spaces at the end and stops at a character that is none. */
  lemma {:induction false} RStripped(s: string)
    ensures RStrip(s) <= s && forall i | |RStrip(s)| <= i < |s| :: IsSpace(s[i])
    ensures RStrip(s) != "" ==> !IsSpace(RStrip(s)[|RStrip(s)| - 1])
  {
    if s != "" && IsSpace(s[|s| - 1]) {
      RStripped(s[..|s| - 1]);
    }
  }

  lemma TailOfTail(s: string, k: nat)
    requires s != "" && k < |s|
    ensures s[1..][k..] == s[k + 1..]
  {
  }

  lemma {:induction false} LStripped(s: string)
    ensures |LStrip(s)| <= |s| && LStrip(s) == s[|s| - |LStrip(s)|..]
    ensures forall i | 0 <= i < |s| - |LStrip(s)| :: IsSpace(s[i])
    ensures LStrip(s) != "" ==> !IsSpace(LStrip(s)[0])
  {
    if s != "" && IsSpace(s[0]) {
      var t := s[1..];
      assert LStrip(s) == LStrip(t);
      hide LStrip, IsSpace;
      LStripped(t);
      TailOfTail(s, |t| - |LStrip(t)|);
      forall i | 0 <= i < |s| - |LStrip(s)| ensures IsSpace(s[i]) {
        assert i > 0 ==> s[i] == t[i - 1];
      }
    }
  }

  lemma StripTail(r: string)
    ensures |LStrip(r)| <= |r| && At(LStrip(r), r, |r| - |LStrip(r)|)
  {
    LStripped(r);
    hide LStrip;
  }

  lemma StripWithin(s: string)
    ensures Within(Strip(s), s)
  {
    var r := RStrip(s);
    RStripped(s);
    StripTail(r);
    hide RStrip, LStrip, IsSpace;
    SameHeadBack(Strip(s), r, s, |r| - |Strip(s)|);
    Found(Strip(s), s, |r| - |Strip(s)|);
  }

  lemma SameHeadBack(a: string, b: string, c: string, i: nat)
    requires At(a, b, i) && b <= c
    ensures At(a, c, i)
  {
    forall k | 0 <= k < |a| ensures a[k] == c[i + k] {
      assert b[i + k] == c[i + k];
    }
  }

  lemma SameHead(a: string, b: string, c: string, i: nat)
    requires At(a, b, i) && c <= b && i + |a| <= |c|
    ensures At(a, c, i)
  {
    forall k | 0 <= k < |a| ensures a[k] == c[i + k] {
      assert b[i + k] == c[i + k];
    }
  }

  lemma SameTail(a: string, b: string, c: string, i: nat, k: nat)
    requires At(a, b, i) && k <= i && k <= |b| && c == b[k..]
    ensures At(a, c, i - k)
  {
    forall n | 0 <= n < |a| ensures a[n] == c[i - k + n] {
      assert a[n] == b[i + n];
    }
  }

  /** Text that neither starts nor ends with a space is found in the stripped note if it is in the note. */
  lemma StripKeeps(a: string, s: string)
    requires Within(a, s) && (a != "" ==> !IsSpace(a[0]) && !IsSpace(a[|a| - 1]))
    ensures Within(a, Strip(s))
  {
    if a == "" {
      assert At(a, Strip(s), 0);
    } else {
      hide Within;
      var i := Position(a, s);
      StripAt(a, s, i);
      Found(a, Strip(s), i + |Strip(s)| - |RStrip(s)|);
    }
  }

  lemma EndsAt(a: string, b: string, i: nat)
    requires At(a, b, i) && a != ""
    ensures i + |a| <= |b| && b[i] == a[0] && b[i + |a| - 1] == a[|a| - 1]
  {
    assert b[i + 0] == a[0];
    assert b[i + (|a| - 1)] == a[|a| - 1];
  }

  lemma StripAt(a: string, s: string, i: nat)
    requires a != "" && At(a, s, i) && !IsSpace(a[0]) && !IsSpace(a[|a| - 1])
    ensures i + |Strip(s)| >= |RStrip(s)| && At(a, Strip(s), i + |Strip(s)| - |RStrip(s)|)
  {
    var r := RStrip(s);
    var t := LStrip(r);
    hide RStrip, LStrip, IsSpace, At;
    EndsAt(a, s, i);
    RStripped(s);
    SameHead(a, s, r, i);
    EndsAt(a, r, i);
    LStripped(r);
    SameTail(a, r, t, i, |r| - |t|);
  }

  lemma Position(a: string, s: string) returns (i: nat)
    requires Within(a, s)
    ensures i <= |s| && At(a, s, i)
  {
    i :| 0 <= i <= |s| && At(a, s, i);
  }

  lemma Found(a: string, s: string, i: nat)
    requires At(a, s, i)
    ensures Within(a, s)
  {
  }

  lemma StripEnds(s: string)
    ensures Strip(s) != "" ==> !IsSpace(Strip(s)[0]) && !IsSpace(Strip(s)[|Strip(s)| - 1])
  {
    var r := RStrip(s);
    RStripped(s);
    LStripped(r);
    hide RStrip, LStrip, IsSpace;
    assert Strip(s) != "" ==> Strip(s)[|Strip(s)| - 1] == r[|r| - 1];
  }

  /** A note that came through one merge comes through the next. */
  lemma KeepsOn(a: string, b: string, c: string)
    requires Keeps(b, a) && Keeps(c, b)
    ensures Keeps(c, a)
  {
    StripEnds(a);
    hide Strip, Within, IsSpace;
    StripKeeps(Strip(a), b);
    WithinTrans(Strip(a), Strip(b), c);
  }

  lemma KeepsItself(s: string)
    ensures Keeps(s, s)
  {
    StripWithin(s);
  }

  /** Merging keeps both notes, and is empty only if both are. */
  lemma MergeKeepsBoth(own: string, other: string)
    ensures Keeps(MergedNotes(own, other), own) && Keeps(MergedNotes(own, other), other)
    ensures MergedNotes(own, other) == "" <==> own == "" && other == ""
  {
    StripWithin(own);
    StripWithin(other);
    if own == "" {
      assert At(Strip(own), other, 0);
    } else if other == "" {
      assert At(Strip(other), own, 0);
    } else if !Within(Strip(other), own) {
      Joined(own, HEADING, other);
    }
    hide Strip, Within;
  }

  /** Nothing is written twice: a note whose text is there already adds nothing, so merging the same duplicate again
      changes nothing. */
  lemma MergedOnce(own: string, other: string)
    requires own != ""
    ensures Keeps(own, other) ==> MergedNotes(own, other) == own
    ensures MergedNotes(MergedNotes(own, other), other) == MergedNotes(own, other)
  {
    MergeKeepsBoth(own, other);
    hide Strip, Within;
  }

  lemma Joined(own: string, head: string, other: string)
    requires head != ""
    ensures var m := RStrip(own) + head + Strip(other);
            Within(Strip(own), m) && Within(Strip(other), m) && m != ""
  {
    var r := RStrip(own);
    StripTail(r);
    hide RStrip, LStrip, At, Within;
    JoinedParts(r, head, Strip(other), Strip(own));
  }

  lemma JoinedParts(r: string, head: string, tail: string, own: string)
    requires head != "" && |own| <= |r| && At(own, r, |r| - |own|)
    ensures Within(own, r + head + tail) && Within(tail, r + head + tail) && r + head + tail != ""
  {
    var m := r + head + tail;
    Pieces(r, head, tail);
    hide At, Within;
    AtTrans(own, r, m, |r| - |own|, 0);
    Found(tail, m, |r| + |head|);
    Found(own, m, |r| - |own|);
    assert |m| >= |head| > 0;
  }
}
