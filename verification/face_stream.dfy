/**
  `load`'s face loop at the level of characters, as `std::cin` extracts them.

  Each iteration extracts a `char` (the face's tag, which is not looked at)
  and then three `unsigned int`s. Each index is pushed minus one, and the
  three are handed to `updateNormal`. The loop ends when the `char`
  extraction fails.

  As written, the vertex loop has already extracted the first face's `f`
  when it stops, so the face loop's first `char` extraction takes the first
  digit of the first index instead. The reads then run one token ahead. The
  third index of the first face meets the next face's `f`, fails, and stores
  0, which `updateNormal` turns into an index outside the buffer. The failed
  stream then ends the loop. `Intended` reads the faces with their tags, and
  `IntendedReadsRendered` shows it recovers every face of a well-formed file.
 */
module FaceStream {
  import opened Decimal
  import opened MeshLoaders

  /** The characters `>>` skips before an extraction. */
  predicate IsSpace(c: char) {
    c == ' ' || c == '\t' || c == '\n' || c == '\r' || c == 11 as char || c == 12 as char
  }

  predicate IsDigit(c: char) {
    '0' <= c <= '9'
  }

  /** The input not yet read, and whether an extraction has failed. */
  datatype Stream = Stream(rest: string, failed: bool)

  /** Skip leading whitespace. */
  function SkipSpace(s: string): (r: string)
    ensures |r| <= |s| && r == s[|s| - |r|..]
    ensures 0 < |r| ==> !IsSpace(r[0])
    ensures forall i :: 0 <= i < |s| - |r| ==> IsSpace(s[i])
    decreases |s|
  {
    if 0 < |s| && IsSpace(s[0]) then
      var r := SkipSpace(s[1..]);
      assert forall i :: 1 <= i < |s| - |r| ==> IsSpace(s[i]) by {
        forall i | 1 <= i < |s| - |r| ensures IsSpace(s[i]) {
          assert s[i] == s[1..][i - 1];
        }
      }
      r
    else s
  }

  /** The length of the run of digits that starts `s`. */
  function DigitRun(s: string): (n: nat)
    ensures n <= |s| && IsDigits(s[..n])
    ensures n < |s| ==> !IsDigit(s[n])
    decreases |s|
  {
    if 0 < |s| && IsDigit(s[0]) then
      var n := DigitRun(s[1..]) + 1;
      assert forall i :: 1 <= i < n ==> s[..n][i] == s[1..][..n - 1][i - 1];
      n
    else 0
  }

  /**
    `>> c` for a `char`: skip whitespace and take one character. At the end of
    the input it fails; a failed stream extracts nothing.
   */
  function ReadChar(s: Stream): (s': Stream)
    ensures |s'.rest| <= |s.rest|
    ensures !s'.failed ==> |s'.rest| < |s.rest| && !s.failed
  {
    if s.failed then s
    else
      var r := SkipSpace(s.rest);
      if |r| == 0 then Stream(r, true) else Stream(r[1..], false)
  }

  /**
    `>> u` for an `unsigned int`, which holds `u` before the call: skip
    whitespace and read the run of digits. A non-digit where the number should
    start fails and stores 0. A value too large for the type stores its
    maximum and fails. At the end of the input, or on a stream that has
    already failed, it fails and leaves `u` alone.
   */
  function ReadUnsigned(s: Stream, u: U32): (res: (Stream, U32))
    ensures |res.0.rest| <= |s.rest|
    ensures s.failed ==> res == (s, u)
  {
    if s.failed then (s, u)
    else
      var r := SkipSpace(s.rest);
      if |r| == 0 then (Stream(r, true), u)
      else
        var n := DigitRun(r);
        if n == 0 then (Stream(r, true), 0)
        else
          var v := ParseDecimal(r[..n]);
          if v < 0x1_0000_0000 then (Stream(r[n..], false), v as U32)
          else (Stream(r[n..], true), 0xFFFF_FFFF)
  }

  /** What the face loop leaves: the index list, and the index triples handed to `updateNormal`. */
  datatype FaceRead = FaceRead(indices: seq<U32>, triangles: seq<Triangle>)

  /** The three index extractions of one face, `tmpu` holding `u` before them. */
  function ReadTriple(s: Stream, u: U32): (res: (Stream, Triangle))
    ensures |res.0.rest| <= |s.rest|
  {
    var (s2, a) := ReadUnsigned(s, u);
    var (s3, b) := ReadUnsigned(s2, a);
    var (s4, c) := ReadUnsigned(s3, b);
    (s4, Triangle(a, b, c))
  }

  /**
    The face loop from stream `s`, with `tmpu` holding `u`: while a `char`
    can be extracted, read three indices, push each minus one, and hand the
    triple to `updateNormal`.
   */
  function FaceLoop(s: Stream, u: U32): (fr: FaceRead)
    ensures |fr.indices| == 3 * |fr.triangles|
    decreases |s.rest|
  {
    var s1 := ReadChar(s);
    if s1.failed then FaceRead([], [])
    else
      var (s4, tri) := ReadTriple(s1, u);
      var more := FaceLoop(s4, tri.i2);
      FaceRead([IndexOf(tri.i0), IndexOf(tri.i1), IndexOf(tri.i2)] + more.indices, [tri] + more.triangles)
  }

  /** As written: the vertex loop's last `char` extraction has taken the first face's tag. */
  function AsWritten(text: string, u: U32): FaceRead {
    FaceLoop(ReadChar(Stream(text, false)), u)
  }

  /** As evidently intended: the first face is read with its tag, like every later one. */
  function Intended(text: string, u: U32): FaceRead {
    FaceLoop(Stream(text, false), u)
  }

  /** One face as an OBJ file writes it: `f a b c` and a newline. */
  function FaceLine(tri: Triangle): string {
    "f " + NatToString(tri.i0 as nat) + " " + NatToString(tri.i1 as nat) + " " + NatToString(tri.i2 as nat) + "\n"
  }

  /** The face section of a file: one line per face. */
  function Render(tris: seq<Triangle>): string
    decreases |tris|
  {
    if |tris| == 0 then "" else FaceLine(tris[0]) + Render(tris[1..])
  }

  /** Skipping whitespace stops at the first non-space character. */
  lemma SkipToNonSpace(w: string, r: string)
    requires forall i :: 0 <= i < |w| ==> IsSpace(w[i])
    requires 0 < |r| && !IsSpace(r[0])
    ensures SkipSpace(w + r) == r
    decreases |w|
  {
    if 0 < |w| {
      assert (w + r)[1..] == w[1..] + r;
      SkipToNonSpace(w[1..], r);
    } else {
      assert w + r == r;
    }
  }

  /** The digit run of a spelling followed by a non-digit is the whole spelling. */
  lemma {:induction false} DigitRunOfSpelling(d: string, r: string)
    requires IsDigits(d)
    requires 0 < |r| ==> !IsDigit(r[0])
    ensures DigitRun(d + r) == |d|
    decreases |d|
  {
    if 0 < |d| {
      assert (d + r)[1..] == d[1..] + r;
      DigitRunOfSpelling(d[1..], r);
    } else {
      assert d + r == r;
    }
  }

  /** Reading an index spelt after a blank gives the index and stops at the following non-digit. */
  lemma ReadSpelled(n: U32, r: string, u: U32)
    requires 0 < |r| && !IsDigit(r[0])
    ensures ReadUnsigned(Stream(" " + NatToString(n as nat) + r, false), u) == (Stream(r, false), n)
  {
    var d := NatToString(n as nat);
    var text := " " + d + r;
    assert text == [' '] + (d + r);
    assert !IsSpace(d[0]);
    SkipToNonSpace([' '], d + r);
    DigitRunOfSpelling(d, r);
    assert (d + r)[..|d|] == d;
    assert (d + r)[|d|..] == r;
    ParseNatToString(n as nat);
  }

  /** Three indices spelt after blanks, then a non-digit, read back as that triple. */
  lemma ReadSpelledTriple(tri: Triangle, r: string, u: U32)
    requires 0 < |r| && !IsDigit(r[0])
    ensures ReadTriple(Stream(" " + NatToString(tri.i0 as nat) + (" " + NatToString(tri.i1 as nat) + (" " + NatToString(tri.i2 as nat) + r)), false), u)
            == (Stream(r, false), tri)
  {
    var tail2 := " " + NatToString(tri.i2 as nat) + r;
    var tail1 := " " + NatToString(tri.i1 as nat) + tail2;
    assert tail1[0] == ' ' && tail2[0] == ' ';
    ReadSpelled(tri.i0, tail1, u);
    ReadSpelled(tri.i1, tail2, tri.i0);
    ReadSpelled(tri.i2, r, tri.i1);
  }

  /** A face line is its tag followed by its three indices, each after a blank, and the newline. */
  lemma FaceLineParts(tri: Triangle, more: string)
    ensures FaceLine(tri) + more
            == "f" + (" " + NatToString(tri.i0 as nat) + (" " + NatToString(tri.i1 as nat) + (" " + NatToString(tri.i2 as nat) + ("\n" + more))))
  {
  }

  /** A face line followed by more input, read from its tag on, yields that face. */
  lemma ReadFaceLine(tri: Triangle, more: string, u: U32)
    ensures var s1 := ReadChar(Stream(FaceLine(tri) + more, false));
            !s1.failed && ReadTriple(s1, u) == (Stream("\n" + more, false), tri)
  {
    var tail0 := " " + NatToString(tri.i0 as nat) + (" " + NatToString(tri.i1 as nat) + (" " + NatToString(tri.i2 as nat) + ("\n" + more)));
    FaceLineParts(tri, more);
    assert SkipSpace("f" + tail0) == "f" + tail0;
    assert ("f" + tail0)[1..] == tail0;
    assert ReadChar(Stream(FaceLine(tri) + more, false)) == Stream(tail0, false);
    ReadSpelledTriple(tri, "\n" + more, u);
  }

  /** The newline before a face is skipped, so the next tag extraction starts that face. */
  lemma NextLine(tris: seq<Triangle>, u: U32)
    ensures FaceLoop(Stream("\n" + Render(tris), false), u) == FaceLoop(Stream(Render(tris), false), u)
  {
    if 0 < |tris| {
      var text := Render(tris);
      assert text[0] == 'f';
      SkipToNonSpace("\n", text);
      assert "\n" + text == "\n" + text;
      assert SkipSpace(text) == text;
    } else {
      assert SkipSpace("\n") == "";
    }
  }

  /** One turn of the face loop, once the tag and the three indices have been extracted. */
  lemma FaceLoopStep(s: Stream, u: U32, s4: Stream, tri: Triangle)
    requires !ReadChar(s).failed && ReadTriple(ReadChar(s), u) == (s4, tri)
    ensures FaceLoop(s, u) == FaceRead([IndexOf(tri.i0), IndexOf(tri.i1), IndexOf(tri.i2)] + FaceLoop(s4, tri.i2).indices,
                                       [tri] + FaceLoop(s4, tri.i2).triangles)
  {
  }

  /** A face read that leaves the stream failed is the last one the loop takes. */
  lemma FaceLoopLast(s: Stream, u: U32, s4: Stream, tri: Triangle)
    requires !ReadChar(s).failed && ReadTriple(ReadChar(s), u) == (s4, tri) && s4.failed
    ensures FaceLoop(s, u) == FaceRead([IndexOf(tri.i0), IndexOf(tri.i1), IndexOf(tri.i2)], [tri])
  {
    FaceLoopStep(s, u, s4, tri);
    assert FaceLoop(s4, tri.i2) == FaceRead([], []);
  }

  /** Read from its tag, a face line followed by further face lines yields that face, then whatever they yield. */
  lemma IntendedStep(tri: Triangle, rest: seq<Triangle>, u: U32)
    ensures var more := Intended(Render(rest), tri.i2);
            Intended(FaceLine(tri) + Render(rest), u)
            == FaceRead([IndexOf(tri.i0), IndexOf(tri.i1), IndexOf(tri.i2)] + more.indices, [tri] + more.triangles)
  {
    var more := Render(rest);
    ReadFaceLine(tri, more, u);
    FaceLoopStep(Stream(FaceLine(tri) + more, false), u, Stream("\n" + more, false), tri);
    NextLine(rest, tri.i2);
  }

  /** The indices of each face in turn, minus one: the list `load` builds, by front recursion. */
  function Flatten(tris: seq<Triangle>): (idx: seq<U32>)
    decreases |tris|
  {
    if |tris| == 0 then []
    else [IndexOf(tris[0].i0), IndexOf(tris[0].i1), IndexOf(tris[0].i2)] + Flatten(tris[1..])
  }

  /** An empty face section yields no faces. */
  lemma IntendedReadsNothing(u: U32)
    ensures Intended(Render([]), u) == FaceRead([], [])
  {
    assert SkipSpace("") == "";
  }

  /** Read from its tag, a face section yields its first face, then what its later faces yield. */
  lemma IntendedCons(tris: seq<Triangle>, u: U32)
    requires 0 < |tris|
    ensures var more := Intended(Render(tris[1..]), tris[0].i2);
            Intended(Render(tris), u)
            == FaceRead([IndexOf(tris[0].i0), IndexOf(tris[0].i1), IndexOf(tris[0].i2)] + more.indices,
                        [tris[0]] + more.triangles)
  {
    assert Render(tris) == FaceLine(tris[0]) + Render(tris[1..]);
    IntendedStep(tris[0], tris[1..], u);
  }

  /** Face by face, the intended loop reads a rendered face section back. */
  lemma {:induction false} IntendedReadsFaces(tris: seq<Triangle>, u: U32)
    ensures Intended(Render(tris), u) == FaceRead(Flatten(tris), tris)
    decreases |tris|
  {
    if |tris| == 0 {
      IntendedReadsNothing(u);
    } else {
      IntendedReadsFaces(tris[1..], tris[0].i2);
      IntendedCons(tris, u);
      assert Flatten(tris) == [IndexOf(tris[0].i0), IndexOf(tris[0].i1), IndexOf(tris[0].i2)] + Flatten(tris[1..]);
      ConsSplit(tris);
    }
  }

  /** A non-empty list is its head followed by its tail. */
  lemma ConsSplit(tris: seq<Triangle>)
    requires 0 < |tris|
    ensures [tris[0]] + tris[1..] == tris
  {
  }

  /** Flattening face by face gives `load`'s index list. */
  lemma {:induction false} FlattenIsIndexBuffer(tris: seq<Triangle>)
    ensures Flatten(tris) == IndexBuffer(tris)
    decreases |tris|
  {
    if 0 < |tris| {
      FlattenIsIndexBuffer(tris[1..]);
      IndexBufferCons(tris);
    }
  }

  /**
    Read from its first tag, a well-formed face section yields every face in
    order and the index list of `load`: each index minus one.
   */
  lemma IntendedReadsRendered(tris: seq<Triangle>, u: U32)
    ensures Intended(Render(tris), u) == FaceRead(IndexBuffer(tris), tris)
  {
    IntendedReadsFaces(tris, u);
    FlattenIsIndexBuffer(tris);
  }

  /** The index list of a face list is the first face's indices followed by the rest's. */
  lemma {:induction false} IndexBufferCons(tris: seq<Triangle>)
    requires 0 < |tris|
    ensures IndexBuffer(tris) == [IndexOf(tris[0].i0), IndexOf(tris[0].i1), IndexOf(tris[0].i2)] + IndexBuffer(tris[1..])
    decreases |tris|
  {
    var k := |tris| - 1;
    if k == 0 {
      assert tris[1..] == [];
      assert tris[..k] == [];
    } else {
      assert tris[..k][0] == tris[0];
      assert tris[..k][1..] == tris[1..][..k - 1];
      assert tris[1..][k - 1] == tris[k];
      IndexBufferCons(tris[..k]);
    }
  }

  /**
    With its tag already taken, a face line that starts with a one-digit
    index loses that digit to the next tag extraction.
   */
  lemma ShiftedTag(tri: Triangle, next: string)
    requires 1 <= tri.i0 <= 9
    ensures ReadChar(ReadChar(Stream(FaceLine(tri) + next, false)))
            == Stream(" " + NatToString(tri.i1 as nat) + (" " + NatToString(tri.i2 as nat) + ("\n" + next)), false)
  {
    var digit := DigitChar(tri.i0 as nat);
    var tail1 := " " + NatToString(tri.i1 as nat) + (" " + NatToString(tri.i2 as nat) + ("\n" + next));
    assert FaceLine(tri) + next == "f" + (" " + ([digit] + tail1)) by {
      assert NatToString(tri.i0 as nat) == [digit];
      FaceLineParts(tri, next);
    }
    assert ReadChar(Stream("f" + (" " + ([digit] + tail1)), false)) == Stream(" " + ([digit] + tail1), false) by {
      ReadCharTakes('f', " " + ([digit] + tail1));
    }
    ReadCharAfterBlank(digit, tail1);
  }

  /** A character extraction at a non-blank takes exactly that character. */
  lemma ReadCharTakes(c: char, rest: string)
    requires !IsSpace(c)
    ensures ReadChar(Stream([c] + rest, false)) == Stream(rest, false)
  {
    assert SkipSpace([c] + rest) == [c] + rest;
    assert ([c] + rest)[1..] == rest;
  }

  /** A character extraction after one blank takes the character behind it. */
  lemma ReadCharAfterBlank(c: char, rest: string)
    requires !IsSpace(c)
    ensures ReadChar(Stream(" " + ([c] + rest), false)) == Stream(rest, false)
  {
    SkipToNonSpace(" ", [c] + rest);
    assert ([c] + rest)[1..] == rest;
  }

  /** The shifted reads take the second and third indices and then fail on the next face's tag, storing 0. */
  lemma ShiftedTriple(tri: Triangle, next: string, u: U32)
    requires 0 < |next| && next[0] == 'f'
    ensures ReadTriple(Stream(" " + NatToString(tri.i1 as nat) + (" " + NatToString(tri.i2 as nat) + ("\n" + next)), false), u)
            == (Stream(next, true), Triangle(tri.i1, tri.i2, 0))
  {
    var tail2 := " " + NatToString(tri.i2 as nat) + ("\n" + next);
    assert tail2[0] == ' ';
    ReadSpelled(tri.i1, tail2, u);
    ReadSpelled(tri.i2, "\n" + next, tri.i1);
    SkipToNonSpace("\n", next);
    assert DigitRun(next) == 0;
    assert ReadUnsigned(Stream("\n" + next, false), tri.i2) == (Stream(next, true), 0);
  }

  /** As written, a one-digit face line followed by another tag yields one shifted triple and stops. */
  lemma ShiftedRead(tri: Triangle, next: string, u: U32)
    requires 1 <= tri.i0 <= 9 && 0 < |next| && next[0] == 'f'
    ensures AsWritten(FaceLine(tri) + next, u)
            == FaceRead([IndexOf(tri.i1), IndexOf(tri.i2), 0xFFFF_FFFF], [Triangle(tri.i1, tri.i2, 0)])
  {
    var s0 := ReadChar(Stream(FaceLine(tri) + next, false));
    var bad := Triangle(tri.i1, tri.i2, 0);
    assert !ReadChar(s0).failed && ReadTriple(ReadChar(s0), u) == (Stream(next, true), bad) by {
      ShiftedTag(tri, next);
      ShiftedTriple(tri, next, u);
    }
    FaceLoopLast(s0, u, Stream(next, true), bad);
    assert IndexOf(0) == 0xFFFF_FFFF;
  }

  /**
    As written, a file whose first face starts with a one-digit index and is
    followed by another face yields one triple. It holds the first face's
    second and third indices and a 0, and the loop stops there: the other
    faces are lost, and the 0 names no vertex, so `updateNormal` indexes
    outside the buffer.
   */
  lemma AsWrittenLosesFaces(tris: seq<Triangle>, u: U32)
    requires 2 <= |tris| && 1 <= tris[0].i0 <= 9
    ensures AsWritten(Render(tris), u)
            == FaceRead([IndexOf(tris[0].i1), IndexOf(tris[0].i2), 0xFFFF_FFFF], [Triangle(tris[0].i1, tris[0].i2, 0)])
    ensures forall count: nat :: !TriangleIn(AsWritten(Render(tris), u).triangles[0], count)
  {
    var next := Render(tris[1..]);
    assert Render(tris) == FaceLine(tris[0]) + next;
    assert next == FaceLine(tris[1..][0]) + Render(tris[1..][1..]);
    assert next[0] == 'f';
    ShiftedRead(tris[0], next, u);
  }
}
