/**
 * Open3D/alfa147.py: the per-line rewrite of triangulate_obj. A Wavefront
 * OBJ face record "f t0 t1 ... t(n-1)" with four or more vertex tokens
 * becomes the fan of n - 2 triangles (t0, tk, t(k+1)); every other line is
 * copied. The file is the sequence of its lines, and the output file is the
 * sequence of strings written to it, in order.
 */
module ObjTriangulate {

  /** Python's str.isspace for one character: the separators str.split() uses. */
  predicate IsSpace(c: char)
  {
    var n := c as int;
    (9 <= n <= 13) || (28 <= n <= 32) || n == 0x85 || n == 0xA0 || n == 0x1680 ||
    (0x2000 <= n <= 0x200A) || n == 0x2028 || n == 0x2029 || n == 0x202F || n == 0x205F || n == 0x3000
  }

  /** A token of str.split(): nonempty and free of whitespace. */
  predicate IsToken(w: string)
  {
    |w| > 0 && forall i :: 0 <= i < |w| ==> !IsSpace(w[i])
  }

  predicate AllSpace(s: string)
  {
    forall i :: 0 <= i < |s| ==> IsSpace(s[i])
  }

  /** The leading run of non-whitespace characters. */
  function Word(s: string): (w: string)
    ensures |w| <= |s| && w == s[..|w|]
    ensures forall i :: 0 <= i < |w| ==> !IsSpace(w[i])
    ensures |w| < |s| ==> IsSpace(s[|w|])
  {
    if s == [] || IsSpace(s[0]) then [] else [s[0]] + Word(s[1..])
  }

  /** str.split() with no separator: the maximal runs of non-whitespace, in order. */
  function Split(s: string): (ts: seq<string>)
    ensures forall k :: 0 <= k < |ts| ==> IsToken(ts[k])
    decreases |s|
  {
    if s == [] then []
    else if IsSpace(s[0]) then Split(s[1..])
    else [Word(s)] + Split(s[|Word(s)|..])
  }

  /** str.lstrip(). */
  function TrimStart(s: string): (t: string)
    ensures t == [] || !IsSpace(t[0])
  {
    if s != [] && IsSpace(s[0]) then TrimStart(s[1..]) else s
  }

  /** str.rstrip(): keep each character unless only whitespace follows from it on. */
  function TrimEnd(s: string): (t: string)
    ensures t == [] || !IsSpace(t[|t| - 1])
  {
    if AllSpace(s) then [] else [s[0]] + TrimEnd(s[1..])
  }

  /** str.strip(). */
  function Strip(s: string): string
  {
    TrimEnd(TrimStart(s))
  }

  /** " ".join(ts). */
  function JoinSpace(ts: seq<string>): string
  {
    if |ts| == 0 then "" else if |ts| == 1 then ts[0] else ts[0] + " " + JoinSpace(ts[1..])
  }

  lemma {:induction false} WordOfToken(w: string, rest: string)
    requires IsToken(w) && (rest == [] || IsSpace(rest[0]))
    ensures Word(w + rest) == w
    decreases |w|
  {
    if |w| > 1 {
      assert (w + rest)[1..] == w[1..] + rest;
      WordOfToken(w[1..], rest);
    } else {
      assert (w + rest)[1..] == rest;
    }
  }

  /** A token followed by whitespace or by nothing splits off as one token. */
  lemma SplitTokenThen(w: string, rest: string)
    requires IsToken(w) && (rest == [] || IsSpace(rest[0]))
    ensures Split(w + rest) == [w] + Split(rest)
  {
    WordOfToken(w, rest);
    assert (w + rest)[|w|..] == rest;
  }

  /** Splitting a " ".join of tokens, followed by whitespace or nothing, gives the tokens back. */
  lemma {:induction false} SplitJoin(ts: seq<string>, tail: string)
    requires forall k :: 0 <= k < |ts| ==> IsToken(ts[k])
    requires tail == [] || IsSpace(tail[0])
    ensures Split(JoinSpace(ts) + tail) == ts + Split(tail)
    decreases |ts|
  {
    if |ts| == 0 {
      assert JoinSpace(ts) + tail == tail;
    } else if |ts| == 1 {
      SplitTokenThen(ts[0], tail);
    } else {
      var t0, more := ts[0], ts[1..];
      var rest := JoinSpace(more) + tail;
      JoinSpaceCons(ts, tail);
      SplitTokenSpace(t0, rest);
      SplitJoin(more, tail);
      assert ts == [t0] + more;
      assert [t0] + (more + Split(tail)) == ts + Split(tail);
    }
  }

  /** " ".join(ts) of two or more tokens is the first, a space, then the join of the rest. */
  lemma JoinSpaceCons(ts: seq<string>, tail: string)
    requires |ts| >= 2
    ensures JoinSpace(ts) + tail == ts[0] + (" " + (JoinSpace(ts[1..]) + tail))
  {
    var j := JoinSpace(ts[1..]);
    assert JoinSpace(ts) == (ts[0] + " ") + j;
    ConcatAssoc(ts[0] + " ", j, tail);
    ConcatAssoc(ts[0], " ", j + tail);
  }

  /** Concatenation is associative. */
  lemma ConcatAssoc<T>(a: seq<T>, b: seq<T>, c: seq<T>)
    ensures (a + b) + c == a + (b + c)
  {
  }

  /** A token followed by a space splits off, and the space with it. */
  lemma SplitTokenSpace(w: string, rest: string)
    requires IsToken(w)
    ensures Split(w + (" " + rest)) == [w] + Split(rest)
  {
    SplitTokenThen(w, " " + rest);
    assert (" " + rest)[1..] == rest;
  }

  lemma {:induction false} SplitAllSpace(s: string)
    requires AllSpace(s)
    ensures Split(s) == []
    decreases |s|
  {
    if s != [] {
      SplitAllSpace(s[1..]);
    }
  }

  /** A non-whitespace character is kept by str.rstrip() whatever follows it. */
  lemma TrimEndCons(c: char, rest: string)
    requires !IsSpace(c)
    ensures TrimEnd([c] + rest) == [c] + TrimEnd(rest)
  {
    var s := [c] + rest;
    assert s[0] == c;
    assert s[1..] == rest;
  }

  /** str.rstrip() keeps a leading token whatever follows it. */
  lemma {:induction false} TrimEndOfToken(w: string, rest: string)
    requires IsToken(w)
    ensures TrimEnd(w + rest) == w + TrimEnd(rest)
    decreases |w|
  {
    assert w + rest == [w[0]] + (w[1..] + rest);
    TrimEndCons(w[0], w[1..] + rest);
    if |w| > 1 {
      TrimEndOfToken(w[1..], rest);
      assert w == [w[0]] + w[1..];
    } else {
      assert w == [w[0]];
    }
  }

  /** Trailing whitespace does not change str.split(). */
  lemma {:induction false} SplitTrimEnd(s: string)
    ensures Split(TrimEnd(s)) == Split(s)
    decreases |s|
  {
    if AllSpace(s) {
      SplitAllSpace(s);
    } else if IsSpace(s[0]) {
      SplitTrimEnd(s[1..]);
    } else {
      var w := Word(s);
      var rest := s[|w|..];
      assert s == w + rest;
      TrimEndOfToken(w, rest);
      var tr := TrimEnd(rest);
      assert tr == [] || IsSpace(tr[0]) by {
        if rest != [] && !AllSpace(rest) {
          assert tr[0] == rest[0];
        }
      }
      SplitTokenThen(w, tr);
      SplitTokenThen(w, rest);
      SplitTrimEnd(rest);
    }
  }

  lemma {:induction false} SplitTrimStart(s: string)
    ensures Split(TrimStart(s)) == Split(s)
    decreases |s|
  {
    if s != [] && IsSpace(s[0]) {
      SplitTrimStart(s[1..]);
    }
  }

  /** line.strip().split() is line.split(): the strip changes nothing the split keeps. */
  lemma SplitStrip(s: string)
    ensures Split(Strip(s)) == Split(s)
  {
    SplitTrimEnd(TrimStart(s));
    SplitTrimStart(s);
  }

  /** line.startswith("f "). */
  predicate StartsWithF(line: string)
  {
    |line| >= 2 && line[..2] == "f "
  }

  /** parts = line.strip().split()[1:]: the tokens after the "f". */
  function FaceParts(line: string): seq<string>
  {
    var ts := Split(Strip(line));
    if |ts| >= 1 then ts[1..] else []
  }

  /** "f " + " ".join(tri) + "\n" for one triangle. */
  function TriangleLine(a: string, b: string, c: string): string
  {
    "f " + JoinSpace([a, b, c]) + "\n"
  }

  /** The fan of triangles (v0, v_k, v_(k+1)) for k = 1 .. n - 2. */
  function Fan(parts: seq<string>): (out: seq<string>)
    requires |parts| >= 3
    ensures |out| == |parts| - 2
  {
    seq(|parts| - 2, k requires 0 <= k < |parts| - 2 => TriangleLine(parts[0], parts[k + 1], parts[k + 2]))
  }

  /** What triangulate_obj writes for one input line. */
  function Rewrite(line: string): seq<string>
  {
    if !StartsWithF(line) then [line]
    else if |FaceParts(line)| <= 3 then [line]
    else Fan(FaceParts(line))
  }

  /** The outputs of f on each line, concatenated in order. */
  function FlatMap(f: string -> seq<string>, lines: seq<string>): seq<string>
  {
    if lines == [] then [] else FlatMap(f, lines[..|lines| - 1]) + f(lines[|lines| - 1])
  }

  /** What triangulate_obj writes for the lines of a file, in order. */
  function Triangulate(lines: seq<string>): seq<string>
  {
    FlatMap(Rewrite, lines)
  }

  /**
   * The rewrite of one line: lines that are not face records, and face
   * records of at most three vertices, are copied; a face of n >= 4 vertex
   * tokens becomes n - 2 lines, the k-th being "f p0 pk p(k+1)\n"; the
   * tokens are copied unchanged.
   */
  lemma RewriteFacts(line: string)
    ensures !StartsWithF(line) ==> Rewrite(line) == [line]
    ensures StartsWithF(line) && |FaceParts(line)| <= 3 ==> Rewrite(line) == [line]
    ensures StartsWithF(line) && |FaceParts(line)| >= 4 ==>
      var ps := FaceParts(line);
      |Rewrite(line)| == |ps| - 2 &&
      forall k :: 1 <= k <= |ps| - 2 ==>
        Rewrite(line)[k - 1] == "f " + ps[0] + " " + ps[k] + " " + ps[k + 1] + "\n"
  {
    if StartsWithF(line) && |FaceParts(line)| >= 4 {
      var ps := FaceParts(line);
      forall k | 1 <= k <= |ps| - 2
        ensures Rewrite(line)[k - 1] == "f " + ps[0] + " " + ps[k] + " " + ps[k + 1] + "\n"
      {
        TriangleLineText(ps[0], ps[k], ps[k + 1]);
      }
    }
  }

  /** One written triangle, character by character. */
  lemma TriangleLineText(a: string, b: string, c: string)
    ensures TriangleLine(a, b, c) == "f " + a + " " + b + " " + c + "\n"
  {
    assert [a, b, c][1..] == [b, c];
    assert [b, c][1..] == [c];
    assert JoinSpace([c]) == c;
    assert JoinSpace([b, c]) == b + " " + c;
    assert JoinSpace([a, b, c]) == a + " " + (b + " " + c);
  }

  /** Every triangle written is itself a face record with exactly the three tokens it was built from. */
  lemma TriangleLineParts(a: string, b: string, c: string)
    requires IsToken(a) && IsToken(b) && IsToken(c)
    ensures StartsWithF(TriangleLine(a, b, c))
    ensures FaceParts(TriangleLine(a, b, c)) == [a, b, c]
  {
    var line := TriangleLine(a, b, c);
    SplitTriangleLine(a, b, c);
    SplitStrip(line);
    assert Split(Strip(line))[1..] == [a, b, c];
  }

  /** A written triangle splits into "f" and its three tokens. */
  lemma SplitTriangleLine(a: string, b: string, c: string)
    requires IsToken(a) && IsToken(b) && IsToken(c)
    ensures Split(TriangleLine(a, b, c)) == ["f", a, b, c]
  {
    var j := JoinSpace([a, b, c]);
    var body := j + "\n";
    ConcatAssoc("f ", j, "\n");
    ConcatAssoc("f", " ", body);
    assert "f" + " " == "f ";
    SplitTokenSpace("f", body);
    SplitTriangleBody(a, b, c);
  }

  /** The tokens of a triangle after its "f " split back into the three. */
  lemma SplitTriangleBody(a: string, b: string, c: string)
    requires IsToken(a) && IsToken(b) && IsToken(c)
    ensures Split(JoinSpace([a, b, c]) + "\n") == [a, b, c]
  {
    SplitJoin([a, b, c], "\n");
    SplitAllSpace("\n");
    assert [a, b, c] + [] == [a, b, c];
  }

  /** No face record in the output has more than three vertex tokens. */
  lemma RewriteTriangles(line: string)
    ensures forall w :: w in Rewrite(line) && StartsWithF(w) ==> |FaceParts(w)| <= 3
  {
    if StartsWithF(line) && |FaceParts(line)| > 3 {
      var ps := FaceParts(line);
      var out := Rewrite(line);
      assert out == Fan(ps);
      forall k | 0 <= k < |out| ensures |FaceParts(out[k])| <= 3 {
        assert IsToken(ps[0]) && IsToken(ps[k + 1]) && IsToken(ps[k + 2]);
        assert out[k] == TriangleLine(ps[0], ps[k + 1], ps[k + 2]);
        TriangleLineParts(ps[0], ps[k + 1], ps[k + 2]);
      }
    }
  }

  /** FlatMap works line by line: its output for a + b is its output for a, then for b. */
  lemma {:induction false} FlatMapAppend(f: string -> seq<string>, a: seq<string>, b: seq<string>)
    ensures FlatMap(f, a + b) == FlatMap(f, a) + FlatMap(f, b)
    decreases |b|
  {
    if b == [] {
      assert a + b == a;
    } else {
      var front, last := b[..|b| - 1], b[|b| - 1];
      calc {
        FlatMap(f, a + b);
        { assert (a + b)[..|a + b| - 1] == a + front; assert (a + b)[|a + b| - 1] == last; }
        FlatMap(f, a + front) + f(last);
        { FlatMapAppend(f, a, front); }
        (FlatMap(f, a) + FlatMap(f, front)) + f(last);
        { ConcatAssoc(FlatMap(f, a), FlatMap(f, front), f(last)); }
        FlatMap(f, a) + (FlatMap(f, front) + f(last));
        FlatMap(f, a) + FlatMap(f, b);
      }
    }
  }

  /** The rewrite maps whole files line by line, keeping the order of the lines. */
  lemma TriangulateAppend(a: seq<string>, b: seq<string>)
    ensures Triangulate(a + b) == Triangulate(a) + Triangulate(b)
  {
    FlatMapAppend(Rewrite, a, b);
  }

  /** Every face record in the output has at most three vertex tokens. */
  lemma {:induction false} TriangulateTriangles(lines: seq<string>)
    ensures forall w :: w in Triangulate(lines) && StartsWithF(w) ==> |FaceParts(w)| <= 3
    decreases |lines|
  {
    if lines != [] {
      var front, last := lines[..|lines| - 1], lines[|lines| - 1];
      TriangulateTriangles(front);
      RewriteTriangles(last);
      assert Triangulate(lines) == Triangulate(front) + Rewrite(last);
    }
  }

  /** A file with no face of four or more vertices is copied unchanged. */
  lemma {:induction false} TriangulateCopies(lines: seq<string>)
    requires forall w :: w in lines && StartsWithF(w) ==> |FaceParts(w)| <= 3
    ensures Triangulate(lines) == lines
    decreases |lines|
  {
    if lines != [] {
      var front, last := lines[..|lines| - 1], lines[|lines| - 1];
      assert lines == front + [last];
      TriangulateCopies(front);
      assert Triangulate(lines) == Triangulate(front) + Rewrite(last);
      assert Rewrite(last) == [last];
    }
  }

  /** Triangulating the output again changes nothing. */
  lemma TriangulateIdempotent(lines: seq<string>)
    ensures Triangulate(Triangulate(lines)) == Triangulate(lines)
  {
    TriangulateTriangles(lines);
    TriangulateCopies(Triangulate(lines));
  }

  /** The output for the first j + 1 lines extends the output for the first j by line j's rewrite. */
  lemma TriangulateStep(lines: seq<string>, j: int)
    requires 0 <= j < |lines|
    ensures Triangulate(lines[..j + 1]) == Triangulate(lines[..j]) + Rewrite(lines[j])
  {
    assert lines[..j + 1][..j] == lines[..j];
  }

  /** The body of triangulate_obj's loop: what it writes for one line. */
  method RewriteLine(line: string) returns (written: seq<string>)
    ensures written == Rewrite(line)
  {
    if !StartsWithF(line) {
      return [line];
    }
    var tokens := Split(Strip(line));
    var parts := if |tokens| >= 1 then tokens[1..] else [];
    if |parts| <= 3 {
      return [line];
    }
    written := WriteFan(parts);
  }

  /** The fan loop: for i in 1 .. n - 2 write the triangle (v0, parts[i], parts[i + 1]). */
  method WriteFan(parts: seq<string>) returns (written: seq<string>)
    requires |parts| >= 3
    ensures written == Fan(parts)
  {
    var v0 := parts[0];
    written := [];
    for i := 1 to |parts| - 1
      invariant written == Fan(parts)[..i - 1]
    {
      var tri := [v0, parts[i], parts[i + 1]];
      written := written + ["f " + JoinSpace(tri) + "\n"];
      assert Fan(parts)[..i] == Fan(parts)[..i - 1] + [Fan(parts)[i - 1]];
    }
    assert Fan(parts)[..|parts| - 2] == Fan(parts);
  }

  /** triangulate_obj: for each line of the input, in order, write what its rewrite gives. */
  method TriangulateObj(lines: seq<string>) returns (out: seq<string>)
    ensures out == Triangulate(lines)
  {
    out := [];
    for j := 0 to |lines|
      invariant out == Triangulate(lines[..j])
    {
      var written := RewriteLine(lines[j]);
      TriangulateStep(lines, j);
      out := out + written;
    }
    assert lines[..|lines|] == lines;
  }
}
