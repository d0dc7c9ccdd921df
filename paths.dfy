/**
 * POSIX paths as `pathlib.PurePosixPath` renders them: the root is kept, the
 * empty pieces left by `//` or a trailing `/` and the `.` pieces are dropped,
 * `..` is kept, and `/` joins a relative path onto a base.
 */
module Paths {
  import opened Text

  /** The pieces pathlib keeps, in order: neither empty nor `.`. */
  function Segments(parts: seq<string>): (r: seq<string>)
    ensures forall i :: 0 <= i < |r| ==> r[i] != "" && r[i] != "."
    ensures forall i :: 0 <= i < |r| ==> r[i] in parts
  {
    if parts == [] then []
    else
      var rest := Segments(parts[1..]);
      if parts[0] == "" || parts[0] == "." then rest else [parts[0]] + rest
  }

  /** The root: exactly two leading slashes stay two, any other number of them is one. */
  function Root(p: string): (r: string)
    ensures r == "" || r == "/" || r == "//"
    ensures r == "" <==> !StartsWith(p, "/")
  {
    if StartsWith(p, "//") && !StartsWith(p, "///") then "//"
    else if StartsWith(p, "/") then "/"
    else ""
  }

  /** The text of a path with this root and these segments; the empty relative path is `.`. */
  function Render(root: string, segments: seq<string>): string
  {
    if root == "" && segments == [] then "." else root + Join(segments, "/")
  }

  /** `str(PurePosixPath(p))`. */
  function Normalize(p: string): string
  {
    Render(Root(p), Segments(Split(p, '/')))
  }

  /** `str(PurePosixPath(base) / file)`: an absolute `file` replaces the base, a relative one extends it. */
  function JoinPath(base: string, file: string): string
  {
    if StartsWith(file, "/") then Normalize(file)
    else Render(Root(base), Segments(Split(base, '/')) + Segments(Split(file, '/')))
  }

  // ---------------------------------------------------------------------
  // Rendering is stable
  // ---------------------------------------------------------------------

  /** Text without the separator is one piece. */
  lemma {:induction false} SplitOfPiece(x: string, c: char)
    requires c !in x
    ensures Split(x, c) == [x]
  {
    if x != [] {
      SplitOfPiece(x[1..], c);
      assert [x[0]] + x[1..] == x;
    }
  }

  /** A piece followed by the separator splits off as the first piece. */
  lemma {:induction false} SplitAfterPiece(x: string, c: char, y: string)
    requires c !in x
    ensures Split(x + [c] + y, c) == [x] + Split(y, c)
  {
    if x == [] {
      assert ([c] + y)[1..] == y;
    } else {
      SplitAfterPiece(x[1..], c, y);
      assert (x + [c] + y)[1..] == x[1..] + [c] + y;
      assert [x[0]] + x[1..] == x;
    }
  }

  /** Splitting what `Join` glued gives the pieces back when none holds the separator. */
  lemma {:induction false} SplitJoin(parts: seq<string>, c: char)
    requires |parts| >= 1
    requires forall i :: 0 <= i < |parts| ==> c !in parts[i]
    ensures Split(Join(parts, [c]), c) == parts
  {
    if |parts| == 1 {
      SplitOfPiece(parts[0], c);
    } else {
      SplitJoin(parts[1..], c);
      SplitAfterPiece(parts[0], c, Join(parts[1..], [c]));
      assert [parts[0]] + parts[1..] == parts;
    }
  }

  /** Segments that are already clean are kept as they are. */
  lemma {:induction false} SegmentsOfClean(segments: seq<string>)
    requires forall i :: 0 <= i < |segments| ==> segments[i] != "" && segments[i] != "."
    ensures Segments(segments) == segments
  {
    if segments != [] {
      SegmentsOfClean(segments[1..]);
      assert [segments[0]] + segments[1..] == segments;
    }
  }

  /** Leading separators split off as empty pieces, which `Segments` drops. */
  lemma SegmentsAfterRoot(root: string, body: string)
    requires root == "" || root == "/" || root == "//"
    ensures Segments(Split(root + body, '/')) == Segments(Split(body, '/'))
  {
    if root == "/" {
      assert (root + body)[1..] == body;
    } else if root == "//" {
      assert (root + body)[1..] == "/" + body;
      assert ("/" + body)[1..] == body;
    } else {
      assert root + body == body;
    }
  }

  /**
   * A rendered path renders to itself: its root and its segments read back
   * unchanged. So `Normalize` and `JoinPath` give paths pathlib leaves alone.
   */
  lemma RenderIsNormal(root: string, segments: seq<string>)
    requires root == "" || root == "/" || root == "//"
    requires forall i :: 0 <= i < |segments| ==> segments[i] != "" && segments[i] != "." && '/' !in segments[i]
    ensures Normalize(Render(root, segments)) == Render(root, segments)
  {
    var p := Render(root, segments);
    if root == "" && segments == [] {
      assert p == ".";
      SplitOfPiece(".", '/');
    } else {
      var body := Join(segments, "/");
      assert p == root + body;
      assert segments != [] ==> body[0] == segments[0][0];
      assert body == [] || body[0] != '/';
      assert Root(p) == root by {
        if root == "//" {
          assert p[..2] == "//";
          assert !StartsWith(p, "///") by {
            if |p| >= 3 { assert p[2] == body[0]; }
          }
        } else if root == "/" {
          assert p[..1] == "/";
          assert !StartsWith(p, "//") by {
            if |p| >= 2 { assert p[1] == body[0]; }
          }
        } else {
          assert p == body;
        }
      }
      SegmentsAfterRoot(root, body);
      if segments == [] {
        assert body == "";
        assert Split(body, '/') == [""];
      } else {
        SplitJoin(segments, '/');
        SegmentsOfClean(segments);
      }
    }
  }

  /** Normalising is idempotent. */
  lemma NormalizeIdempotent(p: string)
    ensures Normalize(Normalize(p)) == Normalize(p)
  {
    var segments := Segments(Split(p, '/'));
    forall i | 0 <= i < |segments| ensures '/' !in segments[i] {
      assert segments[i] in Split(p, '/');
    }
    RenderIsNormal(Root(p), segments);
  }

  /** A joined path is already normal, whatever the separators and `.` pieces in its inputs. */
  lemma JoinPathIsNormal(base: string, file: string)
    ensures Normalize(JoinPath(base, file)) == JoinPath(base, file)
  {
    if StartsWith(file, "/") {
      NormalizeIdempotent(file);
    } else {
      var segments := Segments(Split(base, '/')) + Segments(Split(file, '/'));
      forall i | 0 <= i < |segments| ensures '/' !in segments[i] {
        assert segments[i] in Split(base, '/') || segments[i] in Split(file, '/');
      }
      RenderIsNormal(Root(base), segments);
    }
  }

  // Separators and `.` pieces in the file name do not reach the joined path.

  /** A path piece pathlib keeps: not empty, not `.`, without a separator. */
  predicate Piece(x: string)
  {
    x != "" && x != "." && '/' !in x
  }

  /** The clean relative path `a/b` splits into its two pieces. */
  lemma SplitTwoPieces(a: string, b: string)
    requires Piece(a) && Piece(b)
    ensures Segments(Split(a + "/" + b, '/')) == [a, b]
    ensures !StartsWith(a + "/" + b, "/")
  {
    SplitOfPiece(b, '/');
    SplitAfterPiece(a, '/', b);
    assert a + "/" + b == a + ['/'] + b;
    assert (a + "/" + b)[0] == a[0];
    SegmentsOfClean([a, b]);
  }

  /** `a/./b` keeps the pieces `a` and `b`. */
  lemma SplitDotPath(a: string, b: string)
    requires Piece(a) && Piece(b)
    ensures Segments(Split(a + "/./" + b, '/')) == [a, b]
    ensures !StartsWith(a + "/./" + b, "/")
  {
    var tail := "." + ['/'] + b;
    var file := a + ['/'] + tail;
    assert file == a + "/./" + b;
    assert file[0] == a[0];
    SplitOfPiece(b, '/');
    SplitAfterPiece(".", '/', b);
    SplitAfterPiece(a, '/', tail);
    assert Split(file, '/') == [a, ".", b];
    assert [a, ".", b][1..] == [".", b] && [".", b][1..] == [b];
    SegmentsOfClean([b]);
  }

  /** `a//b` keeps the pieces `a` and `b`. */
  lemma SplitDoubleSeparator(a: string, b: string)
    requires Piece(a) && Piece(b)
    ensures Segments(Split(a + "//" + b, '/')) == [a, b]
    ensures !StartsWith(a + "//" + b, "/")
  {
    var tail := "" + ['/'] + b;
    var file := a + ['/'] + tail;
    assert file == a + "//" + b;
    assert file[0] == a[0];
    SplitOfPiece(b, '/');
    SplitAfterPiece("", '/', b);
    SplitAfterPiece(a, '/', tail);
    assert Split(file, '/') == [a, "", b];
    assert [a, "", b][1..] == ["", b] && ["", b][1..] == [b];
    SegmentsOfClean([b]);
  }

  /** `a/` keeps the piece `a`, and so does `a`. */
  lemma SplitTrailingSeparator(a: string)
    requires Piece(a)
    ensures Segments(Split(a + "/", '/')) == [a] == Segments(Split(a, '/'))
    ensures !StartsWith(a + "/", "/") && !StartsWith(a, "/")
  {
    var file := a + ['/'] + "";
    assert file == a + "/";
    assert file[0] == a[0];
    SplitOfPiece(a, '/');
    SplitAfterPiece(a, '/', "");
    assert Split(file, '/') == [a, ""];
    assert [a, ""][1..] == [""] && [""][1..] == [];
    SegmentsOfClean([a]);
  }

  /** `a/./b` joins as `a/b`. */
  lemma JoinDropsDotSegment(base: string, a: string, b: string)
    requires Piece(a) && Piece(b)
    ensures JoinPath(base, a + "/./" + b) == JoinPath(base, a + "/" + b)
  {
    SplitTwoPieces(a, b);
    SplitDotPath(a, b);
  }

  /** `a//b` joins as `a/b`. */
  lemma JoinCollapsesSeparators(base: string, a: string, b: string)
    requires Piece(a) && Piece(b)
    ensures JoinPath(base, a + "//" + b) == JoinPath(base, a + "/" + b)
  {
    SplitTwoPieces(a, b);
    SplitDoubleSeparator(a, b);
  }

  /** `a/` joins as `a`. */
  lemma JoinDropsTrailingSeparator(base: string, a: string)
    requires Piece(a)
    ensures JoinPath(base, a + "/") == JoinPath(base, a)
  {
    SplitTrailingSeparator(a);
  }
}
