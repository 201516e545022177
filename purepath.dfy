/** POSIX `pathlib` paths as the main wrapper uses them: `str(Path(s))`, the normalised
    spelling that becomes a code object's file name and `__file__`, and `Path(s).name`,
    the final component that becomes `sys.argv[0]`. */
module PurePath {

  /** The '/'-separated pieces of `p`, empty ones included. */
  function Segments(p: string): (r: seq<string>)
    ensures |r| >= 1
    decreases |p|
  {
    if p == [] then [""]
    else
      var rest := Segments(p[1..]);
      if p[0] == '/' then [""] + rest else [[p[0]] + rest[0]] + rest[1..]
  }

  /** A component `pathlib` keeps: not empty, not `.`, and without a separator. */
  predicate Component(s: string) {
    s != "" && s != "." && '/' !in s
  }

  /** The segments `pathlib` keeps: empty ones (from repeated or trailing slashes) and
      `.` are dropped; `..` is kept. */
  function Keep(segs: seq<string>): seq<string> {
    if segs == [] then []
    else if segs[0] == "" || segs[0] == "." then Keep(segs[1..])
    else [segs[0]] + Keep(segs[1..])
  }

  function Parts(p: string): seq<string> {
    Keep(Segments(p))
  }

  /** The root: exactly two leading slashes are kept as they are, any other positive
      number of them collapses to one. */
  function Anchor(p: string): string {
    if |p| >= 2 && p[0] == '/' && p[1] == '/' && (|p| == 2 || p[2] != '/') then "//"
    else if |p| >= 1 && p[0] == '/' then "/"
    else ""
  }

  function Join(parts: seq<string>): string {
    if parts == [] then ""
    else if |parts| == 1 then parts[0]
    else parts[0] + "/" + Join(parts[1..])
  }

  /** `str(pathlib.Path(p))`. */
  function PathStr(p: string): string {
    var s := Anchor(p) + Join(Parts(p));
    if s == "" then "." else s
  }

  /** `pathlib.Path(p).name`: the last component, or empty when there is none. */
  function Name(p: string): string {
    var parts := Parts(p);
    if parts == [] then "" else parts[|parts| - 1]
  }

  // ----- Lemmas -----

  lemma {:induction false} SegmentsNoSlash(p: string)
    ensures forall i :: 0 <= i < |Segments(p)| ==> '/' !in Segments(p)[i]
    decreases |p|
  {
    if p != [] {
      SegmentsNoSlash(p[1..]);
    }
  }

  lemma {:induction false} SegmentsOfComponent(s: string)
    requires '/' !in s
    ensures Segments(s) == [s]
    decreases |s|
  {
    if s != [] {
      SegmentsOfComponent(s[1..]);
      assert [s[0]] + s[1..] == s;
    }
  }

  /** Splitting at a separator splits the segments. */
  lemma {:induction false} SegmentsAppend(x: string, y: string)
    ensures Segments(x + "/" + y) == Segments(x) + Segments(y)
    decreases |x|
  {
    if x == [] {
      assert x + "/" + y == "/" + y;
      assert ("/" + y)[1..] == y;
    } else {
      var t := x[1..] + "/" + y;
      assert x + "/" + y == [x[0]] + t;
      assert ([x[0]] + t)[1..] == t;
      SegmentsAppend(x[1..], y);
    }
  }

  lemma {:induction false} KeepAppend(xs: seq<string>, ys: seq<string>)
    ensures Keep(xs + ys) == Keep(xs) + Keep(ys)
    decreases |xs|
  {
    if xs != [] {
      assert (xs + ys)[1..] == xs[1..] + ys;
      KeepAppend(xs[1..], ys);
    } else {
      assert xs + ys == ys;
    }
  }

  lemma {:induction false} KeepComponents(parts: seq<string>)
    requires forall i :: 0 <= i < |parts| ==> Component(parts[i])
    ensures Keep(parts) == parts
    decreases |parts|
  {
    if parts != [] {
      KeepComponents(parts[1..]);
      assert [parts[0]] + parts[1..] == parts;
    }
  }

  /** Every part `pathlib` keeps is a proper component. */
  lemma {:induction false} KeepIsComponents(segs: seq<string>)
    requires forall i :: 0 <= i < |segs| ==> '/' !in segs[i]
    ensures forall i :: 0 <= i < |Keep(segs)| ==> Component(Keep(segs)[i])
    decreases |segs|
  {
    if segs != [] {
      KeepIsComponents(segs[1..]);
    }
  }

  lemma PartsAreComponents(p: string)
    ensures forall i :: 0 <= i < |Parts(p)| ==> Component(Parts(p)[i])
  {
    SegmentsNoSlash(p);
    KeepIsComponents(Segments(p));
  }

  lemma {:induction false} SegmentsOfJoin(parts: seq<string>)
    requires |parts| >= 1
    requires forall i :: 0 <= i < |parts| ==> '/' !in parts[i]
    ensures Segments(Join(parts)) == parts
    decreases |parts|
  {
    if |parts| == 1 {
      SegmentsOfComponent(parts[0]);
    } else {
      SegmentsAppend(parts[0], Join(parts[1..]));
      SegmentsOfComponent(parts[0]);
      SegmentsOfJoin(parts[1..]);
      assert [parts[0]] + parts[1..] == parts;
    }
  }

  /** Joining components and reading the path back gives the same components. */
  lemma PartsOfJoin(parts: seq<string>)
    requires forall i :: 0 <= i < |parts| ==> Component(parts[i])
    ensures Parts(Join(parts)) == parts
  {
    if parts != [] {
      SegmentsOfJoin(parts);
      KeepComponents(parts);
    }
  }

  /** A join of components starts with the first component's first character. */
  lemma JoinStart(parts: seq<string>)
    requires parts != [] && parts[0] != ""
    ensures Join(parts) != "" && Join(parts)[0] == parts[0][0]
  {
  }

  predicate IsAnchor(a: string) { a == "" || a == "/" || a == "//" }

  /** Leading slashes add no components. */
  lemma PartsUnderAnchor(a: string, j: string)
    requires IsAnchor(a)
    ensures Parts(a + j) == Parts(j)
  {
    if a == "/" {
      SegmentsAppend("", j);
      assert "" + "/" + j == a + j;
      KeepAppend([""], Segments(j));
    } else if a == "//" {
      SegmentsAppend("", "/" + j);
      SegmentsAppend("", j);
      assert "" + "/" + ("" + "/" + j) == a + j;
      KeepAppend([""], Segments("/" + j));
      KeepAppend([""], Segments(j));
    } else {
      assert a + j == j;
    }
  }

  /** An anchor followed by text that does not start with a slash is read back as itself. */
  lemma AnchorOfAnchored(a: string, j: string)
    requires IsAnchor(a)
    requires j == "" || j[0] != '/'
    requires a + j != ""
    ensures Anchor(a + j) == a
  {
    var s := a + j;
    if a == "//" {
      assert s[0] == '/' && s[1] == '/';
      assert |s| == 2 || s[2] == j[0];
    } else if a == "/" {
      assert s[0] == '/';
      assert |s| == 1 || s[1] == j[0];
    } else {
      assert s == j;
    }
  }

  /** Normalising twice is normalising once: the anchor and the components survive. */
  lemma PathStrIdempotent(p: string)
    ensures Parts(PathStr(p)) == Parts(p)
    ensures PathStr(PathStr(p)) == PathStr(p)
  {
    var a, parts := Anchor(p), Parts(p);
    var j := Join(parts);
    PartsAreComponents(p);
    PartsOfJoin(parts);
    if a + j == "" {
      assert PathStr(p) == ".";
      SegmentsOfComponent(".");
    } else {
      assert PathStr(p) == a + j;
      if parts != [] {
        assert Component(parts[0]);
        JoinStart(parts);
      }
      PartsUnderAnchor(a, j);
      AnchorOfAnchored(a, j);
    }
  }

  /** Normalisation keeps the name. */
  lemma NameOfPathStr(p: string)
    ensures Name(PathStr(p)) == Name(p)
  {
    PathStrIdempotent(p);
  }

  /** A name is a single component, or empty for a bare root or `.`. */
  lemma NameIsComponent(p: string)
    ensures Name(p) == "" || Component(Name(p))
  {
    PartsAreComponents(p);
  }

  /** The name of `dir/n` is `n`, whatever `dir` is. */
  lemma NameOfChild(dir: string, n: string)
    requires Component(n)
    ensures Name(dir + "/" + n) == n
  {
    SegmentsAppend(dir, n);
    SegmentsOfComponent(n);
    KeepAppend(Segments(dir), [n]);
    KeepComponents([n]);
  }
}
