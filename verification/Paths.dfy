/** Splitting request paths on slashes. */
module Paths {

  /** `strings.Split` on a slash, which yields at least one part. */
  function Split(s: string): (parts: seq<string>)
    ensures |parts| > 0
  {
    if s == "" then [""]
    else if s[0] == '/' then [""] + Split(s[1..])
    else
      var rest := Split(s[1..]);
      [[s[0]] + rest[0]] + rest[1..]
  }

  function JoinSlash(parts: seq<string>): string {
    if parts == [] then "" else if |parts| == 1 then parts[0] else parts[0] + "/" + JoinSlash(parts[1..])
  }

  function TrimLeft(s: string): string {
    if s != "" && s[0] == '/' then TrimLeft(s[1..]) else s
  }

  function TrimRight(s: string): string {
    if s != "" && s[|s| - 1] == '/' then TrimRight(s[..|s| - 1]) else s
  }

  function Trim(s: string): string {
    TrimRight(TrimLeft(s))
  }

  /** The segments of a path; a path of slashes only has none. */
  function Segments(path: string): seq<string> {
    var parts := Split(Trim(path));
    if parts == [""] then [] else parts
  }

  function NonEmpty(parts: seq<string>): seq<string> {
    if parts == [] then [] else (if parts[0] == "" then [] else [parts[0]]) + NonEmpty(parts[1..])
  }

  /** `strings.FieldsFunc` on slashes. */
  function Fields(s: string): seq<string> {
    NonEmpty(Split(s))
  }

  /** The part of a segment before its first semicolon. */
  function Cut(segment: string): string {
    if segment == "" || segment[0] == ';' then "" else [segment[0]] + Cut(segment[1..])
  }

  function CutAll(segments: seq<string>): seq<string> {
    seq(|segments|, i requires 0 <= i < |segments| => Cut(segments[i]))
  }

  /** `stripPathParams`: the path without matrix parameters. */
  function StripParams(path: string): string {
    JoinSlash(CutAll(Split(path)))
  }

  // ---------- longer paths have longer segment lists ----------

  lemma {:induction false} SplitAtSlash(a: string, b: string)
    ensures Split(a + "/" + b) == Split(a) + Split(b)
  {
    var s := a + "/" + b;
    if a == "" {
      assert s[1..] == b;
    } else {
      assert s[0] == a[0] && s[1..] == a[1..] + "/" + b;
      SplitAtSlash(a[1..], b);
    }
  }

  lemma {:induction false} SplitIsBlankIff(s: string)
    ensures Split(s) == [""] <==> s == ""
  {
    if s != "" && s[0] != '/' {
      assert Split(s)[0][0] == s[0];
    }
  }

  lemma {:induction false} TrimLeftExtends(p: string, rest: string)
    requires TrimLeft(p) != ""
    ensures TrimLeft(p + rest) == TrimLeft(p) + rest
  {
    if p[0] == '/' {
      assert (p + rest)[1..] == p[1..] + rest;
      TrimLeftExtends(p[1..], rest);
    }
  }

  lemma {:induction false} TrimRightOfTwo(x: string, y: string)
    ensures TrimRight(x + y) == if TrimRight(y) == "" then TrimRight(x) else x + TrimRight(y)
    decreases |y|
  {
    if y == "" {
      assert x + y == x;
    } else if y[|y| - 1] == '/' {
      assert (x + y)[..|x + y| - 1] == x + y[..|y| - 1];
      TrimRightOfTwo(x, y[..|y| - 1]);
    }
  }

  /** What is trimmed on the right only adds parts after those of the trimmed path. */
  lemma {:induction false} TrimmedIsPrefix(s: string)
    ensures Split(TrimRight(s)) <= Split(s)
    decreases |s|
  {
    if s != "" && s[|s| - 1] == '/' {
      var t := s[..|s| - 1];
      TrimmedIsPrefix(t);
      SplitAtSlash(t, "");
      assert t + "/" + "" == s;
    }
  }

  /** The segments of a path begin the segments of everything below it. */
  lemma SegmentsExtend(p: string, suffix: string)
    ensures Segments(p) <= Segments(p + "/" + suffix)
  {
    var l, y := TrimLeft(p), "/" + suffix;
    if l != "" {
      assert p + "/" + suffix == p + y;
      TrimLeftExtends(p, y);
      TrimRightOfTwo(l, y);
      SplitIsBlankIff(TrimRight(l));
      if TrimRight(y) != "" {
        var tail := TrimRight(y)[1..];
        TrimRightKeepsFirst(suffix);
        assert l + TrimRight(y) == l + "/" + tail;
        SplitAtSlash(l, tail);
        TrimmedIsPrefix(l);
      }
    }
  }

  lemma TrimRightKeepsFirst(suffix: string)
    ensures TrimRight("/" + suffix) == "" || TrimRight("/" + suffix)[0] == '/'
  {
    TrimRightOfTwo("/", suffix);
    assert TrimRight("/") == "";
  }

  // ---------- parameters are stripped part by part ----------

  lemma {:induction false} JoinOfTwo(a: seq<string>, b: seq<string>)
    requires a != [] && b != []
    ensures JoinSlash(a + b) == JoinSlash(a) + "/" + JoinSlash(b)
  {
    if |a| > 1 {
      assert (a + b)[1..] == a[1..] + b;
      JoinOfTwo(a[1..], b);
    } else {
      assert (a + b)[1..] == b;
    }
  }

  lemma StripAtSlash(a: string, b: string)
    ensures StripParams(a + "/" + b) == StripParams(a) + "/" + StripParams(b)
  {
    SplitAtSlash(a, b);
    assert CutAll(Split(a) + Split(b)) == CutAll(Split(a)) + CutAll(Split(b));
    JoinOfTwo(CutAll(Split(a)), CutAll(Split(b)));
  }

  // ---------- what the parts of a path are ----------

  predicate Slashless(parts: seq<string>) {
    forall i :: 0 <= i < |parts| ==> '/' !in parts[i]
  }

  lemma Regroup(a: string, b: string, c: string)
    ensures a + b + "/" + c == a + (b + "/" + c)
  {
  }

  lemma {:induction false} JoinWithFirst(first: string, parts: seq<string>)
    requires parts != []
    ensures JoinSlash([first + parts[0]] + parts[1..]) == first + JoinSlash(parts)
  {
    var more := [first + parts[0]] + parts[1..];
    assert more[1..] == parts[1..];
    Regroup(first, parts[0], JoinSlash(parts[1..]));
  }

  lemma {:induction false} SplitIsSlashless(s: string)
    ensures Slashless(Split(s))
  {
    if s != "" {
      SplitIsSlashless(s[1..]);
    }
  }

  /** Splitting loses nothing: the parts hold no slash, and joined by slashes they are the path. */
  lemma {:induction false} JoinOfSplit(s: string)
    ensures JoinSlash(Split(s)) == s && Slashless(Split(s))
  {
    SplitIsSlashless(s);
    if s != "" {
      JoinOfSplit(s[1..]);
      assert s == [s[0]] + s[1..];
      if s[0] == '/' {
        assert Split(s)[1..] == Split(s[1..]);
      } else {
        JoinWithFirst([s[0]], Split(s[1..]));
      }
    }
  }

  lemma {:induction false} SplitOfPart(part: string)
    requires '/' !in part
    ensures Split(part) == [part]
  {
    if part != "" {
      assert part[0] in part && part == [part[0]] + part[1..];
      SplitOfPart(part[1..]);
    }
  }

  /** And it finds them again: the inverse on parts without a slash. */
  lemma {:induction false} SplitOfJoin(parts: seq<string>)
    requires parts != [] && Slashless(parts)
    ensures Split(JoinSlash(parts)) == parts
  {
    SplitOfPart(parts[0]);
    if |parts| > 1 {
      SplitAtSlash(parts[0], JoinSlash(parts[1..]));
      SplitOfJoin(parts[1..]);
    }
  }

  predicate Slashes(s: string) {
    forall i :: 0 <= i < |s| ==> s[i] == '/'
  }

  lemma {:induction false} TrimLeftTakesSlashes(s: string) returns (front: string)
    ensures s == front + TrimLeft(s) && Slashes(front)
    ensures TrimLeft(s) != "" ==> TrimLeft(s)[0] != '/'
  {
    front := "";
    if s != "" && s[0] == '/' {
      var rest := TrimLeftTakesSlashes(s[1..]);
      front := "/" + rest;
    }
  }

  lemma {:induction false} TrimRightTakesSlashes(s: string) returns (back: string)
    ensures s == TrimRight(s) + back && Slashes(back)
    ensures TrimRight(s) != "" ==> TrimRight(s)[|TrimRight(s)| - 1] != '/'
  {
    back := "";
    if s != "" && s[|s| - 1] == '/' {
      var rest := TrimRightTakesSlashes(s[..|s| - 1]);
      back := rest + "/";
    }
  }

  /** The segments of a path are its parts but for slashes at both ends, so no first or last segment is empty. */
  lemma SegmentsJoin(path: string) returns (front: string, back: string)
    ensures Slashless(Segments(path)) && path == front + JoinSlash(Segments(path)) + back && Slashes(front) && Slashes(back)
    ensures Segments(path) != [] ==> Segments(path)[0] != "" && Segments(path)[|Segments(path)| - 1] != ""
  {
    front := TrimLeftTakesSlashes(path);
    back := TrimRightTakesSlashes(TrimLeft(path));
    JoinOfSplit(Trim(path));
    SplitIsBlankIff(Trim(path));
    if Trim(path) != "" {
      assert Trim(path)[0] == TrimLeft(path)[0];
      EndsOfSplit(Trim(path));
    }
  }

  lemma {:induction false} EndsOfSplit(s: string)
    requires s != ""
    ensures s[0] != '/' ==> Split(s)[0] != ""
    ensures s[|s| - 1] != '/' ==> Split(s)[|Split(s)| - 1] != ""
  {
    if |s| > 1 {
      EndsOfSplit(s[1..]);
    }
  }

  lemma {:induction false} NonEmptyKeeps(parts: seq<string>)
    requires forall i :: 0 <= i < |parts| ==> parts[i] != ""
    ensures NonEmpty(parts) == parts
  {
    if parts != [] {
      NonEmptyKeeps(parts[1..]);
    }
  }

  lemma {:induction false} NonEmptyDrops(a: seq<string>, b: seq<string>)
    ensures NonEmpty(a + [""] + b) == NonEmpty(a + b)
  {
    if a == [] {
      assert ([""] + b)[1..] == b;
      assert a + [""] + b == [""] + b && a + b == b;
    } else {
      NonEmptyDrops(a[1..], b);
      assert (a + [""] + b)[1..] == a[1..] + [""] + b && (a + b)[1..] == a[1..] + b;
    }
  }

  /** The fields of a pattern are its parts, with or without a slash in front. */
  lemma FieldsOfParts(parts: seq<string>)
    requires parts != [] && Slashless(parts) && forall i :: 0 <= i < |parts| ==> parts[i] != ""
    ensures Fields(JoinSlash(parts)) == parts && Fields("/" + JoinSlash(parts)) == parts
  {
    SplitOfJoin(parts);
    NonEmptyKeeps(parts);
    assert ("/" + JoinSlash(parts))[1..] == JoinSlash(parts);
    assert ([""] + parts)[1..] == parts;
  }

  /** A doubled slash makes no field more. */
  lemma DoubledSlash(a: string, b: string)
    ensures Fields(a + "/" + ("/" + b)) == Fields(a + "/" + b)
  {
    assert ("/" + b)[1..] == b;
    SplitAtSlash(a, "/" + b);
    SplitAtSlash(a, b);
    assert Split(a) + ([""] + Split(b)) == Split(a) + [""] + Split(b);
    NonEmptyDrops(Split(a), Split(b));
  }

  // ---------- what stripping leaves ----------

  /** A cut segment is the part before its first semicolon, all of it if it has none. */
  lemma {:induction false} CutIsBeforeSemicolon(segment: string)
    ensures Cut(segment) <= segment && ';' !in Cut(segment)
    ensures |Cut(segment)| < |segment| ==> segment[|Cut(segment)|] == ';'
  {
    if segment != "" && segment[0] != ';' {
      CutIsBeforeSemicolon(segment[1..]);
    }
  }

  lemma {:induction false} JoinHasNo(parts: seq<string>, c: char)
    requires c != '/' && forall i :: 0 <= i < |parts| ==> c !in parts[i]
    ensures c !in JoinSlash(parts)
  {
    if |parts| > 1 {
      JoinHasNo(parts[1..], c);
    }
  }

  /** The stripped path has no semicolon, as many parts as the path, and each is that part before its first semicolon. */
  lemma StripCutsEachPart(path: string, i: nat)
    requires i < |Split(path)|
    ensures ';' !in StripParams(path) && |Split(StripParams(path))| == |Split(path)|
    ensures var part, left := Split(path)[i], Split(StripParams(path))[i];
      left <= part && ';' !in left && (|left| < |part| ==> part[|left|] == ';')
  {
    var parts := CutAll(Split(path));
    JoinOfSplit(path);
    forall k | 0 <= k < |parts| ensures ';' !in parts[k] && '/' !in parts[k] {
      CutIsBeforeSemicolon(Split(path)[k]);
      assert '/' !in Split(path)[k];
    }
    SplitOfJoin(parts);
    JoinHasNo(parts, ';');
    CutIsBeforeSemicolon(Split(path)[i]);
  }
}
