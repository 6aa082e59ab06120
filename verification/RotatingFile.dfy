/** The access log file and its numbered predecessors, over a file system without I/O errors. */
module RotatingFile {
  import opened Common

  type Line = string

  /** File contents by number; 0 is the live file and higher numbers are older. */
  type Files = map<nat, seq<Line>>

  /** Bytes of a file: each line ends with a newline. */
  function Bytes(lines: seq<Line>): nat {
    if lines == [] then 0 else Bytes(lines[..|lines| - 1]) + |lines[|lines| - 1]| + 1
  }

  lemma BytesGrow(lines: seq<Line>, line: Line)
    ensures Bytes(lines + [line]) == Bytes(lines) + |line| + 1
  {
    assert (lines + [line])[..|lines|] == lines;
  }

  function At(files: Files, i: int): Option<seq<Line>> {
    if i >= 0 && i in files then Some(files[i]) else None
  }

  function Content(files: Files, i: int): seq<Line> {
    if At(files, i).Some? then At(files, i).value else []
  }

  /** The contents of files `n`, ..., 1, 0 one after the other. */
  ghost function Joined(files: Files, n: nat): seq<Line> {
    if n == 0 then Content(files, 0) else Content(files, n) + Joined(files, n - 1)
  }

  /** Files 0 to `k` exist and none is numbered from there to `n`. */
  ghost predicate GapFree(files: Files, k: nat, n: nat) {
    forall i: nat :: i <= n ==> (At(files, i).Some? <==> i <= k)
  }

  /** A file that grew under the size limit, or holds the one line that did not fit it. */
  predicate Sized(lines: seq<Line>, maxBytes: nat) {
    Bytes(lines) <= maxBytes || |lines| == 1
  }

  function AtMoved(found: Files, j: nat, i: int, n: nat): Option<seq<Line>> {
    if j <= i || j > n then At(found, j) else if j == i + 1 then None else At(found, j - 1)
  }

  /** The files `found`, without `n`, after those between `i` and `n` moved up by one. */
  ghost predicate MovedAbove(found: Files, files: Files, i: int, n: nat) {
    forall j: nat :: At(files, j) == AtMoved(found, j, i, n)
  }

  lemma RemovedLast(found: Files, n: nat)
    requires n >= 1
    ensures MovedAbove(found, found - {n}, n - 1, n)
  {
    var left := found - {n};
    forall j: nat
      ensures At(left, j) == if j == n then None else At(found, j)
    {
    }
  }

  /** Renames file `i` to `i + 1`; without a file `i` the error is ignored. */
  function Renamed(files: Files, i: nat): Files {
    if i in files then (files - {i})[i + 1 := files[i]] else files
  }

  lemma RenamedMoves(found: Files, files: Files, i: nat, n: nat)
    requires i < n && MovedAbove(found, files, i, n)
    ensures MovedAbove(found, Renamed(files, i), i - 1, n)
  {
    assert At(files, i + 1) == None;
    forall j: nat
      ensures At(Renamed(files, i), j) == if j == i then None else if j == i + 1 then At(files, i) else At(files, j)
    {
    }
  }

  lemma {:induction false} JoinedShifts(files: Files, files': Files, n: nat)
    requires n >= 1 && Content(files', 0) == []
    requires forall i: nat :: 0 < i <= n ==> Content(files', i) == Content(files, i - 1)
    ensures Joined(files', n) == Joined(files, n - 1)
  {
    if n > 1 {
      JoinedShifts(files, files', n - 1);
    } else {
      assert Joined(files', 1) == Content(files', 1) + Joined(files', 0);
    }
  }

  function Later(k: nat, n: nat): nat {
    if k < n then k + 1 else k
  }

  lemma GapFreeShifts(files: Files, files': Files, k: nat, n: nat)
    requires At(files', 0).Some? && ShiftedUp(files, files', n)
    requires GapFree(files, k, n)
    ensures GapFree(files', Later(k, n), n)
  {
    forall i: nat | i <= n
      ensures At(files', i).Some? <==> i <= Later(k, n)
    {
      if i > 0 {
        assert At(files', i) == At(files, i - 1);
      }
    }
  }

  lemma {:induction false} JoinedAppends(files: Files, n: nat, line: Line)
    requires 0 in files
    ensures Joined(files[0 := files[0] + [line]], n) == Joined(files, n) + [line]
  {
    if n > 0 {
      JoinedAppends(files, n - 1, line);
    }
  }

  /** The first `started` of the files, from the live one on, are within the limit or hold one line. */
  ghost predicate AllSized(files: Files, started: nat, n: nat, maxBytes: nat) {
    forall i: nat :: i < started && i <= n ==> Sized(Content(files, i), maxBytes)
  }

  function Appended(files: Files, line: Line): Files
    requires 0 in files
  {
    files[0 := files[0] + [line]]
  }

  lemma AppendedAt(files: Files, line: Line, i: nat)
    requires 0 in files && i > 0
    ensures At(Appended(files, line), i) == At(files, i)
  {
  }

  lemma AppendKeepsSized(files: Files, line: Line, started: nat, n: nat, maxBytes: nat)
    requires 0 in files && AllSized(files, started, n, maxBytes)
    requires Bytes(files[0]) > 0 ==> Bytes(files[0]) + |line| + 1 <= maxBytes
    ensures AllSized(Appended(files, line), started, n, maxBytes)
  {
    BytesGrow(files[0], line);
    assert Bytes(files[0]) == 0 ==> files[0] == [];
    forall i: nat | i < started && i <= n
      ensures Sized(Content(Appended(files, line), i), maxBytes)
    {
      if i > 0 {
        AppendedAt(files, line, i);
        assert Sized(Content(files, i), maxBytes);
      } else {
        assert Content(Appended(files, line), 0) == files[0] + [line];
      }
    }
  }

  lemma AppendKeepsGapFree(files: Files, line: Line, k: nat, n: nat)
    requires 0 in files && GapFree(files, k, n)
    ensures GapFree(Appended(files, line), k, n)
  {
    forall i: nat | i <= n
      ensures At(Appended(files, line), i).Some? <==> i <= k
    {
      if i > 0 {
        AppendedAt(files, line, i);
      }
    }
  }

  /** Every file but the last has moved up by one. */
  ghost predicate ShiftedUp(found: Files, files: Files, n: nat) {
    forall i: nat :: 0 < i <= n ==> At(files, i) == At(found, i - 1)
  }

  /** Once all have moved up, a new live file completes the rotation. */
  lemma RotatedKeeps(found: Files, moved: Files, n: nat, started: nat, maxBytes: nat)
    requires n >= 1 && MovedAbove(found, moved, -1, n) && AllSized(found, started, n, maxBytes)
    ensures ShiftedUp(found, moved[0 := []], n)
    ensures Joined(moved[0 := []], n) == Joined(found, n - 1) && AllSized(moved[0 := []], started + 1, n, maxBytes)
  {
    var files := moved[0 := []];
    forall i: nat | 0 < i <= n
      ensures At(files, i) == At(found, i - 1)
    {
      assert At(files, i) == At(moved, i) == AtMoved(found, i, -1, n);
    }
    JoinedShifts(found, files, n);
    forall i: nat | i < started + 1 && i <= n
      ensures Sized(Content(files, i), maxBytes)
    {
      if i > 0 {
        assert At(files, i) == At(found, i - 1);
        assert Sized(Content(found, i - 1), maxBytes);
      }
    }
  }

  lemma Associative<T>(a: seq<T>, b: seq<T>, c: seq<T>)
    ensures a + b + c == a + (b + c)
  {
  }

  lemma DroppedJoins(dropped: seq<Line>, found: Files, files: Files, n: nat)
    requires n >= 1 && Joined(files, n) == Joined(found, n - 1)
    ensures dropped + Content(found, n) + Joined(files, n) == dropped + Joined(found, n)
  {
    Associative(dropped, Content(found, n), Joined(found, n - 1));
  }

  class RotatingFile {
    const maxBytes: nat
    const maxFiles: nat
    var files: Files
    var size: nat
    /** How many of the files, counted from the live one, this process started. */
    ghost var started: nat
    /** Lines that fell off the end, oldest first. */
    ghost var dropped: seq<Line>

    ghost predicate Valid()
      reads this
    {
      && maxFiles >= 1 && 0 in files
      && size == Bytes(files[0])
      && AllSized(files, started, maxFiles, maxBytes)
    }

    predicate Outgrows(size: nat, line: Line) {
      size > 0 && size + |line| + 1 > maxBytes
    }

    /** Everything found or written so far, in order. */
    ghost function Written(): seq<Line>
      reads this
    {
      dropped + Joined(files, maxFiles)
    }

    /** Opens the log over whatever files an earlier process left, creating the live one. */
    constructor (maxBytes: int, maxFiles: int, found: Files)
      ensures Valid() && started == (if 0 in found then 0 else 1) && dropped == []
      ensures files == found[0 := Content(found, 0)]
      ensures this.maxBytes == if maxBytes <= 0 then 104857600 else maxBytes
      ensures this.maxFiles == if maxFiles < 1 then 5 else maxFiles
    {
      this.maxBytes := if maxBytes <= 0 then 104857600 else maxBytes;
      this.maxFiles := if maxFiles < 1 then 5 else maxFiles;
      files := found[0 := Content(found, 0)];
      size := Bytes(Content(found, 0));
      started, dropped := if 0 in found then 0 else 1, [];
    }

    method MoveUp()
      requires maxFiles >= 1
      modifies this`files
      ensures MovedAbove(old(files), files, -1, maxFiles)
    {
      RemovedLast(files, maxFiles);
      files := files - {maxFiles};
      var i := maxFiles - 1;
      while i >= 1
        invariant 0 <= i < maxFiles
        invariant MovedAbove(old(files), files, i, maxFiles)
      {
        RenamedMoves(old(files), files, i, maxFiles);
        files := Renamed(files, i);
        i := i - 1;
      }
      RenamedMoves(old(files), files, 0, maxFiles);
      files := Renamed(files, 0);
    }

    /** Moves every file up and opens a new live one. */
    method StartLive()
      requires maxFiles >= 1 && AllSized(files, started, maxFiles, maxBytes)
      modifies this`files
      ensures 0 in files && files[0] == [] && ShiftedUp(old(files), files, maxFiles)
      ensures Joined(files, maxFiles) == Joined(old(files), maxFiles - 1) && AllSized(files, started + 1, maxFiles, maxBytes)
    {
      ghost var found: Files := files;
      MoveUp();
      RotatedKeeps(found, files, maxFiles, started, maxBytes);
      files := files[0 := []];
    }

    method Rotate()
      requires Valid()
      modifies this
      ensures Valid() && files[0] == [] && started == old(started) + 1
      ensures ShiftedUp(old(files), files, maxFiles)
      ensures dropped == old(dropped) + Content(old(files), maxFiles)
      ensures Written() == old(Written())
    {
      ghost var found: Files := files;
      StartLive();
      DroppedJoins(dropped, found, files, maxFiles);
      size := 0;
      dropped := dropped + Content(found, maxFiles);
      started := started + 1;
    }

    method Append(line: Line)
      requires Valid() && !Outgrows(size, line)
      modifies this`files, this`size
      ensures Valid() && Written() == old(Written()) + [line]
      ensures forall k: nat :: GapFree(old(files), k, maxFiles) ==> GapFree(files, k, maxFiles)
    {
      BytesGrow(files[0], line);
      JoinedAppends(files, maxFiles, line);
      AppendKeepsSized(files, line, started, maxFiles, maxBytes);
      forall k: nat | GapFree(files, k, maxFiles)
        ensures GapFree(Appended(files, line), k, maxFiles)
      {
        AppendKeepsGapFree(files, line, k, maxFiles);
      }
      files := files[0 := files[0] + [line]];
      size := size + |line| + 1;
    }

    /**
     The files keep holding a suffix of everything written, numbers stay gap-free, and no
     file that this process started takes a second line that outgrows the limit.
     */
    method WriteLine(line: Line)
      requires Valid()
      modifies this
      ensures Valid() && Written() == old(Written()) + [line]
      ensures started == old(started) + if Outgrows(old(size), line) then 1 else 0
      ensures dropped == old(dropped) + if started > old(started) then Content(old(files), maxFiles) else []
      ensures forall k: nat :: GapFree(old(files), k, maxFiles) ==> GapFree(files, if started > old(started) then Later(k, maxFiles) else k, maxFiles)
    {
      if Outgrows(size, line) {
        ghost var found := files;
        Rotate();
        forall k: nat | GapFree(found, k, maxFiles)
          ensures GapFree(files, Later(k, maxFiles), maxFiles)
        {
          GapFreeShifts(found, files, k, maxFiles);
        }
      }
      Append(line);
    }
  }
}
