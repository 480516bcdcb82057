/** `_parse_numstat_z` (git_ops/pull_request.py) against a printer of
    `git apply --numstat -z` records. */
module Numstat {

  const NUL: char := '\0'
  const TAB: char := '\t'

  /** `str.split(c)`: one part more than there are separators. */
  function Split(s: string, c: char): (parts: seq<string>)
    ensures |parts| >= 1
    ensures |parts| == 1 <==> c !in s
  {
    if s == "" then [""]
    else
      var rest := Split(s[1..], c);
      if s[0] == c then [""] + rest else [[s[0]] + rest[0]] + rest[1..]
  }

  function NonEmpty(parts: seq<string>): seq<string> {
    if parts == [] then []
    else (if parts[0] != "" then [parts[0]] else []) + NonEmpty(parts[1..])
  }

  function Least(a: nat, b: nat): nat {
    if a < b then a else b
  }

  /** The paths in a list of NUL-separated parts. */
  function Paths(parts: seq<string>): seq<string> {
    if parts == [] then []
    else
      var fields := Split(parts[0], TAB);
      if |fields| == 3 && fields[2] != "" then [fields[2]] + Paths(parts[1..])
      else if |fields| == 3 then
        var end := Least(3, |parts|);
        NonEmpty(parts[1..end]) + Paths(parts[end..])
      else Paths(parts[1..])
  }

  method KeepNonEmpty(parts: seq<string>) returns (kept: seq<string>)
    ensures kept == NonEmpty(parts)
  {
    kept := [];
    var k := 0;
    while k < |parts|
      invariant 0 <= k <= |parts|
      invariant NonEmpty(parts) == kept + NonEmpty(parts[k..])
    {
      assert parts[k..] == [parts[k]] + parts[k + 1..];
      if parts[k] != "" {
        kept := kept + [parts[k]];
      }
      k := k + 1;
    }
  }

  /** One turn of the loop, by index; an index past the end has no paths left. */
  lemma PathsFrom(parts: seq<string>, i: nat)
    requires i < |parts|
    ensures var fields := Split(parts[i], TAB);
            var end := Least(i + 3, |parts|);
            Paths(parts[i..]) ==
              if |fields| == 3 && fields[2] != "" then [fields[2]] + Paths(parts[i + 1..])
              else if |fields| == 3 then NonEmpty(parts[i + 1..end]) + Paths(parts[end..])
              else Paths(parts[i + 1..])
  {
    var rest := parts[i..];
    assert rest[1..] == parts[i + 1..];
    assert rest[1..Least(3, |rest|)] == parts[i + 1..Least(i + 3, |parts|)];
    assert rest[Least(3, |rest|)..] == parts[Least(i + 3, |parts|)..];
  }

  method ParseNumstatZ(out: string) returns (paths: seq<string>)
    ensures paths == Paths(Split(out, NUL))
  {
    var parts := Split(out, NUL);
    paths := [];
    var i := 0;
    assert parts[0..] == parts;
    while i < |parts|
      invariant Paths(parts) == paths + Paths(parts[Least(i, |parts|)..])
      decreases |parts| - i
    {
      PathsFrom(parts, i);
      var fields := Split(parts[i], TAB);
      if |fields| == 3 && fields[2] != "" {
        paths := paths + [fields[2]];
        i := i + 1;
      } else if |fields| == 3 {
        var more := KeepNonEmpty(parts[i + 1..Least(i + 3, |parts|)]);
        paths := paths + more;
        i := i + 3;
      } else {
        i := i + 1;
      }
    }
  }

  // ------------------------------------------------------------- the printer

  /** One record: line counts (or `-`), then a path, or an empty one followed
      by the two paths of a rename. */
  datatype Record =
    | Ordinary(added: string, deleted: string, path: string)
    | Rename(added: string, deleted: string, source: string, target: string)

  function PrintRecord(r: Record): string {
    match r
    case Ordinary(added, deleted, path) => added + [TAB] + deleted + [TAB] + path + [NUL]
    case Rename(added, deleted, source, target) =>
      added + [TAB] + deleted + [TAB] + [NUL] + source + [NUL] + target + [NUL]
  }

  function Printed(rs: seq<Record>): string {
    if rs == [] then "" else PrintRecord(rs[0]) + Printed(rs[1..])
  }

  function RecordPaths(r: Record): seq<string> {
    match r
    case Ordinary(_, _, path) => [path]
    case Rename(_, _, source, target) => [source, target]
  }

  function AllPaths(rs: seq<Record>): seq<string> {
    if rs == [] then [] else RecordPaths(rs[0]) + AllPaths(rs[1..])
  }

  predicate Plain(text: string) {
    NUL !in text && TAB !in text
  }

  /** What `-z` guarantees: counts are plain, paths are non-empty and NUL-free. */
  predicate WellFormed(r: Record) {
    && Plain(r.added) && Plain(r.deleted)
    && (forall p <- RecordPaths(r) :: p != "" && NUL !in p)
  }

  predicate Kept(r: Record) {
    r.Ordinary? ==> TAB !in r.path
  }

  /** The paths of the records that are kept. */
  function KeptPaths(rs: seq<Record>): seq<string> {
    if rs == [] then [] else (if Kept(rs[0]) then RecordPaths(rs[0]) else []) + KeptPaths(rs[1..])
  }

  // ------------------------------------------------------------ the inversion

  lemma {:induction false} SplitAt(a: string, c: char, b: string)
    requires c !in a
    ensures Split(a + [c] + b, c) == [a] + Split(b, c)
  {
    if a == "" {
      assert ("" + [c] + b)[1..] == b;
    } else {
      SplitAt(a[1..], c, b);
      assert (a + [c] + b)[1..] == a[1..] + [c] + b;
      assert a == [a[0]] + a[1..];
    }
  }

  lemma {:induction false} SplitWhole(a: string, c: char)
    requires c !in a
    ensures Split(a, c) == [a]
  {
    if a != "" {
      SplitWhole(a[1..], c);
      assert a == [a[0]] + a[1..];
    }
  }

  /** A record's first line has three fields exactly when what follows the counts has no TAB. */
  lemma Fields(added: string, deleted: string, path: string)
    requires TAB !in added && TAB !in deleted
    ensures var fields := Split(added + [TAB] + deleted + [TAB] + path, TAB);
            && (|fields| == 3 <==> TAB !in path)
            && (|fields| == 3 ==> fields[2] == path)
  {
    assert added + [TAB] + deleted + [TAB] + path == added + [TAB] + (deleted + [TAB] + path);
    SplitAt(added, TAB, deleted + [TAB] + path);
    SplitAt(deleted, TAB, path);
    if TAB !in path { SplitWhole(path, TAB); }
  }

  lemma OrdinaryParts(r: Record, rest: string)
    requires WellFormed(r) && r.Ordinary?
    ensures Paths(Split(PrintRecord(r) + rest, NUL)) == (if Kept(r) then [r.path] else []) + Paths(Split(rest, NUL))
  {
    var line := r.added + [TAB] + r.deleted + [TAB] + r.path;
    assert r.path in RecordPaths(r);
    assert PrintRecord(r) + rest == line + [NUL] + rest;
    SplitAt(line, NUL, rest);
    Fields(r.added, r.deleted, r.path);
    assert ([line] + Split(rest, NUL))[1..] == Split(rest, NUL);
  }

  lemma ThreeParts(a: string, b: string, c: string, rest: string)
    requires NUL !in a && NUL !in b && NUL !in c
    ensures Split(a + [NUL] + (b + [NUL] + (c + [NUL] + rest)), NUL) == [a, b, c] + Split(rest, NUL)
  {
    SplitAt(a, NUL, b + [NUL] + (c + [NUL] + rest));
    SplitAt(b, NUL, c + [NUL] + rest);
    SplitAt(c, NUL, rest);
    assert [a] + ([b] + ([c] + Split(rest, NUL))) == [a, b, c] + Split(rest, NUL);
  }

  lemma RenameParts(r: Record, rest: string)
    requires WellFormed(r) && r.Rename?
    ensures Paths(Split(PrintRecord(r) + rest, NUL)) == [r.source, r.target] + Paths(Split(rest, NUL))
  {
    var line := r.added + [TAB] + r.deleted + [TAB];
    assert r.source in RecordPaths(r) && r.target in RecordPaths(r);
    assert PrintRecord(r) + rest == line + [NUL] + (r.source + [NUL] + (r.target + [NUL] + rest));
    ThreeParts(line, r.source, r.target, rest);
    Fields(r.added, r.deleted, "");
    assert line + "" == line;
    RenamePaths(line, r.source, r.target, Split(rest, NUL));
  }

  lemma RenamePaths(line: string, source: string, target: string, rest: seq<string>)
    requires source != "" && target != ""
    requires var fields := Split(line, TAB); |fields| == 3 && fields[2] == ""
    ensures Paths([line, source, target] + rest) == [source, target] + Paths(rest)
  {
    var parts := [line, source, target] + rest;
    assert parts[1..3] == [source, target] && parts[3..] == rest;
    TwoPaths(source, target);
  }

  lemma TwoPaths(p: string, q: string)
    requires p != "" && q != ""
    ensures NonEmpty([p, q]) == [p, q]
  {
    assert [p, q][1..] == [q] && [q][1..] == [];
    assert NonEmpty([q]) == [q];
  }

  lemma {:induction false} ParsesTheKept(rs: seq<Record>)
    requires forall r <- rs :: WellFormed(r)
    ensures Paths(Split(Printed(rs), NUL)) == KeptPaths(rs)
  {
    if rs == [] {
      assert Split("", NUL) == [""] && Split("", TAB) == [""];
    } else {
      ParsesTheKept(rs[1..]);
      if rs[0].Ordinary? {
        OrdinaryParts(rs[0], Printed(rs[1..]));
      } else {
        RenameParts(rs[0], Printed(rs[1..]));
      }
    }
  }

  lemma {:induction false} KeptIsAll(rs: seq<Record>)
    ensures |KeptPaths(rs)| <= |AllPaths(rs)|
    ensures KeptPaths(rs) == AllPaths(rs) <==> forall r <- rs :: Kept(r)
  {
    if rs != [] {
      KeptIsAll(rs[1..]);
      assert rs == [rs[0]] + rs[1..];
      if Kept(rs[0]) {
        var n := |RecordPaths(rs[0])|;
        assert KeptPaths(rs)[n..] == KeptPaths(rs[1..]) && AllPaths(rs)[n..] == AllPaths(rs[1..]);
      }
    }
  }

  /** The parser inverts the printer, every path in order and both for a
      rename, exactly for the lists whose ordinary paths hold no TAB; a record
      with one is dropped. */
  lemma ParseInvertsPrintIff(rs: seq<Record>)
    requires forall r <- rs :: WellFormed(r)
    ensures Paths(Split(Printed(rs), NUL)) == AllPaths(rs) <==> forall r <- rs :: r.Ordinary? ==> TAB !in r.path
  {
    ParsesTheKept(rs);
    KeptIsAll(rs);
    assert forall r <- rs :: Kept(r) <==> (r.Ordinary? ==> TAB !in r.path);
  }
}
