/**
 * Filesystem: finds a file by name under a fixed list of root directories,
 * after removing every `..` from the name, and reads its contents or its
 * modification time. The disk is a map from path to entry; `file_exists` is
 * membership and `is_file` is "the entry is a regular file".
 */
module Filesystem {

  import opened Wrappers

  datatype Entry = RegularFile(contents: string, mtime: int) | Directory

  type Disk = map<string, Entry>

  /** `FileNotFoundException`. */
  datatype FsError = FileNotFound

  /** `file_exists($path) && is_file($path)`. */
  predicate IsFile(disk: Disk, path: string)
  {
    path in disk && disk[path].RegularFile?
  }

  /** The string holds two consecutive dots. */
  predicate HasDotDot(s: string)
  {
    exists i :: 0 <= i && i + 1 < |s| && s[i] == '.' && s[i + 1] == '.'
  }

  /** Putting a character before a string without `..` makes none, unless both are dots. */
  lemma NoDotDotAfterPrepend(c: char, t: string)
    requires !HasDotDot(t)
    requires c == '.' ==> |t| == 0 || t[0] != '.'
    ensures !HasDotDot([c] + t)
  {
    var u := [c] + t;
    forall i | 0 <= i && i + 1 < |u|
      ensures !(u[i] == '.' && u[i + 1] == '.')
    {
      if i > 0 {
        assert u[i] == t[i - 1] && u[i + 1] == t[i];
      }
    }
  }

  /**
   * `str_replace('..', '', $s)`: one left-to-right pass that drops every
   * non-overlapping `..`. The result holds no `..`, and a string that does not
   * start with a dot keeps its first character.
   */
  function RemoveDotDot(s: string): (r: string)
    ensures !HasDotDot(r)
    ensures |s| > 0 && s[0] != '.' ==> |r| > 0 && r[0] == s[0]
    decreases |s|
  {
    if |s| < 2 then s
    else if s[0] == '.' && s[1] == '.' then RemoveDotDot(s[2..])
    else
      var rest := RemoveDotDot(s[1..]);
      NoDotDotAfterPrepend(s[0], rest);
      [s[0]] + rest
  }

  /** A string without `..` is left as it is. */
  lemma {:induction false} RemoveDotDotKeepsClean(s: string)
    requires !HasDotDot(s)
    ensures RemoveDotDot(s) == s
    decreases |s|
  {
    if |s| >= 2 {
      assert !(s[0] == '.' && s[1] == '.');
      assert !HasDotDot(s[1..]) by {
        forall i | 0 <= i && i + 1 < |s[1..]|
          ensures !(s[1..][i] == '.' && s[1..][i + 1] == '.')
        {
          assert s[1..][i] == s[i + 1] && s[1..][i + 1] == s[i + 2];
        }
      }
      RemoveDotDotKeepsClean(s[1..]);
      assert s == [s[0]] + s[1..];
    }
  }

  /** The string with every dot taken out. */
  function WithoutDots(s: string): string
    decreases |s|
  {
    if s == [] then [] else (if s[0] == '.' then [] else [s[0]]) + WithoutDots(s[1..])
  }

  /** Only dots are dropped, and they are dropped in pairs. */
  lemma {:induction false} RemoveDotDotDropsDotPairs(s: string)
    ensures WithoutDots(RemoveDotDot(s)) == WithoutDots(s)
    ensures |RemoveDotDot(s)| <= |s| && (|s| - |RemoveDotDot(s)|) % 2 == 0
    decreases |s|
  {
    if |s| >= 2 {
      if s[0] == '.' && s[1] == '.' {
        RemoveDotDotDropsDotPairs(s[2..]);
        assert s[1..][1..] == s[2..];
      } else {
        RemoveDotDotDropsDotPairs(s[1..]);
        assert ([s[0]] + RemoveDotDot(s[1..]))[1..] == RemoveDotDot(s[1..]);
      }
    }
  }

  /** Removing `..` a second time changes nothing. */
  lemma RemoveDotDotIdempotent(s: string)
    ensures RemoveDotDot(RemoveDotDot(s)) == RemoveDotDot(s)
  {
    RemoveDotDotKeepsClean(RemoveDotDot(s));
  }

  /** The path tried under one root: `$path.'/'.str_replace('..', '', $filename)`. */
  function Candidate(root: string, filename: string): string
  {
    root + "/" + RemoveDotDot(filename)
  }

  /** What `find` answers: the first root's candidate that is a regular file, else FileNotFound. */
  function Locate(roots: seq<string>, filename: string, disk: Disk): (r: Result<string, FsError>)
    ensures r.Ok? ==> IsFile(disk, r.value)
    decreases |roots|
  {
    if roots == [] then Err(FileNotFound)
    else if IsFile(disk, Candidate(roots[0], filename)) then Ok(Candidate(roots[0], filename))
    else Locate(roots[1..], filename, disk)
  }

  /** The first root whose candidate is a regular file is the one `find` answers. */
  lemma {:induction false} LocateFirstMatch(roots: seq<string>, filename: string, disk: Disk, i: int)
    requires 0 <= i < |roots| && IsFile(disk, Candidate(roots[i], filename))
    requires forall j :: 0 <= j < i ==> !IsFile(disk, Candidate(roots[j], filename))
    ensures Locate(roots, filename, disk) == Ok(Candidate(roots[i], filename))
    decreases |roots|
  {
    if i > 0 {
      assert !IsFile(disk, Candidate(roots[0], filename));
      forall j | 0 <= j < i - 1
        ensures !IsFile(disk, Candidate(roots[1..][j], filename))
      {
        assert roots[1..][j] == roots[j + 1];
      }
      LocateFirstMatch(roots[1..], filename, disk, i - 1);
    }
  }

  /**
   * A found path is the candidate of some root, is a regular file, and no
   * earlier root's candidate is; in particular it starts with that root and `/`.
   */
  lemma {:induction false} LocateFound(roots: seq<string>, filename: string, disk: Disk)
    requires Locate(roots, filename, disk).Ok?
    ensures exists i :: 0 <= i < |roots|
              && Locate(roots, filename, disk).value == Candidate(roots[i], filename)
              && IsFile(disk, Candidate(roots[i], filename))
              && (forall j :: 0 <= j < i ==> !IsFile(disk, Candidate(roots[j], filename)))
    decreases |roots|
  {
    if !IsFile(disk, Candidate(roots[0], filename)) {
      LocateFound(roots[1..], filename, disk);
      var i :| 0 <= i < |roots[1..]|
              && Locate(roots[1..], filename, disk).value == Candidate(roots[1..][i], filename)
              && IsFile(disk, Candidate(roots[1..][i], filename))
              && (forall j :: 0 <= j < i ==> !IsFile(disk, Candidate(roots[1..][j], filename)));
      assert roots[1..][i] == roots[i + 1];
      forall j | 0 <= j < i + 1
        ensures !IsFile(disk, Candidate(roots[j], filename))
      {
        if j > 0 {
          assert roots[j] == roots[1..][j - 1];
        }
      }
    } else {
      assert Locate(roots, filename, disk).value == Candidate(roots[0], filename);
    }
  }

  /** `find` throws exactly when no root's candidate is a regular file (always, with no roots). */
  lemma {:induction false} LocateNotFound(roots: seq<string>, filename: string, disk: Disk)
    ensures Locate(roots, filename, disk).Err?
        <==> forall i :: 0 <= i < |roots| ==> !IsFile(disk, Candidate(roots[i], filename))
    decreases |roots|
  {
    if roots != [] {
      LocateNotFound(roots[1..], filename, disk);
      if forall i :: 0 <= i < |roots[1..]| ==> !IsFile(disk, Candidate(roots[1..][i], filename)) {
        forall i | 1 <= i < |roots|
          ensures !IsFile(disk, Candidate(roots[i], filename))
        {
          assert roots[i] == roots[1..][i - 1];
        }
      } else {
        var k :| 0 <= k < |roots[1..]| && IsFile(disk, Candidate(roots[1..][k], filename));
        assert roots[1..][k] == roots[k + 1];
      }
    }
  }

  /** Every path `find` answers starts with a configured root followed by `/`. */
  lemma LocateUnderRoot(roots: seq<string>, filename: string, disk: Disk)
    requires Locate(roots, filename, disk).Ok?
    ensures exists i :: 0 <= i < |roots| && roots[i] + "/" <= Locate(roots, filename, disk).value
  {
    LocateFound(roots, filename, disk);
    var i :| 0 <= i < |roots| && Locate(roots, filename, disk).value == Candidate(roots[i], filename);
    assert Candidate(roots[i], filename) == (roots[i] + "/") + RemoveDotDot(filename);
  }

  class Filesystem {
    /** The directories searched, in order; fixed at construction. */
    const paths: seq<string>

    constructor (paths: seq<string>)
      ensures this.paths == paths
    {
      this.paths := paths;
    }

    /** `find`: tries each root in order and answers the first candidate that is a regular file. */
    method Find(disk: Disk, filename: string) returns (r: Result<string, FsError>)
      ensures r == Locate(paths, filename, disk)
    {
      var i := 0;
      while i < |paths|
        invariant 0 <= i <= |paths|
        invariant Locate(paths, filename, disk) == Locate(paths[i..], filename, disk)
      {
        assert paths[i..][1..] == paths[i + 1..];
        var imagePath := paths[i] + "/" + RemoveDotDot(filename);
        if IsFile(disk, imagePath) {
          return Ok(imagePath);
        }
        i := i + 1;
      }
      return Err(FileNotFound);
    }

    /** `get`: the contents of the file `find` answers, or its FileNotFound. */
    method Get(disk: Disk, path: string) returns (r: Result<string, FsError>)
      ensures Locate(paths, path, disk).Ok? ==> r == Ok(disk[Locate(paths, path, disk).value].contents)
      ensures Locate(paths, path, disk).Err? ==> r == Err(Locate(paths, path, disk).error)
    {
      var found := Find(disk, path);
      if found.Err? {
        return Err(found.error);
      }
      return Ok(disk[found.value].contents);
    }

    /** `lastModified`: the modification time of the file `find` answers, or its FileNotFound. */
    method LastModified(disk: Disk, path: string) returns (r: Result<int, FsError>)
      ensures Locate(paths, path, disk).Ok? ==> r == Ok(disk[Locate(paths, path, disk).value].mtime)
      ensures Locate(paths, path, disk).Err? ==> r == Err(Locate(paths, path, disk).error)
    {
      var found := Find(disk, path);
      if found.Err? {
        return Err(found.error);
      }
      return Ok(disk[found.value].mtime);
    }
  }
}
