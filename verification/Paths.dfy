/** Where the backup of a file goes: the translation that captured calls use, the concatenation that the
    copier uses, and the directories made on the way there.  Strings hold no NUL character. */
module Paths {
  // ----- directory_set -----

  /** The first source root that is a string prefix of the file, or -1. */
  function FindIndex(sources: seq<string>, file: string): (i: int)
    ensures -1 <= i < |sources|
    ensures i >= 0 ==> sources[i] <= file && forall j :: 0 <= j < i ==> !(sources[j] <= file)
    ensures i == -1 ==> forall j :: 0 <= j < |sources| ==> !(sources[j] <= file)
  {
    if sources == [] then -1
    else if sources[0] <= file then 0
    else
      var i := FindIndex(sources[1..], file);
      assert i >= 0 ==> sources[1..][i] == sources[i + 1];
      assert forall j :: 0 < j < |sources| ==> sources[j] == sources[1..][j - 1];
      if i == -1 then -1 else i + 1
  }

  lemma FindIndexIs(sources: seq<string>, file: string, i: nat)
    requires i < |sources| && sources[i] <= file && forall j :: 0 <= j < i ==> !(sources[j] <= file)
    ensures FindIndex(sources, file) == i
  {
  }

  class DirectorySet {
    const count: nat
    const sources: array<string>
    const destinations: array<string>

    ghost predicate Valid() {
      count == sources.Length == destinations.Length && sources != destinations
    }

    constructor (sources: seq<string>, destinations: seq<string>)
      requires |sources| == |destinations|
      ensures Valid() && fresh(this.sources) && fresh(this.destinations)
      ensures this.sources[..] == sources && this.destinations[..] == destinations
    {
      count := |sources|;
      var s, d := new string[|sources|], new string[|sources|];
      this.sources, this.destinations := s, d;
      for i := 0 to |sources|
        invariant s[..i] == sources[..i] && d[..i] == destinations[..i]
      {
        s[i] := sources[i];
        d[i] := destinations[i];
      }
      assert sources[..|sources|] == sources && destinations[..|sources|] == destinations;
      assert s[..] == s[..|sources|] && d[..] == d[..|sources|];
    }

    method FindIndexMatchingPrefix(file: string) returns (result: int)
      requires Valid()
      ensures result == FindIndex(sources[..], file)
    {
      result := -1;
      for i := 0 to count
        invariant result == -1 && forall j :: 0 <= j < i ==> !(sources[j] <= file)
      {
        if sources[i] <= file {
          result := i;
          break;
        }
      }
      if result >= 0 {
        FindIndexIs(sources[..], file, result);
      } else {
        assert forall j :: 0 <= j < count ==> sources[..][j] == sources[j];
      }
    }

    /** The new string fills the allocated bytes exactly, with its NUL. */
    method TranslatePrefixOfRealpath(absfile: string) returns (newString: array<char>)
      requires Valid() && FindIndex(sources[..], absfile) >= 0
      ensures newString[..] == Translate(sources[..], destinations[..], absfile) + ['\0']
    {
      var index := FindIndexMatchingPrefix(absfile);
      var destination := destinations[index];
      var lenOp, lenNp, lenS := |sources[index]|, |destination|, |absfile|;
      assert sources[..][index] == sources[index] && destinations[..][index] == destination;
      var newLen := lenS - lenOp + lenNp + 1;
      newString := new char[newLen];
      for k := 0 to lenNp
        invariant newString[..k] == destination[..k]
      {
        newString[k] := destination[k];
      }
      var terminated := absfile + ['\0'];
      for k := 0 to lenS - lenOp + 1
        invariant newString[..lenNp + k] == destination + terminated[lenOp..lenOp + k]
      {
        newString[lenNp + k] := terminated[lenOp + k];
      }
      assert newString[..] == newString[..newLen];
      assert terminated[lenOp..lenOp + (lenS - lenOp + 1)] == absfile[lenOp..] + ['\0'];
      assert destination + (absfile[lenOp..] + ['\0']) == destination + absfile[lenOp..] + ['\0'];
    }
  }

  /** The backup name of a captured file. */
  function Translate(sources: seq<string>, destinations: seq<string>, absfile: string): string
    requires |sources| == |destinations| && FindIndex(sources, absfile) >= 0
  {
    var i := FindIndex(sources, absfile);
    destinations[i] + absfile[|sources[i]|..]
  }

  // ----- the copier's names -----

  predicate EndsWithSlash(a: string) {
    |a| > 0 && a[|a| - 1] == '/'
  }

  function Pathcat(a: string, b: string): (r: string)
    ensures |r| < |a| + |b| + 2    // what the copier allocates, NUL included
  {
    var b := if b != "" && b[0] == '/' then b[1..] else b;
    a + (if EndsWithSlash(a) then "" else "/") + b
  }

  /** The todo entry of a file, from the names that lead to it. */
  function Stripped(path: seq<string>): string {
    if path == [] then "" else Stripped(path[..|path| - 1]) + "/" + path[|path| - 1]
  }

  /** copy_stripped_file: the full name of an entry below a root. */
  function FullPath(root: string, path: seq<string>): string {
    if path == [] then root else Pathcat(root, Stripped(path))
  }

  lemma {:induction false} StrippedStartsWithSlash(path: seq<string>)
    requires path != []
    ensures Stripped(path) != "" && Stripped(path)[0] == '/'
    decreases |path|
  {
    if |path| > 1 {
      StrippedStartsWithSlash(path[..|path| - 1]);
    }
  }

  lemma FullPathBelowRoot(root: string, path: seq<string>)
    requires path != []
    ensures FullPath(root, path) == root + (if EndsWithSlash(root) then "" else "/") + Stripped(path)[1..]
    ensures root <= FullPath(root, path)
  {
    StrippedStartsWithSlash(path);
  }

  /** The root found for a copied file is its own exactly when no earlier root is a string prefix of its name. */
  lemma RootFoundIff(sources: seq<string>, i: nat, path: seq<string>)
    requires i < |sources|
    ensures var file := FullPath(sources[i], path);
      FindIndex(sources, file) == i <==> forall j :: 0 <= j < i ==> !(sources[j] <= file)
  {
    if path != [] {
      FullPathBelowRoot(sources[i], path);
    }
    if forall j :: 0 <= j < i ==> !(sources[j] <= FullPath(sources[i], path)) {
      FindIndexIs(sources, FullPath(sources[i], path), i);
    }
  }

  function Sep(root: string): string {
    if EndsWithSlash(root) then "" else "/"
  }

  /** A condition on two pairs of roots, of which one source is a prefix of the other: files that belong to the pair
      (s, d), but are found under the source `found`, get one name.  `below` excludes the root itself. */
  predicate RootsAgree(found: string, foundDest: string, s: string, d: string, below: bool)
    requires found <= s || s <= found
  {
    if !below then found <= s && foundDest + s[|found|..] == d
    else if |found| <= |s| then foundDest + s[|found|..] + Sep(s) == d + Sep(d)
    else foundDest == d + Sep(d) + found[|s| + |Sep(s)|..]
  }

  lemma SameTail(a: string, b: string, tail: string)
    ensures a + tail == b + tail <==> a == b
  {
    if a + tail == b + tail {
      assert |a| == |b|;
      assert a == (a + tail)[..|a|] == (b + tail)[..|b|] == b;
    }
  }

  /** The part of a file's name that the translation keeps, behind a shorter or a longer root. */
  lemma FoundShorter(found: string, foundDest: string, s: string, d: string, rest: string)
    requires found <= s
    ensures foundDest + (s + Sep(s) + rest)[|found|..] == d + Sep(d) + rest <==>
      RootsAgree(found, foundDest, s, d, true)
  {
    var kept := s[|found|..] + Sep(s);
    assert (s + Sep(s) + rest)[|found|..] == kept + rest;
    assert foundDest + (kept + rest) == foundDest + s[|found|..] + Sep(s) + rest;
    hide Sep;
    SameTail(foundDest + s[|found|..] + Sep(s), d + Sep(d), rest);
  }

  lemma FoundLonger(found: string, foundDest: string, s: string, d: string, rest: string)
    requires s < found <= s + Sep(s) + rest
    ensures foundDest + (s + Sep(s) + rest)[|found|..] == d + Sep(d) + rest <==>
      RootsAgree(found, foundDest, s, d, true)
  {
    var front, tail := found[|s| + |Sep(s)|..], (s + Sep(s) + rest)[|found|..];
    assert |s| + |Sep(s)| <= |found|;
    assert rest == (s + Sep(s) + rest)[|s| + |Sep(s)|..];
    assert rest == front + tail;
    assert d + Sep(d) + rest == d + Sep(d) + front + tail;
    hide Sep;
    SameTail(foundDest, d + Sep(d) + front, tail);
  }

  lemma RootIsFound(sources: seq<string>, i: nat, path: seq<string>)
    requires i < |sources|
    ensures var file := FullPath(sources[i], path); var j := FindIndex(sources, file);
      0 <= j <= i && sources[j] <= file && (sources[j] <= sources[i] || (path != [] && sources[i] < sources[j]))
  {
    var file := FullPath(sources[i], path);
    if path != [] {
      FullPathBelowRoot(sources[i], path);
    }
    var j := FindIndex(sources, file);
    assert sources[i] <= file;
    PrefixesCompare(sources[i], sources[j], file);
  }

  /** Captured calls and the copier use the same backup file exactly when the two pairs of roots agree: the pair the
      file belongs to, and the pair it is found under.  Its place below the root does not matter. */
  lemma SameBackupFileIff(sources: seq<string>, destinations: seq<string>, i: nat, path: seq<string>)
    requires i < |sources| == |destinations|
    ensures var file := FullPath(sources[i], path); var j := FindIndex(sources, file);
      && 0 <= j <= i && (sources[j] <= sources[i] || sources[i] <= sources[j])
      && (Translate(sources, destinations, file) == FullPath(destinations[i], path) <==>
            RootsAgree(sources[j], destinations[j], sources[i], destinations[i], path != []))
  {
    var s, d := sources[i], destinations[i];
    var file := FullPath(s, path);
    RootIsFound(sources, i, path);
    var j := FindIndex(sources, file);
    if path != [] {
      FullPathBelowRoot(s, path);
      FullPathBelowRoot(d, path);
      var rest := Stripped(path)[1..];
      assert file == s + Sep(s) + rest && FullPath(d, path) == d + Sep(d) + rest;
      hide Stripped, FullPath, Pathcat, RootsAgree, Sep;
      if sources[j] <= s {
        FoundShorter(sources[j], destinations[j], s, d, rest);
      } else {
        FoundLonger(sources[j], destinations[j], s, d, rest);
      }
    }
  }

  /** Under its own root, that is when both roots of the pair end in a slash or neither does; the root always agrees. */
  lemma OwnRootsAgreeIff(s: string, d: string, below: bool)
    ensures RootsAgree(s, d, s, d, below) <==> !below || EndsWithSlash(s) == EndsWithSlash(d)
  {
    assert s[|s|..] == "" && d + "" == d;
    if below && EndsWithSlash(s) != EndsWithSlash(d) {
      assert |d + Sep(s)| != |d + Sep(d)|;
    }
  }

  /** For roots that do not end in a slash, and of which none is a string prefix of another, every entry at
      any depth has one backup name. */
  lemma CaptureAndCopierAgree(sources: seq<string>, destinations: seq<string>, i: nat, path: seq<string>)
    requires i < |sources| == |destinations|
    requires forall j :: 0 <= j < |sources| ==> !EndsWithSlash(sources[j]) && !EndsWithSlash(destinations[j])
    requires forall j, k :: 0 <= j < |sources| && 0 <= k < |sources| && j != k ==> !(sources[j] <= sources[k])
    ensures FindIndex(sources, FullPath(sources[i], path)) == i
    ensures Translate(sources, destinations, FullPath(sources[i], path)) == FullPath(destinations[i], path)
  {
    var file := FullPath(sources[i], path);
    if path != [] {
      FullPathBelowRoot(sources[i], path);
    }
    forall j | 0 <= j < i
      ensures !(sources[j] <= file)
    {
      if sources[j] <= file {
        PrefixesCompare(sources[i], sources[j], file);
      }
    }
    RootFoundIff(sources, i, path);
    SameBackupFileIff(sources, destinations, i, path);
    OwnRootsAgreeIff(sources[i], destinations[i], path != []);
  }

  lemma PrefixesCompare(a: string, b: string, file: string)
    requires a <= file && b <= file
    ensures a <= b || b <= a
  {
    if |a| <= |b| {
      assert a == file[..|a|] == file[..|b|][..|a|];
    } else {
      assert b == file[..|b|] == file[..|a|][..|b|];
    }
  }

  /** Roots "/a" and "/ab": captured calls on "/ab/x" go to the backup of "/a". */
  lemma PrefixRootMisleads()
    ensures var sources, destinations := ["/a", "/ab"], ["/p", "/q"];
      && FullPath("/ab", ["x"]) == "/ab/x" && FullPath("/q", ["x"]) == "/q/x"
      && FindIndex(sources, "/ab/x") == 0 && Translate(sources, destinations, "/ab/x") == "/pb/x"
  {
    assert Stripped(["x"]) == "/x";
    assert "/a" <= "/ab/x";
    FindIndexIs(["/a", "/ab"], "/ab/x", 0);
    assert "/ab/x"[2..] == "b/x";
  }

  /** With destinations "/p" and "/pb" the same two roots do no harm, although the file is found under the wrong one. */
  lemma PrefixRootMayAgree()
    ensures var sources, destinations := ["/a", "/ab"], ["/p", "/pb"];
      && FindIndex(sources, FullPath("/ab", ["x"])) == 0
      && Translate(sources, destinations, FullPath("/ab", ["x"])) == FullPath("/pb", ["x"])
  {
    assert Stripped(["x"]) == "/x";
    assert "/a" <= "/ab/x";
    FindIndexIs(["/a", "/ab"], "/ab/x", 0);
    assert "/ab/x"[2..] == "b/x";
  }

  /** The root directory as source: captured calls lose the slash. */
  lemma RootSourceMisleads()
    ensures FullPath("/", ["x"]) == "/x" && FullPath("/p", ["x"]) == "/p/x" && FindIndex(["/"], "/x") == 0
    ensures Translate(["/"], ["/p"], "/x") == "/px"
  {
    assert Stripped(["x"]) == "/x";
    FindIndexIs(["/"], "/x", 0);
    assert "/x"[1..] == "x";
  }

  /** Two entries of a tree never share a name, as names hold no slash. */
  lemma {:induction false} StrippedTellsPath(p: seq<string>, q: seq<string>)
    requires Stripped(p) == Stripped(q)
    requires forall n :: n in p ==> '/' !in n
    requires forall n :: n in q ==> '/' !in n
    ensures p == q
    decreases |p|
  {
    if p == [] {
      if q != [] {
        StrippedStartsWithSlash(q);
      }
    } else if q == [] {
      StrippedStartsWithSlash(p);
    } else {
      var a, m, b, n := Stripped(p[..|p| - 1]), p[|p| - 1], Stripped(q[..|q| - 1]), q[|q| - 1];
      LastNameTells(a, m, b, n);
      StrippedTellsPath(p[..|p| - 1], q[..|q| - 1]);
      assert p == p[..|p| - 1] + [m] && q == q[..|q| - 1] + [n];
    }
  }

  lemma LastNameTells(a: string, m: string, b: string, n: string)
    requires a + "/" + m == b + "/" + n && '/' !in m && '/' !in n
    ensures a == b && m == n
  {
    var s, t := a + "/" + m, b + "/" + n;
    LastSlash(s, a, m);
    LastSlash(t, b, n);
    assert |a| == |b|;
    assert a == s[..|a|] == t[..|b|] == b;
    assert m == s[|a| + 1..] == t[|b| + 1..] == n;
  }

  lemma LastSlash(s: string, a: string, m: string)
    requires s == a + "/" + m && '/' !in m
    ensures s[|a|] == '/' && forall k :: |a| < k < |s| ==> s[k] != '/'
  {
    forall k | |a| < k < |s|
      ensures s[k] != '/'
    {
      assert s[k] == m[k - |a| - 1];
    }
  }

  // ----- create_subdirectories -----

  datatype Mkdir = Made | Exists | Fails(errnum: int)

  /** The prefixes of the path that end before a slash at index `from` or later. */
  function SlashPrefixes(path: string, from: nat): seq<string>
    decreases |path| - from
  {
    if from >= |path| then []
    else (if path[from] == '/' then [path[..from]] else []) + SlashPrefixes(path, from + 1)
  }

  lemma {:induction false} SlashPrefixesAre(path: string, from: nat)
    ensures forall p :: p in SlashPrefixes(path, from) <==>
      exists k :: from <= k < |path| && path[k] == '/' && p == path[..k]
    ensures forall i, j :: 0 <= i < j < |SlashPrefixes(path, from)| ==>
      |SlashPrefixes(path, from)[i]| < |SlashPrefixes(path, from)[j]|
    ensures forall i :: 0 <= i < |SlashPrefixes(path, from)| ==> |SlashPrefixes(path, from)[i]| >= from
    decreases |path| - from
  {
    if from < |path| {
      SlashPrefixesAre(path, from + 1);
    }
  }

  lemma SlashStep(path: string, from: nat)
    ensures from < |path| ==>
      SlashPrefixes(path, from) == (if path[from] == '/' then [path[..from]] else []) + SlashPrefixes(path, from + 1)
    ensures from >= |path| ==> SlashPrefixes(path, from) == []
  {
  }

  predicate Succeeds(answers: seq<Mkdir>) {
    forall a :: a in answers ==> !a.Fails?
  }

  /** From `from` on, to the next slash or the end of the string. */
  method ScanForSlash(directory: array<char>, from: nat, ghost path: string) returns (nextSlash: nat)
    requires directory[..] == path + ['\0'] && '\0' !in path && from <= |path|
    ensures from <= nextSlash <= |path|
    ensures (if nextSlash < |path| then path[nextSlash] == '/' else directory[nextSlash] == '\0')
    ensures directory[nextSlash] == '\0' <==> nextSlash == |path|
    ensures SlashPrefixes(path, from) == SlashPrefixes(path, nextSlash)
  {
    hide SlashPrefixes;
    nextSlash := from;
    assert forall i :: 0 <= i < |path| ==> directory[..][i] == path[i];
    assert directory[..][|path|] == '\0';
    while directory[nextSlash] != '\0'
      invariant from <= nextSlash <= |path|
      invariant SlashPrefixes(path, from) == SlashPrefixes(path, nextSlash)
      decreases |path| - nextSlash
    {
      if directory[nextSlash] == '/' {
        break;
      }
      SlashStep(path, nextSlash);
      assert [] + SlashPrefixes(path, nextSlash + 1) == SlashPrefixes(path, nextSlash + 1);
      nextSlash := nextSlash + 1;
    }
  }

  /** Calls mkdir on each prefix in turn, up to the first that fails; `scratch` is the buffer afterwards.
      The empty path would send the scan past the end of the buffer. */
  method CreateSubdirectories(path: string, answers: seq<Mkdir>) returns (r: int, calls: seq<string>,
                              scratch: array<char>)
    requires path != "" && '\0' !in path && |answers| >= |SlashPrefixes(path, 1)|
    requires forall a :: a in answers && a.Fails? ==> a.errnum != 0
    ensures calls <= SlashPrefixes(path, 1)
    ensures r == 0 ==> calls == SlashPrefixes(path, 1) && Succeeds(answers[..|calls|]) && scratch[..] == path + ['\0']
    ensures r != 0 ==> calls != [] && answers[|calls| - 1] == Fails(r) && Succeeds(answers[..|calls| - 1])
  {
    hide SlashPrefixes;
    var directory := new char[|path| + 1];
    for i := 0 to |path|
      invariant directory[..i] == path[..i]
    {
      directory[i] := path[i];
    }
    directory[|path|] := '\0';
    scratch := directory;
    var nextSlash := 1;
    r, calls := 0, [];
    assert directory[..] == path + ['\0'];
    while true
      invariant 1 <= nextSlash <= |path| && directory[..] == path + ['\0']
      invariant SlashPrefixes(path, 1) == calls + SlashPrefixes(path, nextSlash)
      invariant Succeeds(answers[..|calls|])
      decreases |path| - nextSlash
    {
      nextSlash := ScanForSlash(directory, nextSlash, path);
      SlashStep(path, nextSlash);
      if directory[nextSlash] == '\0' {
        assert calls + [] == calls;
        break;
      }
      assert calls + ([path[..nextSlash]] + SlashPrefixes(path, nextSlash + 1))
          == (calls + [path[..nextSlash]]) + SlashPrefixes(path, nextSlash + 1);
      directory[nextSlash] := '\0';
      assert directory[..nextSlash] == path[..nextSlash];
      calls := calls + [directory[..nextSlash]];
      match answers[|calls| - 1]
      case Fails(errnum) => return errnum, calls, directory;
      case _ =>
      directory[nextSlash] := '/';
      nextSlash := nextSlash + 1;
    }
  }
}
