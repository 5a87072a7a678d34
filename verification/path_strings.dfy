/** String and path helpers the QNX toolchain relies on: splitting a
    separator-delimited list the way `StringRef::split` does with empty
    pieces kept, the POSIX absolute-path test, and appending one path
    component. */
module PathStrings {

  /** The inverse of `Split`: the pieces glued back with `sep` between them. */
  function Join(parts: seq<string>, sep: char): string
    requires |parts| > 0
    decreases |parts|
  {
    if |parts| == 1 then parts[0] else parts[0] + [sep] + Join(parts[1..], sep)
  }

  /** Splits `s` at every occurrence of `sep`, keeping empty pieces
      ("a::b" gives "a", "", "b"; "" gives one empty piece). */
  function Split(s: string, sep: char): (parts: seq<string>)
    ensures |parts| > 0
    ensures Join(parts, sep) == s
    ensures forall i :: 0 <= i < |parts| ==> sep !in parts[i]
    decreases |s|
  {
    if |s| == 0 then [""]
    else
      var rest := Split(s[1..], sep);
      if s[0] == sep then
        assert ([""] + rest)[1..] == rest;
        [""] + rest
      else
        var parts := [[s[0]] + rest[0]] + rest[1..];
        assert parts[1..] == rest[1..];
        assert s == [s[0]] + s[1..];
        parts
  }

  /** Number of occurrences of `c` in `s`. */
  function Count(s: string, c: char): nat
    decreases |s|
  {
    if |s| == 0 then 0 else (if s[0] == c then 1 else 0) + Count(s[1..], c)
  }

  /** A piece without separator splits to itself. */
  lemma {:induction false} SplitWithoutSeparator(a: string, sep: char)
    requires sep !in a
    ensures Split(a, sep) == [a]
    decreases |a|
  {
    if |a| > 0 {
      assert sep !in a[1..];
      SplitWithoutSeparator(a[1..], sep);
      assert [a[0]] + a[1..] == a;
    }
  }

  /** Splitting `a + sep + b` peels `a` off the front when `a` holds no separator. */
  lemma {:induction false} SplitAfterPiece(a: string, b: string, sep: char)
    requires sep !in a
    ensures Split(a + [sep] + b, sep) == [a] + Split(b, sep)
    decreases |a|
  {
    var s := a + [sep] + b;
    if |a| == 0 {
      assert s[0] == sep && s[1..] == b;
    } else {
      assert s[0] == a[0] && s[1..] == a[1..] + [sep] + b;
      assert sep !in a[1..];
      SplitAfterPiece(a[1..], b, sep);
      assert [a[0]] + a[1..] == a;
    }
  }

  /** Split and Join are mutually inverse on lists whose pieces hold no separator. */
  lemma {:induction false} SplitJoin(parts: seq<string>, sep: char)
    requires |parts| > 0
    requires forall i :: 0 <= i < |parts| ==> sep !in parts[i]
    ensures Split(Join(parts, sep), sep) == parts
    decreases |parts|
  {
    if |parts| == 1 {
      SplitWithoutSeparator(parts[0], sep);
    } else {
      SplitJoin(parts[1..], sep);
      SplitAfterPiece(parts[0], Join(parts[1..], sep), sep);
      assert [parts[0]] + parts[1..] == parts;
    }
  }

  /** A list with n separators splits into n + 1 pieces. */
  lemma {:induction false} SplitCount(s: string, sep: char)
    ensures |Split(s, sep)| == Count(s, sep) + 1
    decreases |s|
  {
    if |s| > 0 {
      SplitCount(s[1..], sep);
    }
  }

  /** `//name` with no later '/': in the POSIX style a network root name
      and no root directory. */
  predicate IsRootNameOnly(path: string) {
    |path| > 2 && path[0] == '/' && path[1] == '/' && path[2] != '/' && '/' !in path[2..]
  }

  /** `llvm::sys::path::is_absolute` in the POSIX style: the path has a root
      directory, so it begins with '/' and is not a bare `//name`. */
  predicate IsAbsolute(path: string) {
    |path| > 0 && path[0] == '/' && !IsRootNameOnly(path)
  }

  /** Which paths are absolute: `/usr`, `//usr/include` and `///usr` are,
      `//usr` and `usr` are not. */
  lemma AbsoluteCases()
    ensures IsAbsolute("/usr") && IsAbsolute("//usr/include") && IsAbsolute("///usr") && IsAbsolute("//")
    ensures !IsAbsolute("//usr") && !IsAbsolute("usr") && !IsAbsolute("")
  {
    assert "//usr/include"[5] == '/' && "//usr/include"[5] in "//usr/include"[2..];
    assert "//usr"[2..] == "usr";
  }

  /** Prefixing an absolute path with a sysroot of at least two characters
      that is itself absolute keeps it absolute. */
  lemma AbsoluteUnderSysroot(sysroot: string, path: string)
    requires IsAbsolute(sysroot) && |sysroot| >= 2
    requires IsAbsolute(path)
    ensures IsAbsolute(sysroot + path)
  {
    var r := sysroot + path;
    assert r[0] == sysroot[0] && r[1] == sysroot[1];
    if |sysroot| > 2 && sysroot[1] == '/' && sysroot[2] != '/' {
      var k :| 2 <= k < |sysroot| && sysroot[k] == '/';
      assert r[k] == '/' && r[k] in r[2..];
    } else if |sysroot| == 2 && sysroot[1] == '/' {
      assert r[2] == path[0] == '/';
    }
  }

  /** `llvm::sys::path::append` of one component that does not start with a
      separator: a '/' is inserted unless `dir` is empty or already ends in one. */
  function PathAppend(dir: string, component: string): (r: string)
    requires component == [] || component[0] != '/'
    ensures |r| == |dir| + |component| + (if dir == [] || dir[|dir| - 1] == '/' then 0 else 1)
    ensures r[..|dir|] == dir
    ensures r[|r| - |component|..] == component
    ensures |r| > |dir| + |component| ==> r[|dir|] == '/'
  {
    if dir == [] || dir[|dir| - 1] == '/' then dir + component else dir + "/" + component
  }
}
