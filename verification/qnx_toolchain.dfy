/** The QNX toolchain policy object: what depends only on the target and the
    driver state, not on one link step. Its library search path order, its
    default-policy answers, its system include resolution and its sanitizer
    query. */
module QnxToolChain {
  import opened PathStrings
  import opened Options

  /** The driver's link-time-optimisation mode; `isUsingLTO()` is "not none",
      so an unknown mode counts as LTO (and is not thin). */
  datatype LTOKind = LTONone | LTOFull | LTOThin | LTOUnknown

  /** The parts of the driver state the QNX code reads. */
  datatype Driver = Driver(
    sysroot: string,
    resourceDir: string,
    cccIsCXX: bool,      // the driver runs as clang++
    flangMode: bool,     // the driver runs as the Fortran driver
    ltoMode: LTOKind)
  {
    predicate IsUsingLTO() {
      ltoMode != LTONone
    }
  }

  /** Outcome of the GCC installation probe: whether one was found and where. */
  datatype GCCInstallation = GCCInstallation(valid: bool, installPath: string)

  datatype ToolChain = ToolChain(driver: Driver, filePaths: seq<string>)

  /** The QNX constructor: after the paths the generic ELF base registered,
      `<sysroot>/usr/lib` is searched, then the GCC install path if the probe
      found one. */
  function NewQnxToolChain(d: Driver, inherited: seq<string>, gcc: GCCInstallation): (tc: ToolChain)
    ensures tc.driver == d
    ensures |tc.filePaths| == |inherited| + 1 + (if gcc.valid then 1 else 0)
    ensures tc.filePaths[..|inherited|] == inherited
    ensures tc.filePaths[|inherited|] == d.sysroot + "/usr/lib"
    ensures gcc.valid ==> tc.filePaths[|inherited| + 1] == gcc.installPath
    ensures gcc.installPath in tc.filePaths ==> gcc.valid || gcc.installPath in inherited + [d.sysroot + "/usr/lib"]
  {
    var paths := inherited + [d.sysroot + "/usr/lib"];
    ToolChain(d, if gcc.valid then paths + [gcc.installPath] else paths)
  }

  // ---- Default policy answers -------------------------------------------

  datatype CXXStdlibType = Libcxx | Libstdcxx
  datatype UnwindLibType = UnwindNone | CompilerRT | Libgcc

  /** Math functions do not set errno unless asked to. */
  function IsMathErrnoDefault(): (r: bool)
    ensures !r
  {
    false
  }

  function IsPICDefault(): (r: bool)
    ensures r
  {
    true
  }

  /** PIE is the default whatever flags are given. */
  function IsPIEDefault(args: ArgList): (r: bool)
    ensures r
  {
    true
  }

  function HasNativeLLVMSupport(): (r: bool)
    ensures r
  {
    true
  }

  function DefaultLinker(): (r: string)
    ensures r == "ld"
  {
    "ld"
  }

  function DefaultCXXStdlibType(): (r: CXXStdlibType)
    ensures r == Libcxx
  {
    Libcxx
  }

  function DefaultUnwindLibType(): (r: UnwindLibType)
    ensures r == Libgcc
  {
    Libgcc
  }

  // ---- Include resolution ------------------------------------------------

  /** A system include directory as handed to the compiler proper: a plain
      system include, or one whose headers are treated as `extern "C"`. */
  datatype IncludeDir = System(path: string) | ExternC(path: string)

  /** `<resource>/include`, the compiler's builtin headers. */
  function BuiltinIncludeDir(d: Driver): IncludeDir {
    System(PathAppend(d.resourceDir, "include"))
  }

  /** Absolute entries of the configure-time list are re-rooted under the sysroot. */
  function ConfiguredPrefix(sysroot: string, dir: string): string {
    if IsAbsolute(dir) then sysroot else ""
  }

  /** Every entry of the configure-time `C_INCLUDE_DIRS` list, split on ':',
      as an extern-C include. */
  function ConfiguredIncludeDirs(sysroot: string, cIncludeDirs: string): (r: seq<IncludeDir>)
    ensures |r| == |Split(cIncludeDirs, ':')|
    ensures forall i :: 0 <= i < |r| ==> r[i].ExternC?
    ensures forall i :: 0 <= i < |r| ==> var dir := Split(cIncludeDirs, ':')[i];
      (IsAbsolute(dir) ==> r[i].path == sysroot + dir) && (!IsAbsolute(dir) ==> r[i].path == dir)
  {
    var parts := Split(cIncludeDirs, ':');
    seq(|parts|, i requires 0 <= i < |parts| => ExternC(ConfiguredPrefix(sysroot, parts[i]) + parts[i]))
  }

  /** The shims directory first, so that its headers override the standard ones. */
  function DefaultIncludeDirs(sysroot: string): seq<IncludeDir> {
    [System(sysroot + "/usr/include/shims"), System(sysroot + "/usr/include")]
  }

  /** The system include directories for one compilation. */
  function ClangSystemIncludes(d: Driver, cIncludeDirs: string, args: ArgList): (r: seq<IncludeDir>)
    ensures args.nostdinc ==> r == []
    ensures !args.nostdinc && !args.nobuiltininc ==> |r| > 0 && r[0] == BuiltinIncludeDir(d)
    ensures !args.nostdinc && args.nostdlibinc ==> |r| == (if args.nobuiltininc then 0 else 1)
    ensures !args.nostdinc && !args.nostdlibinc && cIncludeDirs != "" ==>
      var n := if args.nobuiltininc then 0 else 1;
      |r| == n + Count(cIncludeDirs, ':') + 1
      && (forall i :: n <= i < |r| ==> r[i].ExternC?)
      && System(d.sysroot + "/usr/include/shims") !in r[n..]
      && r[n..] == ConfiguredIncludeDirs(d.sysroot, cIncludeDirs)
      && (forall i :: 0 <= i < |Split(cIncludeDirs, ':')| ==>
            var dir := Split(cIncludeDirs, ':')[i];
            r[n + i] == ExternC(if IsAbsolute(dir) then d.sysroot + dir else dir))
    ensures !args.nostdinc && !args.nostdlibinc && cIncludeDirs == "" ==>
      var n := if args.nobuiltininc then 0 else 1;
      |r| == n + 2
      && r[n..] == [System(d.sysroot + "/usr/include/shims"), System(d.sysroot + "/usr/include")]
  {
    if args.nostdinc then []
    else
      var builtin := if args.nobuiltininc then [] else [BuiltinIncludeDir(d)];
      if args.nostdlibinc then builtin
      else if cIncludeDirs != "" then
        SplitCount(cIncludeDirs, ':');
        builtin + ConfiguredIncludeDirs(d.sysroot, cIncludeDirs)
      else builtin + DefaultIncludeDirs(d.sysroot)
  }

  /** The configured entry an emitted path came from, when the sysroot is empty
      or absolute and not "/": an absolute path lost its sysroot prefix, a
      relative one had none. */
  function ConfiguredEntry(sysroot: string, path: string): string
    requires IsAbsolute(path) ==> |sysroot| <= |path|
  {
    if IsAbsolute(path) then path[|sysroot|..] else path
  }

  /** With an empty sysroot, or an absolute one other than "/", no
      information is lost: stripping the sysroot from the emitted absolute
      directories and joining them with ':' gives back the configure-time
      list. (Under "/" the entry `/usr` and the entry `//usr` both come out
      as `//usr`.) */
  lemma ConfiguredIncludesRoundTrip(sysroot: string, cIncludeDirs: string)
    requires sysroot == "" || (IsAbsolute(sysroot) && |sysroot| >= 2)
    ensures var r := ConfiguredIncludeDirs(sysroot, cIncludeDirs);
      var recovered := seq(|r|, i requires 0 <= i < |r| => ConfiguredEntry(sysroot, r[i].path));
      (forall i :: 0 <= i < |r| ==> IsAbsolute(r[i].path) ==> |sysroot| <= |r[i].path|)
      && |recovered| > 0
      && Join(recovered, ':') == cIncludeDirs
  {
    var parts := Split(cIncludeDirs, ':');
    var r := ConfiguredIncludeDirs(sysroot, cIncludeDirs);
    forall i | 0 <= i < |r|
      ensures IsAbsolute(r[i].path) <==> IsAbsolute(parts[i])
      ensures IsAbsolute(r[i].path) ==> |sysroot| <= |r[i].path| && r[i].path[|sysroot|..] == parts[i]
      ensures ConfiguredEntry(sysroot, r[i].path) == parts[i]
    {
      if IsAbsolute(parts[i]) {
        assert r[i].path == sysroot + parts[i];
        if sysroot != "" {
          AbsoluteUnderSysroot(sysroot, parts[i]);
        } else {
          assert r[i].path == parts[i];
        }
      } else {
        assert r[i].path == parts[i];
      }
    }
    var recovered := seq(|r|, i requires 0 <= i < |r| => ConfiguredEntry(sysroot, r[i].path));
    assert recovered == parts;
  }

  /** The libc++ headers; the flags play no part. */
  function LibCxxIncludes(d: Driver, args: ArgList): (r: seq<IncludeDir>)
    ensures |r| == 1 && r[0].System?
    ensures |r[0].path| == |d.sysroot| + |"/usr/include/c++/v1"|
    ensures r[0].path[..|d.sysroot|] == d.sysroot
    ensures r[0].path[|d.sysroot|..] == "/usr/include/c++/v1"
  {
    [System(d.sysroot + "/usr/include/c++/v1")]
  }

  /** The libc++ directory sits inside the `usr/include` directory that the
      default system include resolution emits last. */
  lemma LibCxxUnderSystemInclude(d: Driver, args: ArgList)
    requires !args.nostdinc && !args.nostdlibinc
    ensures var sys := ClangSystemIncludes(d, "", args);
      LibCxxIncludes(d, args)[0].path == sys[|sys| - 1].path + "/c++/v1"
  {
  }

  // ---- Sanitizers ----------------------------------------------------------

  datatype Sanitizer = Address | PointerCompare | PointerSubtract | Memory | Leak | Thread | Other(name: string)

  /** The six kinds the QNX code adds to the base toolchain's mask. */
  const QnxSanitizers: set<Sanitizer> := {Address, PointerCompare, PointerSubtract, Memory, Leak, Thread}

  /** The mask the QNX code computes: the base toolchain's kinds plus its own six. */
  function SanitizerUnion(base: set<Sanitizer>): (res: set<Sanitizer>)
    ensures base <= res && QnxSanitizers <= res
    ensures forall k :: k in res ==> k in base || k in QnxSanitizers
  {
    base + QnxSanitizers
  }

  /** The supported sanitizer set: the union is computed and then discarded,
      so nothing is reported, whatever the base toolchain supports. */
  function SupportedSanitizers(base: set<Sanitizer>): (r: set<Sanitizer>)
    ensures forall k :: k !in r
  {
    var computed := SanitizerUnion(base);
    {}
  }

  /** None of the kinds the computed union holds reaches the caller. */
  lemma SanitizerUnionDiscarded(base: set<Sanitizer>)
    ensures forall k :: k in SanitizerUnion(base) ==> k !in SupportedSanitizers(base)
    ensures Address in SanitizerUnion(base) && Address !in SupportedSanitizers(base)
  {
  }
}
