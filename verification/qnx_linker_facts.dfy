/** What the QNX link command promises about membership and relative order
    of its arguments. A statement that a token occurs "exactly when"
    something holds needs that one token to enter the command only through
    the QNX code's own pushes; `Apart` states this for a literal flag and
    `CrtApart` for the start and end files. Positional statements need
    neither. */
module QnxLinkerFacts {
  import opened Options
  import opened QnxToolChain
  import opened QnxLinker
  import opened SeqOrder

  /** Every token the QNX link step spells out itself. */
  const Literals: set<string> :=
    {"-pie", "--warn-shared-textrel", "-zrelro", "-znow", "--eh-frame-hdr", "-z", "stack-size=8388608",
     "-Bstatic", "-shared", "-dynamic-linker", DynamicLoader, "-o"}
    + DefaultLibNames

  /** The resolved start and end files, in the order crt1, mcrt1, crti,
      crtbegin, crtend, crtn. */
  function CrtPaths(c: Collaborators): seq<string> {
    [c.getFilePath("crt1.o"), c.getFilePath("mcrt1.o"), c.getFilePath("crti.o"),
     c.getFilePath("crtbegin.o"), c.getFilePath("crtend.o"), c.getFilePath("crtn.o")]
  }

  /** What the helpers called inside the default-library block splice into
      this link: the OpenMP runtime for the flag it is told, the C++ standard
      library when it is linked, and the Fortran runtime. */
  function LibHelperArgs(d: Driver, args: ArgList, c: Collaborators): seq<string> {
    if OmitDefaultLibs(args) then []
    else
      c.openmpRuntime(args.staticOpenmp && !args.isStatic)
      + (if d.cccIsCXX && c.shouldLinkCxxStdlib then c.cxxStdlibArgs else [])
      + FortranArgs(d, args, c)
  }

  /** Everything the collaborators splice into this link: each helper's
      output for the flag it is actually told, and only where it is called. */
  function SplicedArgs(d: Driver, args: ArgList, c: Collaborators): seq<string> {
    c.searchArgs + c.filePathLibArgs + LtoArgs(d, c) + c.compressDebugArgs + c.linkerInputs
    + LibHelperArgs(d, args, c) + c.profileRTLibs
  }

  /** No collaborator splices `tok` into this link and it is not the output name. */
  predicate NotSpliced(d: Driver, args: ArgList, out: InputInfo, c: Collaborators, tok: string) {
    tok !in SplicedArgs(d, args, c) && (out.Filename? ==> out.name != tok)
  }

  /** A flag the QNX code writes reaches this link's command only through
      its own pushes: no collaborator splices it in, no start or end file and
      not the output name is that flag. A user `-lm` among the linker inputs,
      for example, makes `Apart(d, args, out, c, "-lm")` false and leaves
      `Apart(d, args, out, c, "-lc")` alone. */
  predicate Apart(d: Driver, args: ArgList, out: InputInfo, c: Collaborators, tok: string) {
    NotSpliced(d, args, out, c, tok) && tok !in CrtPaths(c)
  }

  /** The six start and end files resolve to distinct paths, and none of
      them is a literal flag, the sysroot argument, an argument spliced into
      this link or the output name. */
  predicate CrtApart(d: Driver, args: ArgList, out: InputInfo, c: Collaborators) {
    && (forall i, j :: 0 <= i < j < |CrtPaths(c)| ==> CrtPaths(c)[i] != CrtPaths(c)[j])
    && (forall p :: p in CrtPaths(c) ==> NotSpliced(d, args, out, c, p) && p !in Literals && p != SysrootArg(d))
  }

  /** The sysroot argument never coincides with a literal flag. */
  lemma SysrootArgNotLiteral(d: Driver)
    ensures SysrootArg(d) !in Literals
  {
    var s := SysrootArg(d);
    assert |s| >= 10 && s[0] == '-' && s[1] == '-' && s[2] == 's';
  }

  /** A token no collaborator splices into this link is in none of the
      outputs of the helpers it calls. */
  lemma OwnTokenSeparated(d: Driver, args: ArgList, out: InputInfo, c: Collaborators, tok: string)
    requires NotSpliced(d, args, out, c, tok)
    ensures tok !in c.searchArgs && tok !in c.filePathLibArgs && tok !in c.compressDebugArgs
    ensures tok !in c.linkerInputs && tok !in c.profileRTLibs && tok !in LtoArgs(d, c)
    ensures !OmitDefaultLibs(args) ==>
      && tok !in c.openmpRuntime(args.staticOpenmp && !args.isStatic)
      && (d.cccIsCXX && c.shouldLinkCxxStdlib ==> tok !in c.cxxStdlibArgs)
      && tok !in FortranArgs(d, args, c)
    ensures out.Filename? ==> out.name != tok
  {
    assert tok !in SplicedArgs(d, args, c);
  }

  /** A flag kept apart is none of the start or end files. */
  lemma LiteralNotCrt(d: Driver, args: ArgList, out: InputInfo, c: Collaborators, tok: string)
    requires Apart(d, args, out, c, tok)
    ensures c.getFilePath("crt1.o") != tok && c.getFilePath("mcrt1.o") != tok
    ensures c.getFilePath("crti.o") != tok && c.getFilePath("crtbegin.o") != tok
    ensures c.getFilePath("crtend.o") != tok && c.getFilePath("crtn.o") != tok
  {
    var ps := CrtPaths(c);
    assert ps[0] in ps && ps[1] in ps && ps[2] in ps && ps[3] in ps && ps[4] in ps && ps[5] in ps;
  }

  /** The default libraries without what the collaborators splice in. */
  function OwnLibs(d: Driver, args: ArgList, c: Collaborators): seq<string> {
    if OmitDefaultLibs(args) then []
    else
      ["-lc", "-lm", "-lregex", if args.isStatic then "-lgcc" else "-lgcc_s"]
      + (if d.cccIsCXX && c.shouldLinkCxxStdlib && args.isStatic then ["-llocale", "-lcatalog"] else [])
      + ["-lgcc_eh"]
  }

  /** The link command with everything a collaborator or the output name
      contributes removed: what remains is the QNX code's own tokens. */
  function OwnView(d: Driver, args: ArgList, out: InputInfo, c: Collaborators): seq<string> {
    LeadArgs(d, args) + HardeningArgs + ModeArgs(args) + (if out.Filename? then ["-o"] else [])
    + StartFiles(args, c) + OwnLibs(d, args, c) + EndFiles(args, c)
  }

  /** The part of the head the QNX code writes itself. */
  function OwnHead(d: Driver, args: ArgList, out: InputInfo, c: Collaborators): seq<string> {
    LeadArgs(d, args) + HardeningArgs + ModeArgs(args) + (if out.Filename? then ["-o"] else [])
    + StartFiles(args, c)
  }

  /** A token no collaborator splices in occurs in the head exactly when it
      occurs in its own part. */
  lemma OwnTokenInHead(d: Driver, args: ArgList, out: InputInfo, c: Collaborators, tok: string)
    requires NotSpliced(d, args, out, c, tok)
    ensures tok in HeadArgs(d, args, out, c) <==> tok in OwnHead(d, args, out, c)
  {
    OwnTokenSeparated(d, args, out, c, tok);
    assert tok in OutputArgs(out) <==> tok in (if out.Filename? then ["-o"] else []);
  }

  /** A token no collaborator splices in occurs in the default libraries
      exactly when it occurs in their own part. */
  lemma OwnTokenInLibs(d: Driver, args: ArgList, out: InputInfo, c: Collaborators, tok: string)
    requires NotSpliced(d, args, out, c, tok)
    ensures tok in DefaultLibs(d, args, c) <==> tok in OwnLibs(d, args, c)
  {
    OwnTokenSeparated(d, args, out, c, tok);
    if !OmitDefaultLibs(args) {
      assert tok in CxxStdlibArgs(d, args, c) <==>
        d.cccIsCXX && c.shouldLinkCxxStdlib && args.isStatic && tok in ["-llocale", "-lcatalog"];
    }
  }

  /** A token no collaborator splices in occurs in the command exactly when
      it occurs in the own view. */
  lemma OwnTokenIn(d: Driver, args: ArgList, out: InputInfo, c: Collaborators, tok: string)
    requires out.Filename? || out.Nothing?
    requires NotSpliced(d, args, out, c, tok)
    ensures tok in ConstructJob(d, args, out, c) <==> tok in OwnView(d, args, out, c)
  {
    OwnTokenSeparated(d, args, out, c, tok);
    OwnTokenInHead(d, args, out, c, tok);
    OwnTokenInLibs(d, args, out, c, tok);
  }

  /** The six start and end files are distinct and none is a literal flag or
      the sysroot argument. */
  lemma CrtFacts(d: Driver, args: ArgList, out: InputInfo, c: Collaborators)
    requires CrtApart(d, args, out, c)
    ensures var crt1, mcrt1, crti, crtbegin, crtend, crtn :=
        c.getFilePath("crt1.o"), c.getFilePath("mcrt1.o"), c.getFilePath("crti.o"),
        c.getFilePath("crtbegin.o"), c.getFilePath("crtend.o"), c.getFilePath("crtn.o");
      && crt1 != mcrt1 && crt1 != crti && crt1 != crtbegin && crt1 != crtend && crt1 != crtn
      && mcrt1 != crti && mcrt1 != crtbegin && mcrt1 != crtend && mcrt1 != crtn
      && crti != crtbegin && crti != crtend && crti != crtn
      && crtbegin != crtend && crtbegin != crtn
      && crtend != crtn
      && (forall p :: p in [crt1, mcrt1, crti, crtbegin, crtend, crtn] ==> p !in Literals && p != SysrootArg(d))
  {
    var ps := CrtPaths(c);
    assert ps[0] != ps[1] && ps[0] != ps[2] && ps[0] != ps[3] && ps[0] != ps[4] && ps[0] != ps[5];
    assert ps[1] != ps[2] && ps[1] != ps[3] && ps[1] != ps[4] && ps[1] != ps[5];
    assert ps[2] != ps[3] && ps[2] != ps[4] && ps[2] != ps[5];
    assert ps[3] != ps[4] && ps[3] != ps[5];
    assert ps[4] != ps[5];
  }

  /** Which default libraries the QNX code itself names. */
  lemma OwnLibsMembers(d: Driver, args: ArgList, c: Collaborators)
    ensures var libs := OwnLibs(d, args, c);
      && (forall t :: t in libs ==> t in DefaultLibNames)
      && ("-lc" in libs <==> !OmitDefaultLibs(args))
      && ("-lm" in libs <==> !OmitDefaultLibs(args))
      && ("-lregex" in libs <==> !OmitDefaultLibs(args))
      && ("-lgcc_eh" in libs <==> !OmitDefaultLibs(args))
      && ("-lgcc" in libs <==> !OmitDefaultLibs(args) && args.isStatic)
      && ("-lgcc_s" in libs <==> !OmitDefaultLibs(args) && !args.isStatic)
      && ("-llocale" in libs <==> !OmitDefaultLibs(args) && args.isStatic && d.cccIsCXX && c.shouldLinkCxxStdlib)
      && ("-lcatalog" in libs <==> !OmitDefaultLibs(args) && args.isStatic && d.cccIsCXX && c.shouldLinkCxxStdlib)
  {
    var libs := OwnLibs(d, args, c);
    if !OmitDefaultLibs(args) {
      if d.cccIsCXX && c.shouldLinkCxxStdlib && args.isStatic {
        assert libs == ["-lc", "-lm", "-lregex", "-lgcc", "-llocale", "-lcatalog", "-lgcc_eh"];
      } else if args.isStatic {
        assert libs == ["-lc", "-lm", "-lregex", "-lgcc", "-lgcc_eh"];
      } else {
        assert libs == ["-lc", "-lm", "-lregex", "-lgcc_s", "-lgcc_eh"];
      }
    }
  }

  /** The lead holds at most the sysroot argument and -pie; the mode at most
      its three flags and the loader path. */
  lemma LeadAndModeMembers(d: Driver, args: ArgList)
    ensures forall t :: t in LeadArgs(d, args) ==> t == SysrootArg(d) || t == "-pie"
    ensures forall t :: t in ModeArgs(args) ==> t in {"-Bstatic", "-shared", "-dynamic-linker", DynamicLoader}
  {
  }

  /** A flag kept apart occurs in the command exactly when the QNX code
      writes it in the lead, the hardening run, the mode, the output option
      or the default libraries. */
  lemma LiteralIn(d: Driver, args: ArgList, out: InputInfo, c: Collaborators, tok: string)
    requires out.Filename? || out.Nothing?
    requires Apart(d, args, out, c, tok)
    ensures tok in ConstructJob(d, args, out, c) <==> Writes(d, args, out, c, tok)
  {
    LiteralNotCrt(d, args, out, c, tok);
    OwnTokenIn(d, args, out, c, tok);
    assert tok !in StartFiles(args, c);
    assert tok !in EndFiles(args, c);
  }

  /** The QNX code writes `tok` itself in the lead, the hardening run, the
      mode, the output option or the default libraries. */
  predicate Writes(d: Driver, args: ArgList, out: InputInfo, c: Collaborators, tok: string) {
    tok in LeadArgs(d, args) || tok in HardeningArgs || tok in ModeArgs(args)
    || (out.Filename? && tok == "-o") || tok in OwnLibs(d, args, c)
  }

  /** Where the QNX code writes -pie, -o and the mode flags itself. */
  lemma WritesFlags(d: Driver, args: ArgList, out: InputInfo, c: Collaborators)
    ensures Writes(d, args, out, c, "-pie") <==> !args.isShared
    ensures Writes(d, args, out, c, "-o") <==> out.Filename?
    ensures forall tok :: tok in {"-Bstatic", "-shared", "-dynamic-linker", DynamicLoader} ==>
      (Writes(d, args, out, c, tok) <==> tok in ModeArgs(args))
  {
    LeadFacts(d, args);
    ModeFacts(args);
    LibsFacts(d, args, c);
  }

  // ---- PIE and the link mode ------------------------------------------------

  /** The link opens with the sysroot argument, when a sysroot is set, and
      -pie, for every link that is not shared. */
  lemma LeadPlaced(d: Driver, args: ArgList, out: InputInfo, c: Collaborators)
    requires out.Filename? || out.Nothing?
    ensures var cmd, p := ConstructJob(d, args, out, c), |LeadArgs(d, args)|;
      && p <= |cmd|
      && cmd[..p] == LeadArgs(d, args)
      && LeadArgs(d, args)
         == (if d.sysroot != "" then ["--sysroot=" + d.sysroot] else []) + (if args.isShared then [] else ["-pie"])
  {
    OpeningPrefix(d, args, out, c);
    var cmd, lead := ConstructJob(d, args, out, c), LeadArgs(d, args);
    var n := |lead + HardeningArgs|;
    assert cmd[..|lead|] == cmd[..n][..|lead|];
    PrefixThrough(lead, HardeningArgs, |lead|);
  }

  /** The six hardening and stack-size arguments directly follow the sysroot
      argument and -pie, in every link. */
  lemma HardeningPlaced(d: Driver, args: ArgList, out: InputInfo, c: Collaborators)
    requires out.Filename? || out.Nothing?
    ensures var cmd, p := ConstructJob(d, args, out, c), |LeadArgs(d, args)|;
      p + |HardeningArgs| <= |cmd| && cmd[p..p + |HardeningArgs|] == HardeningArgs
  {
    OpeningPrefix(d, args, out, c);
    var cmd, lead := ConstructJob(d, args, out, c), LeadArgs(d, args);
    var n := |lead + HardeningArgs|;
    assert cmd[|lead|..n] == cmd[..n][|lead|..n];
    DropPrefix(lead, HardeningArgs);
  }

  /** The command begins with the lead and the hardening run. */
  lemma OpeningPrefix(d: Driver, args: ArgList, out: InputInfo, c: Collaborators)
    requires out.Filename? || out.Nothing?
    ensures var cmd, x0 := ConstructJob(d, args, out, c), LeadArgs(d, args) + HardeningArgs;
      |x0| <= |cmd| && cmd[..|x0|] == x0
  {
    var x0 := LeadArgs(d, args) + HardeningArgs;
    var n := |x0|;
    var x1 := x0 + ModeArgs(args);
    PrefixThrough(x0, ModeArgs(args), n);
    var x2 := x1 + OutputArgs(out);
    PrefixThrough(x1, OutputArgs(out), n);
    var x3 := x2 + StartFiles(args, c);
    PrefixThrough(x2, StartFiles(args, c), n);
    var x4 := x3 + c.searchArgs;
    PrefixThrough(x3, c.searchArgs, n);
    var x5 := x4 + c.filePathLibArgs;
    PrefixThrough(x4, c.filePathLibArgs, n);
    var x6 := x5 + LtoArgs(d, c);
    PrefixThrough(x5, LtoArgs(d, c), n);
    var x7 := x6 + c.compressDebugArgs;
    PrefixThrough(x6, c.compressDebugArgs, n);
    var head := HeadArgs(d, args, out, c);
    assert head == x7 + c.linkerInputs;
    PrefixThrough(x7, c.linkerInputs, n);
    var x9 := head + DefaultLibs(d, args, c);
    PrefixThrough(head, DefaultLibs(d, args, c), n);
    var x10 := x9 + EndFiles(args, c);
    PrefixThrough(x9, EndFiles(args, c), n);
    var cmd := ConstructJob(d, args, out, c);
    assert cmd == x10 + c.profileRTLibs;
    PrefixThrough(x10, c.profileRTLibs, n);
  }

  /** -pie is emitted exactly for non-shared outputs, since PIE is the default. */
  lemma PieExactlyWhenNotShared(d: Driver, args: ArgList, out: InputInfo, c: Collaborators)
    requires out.Filename? || out.Nothing?
    requires Apart(d, args, out, c, "-pie")
    ensures "-pie" in ConstructJob(d, args, out, c) <==> !args.isShared
  {
    WritesFlags(d, args, out, c);
    LiteralIn(d, args, out, c, "-pie");
  }

  lemma LeadFacts(d: Driver, args: ArgList)
    ensures var lead := LeadArgs(d, args);
      && ("-pie" in lead <==> !args.isShared)
      && "-Bstatic" !in lead && "-shared" !in lead && "-dynamic-linker" !in lead
      && DynamicLoader !in lead && "-o" !in lead
  {
    SysrootArgNotLiteral(d);
    LeadAndModeMembers(d, args);
  }

  lemma ModeFacts(args: ArgList)
    ensures var mode := ModeArgs(args);
      && "-pie" !in mode && "-o" !in mode
      && ("-Bstatic" in mode <==> args.isStatic)
      && ("-shared" in mode <==> !args.isStatic && args.isShared)
      && ("-dynamic-linker" in mode <==> !args.isStatic && !args.isShared && !args.relocatable)
      && (DynamicLoader in mode <==> !args.isStatic && !args.isShared && !args.relocatable)
  {
  }

  lemma LibsFacts(d: Driver, args: ArgList, c: Collaborators)
    ensures var libs := OwnLibs(d, args, c);
      && "-pie" !in libs && "-o" !in libs
      && "-Bstatic" !in libs && "-shared" !in libs && "-dynamic-linker" !in libs && DynamicLoader !in libs
  {
    OwnLibsAreLibFlags(d, args, c);
    assert !IsLibFlag("-pie") && !IsLibFlag("-o") && !IsLibFlag("-Bstatic");
    assert !IsLibFlag("-shared") && !IsLibFlag("-dynamic-linker") && !IsLibFlag(DynamicLoader);
  }

  /** A library flag: "-l" and then the library name. */
  predicate IsLibFlag(t: string) {
    |t| >= 2 && t[0] == '-' && t[1] == 'l'
  }

  lemma OwnLibsAreLibFlags(d: Driver, args: ArgList, c: Collaborators)
    ensures forall t :: t in OwnLibs(d, args, c) ==> IsLibFlag(t)
  {
  }

  /** Exactly one link mode: static, else shared, else dynamic with the QNX
      loader unless the link is relocatable. Each flag's statement needs only
      that flag kept apart. */
  lemma LinkModeExclusive(d: Driver, args: ArgList, out: InputInfo, c: Collaborators)
    requires out.Filename? || out.Nothing?
    ensures var cmd := ConstructJob(d, args, out, c);
      && (Apart(d, args, out, c, "-Bstatic") ==> ("-Bstatic" in cmd <==> args.isStatic))
      && (Apart(d, args, out, c, "-shared") ==> ("-shared" in cmd <==> !args.isStatic && args.isShared))
      && (Apart(d, args, out, c, "-dynamic-linker") ==>
            ("-dynamic-linker" in cmd <==> !args.isStatic && !args.isShared && !args.relocatable))
      && (Apart(d, args, out, c, DynamicLoader) ==>
            (DynamicLoader in cmd <==> !args.isStatic && !args.isShared && !args.relocatable))
  {
    ModeFacts(args);
    if Apart(d, args, out, c, "-Bstatic") {
      ModeFlagIn(d, args, out, c, "-Bstatic");
    }
    if Apart(d, args, out, c, "-shared") {
      ModeFlagIn(d, args, out, c, "-shared");
    }
    if Apart(d, args, out, c, "-dynamic-linker") {
      ModeFlagIn(d, args, out, c, "-dynamic-linker");
    }
    if Apart(d, args, out, c, DynamicLoader) {
      ModeFlagIn(d, args, out, c, DynamicLoader);
    }
  }

  /** A mode flag kept apart occurs in the command exactly when the mode
      arguments hold it. */
  lemma ModeFlagIn(d: Driver, args: ArgList, out: InputInfo, c: Collaborators, tok: string)
    requires out.Filename? || out.Nothing?
    requires tok in {"-Bstatic", "-shared", "-dynamic-linker", DynamicLoader}
    requires Apart(d, args, out, c, tok)
    ensures tok in ConstructJob(d, args, out, c) <==> tok in ModeArgs(args)
  {
    WritesFlags(d, args, out, c);
    LiteralIn(d, args, out, c, tok);
  }

  /** In a dynamic link the loader path directly follows -dynamic-linker,
      right after the hardening run. */
  lemma DynamicLinkerThenLoader(d: Driver, args: ArgList, out: InputInfo, c: Collaborators)
    requires out.Filename? || out.Nothing?
    requires !args.isStatic && !args.isShared && !args.relocatable
    ensures var cmd, m := ConstructJob(d, args, out, c), |LeadArgs(d, args)| + |HardeningArgs|;
      m + 1 < |cmd| && cmd[m] == "-dynamic-linker" && cmd[m + 1] == DynamicLoader
  {
  }

  // ---- Output ---------------------------------------------------------------

  /** -o is emitted exactly when the output is a file, and the file name
      follows it right after the mode arguments. The position needs no
      hypothesis; the "exactly when" needs -o kept apart. */
  lemma OutputFileArg(d: Driver, args: ArgList, out: InputInfo, c: Collaborators)
    requires out.Filename? || out.Nothing?
    ensures var cmd := ConstructJob(d, args, out, c);
      && (Apart(d, args, out, c, "-o") ==> ("-o" in cmd <==> out.Filename?))
      && (out.Filename? ==>
            var o := |LeadArgs(d, args)| + |HardeningArgs| + |ModeArgs(args)|;
            o + 1 < |cmd| && cmd[o] == "-o" && cmd[o + 1] == out.name)
  {
    if Apart(d, args, out, c, "-o") {
      OutputFlagIn(d, args, out, c);
    }
    if out.Filename? {
      OutputPlaced(d, args, out, c);
    }
  }

  lemma OutputFlagIn(d: Driver, args: ArgList, out: InputInfo, c: Collaborators)
    requires out.Filename? || out.Nothing?
    requires Apart(d, args, out, c, "-o")
    ensures "-o" in ConstructJob(d, args, out, c) <==> out.Filename?
  {
    WritesFlags(d, args, out, c);
    LiteralIn(d, args, out, c, "-o");
  }

  lemma OutputPlaced(d: Driver, args: ArgList, out: InputInfo, c: Collaborators)
    requires out.Filename?
    ensures var cmd, o := ConstructJob(d, args, out, c), |LeadArgs(d, args)| + |HardeningArgs| + |ModeArgs(args)|;
      o + 1 < |cmd| && cmd[o] == "-o" && cmd[o + 1] == out.name
  {
    CommandPrefixes(d, args, out, c);
    var cmd, head := ConstructJob(d, args, out, c), HeadArgs(d, args, out, c);
    var x1 := LeadArgs(d, args) + HardeningArgs + ModeArgs(args);
    var x4 := x1 + OutputArgs(out) + StartFiles(args, c) + c.searchArgs;
    var o := |x1|;
    IndexThroughPrefixes(cmd, head, x4, o);
    IndexThroughPrefixes(cmd, head, x4, o + 1);
    IndexInSecond(x1, OutputArgs(out), StartFiles(args, c), c.searchArgs, 0);
    IndexInSecond(x1, OutputArgs(out), StartFiles(args, c), c.searchArgs, 1);
  }

  // ---- Start and end files ----------------------------------------------------

  /** A start or end file occurs in the command exactly when the start-file or
      end-file step writes it. */
  lemma CrtIn(d: Driver, args: ArgList, out: InputInfo, c: Collaborators, p: string)
    requires out.Filename? || out.Nothing?
    requires CrtApart(d, args, out, c)
    requires p in CrtPaths(c)
    ensures p in ConstructJob(d, args, out, c) <==> p in StartFiles(args, c) || p in EndFiles(args, c)
  {
    CrtOutsideOwnFlags(d, args, out, c, p);
    OwnTokenIn(d, args, out, c, p);
  }

  lemma CrtOutsideOwnFlags(d: Driver, args: ArgList, out: InputInfo, c: Collaborators, p: string)
    requires CrtApart(d, args, out, c)
    requires p in CrtPaths(c)
    ensures p !in LeadArgs(d, args) && p !in HardeningArgs && p !in ModeArgs(args)
    ensures p != "-o" && p !in OwnLibs(d, args, c)
  {
    CrtNotOwnFlag(d, args, out, c, p);
    OwnLibsMembers(d, args, c);
    LeadAndModeMembers(d, args);
    assert forall t :: t in HardeningArgs ==> t in Literals;
  }

  /** A start or end file is neither a literal flag nor the sysroot argument. */
  lemma CrtNotOwnFlag(d: Driver, args: ArgList, out: InputInfo, c: Collaborators, p: string)
    requires CrtApart(d, args, out, c)
    requires p in CrtPaths(c)
    ensures p !in Literals && p != SysrootArg(d)
  {
  }

  /** crtend.o and crtn.o are none of the start files. */
  lemma EndNotStart(d: Driver, args: ArgList, out: InputInfo, c: Collaborators)
    requires CrtApart(d, args, out, c)
    ensures c.getFilePath("crtend.o") !in StartFiles(args, c)
    ensures c.getFilePath("crtn.o") !in StartFiles(args, c)
  {
    var ps := CrtPaths(c);
    assert ps[4] != ps[0] && ps[4] != ps[1] && ps[4] != ps[2] && ps[4] != ps[3];
    assert ps[5] != ps[0] && ps[5] != ps[1] && ps[5] != ps[2] && ps[5] != ps[3];
  }

  /** crt1.o (mcrt1.o under -pg) only for non-shared links, crti.o and
      crtbegin.o always, and crtend.o and crtn.o, unless -nostdlib,
      -nostartfiles or -r leaves them all out. */
  lemma StartEndFilesPresent(d: Driver, args: ArgList, out: InputInfo, c: Collaborators)
    requires out.Filename? || out.Nothing?
    requires CrtApart(d, args, out, c)
    ensures var cmd, omit := ConstructJob(d, args, out, c), OmitStartFiles(args);
      && (c.getFilePath("crt1.o") in cmd <==> !omit && !args.isShared && !args.pg)
      && (c.getFilePath("mcrt1.o") in cmd <==> !omit && !args.isShared && args.pg)
      && (c.getFilePath("crti.o") in cmd <==> !omit)
      && (c.getFilePath("crtbegin.o") in cmd <==> !omit)
      && (c.getFilePath("crtend.o") in cmd <==> !omit)
      && (c.getFilePath("crtn.o") in cmd <==> !omit)
  {
    CrtSegments(d, args, out, c);
    var ps := CrtPaths(c);
    CrtIn(d, args, out, c, ps[0]);
    CrtIn(d, args, out, c, ps[1]);
    CrtIn(d, args, out, c, ps[2]);
    CrtIn(d, args, out, c, ps[3]);
    CrtIn(d, args, out, c, ps[4]);
    CrtIn(d, args, out, c, ps[5]);
  }

  lemma CrtSegments(d: Driver, args: ArgList, out: InputInfo, c: Collaborators)
    requires CrtApart(d, args, out, c)
    ensures var files, omit := StartFiles(args, c) + EndFiles(args, c), OmitStartFiles(args);
      && (c.getFilePath("crt1.o") in files <==> !omit && !args.isShared && !args.pg)
      && (c.getFilePath("mcrt1.o") in files <==> !omit && !args.isShared && args.pg)
      && (c.getFilePath("crti.o") in files <==> !omit)
      && (c.getFilePath("crtbegin.o") in files <==> !omit)
      && (c.getFilePath("crtend.o") in files <==> !omit)
      && (c.getFilePath("crtn.o") in files <==> !omit)
  {
    CrtFacts(d, args, out, c);
  }

  /** The start files sit right after the output option, crt1.o (or
      mcrt1.o) first unless shared, then crti.o and crtbegin.o; crtend.o and
      crtn.o are the last two arguments before the profiling libraries. */
  lemma StartEndFilesPlaced(d: Driver, args: ArgList, out: InputInfo, c: Collaborators)
    requires out.Filename? || out.Nothing?
    requires !OmitStartFiles(args)
    ensures var cmd := ConstructJob(d, args, out, c);
      var s := |LeadArgs(d, args)| + |HardeningArgs| + |ModeArgs(args)| + |OutputArgs(out)|;
      var k := if args.isShared then 0 else 1;
      var e := |cmd| - |c.profileRTLibs|;
      && s + k + 2 <= e - 2
      && cmd[s..s + k + 2]
         == (if args.isShared then [] else [c.getFilePath(if args.pg then "mcrt1.o" else "crt1.o")])
            + [c.getFilePath("crti.o"), c.getFilePath("crtbegin.o")]
      && cmd[e - 2] == c.getFilePath("crtend.o")
      && cmd[e - 1] == c.getFilePath("crtn.o")
      && cmd[e..] == c.profileRTLibs
  {
    StartFilesPlaced(d, args, out, c);
    EndFilesPlaced(d, args, out, c);
  }

  lemma StartFilesPlaced(d: Driver, args: ArgList, out: InputInfo, c: Collaborators)
    requires out.Filename? || out.Nothing?
    requires !OmitStartFiles(args)
    ensures var cmd := ConstructJob(d, args, out, c);
      var s := |LeadArgs(d, args)| + |HardeningArgs| + |ModeArgs(args)| + |OutputArgs(out)|;
      var k := if args.isShared then 0 else 1;
      && s + k + 2 <= |HeadArgs(d, args, out, c)|
      && cmd[s..s + k + 2]
         == (if args.isShared then [] else [c.getFilePath(Crt1(args))])
            + [c.getFilePath("crti.o"), c.getFilePath("crtbegin.o")]
  {
    StartSegment(d, args, out, c);
  }

  /** The start files sit, as a block, right after the output option. */
  lemma StartSegment(d: Driver, args: ArgList, out: InputInfo, c: Collaborators)
    requires out.Filename? || out.Nothing?
    ensures var cmd, start := ConstructJob(d, args, out, c), StartFiles(args, c);
      var s := |LeadArgs(d, args)| + |HardeningArgs| + |ModeArgs(args)| + |OutputArgs(out)|;
      && s + |start| <= |HeadArgs(d, args, out, c)| <= |cmd|
      && cmd[s..s + |start|] == start
  {
    CommandPrefixes(d, args, out, c);
    var cmd, head := ConstructJob(d, args, out, c), HeadArgs(d, args, out, c);
    var x2 := LeadArgs(d, args) + HardeningArgs + ModeArgs(args) + OutputArgs(out);
    var start := StartFiles(args, c);
    var x4 := x2 + start + c.searchArgs;
    var s, e := |x2|, |x2| + |start|;
    SliceOfPrefix(cmd, head, s, e);
    SliceOfPrefix(head, x4, s, e);
    SliceBefore(x2 + start, c.searchArgs, s, e);
    SliceAfter(x2, start, 0, |start|);
  }

  lemma EndFilesPlaced(d: Driver, args: ArgList, out: InputInfo, c: Collaborators)
    requires out.Filename? || out.Nothing?
    requires !OmitStartFiles(args)
    ensures var cmd := ConstructJob(d, args, out, c);
      var e := |cmd| - |c.profileRTLibs|;
      && |HeadArgs(d, args, out, c)| <= e - 2
      && cmd[e - 2] == c.getFilePath("crtend.o")
      && cmd[e - 1] == c.getFilePath("crtn.o")
      && cmd[e..] == c.profileRTLibs
  {
    EndSplit(d, args, out, c);
    var front, back := EndFront(d, args, out, c), EndBack(args, c);
    DropPrefix(front, back);
    DropPrefix(EndFiles(args, c), c.profileRTLibs);
  }

  /** The command is everything up to the end files, then the end files and
      the profiling libraries. */
  lemma EndSplit(d: Driver, args: ArgList, out: InputInfo, c: Collaborators)
    requires out.Filename? || out.Nothing?
    ensures ConstructJob(d, args, out, c) == EndFront(d, args, out, c) + EndBack(args, c)
  {
    AppendAssoc(EndFront(d, args, out, c), EndFiles(args, c), c.profileRTLibs);
  }

  /** The command begins with its head, and the head with everything up to
      and including the -L/-T/-s/-t pass-through arguments. */
  lemma CommandPrefixes(d: Driver, args: ArgList, out: InputInfo, c: Collaborators)
    requires out.Filename? || out.Nothing?
    ensures var cmd, head := ConstructJob(d, args, out, c), HeadArgs(d, args, out, c);
      var x4 := LeadArgs(d, args) + HardeningArgs + ModeArgs(args) + OutputArgs(out) + StartFiles(args, c)
        + c.searchArgs;
      && |head| <= |cmd| && cmd[..|head|] == head
      && |x4| <= |head| && head[..|x4|] == x4
  {
    var x4 := LeadArgs(d, args) + HardeningArgs + ModeArgs(args) + OutputArgs(out) + StartFiles(args, c)
      + c.searchArgs;
    var n := |x4|;
    var x5 := x4 + c.filePathLibArgs;
    PrefixThrough(x4, c.filePathLibArgs, n);
    var x6 := x5 + LtoArgs(d, c);
    PrefixThrough(x5, LtoArgs(d, c), n);
    var x7 := x6 + c.compressDebugArgs;
    PrefixThrough(x6, c.compressDebugArgs, n);
    var head := HeadArgs(d, args, out, c);
    assert head == x7 + c.linkerInputs;
    PrefixThrough(x7, c.linkerInputs, n);
    var h := |head|;
    var x9 := head + DefaultLibs(d, args, c);
    PrefixThrough(head, DefaultLibs(d, args, c), h);
    var x10 := x9 + EndFiles(args, c);
    PrefixThrough(x9, EndFiles(args, c), h);
    PrefixThrough(x10, c.profileRTLibs, h);
  }

  // ---- Default libraries --------------------------------------------------------

  lemma LibOutsideOwnFlags(d: Driver, args: ArgList, lib: string)
    requires lib in DefaultLibNames
    ensures lib !in LeadArgs(d, args) && lib !in HardeningArgs && lib !in ModeArgs(args) && lib != "-o"
  {
    assert IsLibFlag(lib);
    assert !IsLibFlag(SysrootArg(d)) && !IsLibFlag("-pie") && !IsLibFlag("-o");
    assert forall t :: t in HardeningArgs ==> !IsLibFlag(t);
    assert forall t :: t in ModeArgs(args) ==> !IsLibFlag(t);
    LeadAndModeMembers(d, args);
  }

  /** A default library occurs in the command exactly when the default-library
      step names it. */
  lemma LibIn(d: Driver, args: ArgList, out: InputInfo, c: Collaborators, lib: string)
    requires out.Filename? || out.Nothing?
    requires Apart(d, args, out, c, lib)
    requires lib in DefaultLibNames
    ensures lib in ConstructJob(d, args, out, c) <==> lib in OwnLibs(d, args, c)
  {
    LibOutsideOwnFlags(d, args, lib);
    LiteralIn(d, args, out, c, lib);
  }

  /** -nostdlib, -nodefaultlibs or -r leave out every default library;
      otherwise -lc, -lm, -lregex and -lgcc_eh are linked, with exactly one
      of -lgcc (static) and -lgcc_s (dynamic). Each library's statement
      needs only that library kept apart. */
  lemma DefaultLibsPresent(d: Driver, args: ArgList, out: InputInfo, c: Collaborators)
    requires out.Filename? || out.Nothing?
    ensures var cmd, omit := ConstructJob(d, args, out, c), OmitDefaultLibs(args);
      && (omit ==> forall lib :: lib in DefaultLibNames && Apart(d, args, out, c, lib) ==> lib !in cmd)
      && (Apart(d, args, out, c, "-lc") ==> ("-lc" in cmd <==> !omit))
      && (Apart(d, args, out, c, "-lm") ==> ("-lm" in cmd <==> !omit))
      && (Apart(d, args, out, c, "-lregex") ==> ("-lregex" in cmd <==> !omit))
      && (Apart(d, args, out, c, "-lgcc_eh") ==> ("-lgcc_eh" in cmd <==> !omit))
      && (Apart(d, args, out, c, "-lgcc") ==> ("-lgcc" in cmd <==> !omit && args.isStatic))
      && (Apart(d, args, out, c, "-lgcc_s") ==> ("-lgcc_s" in cmd <==> !omit && !args.isStatic))
  {
    OwnLibsMembers(d, args, c);
    forall lib | lib in DefaultLibNames && Apart(d, args, out, c, lib)
      ensures lib in ConstructJob(d, args, out, c) <==> lib in OwnLibs(d, args, c)
    {
      LibIn(d, args, out, c, lib);
    }
  }

  /** -llocale and -lcatalog are linked only for a static C++ link that links
      the C++ standard library. */
  lemma LocaleCatalogOnlyStaticCxx(d: Driver, args: ArgList, out: InputInfo, c: Collaborators)
    requires out.Filename? || out.Nothing?
    ensures var cmd, wanted := ConstructJob(d, args, out, c),
        !OmitDefaultLibs(args) && args.isStatic && d.cccIsCXX && c.shouldLinkCxxStdlib;
      && (Apart(d, args, out, c, "-llocale") ==> ("-llocale" in cmd <==> wanted))
      && (Apart(d, args, out, c, "-lcatalog") ==> ("-lcatalog" in cmd <==> wanted))
  {
    OwnLibsMembers(d, args, c);
    if Apart(d, args, out, c, "-llocale") {
      LibIn(d, args, out, c, "-llocale");
    }
    if Apart(d, args, out, c, "-lcatalog") {
      LibIn(d, args, out, c, "-lcatalog");
    }
  }

  /** The default libraries start right after the linker inputs with -lc,
      -lm, -lregex and then -lgcc or -lgcc_s; after the OpenMP runtime and
      the C++ standard library comes -lgcc_eh, and the Fortran runtime follows
      it directly. */
  lemma DefaultLibsPlaced(d: Driver, args: ArgList, out: InputInfo, c: Collaborators)
    requires out.Filename? || out.Nothing?
    requires !OmitDefaultLibs(args)
    ensures var cmd, l := ConstructJob(d, args, out, c), |HeadArgs(d, args, out, c)|;
      var e := l + GccEhOffset(d, args, c);
      var f := FortranArgs(d, args, c);
      && e + 1 + |f| <= |cmd|
      && cmd[l..l + 4] == ["-lc", "-lm", "-lregex", if args.isStatic then "-lgcc" else "-lgcc_s"]
      && cmd[l + 4..e] == c.openmpRuntime(args.staticOpenmp && !args.isStatic)
        + (if d.cccIsCXX && c.shouldLinkCxxStdlib
           then c.cxxStdlibArgs + (if args.isStatic then ["-llocale", "-lcatalog"] else [])
           else [])
      && cmd[e] == "-lgcc_eh"
      && cmd[e + 1..e + 1 + |f|] == f
      && (d.flangMode ==> f == c.fortranRuntimePath + c.fortranRuntimeLibs)
  {
    CRuntimeFirst(d, args, out, c);
    RuntimeAndCxxPlaced(d, args, out, c);
    GccEhAndFortranPlaced(d, args, out, c);
  }

  /** Between the C runtime and -lgcc_eh: the OpenMP runtime, told to link
      statically exactly under -static-openmp in a non-static link, then, in
      C++ mode when the C++ standard library is linked, its arguments and,
      in a static link, -llocale and -lcatalog. */
  lemma RuntimeAndCxxPlaced(d: Driver, args: ArgList, out: InputInfo, c: Collaborators)
    requires out.Filename? || out.Nothing?
    requires !OmitDefaultLibs(args)
    ensures var cmd, l := ConstructJob(d, args, out, c), |HeadArgs(d, args, out, c)|;
      var e := l + GccEhOffset(d, args, c);
      && l + 4 <= e <= |cmd|
      && cmd[l + 4..e] == c.openmpRuntime(args.staticOpenmp && !args.isStatic)
        + (if d.cccIsCXX && c.shouldLinkCxxStdlib
           then c.cxxStdlibArgs + (if args.isStatic then ["-llocale", "-lcatalog"] else [])
           else [])
  {
    LibsMiddleShape(d, args, c);
    LibsSegment(d, args, out, c, 4, GccEhOffset(d, args, c));
  }

  /** The default libraries of a default link hold the OpenMP runtime and the
      C++ standard library between the C runtime and -lgcc_eh. */
  lemma LibsMiddleShape(d: Driver, args: ArgList, c: Collaborators)
    requires !OmitDefaultLibs(args)
    ensures var libs, k := DefaultLibs(d, args, c), GccEhOffset(d, args, c);
      && k <= |libs|
      && libs[4..k] == c.openmpRuntime(args.staticOpenmp && !args.isStatic) + CxxStdlibArgs(d, args, c)
  {
    var pre := ["-lc", "-lm", "-lregex", if args.isStatic then "-lgcc" else "-lgcc_s"];
    var omp, cxx := c.openmpRuntime(args.staticOpenmp && !args.isStatic), CxxStdlibArgs(d, args, c);
    var f := FortranArgs(d, args, c);
    var a := pre + omp + cxx;
    var k := GccEhOffset(d, args, c);
    assert DefaultLibs(d, args, c) == a + (["-lgcc_eh"] + f);
    SliceBefore(a, ["-lgcc_eh"] + f, 4, k);
    assert a == pre + (omp + cxx);
    DropPrefix(pre, omp + cxx);
  }

  lemma CRuntimeFirst(d: Driver, args: ArgList, out: InputInfo, c: Collaborators)
    requires out.Filename? || out.Nothing?
    requires !OmitDefaultLibs(args)
    ensures var cmd, l := ConstructJob(d, args, out, c), |HeadArgs(d, args, out, c)|;
      && l + 4 <= |cmd|
      && cmd[l..l + 4] == ["-lc", "-lm", "-lregex", if args.isStatic then "-lgcc" else "-lgcc_s"]
  {
    LibsStartShape(d, args, c);
    LibsSegment(d, args, out, c, 0, 4);
  }

  lemma GccEhAndFortranPlaced(d: Driver, args: ArgList, out: InputInfo, c: Collaborators)
    requires out.Filename? || out.Nothing?
    requires !OmitDefaultLibs(args)
    ensures var cmd, l := ConstructJob(d, args, out, c), |HeadArgs(d, args, out, c)|;
      var e := l + GccEhOffset(d, args, c);
      var f := FortranArgs(d, args, c);
      && e + 1 + |f| <= |cmd|
      && cmd[e] == "-lgcc_eh"
      && cmd[e + 1..e + 1 + |f|] == f
  {
    GccEhPlaced(d, args, out, c);
    FortranPlaced(d, args, out, c);
  }

  lemma GccEhPlaced(d: Driver, args: ArgList, out: InputInfo, c: Collaborators)
    requires out.Filename? || out.Nothing?
    requires !OmitDefaultLibs(args)
    ensures var cmd, l := ConstructJob(d, args, out, c), |HeadArgs(d, args, out, c)|;
      var e := l + GccEhOffset(d, args, c);
      e < |cmd| && cmd[e] == "-lgcc_eh"
  {
    LibsEndShape(d, args, c);
    LibsIndex(d, args, out, c, GccEhOffset(d, args, c));
  }

  lemma FortranPlaced(d: Driver, args: ArgList, out: InputInfo, c: Collaborators)
    requires out.Filename? || out.Nothing?
    requires !OmitDefaultLibs(args)
    ensures var cmd, l := ConstructJob(d, args, out, c), |HeadArgs(d, args, out, c)|;
      var e := l + GccEhOffset(d, args, c);
      var f := FortranArgs(d, args, c);
      e + 1 + |f| <= |cmd| && cmd[e + 1..e + 1 + |f|] == f
  {
    LibsEndShape(d, args, c);
    var k := GccEhOffset(d, args, c);
    LibsSegment(d, args, out, c, k + 1, k + 1 + |FortranArgs(d, args, c)|);
  }

  /** Where -lgcc_eh sits among the default libraries: after the C runtime,
      the OpenMP runtime and the C++ standard library. */
  function GccEhOffset(d: Driver, args: ArgList, c: Collaborators): nat {
    4 + |c.openmpRuntime(args.staticOpenmp && !args.isStatic)| + |CxxStdlibArgs(d, args, c)|
  }

  lemma LibsIndex(d: Driver, args: ArgList, out: InputInfo, c: Collaborators, i: nat)
    requires out.Filename? || out.Nothing?
    requires i < |DefaultLibs(d, args, c)|
    ensures var l := |HeadArgs(d, args, out, c)|;
      l + i < |ConstructJob(d, args, out, c)|
      && ConstructJob(d, args, out, c)[l + i] == DefaultLibs(d, args, c)[i]
  {
    LibsInCommand(d, args, out, c);
  }

  /** A slice of the default libraries is the same slice of the command,
      shifted by the head. */
  lemma LibsSegment(d: Driver, args: ArgList, out: InputInfo, c: Collaborators, i: nat, j: nat)
    requires out.Filename? || out.Nothing?
    requires i <= j <= |DefaultLibs(d, args, c)|
    ensures var l := |HeadArgs(d, args, out, c)|;
      l + j <= |ConstructJob(d, args, out, c)|
      && ConstructJob(d, args, out, c)[l + i..l + j] == DefaultLibs(d, args, c)[i..j]
  {
    LibsInCommand(d, args, out, c);
    SliceInside(HeadArgs(d, args, out, c), DefaultLibs(d, args, c), EndFiles(args, c) + c.profileRTLibs, i, j);
  }

  /** The command is the head followed by the default libraries and the rest. */
  lemma LibsInCommand(d: Driver, args: ArgList, out: InputInfo, c: Collaborators)
    requires out.Filename? || out.Nothing?
    ensures ConstructJob(d, args, out, c)
      == HeadArgs(d, args, out, c) + (DefaultLibs(d, args, c) + (EndFiles(args, c) + c.profileRTLibs))
  {
    var h, l, e := HeadArgs(d, args, out, c), DefaultLibs(d, args, c), EndFiles(args, c);
    AppendAssoc(h + l, e, c.profileRTLibs);
    AppendAssoc(h, l, e + c.profileRTLibs);
  }

  /** The default libraries of a default link open with the C runtime. */
  lemma LibsStartShape(d: Driver, args: ArgList, c: Collaborators)
    requires !OmitDefaultLibs(args)
    ensures var libs := DefaultLibs(d, args, c);
      && |libs| >= 4
      && libs[0..4] == ["-lc", "-lm", "-lregex", if args.isStatic then "-lgcc" else "-lgcc_s"]
  {
    var pre := ["-lc", "-lm", "-lregex", if args.isStatic then "-lgcc" else "-lgcc_s"];
    var omp, cxx := c.openmpRuntime(args.staticOpenmp && !args.isStatic), CxxStdlibArgs(d, args, c);
    var f := FortranArgs(d, args, c);
    var a := pre + omp + cxx;
    assert DefaultLibs(d, args, c) == (a + ["-lgcc_eh"]) + f;
    SliceBefore(a + ["-lgcc_eh"], f, 0, 4);
    SliceBefore(a, ["-lgcc_eh"], 0, 4);
    SliceBefore(pre + omp, cxx, 0, 4);
    SliceBefore(pre, omp, 0, 4);
  }

  /** The default libraries of a default link close with -lgcc_eh and the
      Fortran runtime. */
  lemma LibsEndShape(d: Driver, args: ArgList, c: Collaborators)
    requires !OmitDefaultLibs(args)
    ensures var libs := DefaultLibs(d, args, c);
      var k := GccEhOffset(d, args, c);
      var f := FortranArgs(d, args, c);
      && |libs| == k + 1 + |f|
      && libs[k] == "-lgcc_eh"
      && libs[k + 1..k + 1 + |f|] == f
  {
    var pre := ["-lc", "-lm", "-lregex", if args.isStatic then "-lgcc" else "-lgcc_s"];
    var omp, cxx := c.openmpRuntime(args.staticOpenmp && !args.isStatic), CxxStdlibArgs(d, args, c);
    var f := FortranArgs(d, args, c);
    var a := pre + omp + cxx;
    assert DefaultLibs(d, args, c) == (a + ["-lgcc_eh"]) + f;
    SliceAfter(a + ["-lgcc_eh"], f, 0, |f|);
  }

  // ---- Relative order ---------------------------------------------------------

  /** Everything before -lgcc_eh in a default link, and the rest. */
  function LibsPre(d: Driver, args: ArgList, c: Collaborators): seq<string> {
    ["-lc", "-lm", "-lregex", if args.isStatic then "-lgcc" else "-lgcc_s"]
    + c.openmpRuntime(args.staticOpenmp && !args.isStatic) + CxxStdlibArgs(d, args, c)
  }

  function LibsFront(d: Driver, args: ArgList, out: InputInfo, c: Collaborators): seq<string> {
    HeadArgs(d, args, out, c) + LibsPre(d, args, c)
  }

  function LibsBack(d: Driver, args: ArgList, c: Collaborators): seq<string> {
    ["-lgcc_eh"] + FortranArgs(d, args, c) + EndFiles(args, c) + c.profileRTLibs
  }

  lemma SplitAtGccEh(d: Driver, args: ArgList, out: InputInfo, c: Collaborators)
    requires out.Filename? || out.Nothing?
    requires !OmitDefaultLibs(args)
    ensures ConstructJob(d, args, out, c) == LibsFront(d, args, out, c) + LibsBack(d, args, c)
  {
    var pre, post := LibsPre(d, args, c), ["-lgcc_eh"] + FortranArgs(d, args, c);
    assert DefaultLibs(d, args, c) == pre + post;
    var h, e := HeadArgs(d, args, out, c), EndFiles(args, c);
    AppendAssoc(h, pre, post);
    AppendAssoc(h + pre + post, e, c.profileRTLibs);
    AppendAssoc(h + pre, post, e + c.profileRTLibs);
    AppendAssoc(post, e, c.profileRTLibs);
  }

  /** -lgcc_eh comes after every other default library the QNX code names
      that is kept apart. */
  lemma GccEhAfterOtherLibs(d: Driver, args: ArgList, out: InputInfo, c: Collaborators)
    requires out.Filename? || out.Nothing?
    requires Apart(d, args, out, c, "-lgcc_eh")
    ensures forall lib :: lib in DefaultLibNames && lib != "-lgcc_eh" && Apart(d, args, out, c, lib) ==>
      Before(ConstructJob(d, args, out, c), lib, "-lgcc_eh")
  {
    if OmitDefaultLibs(args) {
      OwnLibsMembers(d, args, c);
      LibIn(d, args, out, c, "-lgcc_eh");
    } else {
      SplitAtGccEh(d, args, out, c);
      forall lib | lib in DefaultLibNames && lib != "-lgcc_eh" && Apart(d, args, out, c, lib)
        ensures Before(LibsFront(d, args, out, c) + LibsBack(d, args, c), lib, "-lgcc_eh")
      {
        LibBeforeGccEh(d, args, out, c, lib);
      }
    }
  }

  lemma LibBeforeGccEh(d: Driver, args: ArgList, out: InputInfo, c: Collaborators, lib: string)
    requires !OmitDefaultLibs(args) && Apart(d, args, out, c, "-lgcc_eh") && Apart(d, args, out, c, lib)
    requires lib in DefaultLibNames && lib != "-lgcc_eh"
    ensures Before(LibsFront(d, args, out, c) + LibsBack(d, args, c), lib, "-lgcc_eh")
  {
    GccEhOnlyInBack(d, args, out, c);
    LibOnlyInFront(d, args, out, c, lib);
    BeforeAcross(LibsFront(d, args, out, c), LibsBack(d, args, c), lib, "-lgcc_eh");
  }

  lemma GccEhOnlyInBack(d: Driver, args: ArgList, out: InputInfo, c: Collaborators)
    requires !OmitDefaultLibs(args) && Apart(d, args, out, c, "-lgcc_eh")
    ensures "-lgcc_eh" !in LibsFront(d, args, out, c)
  {
    LibNotInHead(d, args, out, c, "-lgcc_eh");
    GccEhNotBeforeItself(d, args, out, c);
  }

  lemma GccEhNotBeforeItself(d: Driver, args: ArgList, out: InputInfo, c: Collaborators)
    requires !OmitDefaultLibs(args) && Apart(d, args, out, c, "-lgcc_eh")
    ensures "-lgcc_eh" !in LibsPre(d, args, c)
  {
    OwnTokenSeparated(d, args, out, c, "-lgcc_eh");
  }

  lemma LibOnlyInFront(d: Driver, args: ArgList, out: InputInfo, c: Collaborators, lib: string)
    requires !OmitDefaultLibs(args) && Apart(d, args, out, c, lib)
    requires lib in DefaultLibNames && lib != "-lgcc_eh"
    ensures lib !in LibsBack(d, args, c)
  {
    OwnTokenSeparated(d, args, out, c, lib);
    LiteralNotCrt(d, args, out, c, lib);
  }

  /** Everything before the end files, and the rest. */
  function EndFront(d: Driver, args: ArgList, out: InputInfo, c: Collaborators): seq<string> {
    HeadArgs(d, args, out, c) + DefaultLibs(d, args, c)
  }

  function EndBack(args: ArgList, c: Collaborators): seq<string> {
    EndFiles(args, c) + c.profileRTLibs
  }

  /** crtend.o and crtn.o come after every default library kept apart. */
  lemma EndFilesAfterDefaultLibs(d: Driver, args: ArgList, out: InputInfo, c: Collaborators)
    requires out.Filename? || out.Nothing?
    requires CrtApart(d, args, out, c)
    ensures var cmd := ConstructJob(d, args, out, c);
      forall lib :: lib in DefaultLibNames && Apart(d, args, out, c, lib) ==>
        Before(cmd, lib, c.getFilePath("crtend.o")) && Before(cmd, lib, c.getFilePath("crtn.o"))
  {
    EndSplit(d, args, out, c);
    forall lib | lib in DefaultLibNames && Apart(d, args, out, c, lib)
      ensures Before(EndFront(d, args, out, c) + EndBack(args, c), lib, c.getFilePath("crtend.o"))
      ensures Before(EndFront(d, args, out, c) + EndBack(args, c), lib, c.getFilePath("crtn.o"))
    {
      LibBeforeEndFiles(d, args, out, c, lib);
    }
  }

  lemma LibBeforeEndFiles(d: Driver, args: ArgList, out: InputInfo, c: Collaborators, lib: string)
    requires CrtApart(d, args, out, c) && Apart(d, args, out, c, lib)
    requires lib in DefaultLibNames
    ensures Before(EndFront(d, args, out, c) + EndBack(args, c), lib, c.getFilePath("crtend.o"))
    ensures Before(EndFront(d, args, out, c) + EndBack(args, c), lib, c.getFilePath("crtn.o"))
  {
    var front, back := EndFront(d, args, out, c), EndBack(args, c);
    OwnTokenSeparated(d, args, out, c, lib);
    LiteralNotCrt(d, args, out, c, lib);
    assert lib !in back;
    EndFileOnlyInBack(d, args, out, c, c.getFilePath("crtend.o"));
    EndFileOnlyInBack(d, args, out, c, c.getFilePath("crtn.o"));
    BeforeAcross(front, back, lib, c.getFilePath("crtend.o"));
    BeforeAcross(front, back, lib, c.getFilePath("crtn.o"));
  }

  lemma EndFileOnlyInBack(d: Driver, args: ArgList, out: InputInfo, c: Collaborators, p: string)
    requires CrtApart(d, args, out, c)
    requires p == c.getFilePath("crtend.o") || p == c.getFilePath("crtn.o")
    ensures p !in EndFront(d, args, out, c)
  {
    assert p in CrtPaths(c);
    EndNotStart(d, args, out, c);
    CrtOutsideOwnFlags(d, args, out, c, p);
    OwnTokenInHead(d, args, out, c, p);
    OwnTokenInLibs(d, args, out, c, p);
  }

  // ---- Linker inputs ------------------------------------------------------------

  /** The head of the command up to, not including, the linker inputs. */
  function BeforeInputs(d: Driver, args: ArgList, out: InputInfo, c: Collaborators): seq<string> {
    LeadArgs(d, args) + HardeningArgs + ModeArgs(args) + OutputArgs(out) + StartFiles(args, c)
    + c.searchArgs + c.filePathLibArgs + LtoArgs(d, c) + c.compressDebugArgs
  }

  /** The -L/-T/-s/-t pass-through arguments follow the start files, and the
      linker inputs, in their given order, come after them and right before
      -lc. */
  lemma LinkerInputsPlaced(d: Driver, args: ArgList, out: InputInfo, c: Collaborators)
    requires out.Filename? || out.Nothing?
    ensures var cmd, h := ConstructJob(d, args, out, c), |HeadArgs(d, args, out, c)|;
      var k := h - |c.linkerInputs|;
      var j := |LeadArgs(d, args)| + |HardeningArgs| + |ModeArgs(args)| + |OutputArgs(out)| + |StartFiles(args, c)|;
      && j + |c.searchArgs| <= k <= h <= |cmd|
      && cmd[j..j + |c.searchArgs|] == c.searchArgs
      && cmd[j + |c.searchArgs|..k] == c.filePathLibArgs
        + (if d.ltoMode != LTONone && c.isLLD then c.ltoOptions(d.ltoMode == LTOThin) else [])
        + c.compressDebugArgs
      && cmd[k..h] == c.linkerInputs
      && (!OmitDefaultLibs(args) ==> h < |cmd| && cmd[h] == "-lc")
  {
    InputsPlaced(d, args, out, c);
    PreludePlaced(d, args, out, c);
    if !OmitDefaultLibs(args) {
      LibsInCommand(d, args, out, c);
      LibsStartShape(d, args, c);
    }
  }

  lemma InputsPlaced(d: Driver, args: ArgList, out: InputInfo, c: Collaborators)
    requires out.Filename? || out.Nothing?
    ensures var cmd, h := ConstructJob(d, args, out, c), |HeadArgs(d, args, out, c)|;
      var k := h - |c.linkerInputs|;
      var j := |LeadArgs(d, args)| + |HardeningArgs| + |ModeArgs(args)| + |OutputArgs(out)| + |StartFiles(args, c)|;
      && j + |c.searchArgs| <= k <= h <= |cmd|
      && cmd[j..j + |c.searchArgs|] == c.searchArgs
      && cmd[k..h] == c.linkerInputs
  {
    CommandPrefixes(d, args, out, c);
    HeadSlices(d, args, out, c);
    var cmd, head := ConstructJob(d, args, out, c), HeadArgs(d, args, out, c);
    var h, n := |head|, |c.searchArgs|;
    var k := h - |c.linkerInputs|;
    var j := |LeadArgs(d, args)| + |HardeningArgs| + |ModeArgs(args)| + |OutputArgs(out)| + |StartFiles(args, c)|;
    SliceOfPrefix(cmd, head, j, j + n);
    SliceOfPrefix(cmd, head, k, h);
  }

  /** Between the pass-through arguments and the linker inputs: the
      toolchain's file-path library arguments, the LTO options when LTO is on
      and the linker is lld (told whether LTO is thin), and the
      debug-section compression option. */
  lemma PreludePlaced(d: Driver, args: ArgList, out: InputInfo, c: Collaborators)
    requires out.Filename? || out.Nothing?
    ensures var cmd, h := ConstructJob(d, args, out, c), |HeadArgs(d, args, out, c)|;
      var k := h - |c.linkerInputs|;
      var m := |LeadArgs(d, args)| + |HardeningArgs| + |ModeArgs(args)| + |OutputArgs(out)| + |StartFiles(args, c)|
        + |c.searchArgs|;
      && m <= k <= |cmd|
      && cmd[m..k] == c.filePathLibArgs
        + (if d.ltoMode != LTONone && c.isLLD then c.ltoOptions(d.ltoMode == LTOThin) else [])
        + c.compressDebugArgs
  {
    CommandPrefixes(d, args, out, c);
    HeadSlices(d, args, out, c);
    BeforeInputsTail(d, args, out, c);
    var cmd, head, before := ConstructJob(d, args, out, c), HeadArgs(d, args, out, c), BeforeInputs(d, args, out, c);
    var m := |LeadArgs(d, args)| + |HardeningArgs| + |ModeArgs(args)| + |OutputArgs(out)| + |StartFiles(args, c)|
      + |c.searchArgs|;
    SliceBefore(before, c.linkerInputs, m, |before|);
    SliceOfPrefix(cmd, head, m, |before|);
  }

  /** The part of the head before the linker inputs ends with the file-path
      library arguments, the LTO options and the compression option. */
  lemma BeforeInputsTail(d: Driver, args: ArgList, out: InputInfo, c: Collaborators)
    ensures var before, m := BeforeInputs(d, args, out, c),
        |LeadArgs(d, args)| + |HardeningArgs| + |ModeArgs(args)| + |OutputArgs(out)| + |StartFiles(args, c)|
        + |c.searchArgs|;
      && m <= |before|
      && before[m..|before|] == c.filePathLibArgs
        + (if d.ltoMode != LTONone && c.isLLD then c.ltoOptions(d.ltoMode == LTOThin) else [])
        + c.compressDebugArgs
  {
    var x4 := LeadArgs(d, args) + HardeningArgs + ModeArgs(args) + OutputArgs(out) + StartFiles(args, c)
      + c.searchArgs;
    var fp, lto, cd := c.filePathLibArgs, LtoArgs(d, c), c.compressDebugArgs;
    AppendAssoc(x4 + fp, lto, cd);
    AppendAssoc(x4, fp, lto + cd);
    DropPrefix(x4, fp + (lto + cd));
    AppendAssoc(fp, lto, cd);
  }

  lemma HeadSlices(d: Driver, args: ArgList, out: InputInfo, c: Collaborators)
    ensures var head := HeadArgs(d, args, out, c);
      var k := |head| - |c.linkerInputs|;
      var j := |LeadArgs(d, args)| + |HardeningArgs| + |ModeArgs(args)| + |OutputArgs(out)| + |StartFiles(args, c)|;
      && j + |c.searchArgs| <= k
      && head == BeforeInputs(d, args, out, c) + c.linkerInputs
      && k == |BeforeInputs(d, args, out, c)|
      && head[j..j + |c.searchArgs|] == c.searchArgs
      && head[k..|head|] == c.linkerInputs
  {
  }

  /** No output option and no start file comes after the first linker input,
      and no -lc comes before the last one, each for the tokens kept apart. */
  lemma LinkerInputsBetween(d: Driver, args: ArgList, out: InputInfo, c: Collaborators)
    requires out.Filename? || out.Nothing?
    ensures var cmd, h := ConstructJob(d, args, out, c), |HeadArgs(d, args, out, c)|;
      var k := h - |c.linkerInputs|;
      && 0 <= k <= h <= |cmd|
      && (Apart(d, args, out, c, "-o") ==> "-o" !in cmd[k..])
      && (CrtApart(d, args, out, c) ==>
            && c.getFilePath("crt1.o") !in cmd[k..] && c.getFilePath("mcrt1.o") !in cmd[k..]
            && c.getFilePath("crti.o") !in cmd[k..] && c.getFilePath("crtbegin.o") !in cmd[k..])
      && (Apart(d, args, out, c, "-lc") ==> "-lc" !in cmd[..h])
  {
    var x := BeforeInputs(d, args, out, c);
    var libs, ends := DefaultLibs(d, args, c), EndFiles(args, c);
    DropFront(x, c.linkerInputs, libs, ends, c.profileRTLibs);
    if Apart(d, args, out, c, "-o") {
      OutputFlagAfterInputsFree(d, args, out, c);
    }
    if CrtApart(d, args, out, c) {
      StartFilesAfterInputsFree(d, args, out, c);
    }
    if Apart(d, args, out, c, "-lc") {
      LibNotInHead(d, args, out, c, "-lc");
    }
  }

  lemma OutputFlagAfterInputsFree(d: Driver, args: ArgList, out: InputInfo, c: Collaborators)
    requires Apart(d, args, out, c, "-o")
    ensures "-o" !in c.linkerInputs + DefaultLibs(d, args, c) + EndFiles(args, c) + c.profileRTLibs
  {
    LiteralNotCrt(d, args, out, c, "-o");
    OwnTokenSeparated(d, args, out, c, "-o");
    LibsFacts(d, args, c);
    OwnTokenInLibs(d, args, out, c, "-o");
  }

  lemma StartFilesAfterInputsFree(d: Driver, args: ArgList, out: InputInfo, c: Collaborators)
    requires CrtApart(d, args, out, c)
    ensures var rest := c.linkerInputs + DefaultLibs(d, args, c) + EndFiles(args, c) + c.profileRTLibs;
      && c.getFilePath("crt1.o") !in rest && c.getFilePath("mcrt1.o") !in rest
      && c.getFilePath("crti.o") !in rest && c.getFilePath("crtbegin.o") !in rest
  {
    StartCrtAfterInputsFree(d, args, out, c, c.getFilePath("crt1.o"));
    StartCrtAfterInputsFree(d, args, out, c, c.getFilePath("mcrt1.o"));
    StartCrtAfterInputsFree(d, args, out, c, c.getFilePath("crti.o"));
    StartCrtAfterInputsFree(d, args, out, c, c.getFilePath("crtbegin.o"));
  }

  lemma StartCrtAfterInputsFree(d: Driver, args: ArgList, out: InputInfo, c: Collaborators, p: string)
    requires CrtApart(d, args, out, c)
    requires p in [c.getFilePath("crt1.o"), c.getFilePath("mcrt1.o"), c.getFilePath("crti.o"), c.getFilePath("crtbegin.o")]
    ensures p !in c.linkerInputs + DefaultLibs(d, args, c) + EndFiles(args, c) + c.profileRTLibs
  {
    CrtFacts(d, args, out, c);
    assert p in CrtPaths(c);
    OwnTokenSeparated(d, args, out, c, p);
    CrtOutsideOwnFlags(d, args, out, c, p);
    OwnTokenInLibs(d, args, out, c, p);
  }

  /** A default library kept apart is not in the head. */
  lemma LibNotInHead(d: Driver, args: ArgList, out: InputInfo, c: Collaborators, lib: string)
    requires lib in DefaultLibNames && Apart(d, args, out, c, lib)
    ensures lib !in HeadArgs(d, args, out, c)
  {
    LibOutsideOwnFlags(d, args, lib);
    LiteralNotCrt(d, args, out, c, lib);
    OwnTokenInHead(d, args, out, c, lib);
  }

  // ---- Fortran runtime ------------------------------------------------------------

  /** In Fortran mode the runtime path and libraries come directly after
      -lgcc_eh, so after the C runtime -lc, -lm and -lregex, not before it. */
  lemma FortranRuntimeAfterCRuntime(d: Driver, args: ArgList, out: InputInfo, c: Collaborators)
    requires out.Filename? || out.Nothing?
    requires d.flangMode && !OmitDefaultLibs(args)
    ensures var cmd, e := ConstructJob(d, args, out, c), |LibsFront(d, args, out, c)|;
      var f := c.fortranRuntimePath + c.fortranRuntimeLibs;
      && e + 1 + |f| <= |cmd|
      && cmd[e] == "-lgcc_eh"
      && cmd[e + 1..e + 1 + |f|] == f
      && (Apart(d, args, out, c, "-lc") ==> "-lc" !in cmd[e..])
      && (Apart(d, args, out, c, "-lm") ==> "-lm" !in cmd[e..])
      && (Apart(d, args, out, c, "-lregex") ==> "-lregex" !in cmd[e..])
  {
    SplitAtGccEh(d, args, out, c);
    var front, back := LibsFront(d, args, out, c), LibsBack(d, args, c);
    var f := FortranArgs(d, args, c);
    BackShape(d, args, c);
    DropPrefix(front, back);
    SliceAfter(front, back, 1, 1 + |f|);
    if Apart(d, args, out, c, "-lc") {
      LibOnlyInFront(d, args, out, c, "-lc");
    }
    if Apart(d, args, out, c, "-lm") {
      LibOnlyInFront(d, args, out, c, "-lm");
    }
    if Apart(d, args, out, c, "-lregex") {
      LibOnlyInFront(d, args, out, c, "-lregex");
    }
  }

  /** What follows the C runtime: -lgcc_eh, then the Fortran runtime. */
  lemma BackShape(d: Driver, args: ArgList, c: Collaborators)
    ensures var back, f := LibsBack(d, args, c), FortranArgs(d, args, c);
      && |back| >= 1 + |f|
      && back[0] == "-lgcc_eh"
      && back[1..1 + |f|] == f
  {
    var f, ends := FortranArgs(d, args, c), EndFiles(args, c);
    SliceBefore(["-lgcc_eh"] + f + ends, c.profileRTLibs, 1, 1 + |f|);
    SliceBefore(["-lgcc_eh"] + f, ends, 1, 1 + |f|);
    SliceAfter(["-lgcc_eh"], f, 0, |f|);
  }

  // ---- Relocatable links ------------------------------------------------------------

  /** A relocatable (-r) link names no dynamic loader, no start or end file
      and no default library, each for the tokens kept apart. */
  lemma RelocatableLinkBare(d: Driver, args: ArgList, out: InputInfo, c: Collaborators)
    requires out.Filename? || out.Nothing?
    requires args.relocatable
    ensures var cmd := ConstructJob(d, args, out, c);
      && (Apart(d, args, out, c, "-dynamic-linker") ==> "-dynamic-linker" !in cmd)
      && (CrtApart(d, args, out, c) ==> forall i :: 0 <= i < |CrtPaths(c)| ==> CrtPaths(c)[i] !in cmd)
      && (forall lib :: lib in DefaultLibNames && Apart(d, args, out, c, lib) ==> lib !in cmd)
  {
    LinkModeExclusive(d, args, out, c);
    if CrtApart(d, args, out, c) {
      StartEndFilesPresent(d, args, out, c);
    }
    DefaultLibsPresent(d, args, out, c);
  }

  // ---- A whole command ------------------------------------------------------------

  /** A dynamic PIE link of one object under the sysroot /opt/qnx: the start
      files are found in its usr/lib, which is also the only search argument. */
  const ExampleDriver: Driver := Driver("/opt/qnx", "/usr/lib/clang", false, false, LTONone)
  const ExampleArgs: ArgList := NoFlags.(pie := true)
  const ExampleLib: string := "/opt/qnx/usr/lib/"
  const ExampleCollaborators: Collaborators :=
    Collaborators((n: string) => ExampleLib + n, false, [], ["-L/opt/qnx/usr/lib"],
      (b: bool) => [], [], ["a.o"], (b: bool) => [], true, [], [], [], [])

  lemma ExampleSegments()
    ensures LeadArgs(ExampleDriver, ExampleArgs) == ["--sysroot=/opt/qnx", "-pie"]
    ensures StartFiles(ExampleArgs, ExampleCollaborators)
      == [ExampleLib + "crt1.o", ExampleLib + "crti.o", ExampleLib + "crtbegin.o"]
    ensures DefaultLibs(ExampleDriver, ExampleArgs, ExampleCollaborators)
      == ["-lc", "-lm", "-lregex", "-lgcc_s", "-lgcc_eh"]
    ensures EndFiles(ExampleArgs, ExampleCollaborators) == [ExampleLib + "crtend.o", ExampleLib + "crtn.o"]
  {
    assert "--sysroot=" + "/opt/qnx" == "--sysroot=/opt/qnx";
  }

  /** A user `-lm` among the linker inputs takes `-lm` out of the QNX code's
      hands but leaves `-lc` apart, so the statements about `-lc` still apply. */
  lemma ExampleUserLibrary()
    ensures var c := ExampleCollaborators.(linkerInputs := ["a.o", "-lm"]);
      && Apart(ExampleDriver, ExampleArgs, Filename("a.out"), c, "-lc")
      && !Apart(ExampleDriver, ExampleArgs, Filename("a.out"), c, "-lm")
      && ("-lc" in ConstructJob(ExampleDriver, ExampleArgs, Filename("a.out"), c) <==> !OmitDefaultLibs(ExampleArgs))
  {
    var c := ExampleCollaborators.(linkerInputs := ["a.o", "-lm"]);
    assert SplicedArgs(ExampleDriver, ExampleArgs, c) == ["-L/opt/qnx/usr/lib", "a.o", "-lm"];
    DefaultLibsPresent(ExampleDriver, ExampleArgs, Filename("a.out"), c);
  }

  /** The example's collaborators with an OpenMP runtime that is wrapped in
      -Bstatic ... -Bdynamic when it is told to link statically. */
  const ExampleOpenMP: Collaborators :=
    ExampleCollaborators.(openmpRuntime := (b: bool) => if b then ["-Bstatic", "-lomp", "-Bdynamic"] else ["-lomp"])

  /** A static OpenMP link tells the runtime not to wrap itself, so the
      only -Bstatic is the QNX code's own and `LinkModeExclusive` finds it. */
  lemma ExampleOpenMPStatic()
    ensures var c, o, a := ExampleOpenMP, Filename("a.out"), NoFlags.(isStatic := true);
      && Apart(ExampleDriver, a, o, c, "-Bstatic")
      && "-Bstatic" in ConstructJob(ExampleDriver, a, o, c)
  {
    var c, o, a := ExampleOpenMP, Filename("a.out"), NoFlags.(isStatic := true);
    assert SplicedArgs(ExampleDriver, a, c) == ["-L/opt/qnx/usr/lib", "a.o", "-lomp"];
    LinkModeExclusive(ExampleDriver, a, o, c);
  }

  /** A dynamic OpenMP link without -static-openmp keeps -Bstatic apart, and
      `LinkModeExclusive` shows it absent. */
  lemma ExampleOpenMPDynamic()
    ensures var c, o := ExampleOpenMP, Filename("a.out");
      && Apart(ExampleDriver, ExampleArgs, o, c, "-Bstatic")
      && "-Bstatic" !in ConstructJob(ExampleDriver, ExampleArgs, o, c)
  {
    var c, o := ExampleOpenMP, Filename("a.out");
    assert SplicedArgs(ExampleDriver, ExampleArgs, c) == ["-L/opt/qnx/usr/lib", "a.o", "-lomp"];
    LinkModeExclusive(ExampleDriver, ExampleArgs, o, c);
  }

  /** Only a dynamic link with -static-openmp has the runtime bring its own
      -Bstatic, and there -Bstatic is not apart. */
  lemma ExampleStaticOpenMPRuntime()
    ensures !Apart(ExampleDriver, ExampleArgs.(staticOpenmp := true), Filename("a.out"), ExampleOpenMP, "-Bstatic")
  {
    var a := ExampleArgs.(staticOpenmp := true);
    assert SplicedArgs(ExampleDriver, a, ExampleOpenMP)
      == ["-L/opt/qnx/usr/lib", "a.o", "-Bstatic", "-lomp", "-Bdynamic"];
  }

  /** The whole command of the example link, argument by argument. */
  lemma ExampleDynamicLink()
    ensures ConstructJob(ExampleDriver, ExampleArgs, Filename("a.out"), ExampleCollaborators) ==
      ["--sysroot=/opt/qnx", "-pie",
       "--warn-shared-textrel", "-zrelro", "-znow", "--eh-frame-hdr", "-z", "stack-size=8388608",
       "-dynamic-linker", "/usr/lib/ldqnx-64.so.2", "-o", "a.out",
       ExampleLib + "crt1.o", ExampleLib + "crti.o", ExampleLib + "crtbegin.o",
       "-L/opt/qnx/usr/lib", "a.o",
       "-lc", "-lm", "-lregex", "-lgcc_s", "-lgcc_eh",
       ExampleLib + "crtend.o", ExampleLib + "crtn.o"]
  {
    ExampleSegments();
  }
}
