/** The QNX linker tool: turns the driver flags, the driver state and the
    outputs of the driver's shared helpers into the ordered argument list
    for `ld`. The order of the list is the contract: linkers resolve
    symbols by position. */
module QnxLinker {
  import opened Options
  import opened QnxToolChain

  /** What the link step produces: nothing, a file, or (not allowed for a
      link) a command-line input argument. */
  datatype InputInfo = Nothing | Filename(name: string) | InputArg(arg: string)

  /** The answers of the collaborators whose bodies are not part of this
      model. Each `seq<string>` is what that helper appends at its position;
      a helper that is told a flag is a function of that flag. */
  datatype Collaborators = Collaborators(
    getFilePath: string -> string,      // ToolChain::GetFilePath
    isLLD: bool,                        // set by GetLinkerPath
    searchArgs: seq<string>,            // -L, -T, -s and -t, verbatim in given order
    filePathLibArgs: seq<string>,       // ToolChain::AddFilePathLibArgs
    ltoOptions: bool -> seq<string>,    // addLTOOptions, told whether LTO is thin
    compressDebugArgs: seq<string>,     // addLinkerCompressDebugSectionsOption
    linkerInputs: seq<string>,          // AddLinkerInputs
    openmpRuntime: bool -> seq<string>, // addOpenMPRuntime, told whether to use the static runtime
    shouldLinkCxxStdlib: bool,          // ToolChain::ShouldLinkCXXStdlib
    cxxStdlibArgs: seq<string>,         // ToolChain::AddCXXStdlibLibArgs
    fortranRuntimePath: seq<string>,    // addFortranRuntimeLibraryPath
    fortranRuntimeLibs: seq<string>,    // addFortranRuntimeLibs
    profileRTLibs: seq<string>)         // addProfileRTLibs

  /** The QNX 64-bit dynamic loader. */
  const DynamicLoader: string := "/usr/lib/ldqnx-64.so.2"

  /** Text-relocation warnings, read-only relocations, immediate binding,
      an exception-frame header and an 8 MiB stack (the QNX default of
      256/512 KiB is too small). */
  const HardeningArgs: seq<string> :=
    ["--warn-shared-textrel", "-zrelro", "-znow", "--eh-frame-hdr", "-z", "stack-size=8388608"]

  /** The default libraries the QNX link step names itself. */
  const DefaultLibNames: set<string> :=
    {"-lc", "-lm", "-lregex", "-lgcc", "-lgcc_s", "-llocale", "-lcatalog", "-lgcc_eh"}

  function SysrootArg(d: Driver): string {
    "--sysroot=" + d.sysroot
  }

  /** A position-independent executable: not shared, and PIE asked for or
      the toolchain's default. */
  predicate IsPIE(args: ArgList) {
    !args.isShared && (args.pie || IsPIEDefault(args))
  }

  function LeadArgs(d: Driver, args: ArgList): seq<string> {
    (if d.sysroot != "" then [SysrootArg(d)] else [])
    + (if IsPIE(args) then ["-pie"] else [])
  }

  /** Static, else shared, else (unless relocatable) dynamic with the QNX loader. */
  function ModeArgs(args: ArgList): seq<string> {
    if args.isStatic then ["-Bstatic"]
    else if args.isShared then ["-shared"]
    else if !args.relocatable then ["-dynamic-linker", DynamicLoader]
    else []
  }

  function OutputArgs(out: InputInfo): seq<string> {
    if out.Filename? then ["-o", out.name] else []
  }

  /** The startup object: the profiling one under -pg. */
  function Crt1(args: ArgList): string {
    if args.pg then "mcrt1.o" else "crt1.o"
  }

  function StartFiles(args: ArgList, c: Collaborators): seq<string> {
    if OmitStartFiles(args) then []
    else
      (if args.isShared then [] else [c.getFilePath(Crt1(args))])
      + [c.getFilePath("crti.o"), c.getFilePath("crtbegin.o")]
  }

  function LtoArgs(d: Driver, c: Collaborators): seq<string> {
    if d.IsUsingLTO() && c.isLLD then c.ltoOptions(d.ltoMode == LTOThin) else []
  }

  function CxxStdlibArgs(d: Driver, args: ArgList, c: Collaborators): seq<string> {
    if d.cccIsCXX && c.shouldLinkCxxStdlib then
      c.cxxStdlibArgs + (if args.isStatic then ["-llocale", "-lcatalog"] else [])
    else []
  }

  /** Fortran runtime set-up. The guard repeats the -nostdlib/-nodefaultlibs
      test of the enclosing block; the runtime lands after -lgcc_eh. */
  function FortranArgs(d: Driver, args: ArgList, c: Collaborators): seq<string> {
    if d.flangMode && !(args.nostdlib || args.nodefaultlibs) then
      c.fortranRuntimePath + c.fortranRuntimeLibs
    else []
  }

  function DefaultLibs(d: Driver, args: ArgList, c: Collaborators): seq<string> {
    if OmitDefaultLibs(args) then []
    else
      ["-lc", "-lm", "-lregex", if args.isStatic then "-lgcc" else "-lgcc_s"]
      + c.openmpRuntime(args.staticOpenmp && !args.isStatic)
      + CxxStdlibArgs(d, args, c)
      + ["-lgcc_eh"]
      + FortranArgs(d, args, c)
  }

  function EndFiles(args: ArgList, c: Collaborators): seq<string> {
    if OmitStartFiles(args) then [] else [c.getFilePath("crtend.o"), c.getFilePath("crtn.o")]
  }

  /** Everything up to and including the linker inputs. */
  function HeadArgs(d: Driver, args: ArgList, out: InputInfo, c: Collaborators): seq<string> {
    LeadArgs(d, args) + HardeningArgs + ModeArgs(args) + OutputArgs(out) + StartFiles(args, c)
    + c.searchArgs + c.filePathLibArgs + LtoArgs(d, c) + c.compressDebugArgs + c.linkerInputs
  }

  /** The argument list of the QNX link job. The output must be a file or
      nothing. */
  function ConstructJob(d: Driver, args: ArgList, out: InputInfo, c: Collaborators): (cmd: seq<string>)
    requires out.Filename? || out.Nothing?
    ensures |LeadArgs(d, args)| == (if d.sysroot != "" then 1 else 0) + (if args.isShared then 0 else 1)
    ensures |cmd| >= |LeadArgs(d, args)| + |HardeningArgs|
    ensures d.sysroot != "" <==> cmd[0] == SysrootArg(d)
  {
    HeadArgs(d, args, out, c) + DefaultLibs(d, args, c) + EndFiles(args, c) + c.profileRTLibs
  }

  /** Traits of a driver tool. */
  datatype Tool = Tool(name: string, shortName: string, hasIntegratedCPP: bool, isLinkJob: bool)

  /** The QNX linker is a link job and runs no preprocessor of its own. */
  function QnxLinkerTool(): (t: Tool)
    ensures t.isLinkJob && !t.hasIntegratedCPP
    ensures t.name == "QNX::Linker" && t.shortName == "linker"
  {
    Tool("QNX::Linker", "linker", false, true)
  }
}
