# QNX toolchain policy of the clang driver, in Dafny

The clang driver picks a toolchain object for each target. For QNX
(`x86_64-pc-nto-qnx*`, `aarch64-unknown-nto-qnx*`) that object decides:

- the library search directories;
- the fixed default answers the driver asks of every toolchain (PIC, PIE, errno, linker name, C++ library, unwinder);
- the system include directories handed to the compiler proper;
- the sanitizers it reports as supported;
- the exact argument list of the `ld` link job.

This project models that policy as pure functions over an immutable
snapshot of the driver flags and the driver state, and proves what the
produced argument lists contain and in which order.

Modules:

- `Options` (`options.dfy`): the driver flags the QNX code reads, each the answer of one `hasArg`. A multi-option `hasArg(a, b, c)` is the disjunction of those flags (`OmitStartFiles`, `OmitDefaultLibs`).
- `PathStrings` (`path_strings.dfy`): splitting a `:`-separated list with empty pieces kept (as `StringRef::split` does), its inverse `Join`, the POSIX absolute-path test, and `path::append` of one component.
- `QnxToolChain` (`qnx_toolchain.dfy`):
  - the constructor's search-path order;
  - the default-policy answers;
  - `AddClangSystemIncludeArgs` and `addLibCxxIncludePaths`, as the list of include directories they emit;
  - the sanitizer query.
- `QnxLinker` (`qnx_linker.dfy`): `Linker::ConstructJob` as a function from flags, driver state, output and the answers of the shared helpers to the argument list. The list is built as a concatenation of named segments in the order the code pushes them.
- `QnxLinkerFacts` (`qnx_linker_facts.dfy`): membership (which flags occur, exactly when), positions and relative order in the link command.
- `SeqOrder` (`seq_order.dfy`): "every `a` precedes every `b`" on sequences, and the slice and regrouping facts about concatenations that the position proofs use.

The shared driver helpers whose bodies are not part of this model are
fields of a `Collaborators` record. Each field is the argument sequence the
helper appends at its position; a helper that is told a flag is a function
of that flag. The helpers are `addLTOOptions`, `addLinkerCompressDebugSectionsOption`, `AddLinkerInputs`,
`addOpenMPRuntime`, `AddCXXStdlibLibArgs`, the Fortran runtime helpers,
`addProfileRTLibs`, `AddFilePathLibArgs`, `GetFilePath` and the pass-through of
`-L`/`-T`/`-s`/`-t`. A statement that a token occurs "exactly when" something holds
needs that token to reach the command only through the QNX code's own pushes.
These helpers include `AddLinkerInputs`, which passes user arguments such as
`-lm` or `-Wl,-z,...` through. The hypothesis is stated per token and only for
the tokens a statement names:

- `QnxLinkerFacts.Apart(d, args, out, c, tok)`: no helper that this link calls splices `tok` in, no start or end file resolves to it, and it is not the output name. A helper that is told a flag is judged by its output for the value this link actually passes (`QnxLinkerFacts.SplicedArgs`). Helpers the link does not call are not consulted: the LTO options outside an lld LTO link, and the OpenMP, C++ and Fortran helpers when default libraries are off.
- `QnxLinkerFacts.CrtApart(d, args, out, c)`: the six start/end files resolve to distinct paths. None of them is a QNX flag, the sysroot argument, an argument spliced into this link or the output name. Only the start/end-file statements use it.

A lemma about several tokens states each token's conclusion under that token's
own hypothesis. For example, a user `-lm` leaves every statement about `-lc`
in force (`QnxLinkerFacts.ExampleUserLibrary`). Statements about positions
need no hypothesis.

The model follows what the code does. Four points where that differs from what a reader might expect:

- `-pie` and `-r`: `IsPIE` (`QNX.cpp:34`) looks only at `-shared`, because PIE is the QNX default. A relocatable link that is not shared therefore gets `-pie` as well. `QnxLinkerFacts.LeadPlaced` and `QnxLinkerFacts.PieExactlyWhenNotShared` state this.
- Configured include directories (`C_INCLUDE_DIRS`, `QNX.cpp:201-207`): each `:`-separated entry is emitted as an extern-C include. An absolute entry is prefixed with the sysroot; a relative entry is passed through unchanged.
- The Fortran runtime: the comment at `QNX.cpp:141-144` asks for it before the C runtime. The code pushes it after `-lgcc_eh`, so after `-lc`, `-lm` and `-lregex`. `QnxLinkerFacts.FortranRuntimeAfterCRuntime` states the code's order.
- `getSupportedSanitizers`: it computes the base mask plus six kinds and then returns an empty mask. The union is dead, and the toolchain reports no sanitizer.

## Model

| member | source | states |
|---|---|---|
| QnxLinker.ConstructJob | clang/lib/Driver/ToolChains/QNX.cpp:50-65 | The command opens with `--sysroot=<sysroot>` exactly when a sysroot is set. The lead before the hardening run has one argument for the sysroot and one for `-pie` unless the link is shared, and the command is at least that long plus the six hardening arguments |
| QnxLinkerFacts.LeadPlaced | clang/lib/Driver/ToolChains/QNX.cpp:34-56 | The command begins with the lead: `--sysroot=<sysroot>` first when a sysroot is set, and `-pie` as the last lead argument in every link that is not shared |
| QnxLinkerFacts.HardeningPlaced | clang/lib/Driver/ToolChains/QNX.cpp:58-65 | In every link the text-relocation warning, `-zrelro`, `-znow`, `--eh-frame-hdr` and the 8 MiB stack size (`-z stack-size=8388608`) come, in that order, directly after the sysroot argument and `-pie` |
| QnxLinkerFacts.PieExactlyWhenNotShared | clang/lib/Driver/ToolChains/QNX.cpp:34-56 | Because PIE is the QNX default, `-pie` occurs in the command if and only if the link is not shared, provided `-pie` is apart |
| QnxLinkerFacts.LinkModeExclusive | clang/lib/Driver/ToolChains/QNX.cpp:67-76 | The QNX code writes exactly one link mode, each an if-and-only-if that holds whenever that flag is apart: `-Bstatic` for static links; `-shared` for non-static shared links; `-dynamic-linker` and the QNX loader for every other link except relocatable ones |
| QnxLinkerFacts.DynamicLinkerThenLoader | clang/lib/Driver/ToolChains/QNX.cpp:58-75 | In a dynamic link `/usr/lib/ldqnx-64.so.2` directly follows `-dynamic-linker`, right after the hardening arguments |
| QnxLinkerFacts.OutputFileArg | clang/lib/Driver/ToolChains/QNX.cpp:78-82 | When the output is a file, its name directly follows `-o` after the mode arguments. When `-o` is apart, `-o` occurs if and only if the output is a file |
| QnxLinkerFacts.StartEndFilesPresent | clang/lib/Driver/ToolChains/QNX.cpp:84-160 | With the start/end files apart, each occurs if and only if its step runs. Unless -nostdlib, -nostartfiles or -r: crt1.o for non-shared links without -pg, mcrt1.o for non-shared links with -pg, and crti.o, crtbegin.o, crtend.o and crtn.o always |
| QnxLinkerFacts.StartEndFilesPlaced | clang/lib/Driver/ToolChains/QNX.cpp:84-160 | The start files directly follow the output option in the order crt1/mcrt1, crti, crtbegin. crtend.o and crtn.o are the last two arguments before the profiling libraries |
| QnxLinkerFacts.DefaultLibsPresent | clang/lib/Driver/ToolChains/QNX.cpp:110-136 | -nostdlib, -nodefaultlibs or -r leave out every default library that is apart. Otherwise -lc, -lm, -lregex and -lgcc_eh are linked, plus -lgcc exactly for a static link and -lgcc_s exactly for a dynamic one. Each library's if-and-only-if holds whenever that library is apart |
| QnxLinkerFacts.LocaleCatalogOnlyStaticCxx | clang/lib/Driver/ToolChains/QNX.cpp:126-134 | Each of -llocale and -lcatalog, when apart, occurs if and only if the link is static, default libraries are on, and the C++ driver links the C++ standard library |
| QnxLinkerFacts.DefaultLibsPlaced | clang/lib/Driver/ToolChains/QNX.cpp:110-149 | The default libraries start right after the linker inputs with -lc, -lm, -lregex, -lgcc/-lgcc_s. Then comes the OpenMP runtime, told to link statically exactly under -static-openmp in a non-static link. In C++ mode, when the C++ standard library is linked, its arguments follow, and in a static link -llocale and -lcatalog after them. Then -lgcc_eh, and the Fortran runtime directly after it |
| QnxLinkerFacts.GccEhAfterOtherLibs | clang/lib/Driver/ToolChains/QNX.cpp:110-136 | With -lgcc_eh apart, every occurrence of any other default library that is apart precedes every occurrence of -lgcc_eh |
| QnxLinkerFacts.EndFilesAfterDefaultLibs | clang/lib/Driver/ToolChains/QNX.cpp:110-158 | With the start/end files apart, every default library that is apart precedes every occurrence of crtend.o and of crtn.o |
| QnxLinkerFacts.LinkerInputsPlaced | clang/lib/Driver/ToolChains/QNX.cpp:98-112 | The -L/-T/-s/-t arguments come verbatim right after the start files. Then come the file-path library arguments, the LTO options when LTO is on and the linker is lld (told "thin" exactly for thin LTO), and the debug-section compression option. The linker inputs follow, in their given order, directly before -lc |
| QnxLinkerFacts.LinkerInputsBetween | clang/lib/Driver/ToolChains/QNX.cpp:78-112 | From the first linker input on there is no `-o` (when `-o` is apart) and no start file (when the start/end files are apart). No -lc occurs before the end of the inputs (when -lc is apart) |
| QnxLinkerFacts.FortranRuntimeAfterCRuntime | clang/lib/Driver/ToolChains/QNX.cpp:136-149 | In Fortran mode the runtime path and libraries directly follow -lgcc_eh. Each of -lc, -lm and -lregex that is apart occurs only before that point |
| QnxLinkerFacts.RelocatableLinkBare | clang/lib/Driver/ToolChains/QNX.cpp:72-158 | A relocatable (-r) link names no dynamic linker (when `-dynamic-linker` is apart), no start or end file (when they are apart) and no default library that is apart |
| QnxLinkerFacts.ExampleUserLibrary | clang/lib/Driver/ToolChains/QNX.cpp:108-112 | When a user `-lm` comes in through the linker inputs, `-lm` is no longer apart but `-lc` still is, and `-lc` occurs exactly when default libraries are on |
| QnxLinkerFacts.ExampleOpenMPStatic | clang/lib/Driver/ToolChains/QNX.cpp:67-124 | In a static link with an OpenMP runtime that wraps itself only when told to link statically, the runtime is told not to, `-Bstatic` stays apart, and `-Bstatic` is in the command |
| QnxLinkerFacts.ExampleOpenMPDynamic | clang/lib/Driver/ToolChains/QNX.cpp:67-124 | In a dynamic link without -static-openmp, with the same runtime, `-Bstatic` stays apart and does not occur in the command |
| QnxLinkerFacts.ExampleStaticOpenMPRuntime | clang/lib/Driver/ToolChains/QNX.cpp:122-124 | In a dynamic link with -static-openmp the same runtime is told to link statically, and its own `-Bstatic` means `-Bstatic` is not apart |
| QnxLinkerFacts.ExampleDynamicLink | clang/lib/Driver/ToolChains/QNX.cpp:50-160 | The complete argument list of a dynamic PIE link of one object with the sysroot /opt/qnx |
| QnxLinker.QnxLinkerTool | clang/lib/Driver/ToolChains/QNX.h:21-26 | The QNX linker tool is a link job without an integrated preprocessor, named "QNX::Linker" with short name "linker" |
| QnxToolChain.NewQnxToolChain | clang/lib/Driver/ToolChains/QNX.cpp:168-177 | The inherited search paths are kept as a prefix, followed by `<sysroot>/usr/lib`, followed by the GCC install path exactly when the probe found one. The install path appears only if the probe found one or it was already there |
| QnxToolChain.IsMathErrnoDefault | clang/lib/Driver/ToolChains/QNX.h:43 | Math functions do not set errno by default |
| QnxToolChain.IsPICDefault | clang/lib/Driver/ToolChains/QNX.h:44 | Code is position independent by default |
| QnxToolChain.IsPIEDefault | clang/lib/Driver/ToolChains/QNX.h:45 | Executables are PIE by default, whatever the flags |
| QnxToolChain.HasNativeLLVMSupport | clang/lib/Driver/ToolChains/QNX.h:46 | The toolchain reports native LLVM support |
| QnxToolChain.DefaultLinker | clang/lib/Driver/ToolChains/QNX.h:47 | The default linker is `ld` |
| QnxToolChain.DefaultCXXStdlibType | clang/lib/Driver/ToolChains/QNX.h:55-57 | The default C++ standard library is libc++ |
| QnxToolChain.DefaultUnwindLibType | clang/lib/Driver/ToolChains/QNX.h:58-60 | The default unwinder is libgcc |
| QnxToolChain.ClangSystemIncludes | clang/lib/Driver/ToolChains/QNX.cpp:179-214 | -nostdinc gives no directory. Otherwise the builtin `<resource>/include` comes first unless -nobuiltininc, and -nostdlibinc stops there. A configured list gives, per `:`-separated piece and in order, one extern-C directory: `<sysroot><piece>` for an absolute piece and the piece itself otherwise, and no shims. Without one, the system directories `<sysroot>/usr/include/shims` and then `<sysroot>/usr/include` |
| QnxToolChain.ConfiguredIncludeDirs | clang/lib/Driver/ToolChains/QNX.cpp:198-207 | One extern-C include per `:`-separated piece, in order. An absolute piece is re-rooted under the sysroot; a relative one is kept as is |
| QnxToolChain.ConfiguredIncludesRoundTrip | clang/lib/Driver/ToolChains/QNX.cpp:199-207 | With an empty sysroot, or an absolute one other than `/`, the emitted directories lose nothing. Stripping the sysroot from the absolute ones and joining with `:` gives back the configured list |
| QnxToolChain.LibCxxIncludes | clang/lib/Driver/ToolChains/QNX.cpp:216-221 | libc++ headers come from one system directory, `<sysroot>/usr/include/c++/v1`, whatever the flags |
| QnxToolChain.LibCxxUnderSystemInclude | clang/lib/Driver/ToolChains/QNX.cpp:211-220 | The libc++ directory is the `c++/v1` subdirectory of the last default system include directory |
| QnxToolChain.SanitizerUnion | clang/lib/Driver/ToolChains/QNX.cpp:224-230 | The computed mask holds the base toolchain's kinds and Address, PointerCompare, PointerSubtract, Memory, Leak and Thread, and nothing else |
| QnxToolChain.SupportedSanitizers | clang/lib/Driver/ToolChains/QNX.cpp:223-231 | No sanitizer is reported as supported, whatever the base toolchain supports |
| QnxToolChain.SanitizerUnionDiscarded | clang/lib/Driver/ToolChains/QNX.cpp:223-231 | No kind in the computed union reaches the caller; in particular Address is computed but not reported |
| PathStrings.Split | clang/lib/Driver/ToolChains/QNX.cpp:201-202 | Splitting at `:` yields at least one piece, none contains `:`, and joining the pieces with `:` gives back the input |
| PathStrings.SplitJoin | clang/lib/Driver/ToolChains/QNX.cpp:201-202 | Joining separator-free pieces and splitting again gives back the pieces |
| PathStrings.SplitCount | clang/lib/Driver/ToolChains/QNX.cpp:201-202 | A list with n separators splits into n + 1 pieces, empty pieces included |
| PathStrings.PathAppend | clang/lib/Driver/ToolChains/QNX.cpp:189-190 | Appending `include` to the resource directory keeps the directory as a prefix and the component as a suffix. Exactly one `/` is inserted between them unless the directory is empty or already ends in `/` |

## Left out

- Command creation (`QNX.cpp:162-165`): the linker path lookup and the `Command` object are not modelled; the model returns the argument list. `GetLinkerPath` is reduced to its `isLLD` answer.
- Argument claiming (`ClaimAllArgs`, `claimAllArgs`): it only silences unused-argument warnings and does not change the command.
- The `assert` on the output kind (`QNX.cpp:78`) becomes a precondition of `ConstructJob`.
- `GCCInstallation.init` and the generic ELF base constructor are not part of this model. The probe result and the inherited search paths are parameters of `NewQnxToolChain`.
- `ToolChain::GetFilePath`, `AddFilePathLibArgs`, `addLTOOptions`, `addLinkerCompressDebugSectionsOption`, `AddLinkerInputs`, `addOpenMPRuntime`, `ShouldLinkCXXStdlib`, `AddCXXStdlibLibArgs`, the Fortran runtime helpers, `addProfileRTLibs` and `addAllArgs`: their bodies are not part of this model. Their output is a parameter (`QnxLinker.Collaborators`), spliced in at the position the code calls them.
- `SanitizerMask` bit layout: sanitizers are a set of kinds. Kinds other than the six named ones are represented by `Other(name)`.
- `ToolChain::concat` is modelled as plain string concatenation of the sysroot and the suffix. Its handling of a sysroot that ends in a separator is not modelled.
- `addSystemInclude` and `addExternCSystemInclude`: how they render directories into `-internal-isystem` / `-internal-externc-isystem` compiler flags is not modelled. The include functions return the ordered directories, tagged system or extern-C.
- `C_INCLUDE_DIRS` is a configure-time constant; it is a parameter of `ClangSystemIncludes`.
- `buildLinker` (`QNX.h:63`, `QNX.cpp:234-235`) only allocates the tool; `QnxLinker.QnxLinkerTool` gives the tool's traits.
- Membership statements in `QnxLinkerFacts` say nothing about a token that is not apart. Real commands do contain such tokens. `AddLinkerInputs` passes user `-l`, `-Wl,` and `-z` arguments through, so a user `-lm` can precede the QNX code's own `-lm`, or `-lc` can appear among the inputs. The statically linked OpenMP runtime brings its own `-Bstatic` (see the next line). In those cases only the statements about the other tokens, and all positional statements, apply.
- QnxLinkerFacts.LinkModeExclusive: the `-Bstatic` statement covers the `-Bstatic` the QNX code writes itself. The helper is told to link statically only in a dynamic link with -static-openmp (`QNX.cpp:122-124`). `addOpenMPRuntime` can then wrap the runtime in `-Bstatic` ... `-Bdynamic`, and the command holds `-Bstatic` beside `-dynamic-linker`. In that one case `-Bstatic` is not apart, so the lemma's `-Bstatic` conjunct says nothing about it (`QnxLinkerFacts.ExampleStaticOpenMPRuntime`). The `-shared`, `-dynamic-linker` and loader conjuncts still apply. Static OpenMP links and dynamic ones without -static-openmp are covered (`QnxLinkerFacts.ExampleOpenMPStatic`, `QnxLinkerFacts.ExampleOpenMPDynamic`).
- PathStrings.PathAppend: models `path::append` on a POSIX host (separator `/`). On a Windows host the native style inserts `\`, and this is not modelled.
- QnxToolChain.ConfiguredIncludeDirs: `is_absolute` is taken in the POSIX sense: the path has a root directory. It starts with `/`, and it is not a bare network root name `//name` with no later `/` (`PathStrings.IsAbsolute`). On a Windows host `/a` has no root name, is not absolute, and would not be re-rooted under the sysroot; this is not modelled.
