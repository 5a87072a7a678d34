/** The snapshot of driver flags the QNX toolchain reads. Each field is the
    answer of `Args.hasArg` for one option; a multi-option `hasArg(a, b, c)`
    is the disjunction of the corresponding fields. */
module Options {

  datatype ArgList = ArgList(
    isShared: bool,       // -shared
    isStatic: bool,       // -static
    pie: bool,            // -pie
    relocatable: bool,    // -r
    pg: bool,             // -pg
    nostdlib: bool,       // -nostdlib
    nostartfiles: bool,   // -nostartfiles
    nodefaultlibs: bool,  // -nodefaultlibs
    staticOpenmp: bool,   // -static-openmp
    nostdinc: bool,       // -nostdinc
    nobuiltininc: bool,   // -nobuiltininc
    nostdlibinc: bool)    // -nostdlibinc

  /** No option given. */
  const NoFlags: ArgList :=
    ArgList(false, false, false, false, false, false, false, false, false, false, false, false)

  /** `hasArg(OPT_nostdlib, OPT_nostartfiles, OPT_r)`: start and end files are left out. */
  predicate OmitStartFiles(args: ArgList) {
    args.nostdlib || args.nostartfiles || args.relocatable
  }

  /** `hasArg(OPT_nostdlib, OPT_nodefaultlibs, OPT_r)`: the default libraries are left out. */
  predicate OmitDefaultLibs(args: ArgList) {
    args.nostdlib || args.nodefaultlibs || args.relocatable
  }
}
