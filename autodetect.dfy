/**
 * Build-environment autodetection (pmb/build/autodetect.py): which
 * architecture a package is built for, in which chroot, and whether and how
 * it is cross-compiled. Every operation is a total decision function over the
 * package's APKBUILD record and the configuration.
 */
module Autodetect {
  import opened Wrappers
  import opened Text
  import Glob

  /** The fields of a parsed APKBUILD that the build code reads. */
  datatype Apkbuild = Apkbuild(
    pkgname: string,
    pkgver: string,
    pkgrel: string,
    arch: seq<string>,
    makedepends: seq<string>,
    options: seq<string>)

  /**
   * The parts of `args` and `pmb.config` the decisions depend on.
   * `noarchArch` is "" when `args.noarch_arch` is absent or unset;
   * `deviceArch` is `args.deviceinfo["arch"]`; `crossNative` and
   * `crossNativeNodeps` are the pattern lists `build_cross_native` and
   * `build_cross_native_nodeps`; `emulationRequired` stands for
   * `pmb.parse.arch.cpu_emulation_required(args, ·)`, whose definition is not
   * part of this model.
   */
  datatype Config = Config(
    archNative: string,
    cross: bool,
    preferDistccCross: bool,
    noarchArch: string,
    deviceArch: string,
    crossNative: seq<string>,
    crossNativeNodeps: seq<string>,
    emulationRequired: string -> bool)

  /** The result of `crosscompile`: None, "native" or "distcc". */
  datatype CrossMode = NoCross | NativeCross | Distcc

  /** The ways `carch` can raise. */
  datatype ArchError =
    | UnsupportedArch(carch: string, pkgname: string)  // the RuntimeError of autodetect.py:34
    | EmptyArchList(pkgname: string)                   // the IndexError of `apkbuild["arch"][0]`

  /** Python truthiness of the optional `carch` argument: neither None nor "". */
  predicate Requested(carch: Option<string>) {
    carch.Some? && carch.value != ""
  }

  predicate IsRepack(a: Apkbuild) {
    EndsWith(a.pkgname, "-repack")
  }

  /** Whether some pattern of the list matches the name: the loops of autodetect.py:58-60 and 85-87. */
  function MatchesAny(name: string, patterns: seq<string>): (r: bool)
    ensures r <==> exists i :: 0 <= i < |patterns| && Glob.Match(name, patterns[i])
    decreases |patterns|
  {
    if patterns == [] then false
    else if Glob.Match(name, patterns[0]) then true
    else
      var rest := MatchesAny(name, patterns[1..]);
      assert forall i :: 1 <= i < |patterns| ==> patterns[i] == patterns[1..][i - 1];
      rest
  }

  /** The architecture a package is built for (autodetect.py:25-42). */
  function Carch(cfg: Config, a: Apkbuild, carch: Option<string>, strict: bool): (r: Result<string, ArchError>)
    // noarch never raises and takes the configured override, the device's or the native arch
    ensures "noarch" in a.arch ==>
      r == Success(if cfg.noarchArch != "" then cfg.noarchArch
                   else if strict then cfg.deviceArch else cfg.archNative)
    // otherwise the result is always an arch the package supports
    ensures "noarch" !in a.arch && r.Success? ==> "all" in a.arch || r.value in a.arch
    // a requested arch is returned as it is, or rejected iff the package does not support it
    ensures "noarch" !in a.arch && Requested(carch) ==>
      (r.Failure? <==> "all" !in a.arch && carch.value !in a.arch) &&
      (r.Success? ==> r.value == carch.value) &&
      (r.Failure? ==> r.error == UnsupportedArch(carch.value, a.pkgname))
    // with nothing requested the native arch is preferred, then the first one declared
    ensures "noarch" !in a.arch && !Requested(carch) ==>
      if "all" in a.arch || cfg.archNative in a.arch then r == Success(cfg.archNative)
      else if a.arch != [] then r == Success(a.arch[0])
      else r == Failure(EmptyArchList(a.pkgname))
  {
    if "noarch" in a.arch then
      if cfg.noarchArch != "" then Success(cfg.noarchArch)
      else if strict then Success(cfg.deviceArch)
      else Success(cfg.archNative)
    else if Requested(carch) then
      if "all" !in a.arch && carch.value !in a.arch then Failure(UnsupportedArch(carch.value, a.pkgname))
      else Success(carch.value)
    else if "all" in a.arch || cfg.archNative in a.arch then Success(cfg.archNative)
    else if a.arch == [] then Failure(EmptyArchList(a.pkgname))
    else Success(a.arch[0])
  }

  /** The pattern list consulted by `suffix`: the nodeps list replaces the general one in strict or distcc-preferring mode. */
  function CrossNativePatterns(cfg: Config, strict: bool): (r: seq<string>)
    ensures r == cfg.crossNativeNodeps <== strict || cfg.preferDistccCross
    ensures r == cfg.crossNative <== !strict && !cfg.preferDistccCross
  {
    if strict || cfg.preferDistccCross then cfg.crossNativeNodeps else cfg.crossNative
  }

  /** The name of the chroot that builds the package (autodetect.py:45-62). */
  function Suffix(cfg: Config, a: Apkbuild, carch: string, strict: bool): (r: string)
    // only two shapes of result exist
    ensures r == "native" || r == "buildroot_" + carch
    ensures carch == cfg.archNative || IsRepack(a) ==> r == "native"
    // without cross-compilation a foreign, non-repack package always gets its buildroot
    ensures carch != cfg.archNative && !IsRepack(a) && !cfg.cross ==> r == "buildroot_" + carch
    // with cross-compilation, CMake helpers and pattern-listed packages build natively, and nothing else does
    ensures carch != cfg.archNative && !IsRepack(a) && cfg.cross ==>
      (r == "native" <==>
        "extra-cmake-modules" in a.makedepends ||
        exists i :: 0 <= i < |CrossNativePatterns(cfg, strict)| && Glob.Match(a.pkgname, CrossNativePatterns(cfg, strict)[i]))
  {
    if carch == cfg.archNative then "native"
    else if IsRepack(a) then "native"
    else if cfg.cross && "extra-cmake-modules" in a.makedepends then "native"
    else if cfg.cross && MatchesAny(a.pkgname, CrossNativePatterns(cfg, strict)) then "native"
    else
      assert "buildroot_" + carch != "native" by {
        assert ("buildroot_" + carch)[0] == 'b';
      }
      "buildroot_" + carch
  }

  /** The cross-compilation mode (autodetect.py:65-77). */
  function Crosscompile(cfg: Config, a: Apkbuild, carch: string, suffix: string): (r: CrossMode)
    ensures r == NoCross <==> !cfg.cross || IsRepack(a) || !cfg.emulationRequired(carch)
    ensures r != NoCross ==> (r == NativeCross <==> suffix == "native")
  {
    if !cfg.cross then NoCross
    else if IsRepack(a) then NoCross
    else if !cfg.emulationRequired(carch) then NoCross
    else if suffix == "native" then NativeCross
    else Distcc
  }

  /** Whether the package is in the nodeps list (autodetect.py:80-88). */
  function IsCrossNativeNodeps(cfg: Config, a: Apkbuild): (r: bool)
    ensures r <==> exists i :: 0 <= i < |cfg.crossNativeNodeps| && Glob.Match(a.pkgname, cfg.crossNativeNodeps[i])
  {
    MatchesAny(a.pkgname, cfg.crossNativeNodeps)
  }

  /** The CMAKE_SYSTEM_PROCESSOR for an Alpine arch (autodetect.py:91-101). */
  function CmakeProcessorForCarch(carch: string): (r: Option<string>)
    ensures r.Some? <==> carch in {"armhf", "aarch64", "x86_64"}
    ensures r.Some? ==> r.value == (if carch == "armhf" then "arm" else carch)
  {
    if carch == "armhf" then Some("arm")
    else if carch == "aarch64" then Some("aarch64")
    else if carch == "x86_64" then Some("x86_64")
    else None
  }

  /** Distinct architectures get distinct CMake processor names. */
  lemma CmakeProcessorInjective(c1: string, c2: string)
    requires CmakeProcessorForCarch(c1).Some? && CmakeProcessorForCarch(c1) == CmakeProcessorForCarch(c2)
    ensures c1 == c2
  {
    if c1 == "armhf" || c2 == "armhf" {
      assert "arm" != "aarch64" && "arm" != "x86_64";
    }
  }

  /** "distcc" is only chosen for a package whose chroot is a foreign buildroot. */
  lemma DistccOnlyInBuildroot(cfg: Config, a: Apkbuild, carch: string, strict: bool)
    requires Crosscompile(cfg, a, carch, Suffix(cfg, a, carch, strict)) == Distcc
    ensures Suffix(cfg, a, carch, strict) == "buildroot_" + carch
    ensures carch != cfg.archNative
  {
  }

  /** When the host needs no emulation for its own arch, a native build is never a cross build. */
  lemma NativeArchIsNeverCross(cfg: Config, a: Apkbuild, strict: bool)
    requires !cfg.emulationRequired(cfg.archNative)
    ensures Suffix(cfg, a, cfg.archNative, strict) == "native"
    ensures Crosscompile(cfg, a, cfg.archNative, Suffix(cfg, a, cfg.archNative, strict)) == NoCross
  {
  }

  /** A package declaring "all" or "noarch" gets an arch whatever is requested. */
  lemma AllOrNoarchNeverFails(cfg: Config, a: Apkbuild, carch: Option<string>, strict: bool)
    requires "all" in a.arch || "noarch" in a.arch
    ensures Carch(cfg, a, carch, strict).Success?
  {
  }

  /**
   * A package for "all" archs, requested for no arch, resolves to the host's
   * arch, the native chroot and no cross-compilation.
   */
  lemma ScenarioAllArchNative(cfg: Config, a: Apkbuild, strict: bool)
    requires a.arch == ["all"] && !cfg.emulationRequired(cfg.archNative)
    ensures Carch(cfg, a, None, strict) == Success(cfg.archNative)
    ensures Suffix(cfg, a, cfg.archNative, strict) == "native"
    ensures Crosscompile(cfg, a, cfg.archNative, "native") == NoCross
  {
  }

  /**
   * A package for one foreign arch that is not in the active pattern list and
   * needs emulation is built in that arch's buildroot with distcc; if the
   * active pattern list names it, it is built natively with a cross compiler.
   */
  lemma ScenarioForeignArch(cfg: Config, a: Apkbuild, arch: string, strict: bool)
    requires a.arch == [arch] && arch != "noarch" && arch != "all" && arch != cfg.archNative
    requires cfg.cross && cfg.emulationRequired(arch) && !IsRepack(a)
    requires "extra-cmake-modules" !in a.makedepends
    ensures Carch(cfg, a, None, strict) == Success(arch)
    ensures !MatchesAny(a.pkgname, CrossNativePatterns(cfg, strict)) ==>
      Suffix(cfg, a, arch, strict) == "buildroot_" + arch &&
      Crosscompile(cfg, a, arch, "buildroot_" + arch) == Distcc
    ensures MatchesAny(a.pkgname, CrossNativePatterns(cfg, strict)) ==>
      Suffix(cfg, a, arch, strict) == "native" &&
      Crosscompile(cfg, a, arch, "native") == NativeCross
  {
    assert "buildroot_" + arch != "native" by {
      assert ("buildroot_" + arch)[0] == 'b';
    }
  }
}
