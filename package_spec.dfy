/**
 * What one call of `pmb.build.package` (pmb/build/package.py:32-157) does,
 * stated as functions on the world it acts on: the list of side effects it
 * has performed so far and the set of package files present in the packages
 * folder. The imperative driver in module PackageDriver is proved to follow
 * these functions step by step; the lemmas below state what they promise.
 */
module PackageSpec {
  import opened Wrappers
  import opened Text
  import opened Autodetect

  /** The side effects the driver performs, in the order it performs them. */
  datatype Effect =
    | Init(suffix: string)                                   // pmb.build.init
    | Install(packages: seq<string>, suffix: string, build: bool)  // pmb.chroot.apk.install
    | StartDistccd(arch: string)                             // pmb.chroot.distccd.start
    | ConfigureAbuild(suffix: string)                        // pmb.build.other.configure_abuild
    | CopyToBuildpath(pkgname: string, suffix: string)       // pmb.build.copy_to_buildpath
    | Bind(source: string, target: string)                   // pmb.helpers.mount.bind
    | RunUser(cmd: seq<string>, suffix: string, workdir: string)  // pmb.chroot.user
    | WriteBuildinfo(output: string, arch: string, suffix: string) // pmb.build.buildinfo.write
    | SymlinkNoarch(output: string)                          // pmb.build.symlink_noarch_package
    | ClearCache(index: string)                              // pmb.parse.apkindex.clear_cache

  /**
   * The state the driver changes: the effects performed so far, and the
   * package files (paths relative to the packages folder) that exist.
   */
  datatype World = World(trace: seq<Effect>, repo: set<string>)

  /**
   * Everything the driver asks of the outside world.
   * - `aports`: `find_aport` followed by `pmb.parse.apkbuild`; a name absent
   *   from the map has no aport.
   * - `indexed`: the (pkgname, carch) pairs for which `read_any_index` finds the package.
   * - `necessary`: `pmb.build.is_necessary(args, carch, apkbuild)`, which may
   *   depend on the package files present.
   * - `hostspec`: `pmb.parse.arch.alpine_to_hostspec`.
   * - `abuildWrites`: the outputs that `abuild` leaves in the packages folder
   *   when it is run for them.
   * - `chrootPath` and `portDistccd`: `pmb.config.chroot_path` and `args.port_distccd`.
   */
  datatype Oracles = Oracles(
    cfg: Config,
    work: string,
    chrootPath: string,
    portDistccd: string,
    aports: map<string, Apkbuild>,
    indexed: set<(string, Option<string>)>,
    necessary: (Option<string>, Apkbuild, set<string>) -> bool,
    hostspec: string -> string,
    abuildWrites: set<string>)

  /** The arguments of one `package(args, pkgname, carch, force, buildinfo, strict)` call. */
  datatype Request = Request(pkgname: string, carch: Option<string>, force: bool, buildinfo: bool, strict: bool)

  /** The exceptions that end a build. */
  datatype BuildError =
    | Arch(e: ArchError)               // raised by autodetect.carch
    | PackageNotFound(pkgname: string)  // no aport and in no APKINDEX (package.py:44)
    | SuffixArity                      // TypeError: suffix() called with one argument missing (package.py:51)
    | CarchIsNone                      // TypeError: "buildroot_" + None (package.py:67, 106)
    | ArtifactMissing(path: string)     // the output file is absent after abuild (package.py:138)
    | RecursionLimit                   // Python's RecursionError: the strict recursion went too deep

  /** How a call ends: it returns None, returns the output path, or raises. */
  datatype Outcome = Skipped | Built(output: string) | Failed(error: BuildError)

  /** The resolved build environment: carch_buildenv, suffix, cross and native_cross_with_deps. */
  datatype BuildEnv = BuildEnv(carch: string, suffix: string, cross: CrossMode, withDeps: bool)

  /** The environment variables handed to abuild, in insertion order. */
  type EnvVars = seq<(string, string)>

  const BuildDir := "/home/user/build"

  /** The invariants every resolved environment keeps, whatever the package and configuration. */
  predicate Consistent(cfg: Config, e: BuildEnv) {
    && (e.suffix == "native" || e.suffix == "buildroot_" + e.carch)
    && (e.carch == cfg.archNative ==> e.suffix == "native")
    && (e.cross != NoCross ==> cfg.cross && cfg.emulationRequired(e.carch))
    && (e.cross == Distcc ==> e.suffix != "native")
    && (e.cross == NativeCross ==> e.suffix == "native")
    && (e.withDeps ==> e.cross == NativeCross)
  }

  /**
   * Lines 50-54 with `suffix` called per its own four-parameter signature,
   * passing the caller's `strict`.
   */
  function Resolve(cfg: Config, a: Apkbuild, carch: Option<string>, strict: bool): (r: Result<BuildEnv, ArchError>)
    ensures r.Success? <==> Carch(cfg, a, carch, strict).Success?
    ensures r.Failure? ==> r.error == Carch(cfg, a, carch, strict).error
    ensures r.Success? ==> Consistent(cfg, r.value)
    ensures r.Success? ==> r.value.carch == Carch(cfg, a, carch, strict).value
    // the caller's strict reaches suffix, and the mode is crosscompile's for that suffix
    ensures r.Success? ==> r.value.suffix == Suffix(cfg, a, r.value.carch, strict)
    ensures r.Success? ==> r.value.cross == Crosscompile(cfg, a, r.value.carch, r.value.suffix)
    ensures r.Success? ==> (r.value.withDeps <==> r.value.cross == NativeCross && "!tracedeps" !in a.options)
  {
    match Carch(cfg, a, carch, strict)
    case Failure(e) => Failure(e)
    case Success(c) =>
      var suffix := Suffix(cfg, a, c, strict);
      var cross := Crosscompile(cfg, a, c, suffix);
      Success(BuildEnv(c, suffix, cross, cross == NativeCross && "!tracedeps" !in a.options))
  }

  /**
   * Lines 50-51 as written: `suffix` is called with three arguments although
   * it declares four without defaults, so Python raises TypeError as soon as
   * `carch` has succeeded.
   */
  function ResolveAsWritten(cfg: Config, a: Apkbuild, carch: Option<string>, strict: bool): (r: Result<BuildEnv, BuildError>)
    ensures r.Failure?
  {
    match Carch(cfg, a, carch, strict)
    case Failure(e) => Failure(Arch(e))
    case Success(_) => Failure(SuffixArity)
  }

  /** As written, every package whose arch resolves fails before anything is built; the corrected resolution succeeds for it. */
  lemma AsWrittenNeverReachesBuild(cfg: Config, a: Apkbuild, carch: Option<string>, strict: bool)
    requires Carch(cfg, a, carch, strict).Success?
    ensures ResolveAsWritten(cfg, a, carch, strict) == Failure(SuffixArity)
    ensures Resolve(cfg, a, carch, strict).Success?
  {
  }

  /** The output path relative to the packages folder (package.py:86-87). */
  function OutputName(carch: string, a: Apkbuild): (r: string)
    ensures StartsWith(r, carch + "/")
    ensures EndsWith(r, ".apk")
    ensures |r| == |carch| + |a.pkgname| + |a.pkgver| + |a.pkgrel| + 8
  {
    var r := carch + "/" + a.pkgname + "-" + a.pkgver + "-r" + a.pkgrel + ".apk";
    assert r[..|carch + "/"|] == carch + "/";
    r
  }

  /** The sysroot path inside the native chroot where the foreign buildroot is mounted (package.py:107). */
  function CrossSysroot(carch: string): string {
    "/home/user/cross_sysroot/chroot_buildroot_" + carch
  }

  /** The chroot that receives the makedepends in non-strict mode (package.py:67). */
  function DepsSuffix(e: BuildEnv, carch: Option<string>): (r: string)
    requires e.withDeps ==> carch.Some?
    ensures e.withDeps ==> r == "buildroot_" + carch.value
    ensures !e.withDeps ==> r == e.suffix
  {
    if e.withDeps then "buildroot_" + carch.value else e.suffix
  }

  /** The toolchain installed after the makedepends (package.py:69-76). */
  function ToolchainEffects(e: BuildEnv): (r: seq<Effect>)
    ensures e.cross == NoCross <==> r == []
    ensures e.cross != NoCross ==>
      r[0] == Install(["gcc-" + e.carch, "g++-" + e.carch, "ccache-cross-symlinks"], "native", true)
    ensures (exists i :: 0 <= i < |r| && r[i] == StartDistccd(e.carch)) <==> e.cross == Distcc
    ensures e.cross == Distcc ==> r[1] == Install(["distcc"], e.suffix, false)
    ensures e.cross == NativeCross ==> |r| == 1
    ensures e.cross == Distcc ==> |r| == 3 && r[2] == StartDistccd(e.carch)
  {
    if e.cross == NoCross then []
    else
      var r := [Install(["gcc-" + e.carch, "g++-" + e.carch, "ccache-cross-symlinks"], "native", true)] +
        (if e.cross == Distcc then [Install(["distcc"], e.suffix, false), StartDistccd(e.carch)] else []);
      assert e.cross == Distcc ==> r[2] == StartDistccd(e.carch);
      r
  }

  /** The value for `key` a dict built from these pairs holds, or None. */
  function Lookup(vars: EnvVars, key: string): Option<string> {
    if vars == [] then None
    else if vars[0].0 == key then Some(vars[0].1)
    else Lookup(vars[1..], key)
  }

  predicate HasKey(vars: EnvVars, key: string) {
    exists i :: 0 <= i < |vars| && vars[i].0 == key
  }

  /** No key is set twice, so a dict built from the pairs keeps all of them, in this order. */
  predicate DistinctKeys(vars: EnvVars) {
    forall i, j :: 0 <= i < j < |vars| ==> vars[i].0 != vars[j].0
  }

  /** With distinct keys, looking a key up gives the value paired with it. */
  lemma {:induction false} LookupFinds(vars: EnvVars, i: nat)
    requires DistinctKeys(vars) && i < |vars|
    ensures Lookup(vars, vars[i].0) == Some(vars[i].1)
  {
    if i > 0 {
      assert vars[1..][i - 1] == vars[i];
      assert vars[0].0 != vars[i].0;
      LookupFinds(vars[1..], i - 1);
    }
  }

  /** The keys set only for a native cross build that uses the foreign sysroot. */
  const SysrootKeys: seq<string> :=
    ["CBUILDROOT", "CHOST", "CROSS_CFLAGS", "CPPFLAGS", "LDFLAGS", "PKG_CONFIG_PATH", "PKG_CONFIG_SYSROOT_DIR"]

  /** The variables for the sysroot of `cbuildroot` (package.py:111-119). */
  function SysrootVars(hostspec: string, cbuildroot: string): EnvVars {
    [("CBUILDROOT", cbuildroot),
     ("CHOST", hostspec),
     ("CROSS_CFLAGS", "--sysroot=" + cbuildroot),
     ("CPPFLAGS", "--sysroot=" + cbuildroot),
     ("LDFLAGS", "\"--sysroot=" + cbuildroot + " -L" + cbuildroot + "/lib\""),
     ("PKG_CONFIG_PATH", cbuildroot + "/usr/lib/pkgconfig/:" + cbuildroot + "/usr/share/pkgconfig"),
     ("PKG_CONFIG_SYSROOT_DIR", cbuildroot)]
  }

  /**
   * The sysroot keys come in assignment order, each once; CHOST is the host
   * triplet, and CBUILDROOT and PKG_CONFIG_SYSROOT_DIR are the sysroot itself.
   */
  lemma SysrootLookups(hostspec: string, cbuildroot: string)
    ensures var v := SysrootVars(hostspec, cbuildroot);
      && Keys(v) == SysrootKeys
      && DistinctKeys(v)
      && Lookup(v, "CHOST") == Some(hostspec)
      && Lookup(v, "CBUILDROOT") == Some(cbuildroot)
      && Lookup(v, "PKG_CONFIG_SYSROOT_DIR") == Some(cbuildroot)
  {
    var v := SysrootVars(hostspec, cbuildroot);
    assert Keys(v) == SysrootKeys;
    LookupFinds(v, 0);
    LookupFinds(v, 1);
    LookupFinds(v, 6);
  }

  /** Every sysroot variable except CHOST points into the mounted foreign sysroot. */
  lemma SysrootVarsPointIntoSysroot(hostspec: string, cbuildroot: string)
    ensures var v := SysrootVars(hostspec, cbuildroot);
      forall i :: 0 <= i < |v| && v[i].0 != "CHOST" ==> Contains(v[i].1, cbuildroot)
  {
    var v := SysrootVars(hostspec, cbuildroot);
    var flags := "--sysroot=" + cbuildroot;
    var ldflags := "\"--sysroot=" + cbuildroot + " -L" + cbuildroot + "/lib\"";
    var pkgPath := cbuildroot + "/usr/lib/pkgconfig/:" + cbuildroot + "/usr/share/pkgconfig";
    assert Contains(cbuildroot, cbuildroot) by {
      ContainsAfter("", cbuildroot, "");
      assert "" + cbuildroot + "" == cbuildroot;
    }
    assert Contains(flags, cbuildroot) by {
      ContainsAfter("--sysroot=", cbuildroot, "");
      assert "--sysroot=" + cbuildroot + "" == flags;
    }
    assert Contains(ldflags, cbuildroot) by {
      ContainsAfter("\"--sysroot=", cbuildroot, " -L" + cbuildroot + "/lib\"");
      assert "\"--sysroot=" + cbuildroot + (" -L" + cbuildroot + "/lib\"") == ldflags;
    }
    assert Contains(pkgPath, cbuildroot) by {
      ContainsAfter("", cbuildroot, "/usr/lib/pkgconfig/:" + cbuildroot + "/usr/share/pkgconfig");
      assert "" + cbuildroot + ("/usr/lib/pkgconfig/:" + cbuildroot + "/usr/share/pkgconfig") == pkgPath;
    }
    assert v[0].1 == cbuildroot && v[6].1 == cbuildroot && v[2].1 == flags && v[3].1 == flags;
    assert v[4].1 == ldflags && v[5].1 == pkgPath && v[1].0 == "CHOST";
  }

  /** The keys of a list of variables, in order. */
  function Keys(vars: EnvVars): (r: seq<string>)
    ensures |r| == |vars|
    ensures forall i :: 0 <= i < |vars| ==> r[i] == vars[i].0
  {
    seq(|vars|, i requires 0 <= i < |vars| => vars[i].0)
  }

  /** The keys the `env` dict receives, in the order package.py:99-123 assigns them. */
  function EnvKeys(e: BuildEnv): seq<string> {
    ["CARCH"] +
    (if e.cross == NativeCross then ["CROSS_COMPILE", "CC"] + (if e.withDeps then SysrootKeys else []) else []) +
    (if e.cross == Distcc then ["PATH", "DISTCC_HOSTS"] else [])
  }

  /** The `env` dict of package.py:99-123, in insertion order; `carch` is the caller's. */
  function BuilderEnv(o: Oracles, e: BuildEnv, carch: string): EnvVars {
    var native :=
      if e.cross == NativeCross then
        [("CROSS_COMPILE", o.hostspec(e.carch) + "-"), ("CC", o.hostspec(e.carch) + "-gcc")] +
        (if e.withDeps then SysrootVars(o.hostspec(e.carch), CrossSysroot(carch)) else [])
      else [];
    var distcc :=
      if e.cross == Distcc then
        [("PATH", "/usr/lib/distcc/bin:" + o.chrootPath), ("DISTCC_HOSTS", "127.0.0.1:" + o.portDistccd)]
      else [];
    [("CARCH", e.carch)] + native + distcc
  }

  /**
   * The variables come in assignment order: CARCH; CROSS_COMPILE and CC from
   * the hostspec in native cross mode, followed by the sysroot variables when
   * the foreign sysroot is used; PATH and DISTCC_HOSTS in distcc mode.
   */
  lemma BuilderEnvLayout(o: Oracles, e: BuildEnv, carch: string)
    ensures var r := BuilderEnv(o, e, carch);
      && Keys(r) == EnvKeys(e)
      && r[0] == ("CARCH", e.carch)
      && (e.cross == NativeCross ==>
            r[1] == ("CROSS_COMPILE", o.hostspec(e.carch) + "-") && r[2] == ("CC", o.hostspec(e.carch) + "-gcc"))
      && (e.cross == NativeCross && e.withDeps ==> r[3..10] == SysrootVars(o.hostspec(e.carch), CrossSysroot(carch)))
      && (e.cross == Distcc ==>
            r[1..] == [("PATH", "/usr/lib/distcc/bin:" + o.chrootPath), ("DISTCC_HOSTS", "127.0.0.1:" + o.portDistccd)])
  {
    var r := BuilderEnv(o, e, carch);
    assert Keys(SysrootVars(o.hostspec(e.carch), CrossSysroot(carch))) == SysrootKeys;
    assert Keys(r) == EnvKeys(e);
  }

  /** The keys of the environment with every group present. */
  const FullEnvKeys: seq<string> := ["CARCH", "CROSS_COMPILE", "CC", "CBUILDROOT", "CHOST", "CROSS_CFLAGS", "CPPFLAGS",
                                     "LDFLAGS", "PKG_CONFIG_PATH", "PKG_CONFIG_SYSROOT_DIR"]

  /** No key of the full environment repeats. */
  lemma FullEnvKeysDistinct()
    ensures forall i, j :: 0 <= i < j < |FullEnvKeys| ==> FullEnvKeys[i] != FullEnvKeys[j]
  {
  }

  /** The key list has no repetition, and each group of keys appears exactly in its mode. */
  lemma EnvKeysShape(e: BuildEnv)
    requires e.withDeps ==> e.cross == NativeCross
    ensures forall i, j :: 0 <= i < j < |EnvKeys(e)| ==> EnvKeys(e)[i] != EnvKeys(e)[j]
    ensures "CROSS_COMPILE" in EnvKeys(e) <==> e.cross == NativeCross
    ensures "CC" in EnvKeys(e) <==> e.cross == NativeCross
    ensures forall k :: k in SysrootKeys ==> (k in EnvKeys(e) <==> e.withDeps)
    ensures "PATH" in EnvKeys(e) <==> e.cross == Distcc
    ensures "DISTCC_HOSTS" in EnvKeys(e) <==> e.cross == Distcc
  {
    var ks := EnvKeys(e);
    if e.cross == NativeCross && e.withDeps {
      assert ks == FullEnvKeys;
      FullEnvKeysDistinct();
    } else if e.cross == NativeCross {
      assert ks == ["CARCH", "CROSS_COMPILE", "CC"];
    } else if e.cross == Distcc {
      assert ks == ["CARCH", "PATH", "DISTCC_HOSTS"];
    } else {
      assert ks == ["CARCH"];
    }
  }

  /**
   * The variables handed to abuild: CARCH always; the cross compiler only for
   * a native cross build; the sysroot variables only when that build also
   * uses the foreign sysroot; the distcc variables only in distcc mode. No key
   * is set twice.
   */
  lemma BuilderEnvKeys(o: Oracles, e: BuildEnv, carch: string)
    requires e.withDeps ==> e.cross == NativeCross
    ensures var r := BuilderEnv(o, e, carch);
      && DistinctKeys(r)
      && Lookup(r, "CARCH") == Some(e.carch)
      && (HasKey(r, "CROSS_COMPILE") <==> e.cross == NativeCross)
      && (HasKey(r, "CC") <==> e.cross == NativeCross)
      && (forall k :: k in SysrootKeys ==> (HasKey(r, k) <==> e.withDeps))
      && (HasKey(r, "PATH") <==> e.cross == Distcc)
      && (HasKey(r, "DISTCC_HOSTS") <==> e.cross == Distcc)
  {
    var r := BuilderEnv(o, e, carch);
    BuilderEnvLayout(o, e, carch);
    EnvKeysShape(e);
    forall k ensures HasKey(r, k) <==> k in EnvKeys(e) {
      if k in EnvKeys(e) {
        var i :| 0 <= i < |EnvKeys(e)| && EnvKeys(e)[i] == k;
        assert r[i].0 == Keys(r)[i];
      }
      if HasKey(r, k) {
        var i :| 0 <= i < |r| && r[i].0 == k;
        assert Keys(r)[i] == k;
      }
    }
    forall i, j | 0 <= i < j < |r| ensures r[i].0 != r[j].0 {
      assert Keys(r)[i] == r[i].0 && Keys(r)[j] == r[j].0;
    }
    LookupFinds(r, 0);
  }

  /** The sysroot variables are present exactly in a native cross build with dependencies, and point into its sysroot. */
  lemma BuilderEnvSysroot(o: Oracles, e: BuildEnv, carch: string)
    requires e.cross == NativeCross && e.withDeps
    ensures var r := BuilderEnv(o, e, carch);
      Lookup(r, "CBUILDROOT") == Some(CrossSysroot(carch)) &&
      Lookup(r, "CHOST") == Some(o.hostspec(e.carch)) &&
      Lookup(r, "CROSS_COMPILE") == Some(o.hostspec(e.carch) + "-") &&
      forall i :: 0 <= i < |r| && r[i].0 in SysrootKeys && r[i].0 != "CHOST" ==> Contains(r[i].1, CrossSysroot(carch))
  {
    var r := BuilderEnv(o, e, carch);
    var s := SysrootVars(o.hostspec(e.carch), CrossSysroot(carch));
    BuilderEnvKeys(o, e, carch);
    BuilderEnvLayout(o, e, carch);
    assert r[3] == s[0] && r[4] == s[1];
    LookupFinds(r, 3);
    LookupFinds(r, 4);
    LookupFinds(r, 1);
    SysrootVarsPointIntoSysroot(o.hostspec(e.carch), CrossSysroot(carch));
    forall i | 0 <= i < |r| && r[i].0 in SysrootKeys && r[i].0 != "CHOST"
      ensures Contains(r[i].1, CrossSysroot(carch))
    {
      assert 3 <= i < 10;
      assert r[i] == s[i - 3];
    }
  }

  /** `"KEY=VALUE"` for each variable, in order (package.py:124-125). */
  function EnvArgs(vars: EnvVars): (r: seq<string>)
    ensures |r| == |vars|
    ensures forall i :: 0 <= i < |vars| ==> r[i] == vars[i].0 + "=" + vars[i].1
  {
    seq(|vars|, i requires 0 <= i < |vars| => vars[i].0 + "=" + vars[i].1)
  }

  /** The abuild command line (package.py:124-132). */
  function AbuildCmd(vars: EnvVars, strict: bool, force: bool): seq<string> {
    EnvArgs(vars) + ["abuild"] + [if strict then "-r" else "-d"] + (if force then ["-f"] else [])
  }

  /**
   * The command is the variable assignments, then `abuild`, then `-r` when
   * strict or `-d` otherwise, and `-f` after them iff force is set.
   */
  lemma AbuildCmdLayout(vars: EnvVars, strict: bool, force: bool)
    ensures var r := AbuildCmd(vars, strict, force);
      && |r| == |vars| + 2 + (if force then 1 else 0)
      && r[..|vars|] == EnvArgs(vars)
      && r[|vars|] == "abuild"
      && r[|vars| + 1] == (if strict then "-r" else "-d")
      && (force <==> "-f" in r[|vars| + 2..])
  {
    var r := AbuildCmd(vars, strict, force);
    assert r[|vars| + 2..] == (if force then ["-f"] else []);
  }

  /** The bind mount of the foreign sysroot into the native chroot (package.py:106-109). */
  function BindEffects(o: Oracles, e: BuildEnv, carch: string): seq<Effect> {
    if e.cross == NativeCross && e.withDeps then [Bind(o.work + "/chroot_buildroot_" + carch, o.work + "/chroot_native" + CrossSysroot(carch))]
    else []
  }

  /**
   * Only a native cross build with a foreign sysroot mounts anything: the
   * buildroot chroot of the caller's carch, at the sysroot path inside the
   * native chroot that the compiler variables point to.
   */
  lemma BindMountsSysroot(o: Oracles, e: BuildEnv, carch: string)
    ensures var r := BindEffects(o, e, carch);
      && |r| <= 1
      && (r != [] <==> e.cross == NativeCross && e.withDeps)
      && (r != [] ==>
            && r[0].Bind?
            && EndsWith(r[0].source, "/chroot_buildroot_" + carch)
            && StartsWith(r[0].target, o.work + "/chroot_native/")
            && EndsWith(r[0].target, CrossSysroot(carch)))
  {
    var target := o.work + "/chroot_native" + CrossSysroot(carch);
    assert target == (o.work + "/chroot_native/") + (CrossSysroot(carch)[1..]);
  }

  /** What follows a verified build (package.py:140-155). */
  function PublishEffects(o: Oracles, e: BuildEnv, a: Apkbuild, rq: Request, output: string): seq<Effect> {
    (if rq.buildinfo then [WriteBuildinfo(output, e.carch, e.suffix)] else []) +
    (if "noarch" in a.arch then [SymlinkNoarch(output)] else []) +
    [ClearCache(o.work + "/packages/" + e.carch + "/APKINDEX.tar.gz")] +
    (if rq.strict then [RunUser(["abuild", "undeps"], e.suffix, BuildDir)] else [])
  }

  /**
   * A build record is written iff requested, the noarch symlink is made iff
   * the package is noarch, the index cache of `carch_buildenv` is always
   * cleared, and `abuild undeps` comes last iff strict.
   */
  lemma PublishEffectsShape(o: Oracles, e: BuildEnv, a: Apkbuild, rq: Request, output: string)
    ensures var r := PublishEffects(o, e, a, rq, output);
      && ((exists i :: 0 <= i < |r| && r[i].WriteBuildinfo?) <==> rq.buildinfo)
      && ((exists i :: 0 <= i < |r| && r[i] == SymlinkNoarch(output)) <==> "noarch" in a.arch)
      && ClearCache(o.work + "/packages/" + e.carch + "/APKINDEX.tar.gz") in r
      && (rq.strict <==> r[|r| - 1] == RunUser(["abuild", "undeps"], e.suffix, BuildDir))
  {
    var r := PublishEffects(o, e, a, rq, output);
    var info := if rq.buildinfo then [WriteBuildinfo(output, e.carch, e.suffix)] else [];
    assert rq.buildinfo ==> r[0].WriteBuildinfo?;
    assert "noarch" in a.arch ==> r[|info|] == SymlinkNoarch(output);
  }

  predicate Extends(w: World, w': World) {
    w.trace <= w'.trace && w.repo <= w'.repo
  }

  function Append(w: World, effects: seq<Effect>): (w': World)
    ensures Extends(w, w')
  {
    w.(trace := w.trace + effects)
  }

  /**
   * The whole call (package.py:32-157). `fuel` is the recursion depth left
   * to the strict makedepends recursion, which has no cycle guard.
   */
  function Build(o: Oracles, w: World, rq: Request, fuel: nat): (r: (World, Outcome))
    ensures Extends(w, r.0)
    ensures r.1.Built? ==> r.1.output in r.0.repo
    decreases fuel, 2
  {
    if rq.pkgname !in o.aports then
      (w, if (rq.pkgname, rq.carch) in o.indexed then Skipped else Failed(PackageNotFound(rq.pkgname)))
    else
      var a := o.aports[rq.pkgname];
      match Resolve(o.cfg, a, rq.carch, rq.strict)
      case Failure(err) => (w, Failed(Arch(err)))
      case Success(e) =>
        if !rq.force && !o.necessary(rq.carch, a, w.repo) then (w, Skipped)
        else
          var deps := InstallDeps(o, Append(w, [Init(e.suffix)]), a, rq, e, fuel);
          if deps.1.Some? then (deps.0, Failed(deps.1.value))
          else AfterMakedepends(o, deps.0, a, rq, e)
  }

  /**
   * The cross toolchain, the second necessity check and the abuild stage
   * (package.py:69-157). Only the necessity check skips, so `force` never does.
   */
  function AfterMakedepends(o: Oracles, w: World, a: Apkbuild, rq: Request, e: BuildEnv): (r: (World, Outcome))
    ensures Extends(w, r.0)
    ensures r.1.Built? ==> r.1.output in r.0.repo
    ensures r.1 == Skipped <==> !rq.force && !o.necessary(rq.carch, a, Append(w, ToolchainEffects(e)).repo)
    ensures r.1 == Skipped ==> r.0 == Append(w, ToolchainEffects(e))
  {
    var w2 := Append(w, ToolchainEffects(e));
    if !rq.force && !o.necessary(rq.carch, a, w2.repo) then (w2, Skipped)
    else Compile(o, w2, a, rq, e)
  }

  /** The makedepends step (package.py:62-68): built one by one in strict mode, installed at once otherwise. */
  function InstallDeps(o: Oracles, w: World, a: Apkbuild, rq: Request, e: BuildEnv, fuel: nat): (r: (World, Option<BuildError>))
    ensures Extends(w, r.0)
    ensures !rq.strict ==> r.0.repo == w.repo
    decreases fuel, 1
  {
    if a.makedepends == [] then (w, None)
    else if rq.strict then
      if fuel == 0 then (w, Some(RecursionLimit))
      else BuildDeps(o, w, a.makedepends, e.carch, fuel - 1)
    else if e.withDeps && rq.carch.None? then (w, Some(CarchIsNone))
    else (Append(w, [Install(a.makedepends, DepsSuffix(e, rq.carch), true)]), None)
  }

  /** The call the strict recursion makes for one makedepend (package.py:64-65). */
  function DepRequest(dep: string, carch: string): Request {
    Request(dep, Some(carch), false, false, true)
  }

  /** The strict recursion over the makedepends, in list order, stopping at the first failure (package.py:64-65). */
  function BuildDeps(o: Oracles, w: World, deps: seq<string>, carch: string, fuel: nat): (r: (World, Option<BuildError>))
    ensures Extends(w, r.0)
    decreases fuel, 3, |deps|
  {
    if deps == [] then (w, None)
    else
      var b := Build(o, w, DepRequest(deps[0], carch), fuel);
      if b.1.Failed? then (b.0, Some(b.1.error))
      else BuildDeps(o, b.0, deps[1..], carch, fuel)
  }

  /** The caller's carch as a string, where the code concatenates it. */
  function CallerCarch(rq: Request): string {
    if rq.carch.Some? then rq.carch.value else ""
  }

  /** The abuild run itself (package.py:124-132), in the build chroot and directory. */
  function AbuildRun(o: Oracles, e: BuildEnv, rq: Request): Effect {
    RunUser(AbuildCmd(BuilderEnv(o, e, CallerCarch(rq)), rq.strict, rq.force), e.suffix, BuildDir)
  }

  /** From configuring abuild to the clean-up (package.py:83-157). */
  function Compile(o: Oracles, w: World, a: Apkbuild, rq: Request, e: BuildEnv): (r: (World, Outcome))
    ensures Extends(w, r.0)
    ensures r.1.Built? ==> r.1.output == OutputName(e.carch, a) && r.1.output in r.0.repo
    ensures r.1.Failed? ==> r.1.error == CarchIsNone || r.1.error == ArtifactMissing(o.work + "/packages/" + OutputName(e.carch, a))
    ensures r.1 != Skipped
  {
    var w1 := Append(w, [ConfigureAbuild(e.suffix), CopyToBuildpath(a.pkgname, e.suffix)]);
    if e.cross == NativeCross && e.withDeps && rq.carch.None? then (w1, Failed(CarchIsNone))
    else
      Finish(o, Append(w1, BindEffects(o, e, CallerCarch(rq)) + [AbuildRun(o, e, rq)]), a, rq, e)
  }

  /**
   * What follows the abuild run (package.py:133-157): the output is present
   * iff abuild wrote it; a missing output raises with its full path, and a
   * present one is published.
   */
  function Finish(o: Oracles, w: World, a: Apkbuild, rq: Request, e: BuildEnv): (r: (World, Outcome))
    ensures Extends(w, r.0)
    ensures r.1.Built? <==> OutputName(e.carch, a) in w.repo || OutputName(e.carch, a) in o.abuildWrites
    ensures r.1.Built? ==> r.1.output == OutputName(e.carch, a) && r.1.output in r.0.repo
    ensures r.1.Built? ==> r.0.trace == w.trace + PublishEffects(o, e, a, rq, OutputName(e.carch, a))
    ensures r.1.Failed? ==> r.1.error == ArtifactMissing(o.work + "/packages/" + OutputName(e.carch, a)) && r.0 == w
    ensures r.1 != Skipped
  {
    var output := OutputName(e.carch, a);
    var w3 := w.(repo := if output in o.abuildWrites then w.repo + {output} else w.repo);
    if output !in w3.repo then (w3, Failed(ArtifactMissing(o.work + "/packages/" + output)))
    else (Append(w3, PublishEffects(o, e, a, rq, output)), Built(output))
  }
}
