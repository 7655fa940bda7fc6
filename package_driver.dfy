/**
 * The package build driver (pmb/build/package.py:32-157) as the imperative
 * procedure it is: it resolves the environment, performs its side effects one
 * after the other, recurses over the makedepends in strict mode, grows the
 * abuild command list and checks for the output file. Each method is proved to
 * do exactly what the functions of PackageSpec describe.
 */
module PackageDriver {
  import opened Wrappers
  import opened Autodetect
  import opened PackageSpec

  /**
   * One pmbootstrap session: the external queries it may make (`o`), the
   * effects performed so far and the package files present.
   */
  class Builder {
    const o: Oracles
    var trace: seq<Effect>
    var repo: set<string>

    function State(): World
      reads this
    {
      World(trace, repo)
    }

    constructor (o: Oracles, repo: set<string>)
      ensures this.o == o && trace == [] && this.repo == repo
    {
      this.o := o;
      trace := [];
      this.repo := repo;
    }

    /**
     * `package(args, pkgname, carch, force, buildinfo, strict)`: returns
     * Skipped where the source returns None, Built(output) where it returns
     * the output path, and Failed where it raises. `fuel` is the recursion
     * depth still available to the strict makedepends recursion.
     */
    method Package(pkgname: string, carch: Option<string>, force: bool, buildinfo: bool, strict: bool, fuel: nat)
      returns (r: Outcome)
      modifies this
      ensures (State(), r) == Build(o, old(State()), Request(pkgname, carch, force, buildinfo, strict), fuel)
      decreases fuel, 2
    {
      var rq := Request(pkgname, carch, force, buildinfo, strict);
      // no aport: skipped if a binary repository index already has the package
      if pkgname !in o.aports {
        if (pkgname, carch) in o.indexed {
          return Skipped;
        }
        return Failed(PackageNotFound(pkgname));
      }

      // the arch, the chroot and the kind of cross compilation
      var a := o.aports[pkgname];
      var carchResult := Carch(o.cfg, a, carch, strict);
      if carchResult.Failure? {
        return Failed(Arch(carchResult.error));
      }
      var carchBuildenv := carchResult.value;
      // package.py:51 calls suffix() with three arguments, but it declares four
      // (strict has no default), so Python raises TypeError here. The model
      // passes the caller's strict; PackageSpec.ResolveAsWritten is the call as written.
      var suffix := Suffix(o.cfg, a, carchBuildenv, strict);
      var cross := Crosscompile(o.cfg, a, carchBuildenv, suffix);
      var nativeCrossWithDeps := cross == NativeCross && "!tracedeps" !in a.options;
      var env := BuildEnv(carchBuildenv, suffix, cross, nativeCrossWithDeps);
      assert Resolve(o.cfg, a, carch, strict) == Success(env);

      // first necessity check, before anything is set up
      if !force && !o.necessary(carch, a, repo) {
        return Skipped;
      }

      // chroot init, then the makedepends
      trace := trace + [Init(suffix)];
      var err := Makedepends(a, rq, env, fuel);
      if err.Some? {
        return Failed(err.value);
      }
      r := AfterMakedepends(a, rq, env);
    }

    /** The cross toolchain, the second necessity check and the abuild stage (package.py:69-157). */
    method AfterMakedepends(a: Apkbuild, rq: Request, env: BuildEnv) returns (r: Outcome)
      modifies this
      ensures (State(), r) == PackageSpec.AfterMakedepends(o, old(State()), a, rq, env)
    {
      if env.cross != NoCross {
        trace := trace + [Install(["gcc-" + env.carch, "g++-" + env.carch, "ccache-cross-symlinks"], "native", true)];
        if env.cross == Distcc {
          trace := trace + [Install(["distcc"], env.suffix, false)];
          trace := trace + [StartDistccd(env.carch)];
        }
      }
      assert State() == Append(old(State()), ToolchainEffects(env));

      // second necessity check: a makedepend may have built this package already
      if !rq.force && !o.necessary(rq.carch, a, repo) {
        return Skipped;
      }

      r := RunAbuild(a, rq, env);
    }

    /** The makedepends step (package.py:62-68). */
    method Makedepends(a: Apkbuild, rq: Request, env: BuildEnv, fuel: nat) returns (err: Option<BuildError>)
      modifies this
      ensures (State(), err) == InstallDeps(o, old(State()), a, rq, env, fuel)
      decreases fuel, 1
    {
      if |a.makedepends| == 0 {
        return None;
      }
      if rq.strict {
        // Python raises RecursionError once its stack is exhausted
        if fuel == 0 {
          return Some(RecursionLimit);
        }
        err := BuildMakedepends(a.makedepends, env.carch, fuel - 1);
      } else {
        // "buildroot_" + None raises TypeError
        if env.withDeps && rq.carch.None? {
          return Some(CarchIsNone);
        }
        var depsSysrootSuffix := if env.withDeps then "buildroot_" + rq.carch.value else env.suffix;
        trace := trace + [Install(a.makedepends, depsSysrootSuffix, true)];
        return None;
      }
    }

    /** The strict loop over the makedepends (package.py:64-65): each is built for `carch`, strictly. */
    method BuildMakedepends(deps: seq<string>, carch: string, fuel: nat) returns (err: Option<BuildError>)
      modifies this
      ensures (State(), err) == BuildDeps(o, old(State()), deps, carch, fuel)
      decreases fuel, 3
    {
      var i := 0;
      while i < |deps|
        invariant 0 <= i <= |deps|
        invariant BuildDeps(o, old(State()), deps, carch, fuel) == BuildDeps(o, State(), deps[i..], carch, fuel)
        decreases |deps| - i
      {
        ghost var before := State();
        assert deps[i..][0] == deps[i] && deps[i..][1..] == deps[i + 1..];
        var out := Package(deps[i], Some(carch), false, false, true, fuel);
        if out.Failed? {
          return Some(out.error);
        }
        i := i + 1;
      }
      return None;
    }

    /** From configuring abuild to the clean-up (package.py:83-157). */
    method RunAbuild(a: Apkbuild, rq: Request, env: BuildEnv) returns (r: Outcome)
      modifies this
      ensures (State(), r) == Compile(o, old(State()), a, rq, env)
    {
      // abuild configuration and the sources
      trace := trace + [ConfigureAbuild(env.suffix)];

      // the package file abuild is expected to write
      var output := env.carch + "/" + a.pkgname + "-" + a.pkgver + "-r" + a.pkgrel + ".apk";

      // the abuild command line and its environment
      trace := trace + [CopyToBuildpath(a.pkgname, env.suffix)];
      ghost var copied := State();
      assert copied == Append(old(State()), [ConfigureAbuild(env.suffix), CopyToBuildpath(a.pkgname, env.suffix)]);
      var vars, ok := AbuildEnv(rq, env);
      if !ok {
        return Failed(CarchIsNone);
      }
      var cmd := AbuildCommand(vars, rq.strict, rq.force);
      assert RunUser(cmd, env.suffix, BuildDir) == AbuildRun(o, env, rq);
      trace := trace + [RunUser(cmd, env.suffix, BuildDir)];
      assert trace == copied.trace + (BindEffects(o, env, CallerCarch(rq)) + [AbuildRun(o, env, rq)]);
      assert output == OutputName(env.carch, a);
      r := Finish(a, rq, env, output);
    }

    /** The output check and the publishing steps after abuild ran (package.py:133-157). */
    method Finish(a: Apkbuild, rq: Request, env: BuildEnv, output: string) returns (r: Outcome)
      requires output == OutputName(env.carch, a)
      modifies this
      ensures (State(), r) == PackageSpec.Finish(o, old(State()), a, rq, env)
    {
      // what abuild leaves in the packages folder
      if output in o.abuildWrites {
        repo := repo + {output};
      }

      // missing output file: raise with its full path
      var path := o.work + "/packages/" + output;
      if output !in repo {
        return Failed(ArtifactMissing(path));
      }
      Publish(a, rq, env, output);
      return Built(output);
    }

    /** Build record, noarch symlinks and clean-up after a verified build (package.py:140-155). */
    method Publish(a: Apkbuild, rq: Request, env: BuildEnv, output: string)
      modifies this
      ensures State() == Append(old(State()), PublishEffects(o, env, a, rq, output))
    {
      // optional build record
      if rq.buildinfo {
        trace := trace + [WriteBuildinfo(output, env.carch, env.suffix)];
      }
      // noarch packages are linked into the other arch folders
      if "noarch" in a.arch {
        trace := trace + [SymlinkNoarch(output)];
      }
      // the cached index of this arch is stale now; strict mode removes the makedepends
      trace := trace + [ClearCache(o.work + "/packages/" + env.carch + "/APKINDEX.tar.gz")];
      if rq.strict {
        trace := trace + [RunUser(["abuild", "undeps"], env.suffix, BuildDir)];
      }
    }

    /**
     * The `env` dict, assigned key by key (package.py:99-123), with the bind
     * mount of the foreign sysroot made on the way. `ok` is false where
     * `"/chroot_buildroot_" + carch` raises TypeError because carch is None.
     */
    method AbuildEnv(rq: Request, env: BuildEnv) returns (vars: EnvVars, ok: bool)
      modifies this
      ensures ok <==> !(env.cross == NativeCross && env.withDeps && rq.carch.None?)
      ensures repo == old(repo)
      ensures !ok ==> trace == old(trace)
      ensures ok ==> vars == BuilderEnv(o, env, CallerCarch(rq)) && trace == old(trace) + BindEffects(o, env, CallerCarch(rq))
    {
      vars := [("CARCH", env.carch)];
      if env.cross == NativeCross {
        var hostspec := o.hostspec(env.carch);
        vars := vars + [("CROSS_COMPILE", hostspec + "-")];
        vars := vars + [("CC", hostspec + "-gcc")];
        if env.withDeps {
          if rq.carch.None? {
            return vars, false;
          }
          // bind mount the foreign sysroot into native and point the variables at it
          var foreignSysrootPath := o.work + "/chroot_buildroot_" + rq.carch.value;
          var cbuildroot := "/home/user/cross_sysroot/chroot_buildroot_" + rq.carch.value;
          var bindSysrootPath := o.work + "/chroot_native" + cbuildroot;
          trace := trace + [Bind(foreignSysrootPath, bindSysrootPath)];
          vars := vars + [("CBUILDROOT", cbuildroot)];
          vars := vars + [("CHOST", hostspec)];
          vars := vars + [("CROSS_CFLAGS", "--sysroot=" + cbuildroot)];
          vars := vars + [("CPPFLAGS", "--sysroot=" + cbuildroot)];
          vars := vars + [("LDFLAGS", "\"--sysroot=" + cbuildroot + " -L" + cbuildroot + "/lib\"")];
          vars := vars + [("PKG_CONFIG_PATH", cbuildroot + "/usr/lib/pkgconfig/:" + cbuildroot + "/usr/share/pkgconfig")];
          vars := vars + [("PKG_CONFIG_SYSROOT_DIR", cbuildroot)];
          assert vars[3..10] == SysrootVars(hostspec, cbuildroot);
        }
      }
      if env.cross == Distcc {
        vars := vars + [("PATH", "/usr/lib/distcc/bin:" + o.chrootPath)];
        vars := vars + [("DISTCC_HOSTS", "127.0.0.1:" + o.portDistccd)];
      }
      ok := true;
    }
  }

  /** The abuild command list, grown with `+=` (package.py:98, 124-132). */
  method AbuildCommand(vars: EnvVars, strict: bool, force: bool) returns (cmd: seq<string>)
    ensures cmd == AbuildCmd(vars, strict, force)
  {
    cmd := [];
    var i := 0;
    while i < |vars|
      invariant 0 <= i <= |vars|
      invariant |cmd| == i
      invariant forall j :: 0 <= j < i ==> cmd[j] == vars[j].0 + "=" + vars[j].1
    {
      cmd := cmd + [vars[i].0 + "=" + vars[i].1];
      i := i + 1;
    }
    assert cmd == EnvArgs(vars);
    cmd := cmd + ["abuild"];
    if strict {
      cmd := cmd + ["-r"];  // abuild installs the makedepends itself
    } else {
      cmd := cmd + ["-d"];  // makedepends are already present
    }
    if force {
      cmd := cmd + ["-f"];
    }
  }
}
