/**
 * What a call of `pmb.build.package` promises, proved about PackageSpec.Build
 * (and hence, through PackageDriver.Builder.Package, about the driver).
 */
module PackageProps {
  import opened Wrappers
  import opened Text
  import opened Autodetect
  import opened PackageSpec

  /** The makedepends effect of a non-strict build: one install of all of them. */
  function NonStrictDepsEffects(a: Apkbuild, rq: Request, e: BuildEnv): seq<Effect>
    requires a.makedepends != [] && e.withDeps ==> rq.carch.Some?
  {
    if a.makedepends == [] then [] else [Install(a.makedepends, DepsSuffix(e, rq.carch), true)]
  }

  /** With no aport the call has no effect: it is skipped if some APKINDEX has the package and raises otherwise. */
  lemma MissingAport(o: Oracles, w: World, rq: Request, fuel: nat)
    requires rq.pkgname !in o.aports
    ensures Build(o, w, rq, fuel).0 == w
    ensures Build(o, w, rq, fuel).1 == (if (rq.pkgname, rq.carch) in o.indexed then Skipped else Failed(PackageNotFound(rq.pkgname)))
  {
  }

  /** The first necessity check fires before the chroot is initialised or anything installed. */
  lemma NotNecessarySkipsFirst(o: Oracles, w: World, rq: Request, fuel: nat)
    requires rq.pkgname in o.aports && Resolve(o.cfg, o.aports[rq.pkgname], rq.carch, rq.strict).Success?
    requires !rq.force && !o.necessary(rq.carch, o.aports[rq.pkgname], w.repo)
    ensures Build(o, w, rq, fuel) == (w, Skipped)
  {
  }

  /** A call that raises while resolving the arch has no effect. */
  lemma ArchErrorHasNoEffect(o: Oracles, w: World, rq: Request, fuel: nat)
    requires rq.pkgname in o.aports && Carch(o.cfg, o.aports[rq.pkgname], rq.carch, rq.strict).Failure?
    ensures Build(o, w, rq, fuel) == (w, Failed(Arch(Carch(o.cfg, o.aports[rq.pkgname], rq.carch, rq.strict).error)))
  {
  }

  /**
   * A skipped call has one of three reasons: there is no aport but an
   * APKINDEX has the package, and nothing happened; the first necessity
   * check said no, and nothing happened; or the first check said yes, and the
   * second, asked after the chroot init, the makedepends and the toolchain,
   * said no on the repository as it then was, before abuild was configured.
   * Both checks are passed over under `force`.
   */
  lemma SkippedStopsBeforeAbuild(o: Oracles, w: World, rq: Request, fuel: nat)
    requires Build(o, w, rq, fuel).1 == Skipped
    ensures var r := Build(o, w, rq, fuel);
      || (rq.pkgname !in o.aports && (rq.pkgname, rq.carch) in o.indexed && r.0 == w)
      || (rq.pkgname in o.aports && Resolve(o.cfg, o.aports[rq.pkgname], rq.carch, rq.strict).Success? && !rq.force &&
          var a := o.aports[rq.pkgname];
          var e := Resolve(o.cfg, a, rq.carch, rq.strict).value;
          || (!o.necessary(rq.carch, a, w.repo) && r.0 == w)
          || (o.necessary(rq.carch, a, w.repo) && !o.necessary(rq.carch, a, r.0.repo) &&
              exists mid :: r.0.trace == w.trace + [Init(e.suffix)] + mid + ToolchainEffects(e)))
  {
    var r := Build(o, w, rq, fuel);
    if rq.pkgname in o.aports {
      var a := o.aports[rq.pkgname];
      var e := Resolve(o.cfg, a, rq.carch, rq.strict).value;
      if rq.force || o.necessary(rq.carch, a, w.repo) {
        var w1 := Append(w, [Init(e.suffix)]);
        var deps := InstallDeps(o, w1, a, rq, e, fuel);
        assert r == AfterMakedepends(o, deps.0, a, rq, e);
        var mid := deps.0.trace[|w1.trace|..];
        assert deps.0.trace == w1.trace + mid;
        assert r.0.trace == w.trace + [Init(e.suffix)] + mid + ToolchainEffects(e);
      }
    }
  }

  /**
   * The chroot a call initialises is the one `suffix` picks for the resolved
   * arch with the caller's `strict`, and the cross toolchain is the one of the
   * mode `crosscompile` picks for that chroot.
   */
  lemma BuildUsesResolvedChroot(o: Oracles, w: World, rq: Request, fuel: nat)
    requires rq.pkgname in o.aports && Carch(o.cfg, o.aports[rq.pkgname], rq.carch, rq.strict).Success?
    requires rq.force || o.necessary(rq.carch, o.aports[rq.pkgname], w.repo)
    ensures var a := o.aports[rq.pkgname];
      var c := Carch(o.cfg, a, rq.carch, rq.strict).value;
      var suffix := Suffix(o.cfg, a, c, rq.strict);
      var r := Build(o, w, rq, fuel);
      && |r.0.trace| > |w.trace| && r.0.trace[|w.trace|] == Init(suffix)
      && (r.1.Built? ==>
            exists mid :: r.0.trace == w.trace + [Init(suffix)] + mid +
              ToolchainEffects(Resolve(o.cfg, a, rq.carch, rq.strict).value) +
              AbuildStageEffects(o, a, rq, Resolve(o.cfg, a, rq.carch, rq.strict).value))
      && Resolve(o.cfg, a, rq.carch, rq.strict).value.cross == Crosscompile(o.cfg, a, c, suffix)
  {
    NecessaryPassesFirstCheck(o, w, rq, fuel);
    if Build(o, w, rq, fuel).1.Built? {
      BuiltOrder(o, w, rq, fuel);
    }
  }

  /**
   * A package that is forced or necessary passes the first check: the chroot
   * is initialised, and the call goes on with the makedepends and what follows.
   */
  lemma NecessaryPassesFirstCheck(o: Oracles, w: World, rq: Request, fuel: nat)
    requires rq.pkgname in o.aports && Resolve(o.cfg, o.aports[rq.pkgname], rq.carch, rq.strict).Success?
    requires rq.force || o.necessary(rq.carch, o.aports[rq.pkgname], w.repo)
    ensures var a := o.aports[rq.pkgname];
      var e := Resolve(o.cfg, a, rq.carch, rq.strict).value;
      var r := Build(o, w, rq, fuel);
      var deps := InstallDeps(o, Append(w, [Init(e.suffix)]), a, rq, e, fuel);
      && |r.0.trace| > |w.trace| && r.0.trace[|w.trace|] == Init(e.suffix)
      && r == (if deps.1.Some? then (deps.0, Failed(deps.1.value)) else AfterMakedepends(o, deps.0, a, rq, e))
  {
    var a := o.aports[rq.pkgname];
    var e := Resolve(o.cfg, a, rq.carch, rq.strict).value;
    var w1 := Append(w, [Init(e.suffix)]);
    var r := Build(o, w, rq, fuel);
    assert Extends(w1, r.0);
    assert r.0.trace[|w.trace|] == w1.trace[|w.trace|];
  }

  /**
   * The second check (package.py:78-80): once the makedepends are done, a
   * package that is no longer necessary is skipped right after the toolchain.
   */
  lemma NotNecessarySkipsSecond(o: Oracles, w: World, rq: Request, fuel: nat)
    requires rq.pkgname in o.aports && Resolve(o.cfg, o.aports[rq.pkgname], rq.carch, rq.strict).Success?
    requires !rq.force && o.necessary(rq.carch, o.aports[rq.pkgname], w.repo)
    requires var a := o.aports[rq.pkgname];
      var e := Resolve(o.cfg, a, rq.carch, rq.strict).value;
      var deps := InstallDeps(o, Append(w, [Init(e.suffix)]), a, rq, e, fuel);
      deps.1.None? && !o.necessary(rq.carch, a, Append(deps.0, ToolchainEffects(e)).repo)
    ensures var a := o.aports[rq.pkgname];
      var e := Resolve(o.cfg, a, rq.carch, rq.strict).value;
      var deps := InstallDeps(o, Append(w, [Init(e.suffix)]), a, rq, e, fuel);
      Build(o, w, rq, fuel) == (Append(deps.0, ToolchainEffects(e)), Skipped)
  {
    NecessaryPassesFirstCheck(o, w, rq, fuel);
  }

  /**
   * A package that is forced, or necessary at both checks, reaches the abuild
   * stage once its makedepends are done, and so is never skipped.
   */
  lemma NecessaryReachesAbuild(o: Oracles, w: World, rq: Request, fuel: nat)
    requires rq.pkgname in o.aports && Resolve(o.cfg, o.aports[rq.pkgname], rq.carch, rq.strict).Success?
    requires rq.force || o.necessary(rq.carch, o.aports[rq.pkgname], w.repo)
    requires var a := o.aports[rq.pkgname];
      var e := Resolve(o.cfg, a, rq.carch, rq.strict).value;
      var deps := InstallDeps(o, Append(w, [Init(e.suffix)]), a, rq, e, fuel);
      deps.1.None? && (rq.force || o.necessary(rq.carch, a, Append(deps.0, ToolchainEffects(e)).repo))
    ensures var a := o.aports[rq.pkgname];
      var e := Resolve(o.cfg, a, rq.carch, rq.strict).value;
      var deps := InstallDeps(o, Append(w, [Init(e.suffix)]), a, rq, e, fuel);
      Build(o, w, rq, fuel) == Compile(o, Append(deps.0, ToolchainEffects(e)), a, rq, e)
    ensures Build(o, w, rq, fuel).1 != Skipped
  {
    NecessaryPassesFirstCheck(o, w, rq, fuel);
  }

  /**
   * The effects of a successful abuild stage, in order: configuring abuild,
   * copying the sources, the sysroot bind mount if any, abuild itself with the
   * command line built from the environment, and the publishing steps.
   */
  function AbuildStageEffects(o: Oracles, a: Apkbuild, rq: Request, e: BuildEnv): seq<Effect> {
    [ConfigureAbuild(e.suffix), CopyToBuildpath(a.pkgname, e.suffix)] +
    (BindEffects(o, e, CallerCarch(rq)) + [AbuildRun(o, e, rq)]) +
    PublishEffects(o, e, a, rq, OutputName(e.carch, a))
  }

  /** The effects of a successful abuild stage, in order. */
  lemma CompileBuiltTrace(o: Oracles, w: World, a: Apkbuild, rq: Request, e: BuildEnv)
    requires Compile(o, w, a, rq, e).1.Built?
    ensures Compile(o, w, a, rq, e).0.trace == w.trace + AbuildStageEffects(o, a, rq, e)
  {
    var head := [ConfigureAbuild(e.suffix), CopyToBuildpath(a.pkgname, e.suffix)];
    var run := BindEffects(o, e, CallerCarch(rq)) + [AbuildRun(o, e, rq)];
    var w2 := Append(Append(w, head), run);
    assert Compile(o, w, a, rq, e) == Finish(o, w2, a, rq, e);
    assert w2.trace == w.trace + head + run;
  }

  /**
   * When the output is missing after abuild the stage raises with its full
   * path, and abuild was the last thing it did: no build record, no noarch
   * symlink, no cache clearing and no `abuild undeps`.
   */
  lemma CompileMissingTrace(o: Oracles, w: World, a: Apkbuild, rq: Request, e: BuildEnv)
    requires Compile(o, w, a, rq, e).1.Failed? && Compile(o, w, a, rq, e).1.error.ArtifactMissing?
    ensures var r := Compile(o, w, a, rq, e);
      && r.1.error.path == o.work + "/packages/" + OutputName(e.carch, a)
      && OutputName(e.carch, a) !in r.0.repo
      && r.0.trace != []
      && r.0.trace[|r.0.trace| - 1] == AbuildRun(o, e, rq)
  {
  }

  /** A call that builds reached the abuild stage with the makedepends and the toolchain done. */
  lemma BuiltPassedDeps(o: Oracles, w: World, rq: Request, fuel: nat)
    requires Build(o, w, rq, fuel).1.Built?
    ensures rq.pkgname in o.aports && Resolve(o.cfg, o.aports[rq.pkgname], rq.carch, rq.strict).Success?
    ensures var a := o.aports[rq.pkgname];
      var e := Resolve(o.cfg, a, rq.carch, rq.strict).value;
      var deps := InstallDeps(o, Append(w, [Init(e.suffix)]), a, rq, e, fuel);
      && deps.1.None?
      && Build(o, w, rq, fuel) == Compile(o, Append(deps.0, ToolchainEffects(e)), a, rq, e)
  {
  }

  /**
   * A successful call returns `carch_buildenv/pkgname-pkgver-rpkgrel.apk`,
   * which is then present, and its effects are, in order: the chroot init,
   * the makedepends (one install of all of them when not strict), the
   * toolchain, configuring abuild and copying the sources, the sysroot bind
   * mount if any, abuild with the command line built from the environment,
   * and the publishing steps.
   */
  lemma BuiltOrder(o: Oracles, w: World, rq: Request, fuel: nat)
    requires Build(o, w, rq, fuel).1.Built?
    ensures rq.pkgname in o.aports && Resolve(o.cfg, o.aports[rq.pkgname], rq.carch, rq.strict).Success?
    ensures var a := o.aports[rq.pkgname];
      var e := Resolve(o.cfg, a, rq.carch, rq.strict).value;
      a.makedepends != [] && e.withDeps ==> rq.carch.Some?
    ensures var a := o.aports[rq.pkgname];
      var e := Resolve(o.cfg, a, rq.carch, rq.strict).value;
      var r := Build(o, w, rq, fuel);
      && r.1.output == OutputName(e.carch, a)
      && r.1.output in r.0.repo
      && exists mid ::
           && (!rq.strict ==> mid == NonStrictDepsEffects(a, rq, e))
           && r.0.trace == w.trace + [Init(e.suffix)] + mid + ToolchainEffects(e) + AbuildStageEffects(o, a, rq, e)
  {
    var r := Build(o, w, rq, fuel);
    var a := o.aports[rq.pkgname];
    var e := Resolve(o.cfg, a, rq.carch, rq.strict).value;
    var w1 := Append(w, [Init(e.suffix)]);
    var deps := InstallDeps(o, w1, a, rq, e, fuel);
    var w2 := Append(deps.0, ToolchainEffects(e));
    BuiltPassedDeps(o, w, rq, fuel);
    CompileBuiltTrace(o, w2, a, rq, e);
    var mid := deps.0.trace[|w1.trace|..];
    assert deps.0.trace == w1.trace + mid;
    if !rq.strict {
      assert mid == NonStrictDepsEffects(a, rq, e);
    }
    assert r.0.trace == w.trace + [Init(e.suffix)] + mid + ToolchainEffects(e) + AbuildStageEffects(o, a, rq, e);
  }

  /**
   * The worlds the strict recursion passes through: `ws[i]` is the world in
   * which the i-th makedepend is built, `ws[|deps|]` the world after the last.
   */
  function DepChain(o: Oracles, w: World, deps: seq<string>, carch: string, fuel: nat): (ws: seq<World>)
    ensures |ws| == |deps| + 1 && ws[0] == w
    ensures forall i :: 0 <= i < |deps| ==> ws[i + 1] == Build(o, ws[i], DepRequest(deps[i], carch), fuel).0
    decreases |deps|
  {
    if deps == [] then [w]
    else
      var rest := DepChain(o, Build(o, w, DepRequest(deps[0], carch), fuel).0, deps[1..], carch, fuel);
      var ws := [w] + rest;
      assert forall i :: 1 <= i < |deps| ==> ws[i] == rest[i - 1] && deps[i] == deps[1..][i - 1];
      ws
  }

  /** Each world of the chain extends the ones before it. */
  lemma {:induction false} DepChainExtends(o: Oracles, w: World, deps: seq<string>, carch: string, fuel: nat, i: nat, j: nat)
    requires i <= j <= |deps|
    ensures var ws := DepChain(o, w, deps, carch, fuel); Extends(ws[i], ws[j])
    decreases j - i
  {
    var ws := DepChain(o, w, deps, carch, fuel);
    if i < j {
      DepChainExtends(o, w, deps, carch, fuel, i + 1, j);
      assert Extends(ws[i], ws[i + 1]);
    }
  }

  /** No makedepend before the `n`-th raised in the world the chain reached for it. */
  predicate NoneFailedBefore(o: Oracles, ws: seq<World>, deps: seq<string>, carch: string, fuel: nat, n: nat)
    requires n <= |deps| && n < |ws|
  {
    forall i :: 0 <= i < n ==> !Build(o, ws[i], DepRequest(deps[i], carch), fuel).1.Failed?
  }

  /**
   * One step of the chain: the first makedepend is built, the rest follow
   * from its world, and none of the first `n` raised exactly when the first
   * did not and none of the next `n - 1` did.
   */
  lemma DepChainStep(o: Oracles, w: World, deps: seq<string>, carch: string, fuel: nat, n: nat)
    requires 0 < n <= |deps|
    ensures var b := Build(o, w, DepRequest(deps[0], carch), fuel);
      var rest := DepChain(o, b.0, deps[1..], carch, fuel);
      && DepChain(o, w, deps, carch, fuel) == [w] + rest
      && (NoneFailedBefore(o, DepChain(o, w, deps, carch, fuel), deps, carch, fuel, n) <==>
           !b.1.Failed? && NoneFailedBefore(o, rest, deps[1..], carch, fuel, n - 1))
  {
    var b := Build(o, w, DepRequest(deps[0], carch), fuel);
    var rest := DepChain(o, b.0, deps[1..], carch, fuel);
    var ws := DepChain(o, w, deps, carch, fuel);
    assert forall i :: 1 <= i < |deps| ==> ws[i] == rest[i - 1] && deps[i] == deps[1..][i - 1];
  }

  /**
   * The strict recursion builds the makedepends in list order, each with
   * `package(args, dep, carch_buildenv, strict=True)`, and succeeds exactly
   * when none of those calls raised; it then ends in the world after the last.
   */
  lemma {:induction false} BuildDepsSucceeds(o: Oracles, w: World, deps: seq<string>, carch: string, fuel: nat)
    ensures var ws := DepChain(o, w, deps, carch, fuel);
      var r := BuildDeps(o, w, deps, carch, fuel);
      && (r.1.None? <==> NoneFailedBefore(o, ws, deps, carch, fuel, |deps|))
      && (r.1.None? ==> r.0 == ws[|deps|])
    decreases |deps|
  {
    if deps != [] {
      var b := Build(o, w, DepRequest(deps[0], carch), fuel);
      DepChainStep(o, w, deps, carch, fuel, |deps|);
      if !b.1.Failed? {
        BuildDepsSucceeds(o, b.0, deps[1..], carch, fuel);
      }
    }
  }

  /**
   * `r` is what the recursion returns when the `k`-th makedepend is the first
   * whose call raised: the world right after that call, and its error.
   */
  predicate FirstFailureAt(o: Oracles, ws: seq<World>, deps: seq<string>, carch: string, fuel: nat, k: nat, r: (World, Option<BuildError>))
    requires k < |deps| && |ws| == |deps| + 1
  {
    var b := Build(o, ws[k], DepRequest(deps[k], carch), fuel);
    NoneFailedBefore(o, ws, deps, carch, fuel, k) && b.1.Failed? && r == (ws[k + 1], Some(b.1.error))
  }

  /** A first failure in the tail of the chain is one position further along the whole chain. */
  lemma FirstFailureShift(o: Oracles, w: World, deps: seq<string>, carch: string, fuel: nat, k: nat, r: (World, Option<BuildError>))
    requires deps != [] && !Build(o, w, DepRequest(deps[0], carch), fuel).1.Failed?
    requires k < |deps| - 1
    requires FirstFailureAt(o, DepChain(o, Build(o, w, DepRequest(deps[0], carch), fuel).0, deps[1..], carch, fuel), deps[1..], carch, fuel, k, r)
    ensures FirstFailureAt(o, DepChain(o, w, deps, carch, fuel), deps, carch, fuel, k + 1, r)
  {
    var ws := DepChain(o, w, deps, carch, fuel);
    var rest := DepChain(o, Build(o, w, DepRequest(deps[0], carch), fuel).0, deps[1..], carch, fuel);
    DepChainStep(o, w, deps, carch, fuel, k + 1);
    assert ws[k + 1] == rest[k] && ws[k + 2] == rest[k + 1];
    assert deps[k + 1] == deps[1..][k];
  }

  /**
   * A strict recursion that raises stops right after the first makedepend
   * whose call raised, with that call's error, all earlier ones having passed.
   */
  lemma {:induction false} BuildDepsStopsAtFailure(o: Oracles, w: World, deps: seq<string>, carch: string, fuel: nat)
    requires BuildDeps(o, w, deps, carch, fuel).1.Some?
    ensures exists k ::
      0 <= k < |deps| && FirstFailureAt(o, DepChain(o, w, deps, carch, fuel), deps, carch, fuel, k, BuildDeps(o, w, deps, carch, fuel))
    decreases |deps|
  {
    var ws := DepChain(o, w, deps, carch, fuel);
    var r := BuildDeps(o, w, deps, carch, fuel);
    var b := Build(o, w, DepRequest(deps[0], carch), fuel);
    DepChainStep(o, w, deps, carch, fuel, 1);
    if b.1.Failed? {
      assert FirstFailureAt(o, ws, deps, carch, fuel, 0, r);
    } else {
      var rest := DepChain(o, b.0, deps[1..], carch, fuel);
      BuildDepsStopsAtFailure(o, b.0, deps[1..], carch, fuel);
      var k :| 0 <= k < |deps| - 1 && FirstFailureAt(o, rest, deps[1..], carch, fuel, k, r);
      FirstFailureShift(o, w, deps, carch, fuel, k, r);
    }
  }

  /** After a successful strict recursion, every makedepend it built has its package file present. */
  lemma DepOutputsPresent(o: Oracles, w: World, deps: seq<string>, carch: string, fuel: nat)
    requires BuildDeps(o, w, deps, carch, fuel).1.None?
    ensures var ws := DepChain(o, w, deps, carch, fuel);
      forall i :: 0 <= i < |deps| && Build(o, ws[i], DepRequest(deps[i], carch), fuel).1.Built? ==>
        Build(o, ws[i], DepRequest(deps[i], carch), fuel).1.output in BuildDeps(o, w, deps, carch, fuel).0.repo
  {
    var ws := DepChain(o, w, deps, carch, fuel);
    BuildDepsSucceeds(o, w, deps, carch, fuel);
    forall i | 0 <= i < |deps| && Build(o, ws[i], DepRequest(deps[i], carch), fuel).1.Built?
      ensures Build(o, ws[i], DepRequest(deps[i], carch), fuel).1.output in ws[|deps|].repo
    {
      DepChainExtends(o, w, deps, carch, fuel, i + 1, |deps|);
    }
  }

  /** The `i`-th makedepend build of the strict loop returned `Built(out)`. */
  predicate DepBuilt(o: Oracles, w: World, deps: seq<string>, carch: string, fuel: nat, i: nat, out: string) {
    i < |deps| && Build(o, DepChain(o, w, deps, carch, fuel)[i], DepRequest(deps[i], carch), fuel).1 == Built(out)
  }

  /** The output of one successful makedepend build is in the repository the loop ends with. */
  lemma DepOutputPresent(o: Oracles, w: World, deps: seq<string>, carch: string, fuel: nat, i: nat, out: string)
    requires BuildDeps(o, w, deps, carch, fuel).1.None? && DepBuilt(o, w, deps, carch, fuel, i, out)
    ensures out in BuildDeps(o, w, deps, carch, fuel).0.repo
  {
    DepOutputsPresent(o, w, deps, carch, fuel);
  }

  /** The fuel the strict recursion of a call with `fuel` hands to its makedepends. */
  function DepFuel(fuel: nat): nat {
    if fuel == 0 then 0 else fuel - 1
  }

  /**
   * A strict call that builds went through its makedepends in list order,
   * each built with `package(args, dep, carch_buildenv, strict=True)` and none
   * raising; every one that was built has its package file present before
   * the toolchain is installed and abuild runs; and its effects are the
   * chroot init, the effects of those calls in order, the toolchain and the
   * abuild stage.
   */
  lemma StrictBuiltDeps(o: Oracles, w: World, rq: Request, fuel: nat)
    requires Build(o, w, rq, fuel).1.Built? && rq.strict
    ensures rq.pkgname in o.aports && Resolve(o.cfg, o.aports[rq.pkgname], rq.carch, rq.strict).Success?
    ensures var a := o.aports[rq.pkgname];
      var e := Resolve(o.cfg, a, rq.carch, rq.strict).value;
      var deps := a.makedepends;
      var ws := DepChain(o, Append(w, [Init(e.suffix)]), deps, e.carch, DepFuel(fuel));
      && (deps != [] ==> fuel > 0)
      && NoneFailedBefore(o, ws, deps, e.carch, DepFuel(fuel), |deps|)
      && (forall i :: 0 <= i < |deps| && Build(o, ws[i], DepRequest(deps[i], e.carch), DepFuel(fuel)).1.Built? ==>
            Build(o, ws[i], DepRequest(deps[i], e.carch), DepFuel(fuel)).1.output in ws[|deps|].repo)
      && Build(o, w, rq, fuel).0.trace == ws[|deps|].trace + ToolchainEffects(e) + AbuildStageEffects(o, a, rq, e)
  {
    var a := o.aports[rq.pkgname];
    var e := Resolve(o.cfg, a, rq.carch, rq.strict).value;
    var w1 := Append(w, [Init(e.suffix)]);
    var deps := InstallDeps(o, w1, a, rq, e, fuel);
    BuiltPassedDeps(o, w, rq, fuel);
    CompileBuiltTrace(o, Append(deps.0, ToolchainEffects(e)), a, rq, e);
    if a.makedepends != [] {
      assert deps == BuildDeps(o, w1, a.makedepends, e.carch, DepFuel(fuel));
      BuildDepsSucceeds(o, w1, a.makedepends, e.carch, DepFuel(fuel));
      DepOutputsPresent(o, w1, a.makedepends, e.carch, DepFuel(fuel));
    }
  }

  /**
   * `is_necessary` answers false once the package file of its carch is
   * present, as the index it consults then lists the package.
   */
  ghost predicate NecessityFollowsRepo(o: Oracles) {
    forall c, a, repo :: OutputName(c, a) in repo ==> !o.necessary(Some(c), a, repo)
  }

  /**
   * Building a package again right after it was built for the arch it
   * resolves to, without force, is skipped and does nothing.
   */
  lemma RebuildIsSkipped(o: Oracles, w: World, rq: Request, fuel: nat, fuel': nat)
    requires NecessityFollowsRepo(o)
    requires Build(o, w, rq, fuel).1.Built?
    requires rq.pkgname in o.aports && rq.carch.Some?
    requires Carch(o.cfg, o.aports[rq.pkgname], rq.carch, rq.strict) == Success(rq.carch.value)
    ensures var w' := Build(o, w, rq, fuel).0;
      Build(o, w', rq.(force := false), fuel') == (w', Skipped)
  {
    BuiltOrder(o, w, rq, fuel);
    var w' := Build(o, w, rq, fuel).0;
    var a := o.aports[rq.pkgname];
    assert OutputName(rq.carch.value, a) in w'.repo;
    assert !o.necessary(rq.carch, a, w'.repo);
    NotNecessarySkipsFirst(o, w', rq.(force := false), fuel');
  }

  /**
   * The circular case the second check exists for (package.py:78-80): when a
   * strict makedepend has built this very package for the same carch, the
   * outer call is skipped right after the toolchain, before abuild is
   * configured for it.
   */
  lemma CircularDependencySkipped(o: Oracles, w: World, rq: Request, fuel: nat, i: nat)
    requires NecessityFollowsRepo(o)
    requires rq.pkgname in o.aports && Resolve(o.cfg, o.aports[rq.pkgname], rq.carch, rq.strict).Success?
    requires var a := o.aports[rq.pkgname];
      var e := Resolve(o.cfg, a, rq.carch, rq.strict).value;
      rq.strict && !rq.force && fuel > 0 && rq.carch == Some(e.carch) && o.necessary(rq.carch, a, w.repo)
    requires var a := o.aports[rq.pkgname];
      var e := Resolve(o.cfg, a, rq.carch, rq.strict).value;
      var w1 := Append(w, [Init(e.suffix)]);
      && BuildDeps(o, w1, a.makedepends, e.carch, fuel - 1).1.None?
      && DepBuilt(o, w1, a.makedepends, e.carch, fuel - 1, i, OutputName(e.carch, a))
    ensures var a := o.aports[rq.pkgname];
      var e := Resolve(o.cfg, a, rq.carch, rq.strict).value;
      var w1 := Append(w, [Init(e.suffix)]);
      Build(o, w, rq, fuel) == (Append(BuildDeps(o, w1, a.makedepends, e.carch, fuel - 1).0, ToolchainEffects(e)), Skipped)
  {
    var a := o.aports[rq.pkgname];
    var e := Resolve(o.cfg, a, rq.carch, rq.strict).value;
    var w1 := Append(w, [Init(e.suffix)]);
    var deps := BuildDeps(o, w1, a.makedepends, e.carch, fuel - 1);
    DepOutputPresent(o, w1, a.makedepends, e.carch, fuel - 1, i, OutputName(e.carch, a));
    assert InstallDeps(o, w1, a, rq, e, fuel) == deps;
    assert !o.necessary(Some(e.carch), a, Append(deps.0, ToolchainEffects(e)).repo);
    NotNecessarySkipsSecond(o, w, rq, fuel);
  }
}
