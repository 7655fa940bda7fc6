# pmbootstrap package builds and QEMU commands, modelled in Dafny

This project models three files of pmbootstrap, the postmarketOS build and
install tool.

- **Build-environment autodetection** (`pmb/build/autodetect.py`, module
  `Autodetect`). For each package it decides:
  - the architecture it is built for (`carch`);
  - the chroot that builds it (`suffix`: `native` or `buildroot_<arch>`);
  - how it is cross-compiled (`crosscompile`: none, `native` or `distcc`).

  It also models the nodeps pattern-list check and the CMake processor names.
  `fnmatch` is modelled by module `Glob`.
- **The package build driver** (`pmb/build/package.py`).
  - Module `PackageSpec` states one `package(...)` call as functions on the
    world the call acts on: the effects performed so far, in order (chroot
    init, installs, distccd, bind mounts, abuild runs, build records and so
    on), and the set of package files present.
  - Module `PackageDriver` is the imperative driver. It is a class `Builder`
    whose methods append effects and add package files step by step. The
    strict makedepends loop recurses back into `Package`. The `env` variables
    and the `cmd` list are grown the way the code grows them. Every method is
    proved to do exactly what the `PackageSpec` functions say.
  - Module `PackageProps` proves what a call promises: when it skips, the
    order of its effects, what it returns, and that a rebuild is skipped.
    For strict calls it follows the makedepends recursion: the makedepends
    are built one by one in list order with `strict=True` for
    `carch_buildenv`; the first one that raises ends the call with its error;
    and when the call builds, every makedepend that was built has its package
    file present before the toolchain is installed and abuild runs.
- **QEMU command composition** (`pmb/qemu/run.py`, module `QemuRun`). This
  covers the system image path, the QEMU binary, the choice of SPICE client
  and the SPICE parameters, and the full QEMU command line with its error
  cases.

Everything outside these files is a parameter:

- the parsed APKBUILDs and deviceinfo;
- `is_necessary` and the APKINDEX lookups;
- `alpine_to_hostspec`, `cpu_emulation_required` and `uname_to_qemu`;
- what `os.path.exists` and `shutil.which` see;
- what `abuild` writes.

Python's `None` for an optional string is `Option<string>` where the code
distinguishes it from `""` (the `carch` argument of `package`). In other
places it is `""`, because only its truth value is read (`args.cmdline`,
`args.arch`, `args.noarch_arch`). An exception the code raises is a `Failure`
value, or an `Outcome.Failed` value in the driver.

Some behaviours of the code that a reader might not expect, all modelled as written:

- The output path starts with `carch_buildenv`, not with the suffix.
- Strict builds pass `-r` to abuild and non-strict builds pass `-d`.
- The makedepends are not split into build-time and host-time groups.
- Lines 67 and 106 of `pmb/build/package.py` build `buildroot_<carch>` from
  the caller's `carch` argument, not from `carch_buildenv`. This raises
  `TypeError` when that argument is `None`.
- The cross toolchain of lines 70-72 is installed into the `native` chroot,
  which is the default suffix of `pmb.chroot.apk.install`.

## Model

| member | source | states |
|---|---|---|
| `Glob.Match` | pmb/build/autodetect.py:58-60 | `fnmatch` on POSIX: a pattern without `*` never matches a name longer than itself |
| `Glob.BracketMatchesOneChar` | pmb/build/autodetect.py:58-60 | a closed `[set]` (`[!set]`) matches exactly the one-character names whose character is in (outside) the set |
| `Glob.ClassWithoutRanges` | pmb/build/autodetect.py:58-60 | a bracket set without `-` holds exactly the characters written in it, and `!` complements it |
| `Glob.ClassRange` | pmb/build/autodetect.py:58-60 | a bracket set `lo-hi` holds exactly the characters from `lo` to `hi` inclusive, and `!` complements it |
| `Glob.StarMatchesAll` | pmb/build/autodetect.py:58-60 | the pattern `*` matches every package name, the empty one included |
| `Glob.LiteralMatchesItself` | pmb/build/autodetect.py:58-60 | a pattern without wildcards matches exactly the name spelled the same, case-sensitively |
| `Glob.PrefixStarMatches` | pmb/build/autodetect.py:58-60 | `prefix*` matches exactly the names that start with `prefix` |
| `Glob.StarSuffixMatches` | pmb/build/autodetect.py:58-60 | `*suffix` matches exactly the names that end with `suffix` |
| `Glob.QuestionMatchesOneChar` | pmb/build/autodetect.py:58-60 | `?` matches exactly the one-character names |
| `Autodetect.MatchesAny` | pmb/build/autodetect.py:58-60 | the search over the pattern list is true iff some pattern of the list matches the name |
| `Autodetect.Carch` | pmb/build/autodetect.py:25-42 | noarch never raises and gives the configured override, else the device arch in strict mode, else the native arch; for other packages, a requested arch is rejected iff neither "all" nor that arch is declared, and is returned unchanged otherwise; with nothing requested, the native arch is returned when "all" or the native arch is declared, else the first declared arch, and an empty arch list raises; every successful non-noarch result is an arch the package supports |
| `Autodetect.CrossNativePatterns` | pmb/build/autodetect.py:55-57 | the nodeps list replaces the general list exactly when strict or prefer_distcc_cross is set |
| `Autodetect.Suffix` | pmb/build/autodetect.py:45-62 | the result is only ever `native` or `buildroot_<carch>`; it is `native` for the native arch and for `-repack` packages; without cross-compilation any other package gets its buildroot; with it, the result is `native` iff extra-cmake-modules is a makedepend or a pattern of the active list matches the name |
| `Autodetect.Crosscompile` | pmb/build/autodetect.py:65-77 | no cross mode iff cross is off, the package is a repack or no emulation is needed; otherwise `native` iff the suffix is `native`, and `distcc` otherwise |
| `Autodetect.IsCrossNativeNodeps` | pmb/build/autodetect.py:80-88 | true iff some pattern of the nodeps list matches the package name |
| `Autodetect.CmakeProcessorForCarch` | pmb/build/autodetect.py:91-101 | defined exactly for armhf, aarch64 and x86_64, mapping armhf to arm and the other two to themselves |
| `Autodetect.CmakeProcessorInjective` | pmb/build/autodetect.py:91-101 | distinct archs never share a CMake processor name |
| `Autodetect.DistccOnlyInBuildroot` | pmb/build/autodetect.py:45-77 | the distcc mode only arises for a foreign arch whose chroot is its buildroot |
| `Autodetect.NativeArchIsNeverCross` | pmb/build/autodetect.py:45-77 | when the host needs no emulation for its own arch, a native-arch build is in `native` and is not a cross build |
| `Autodetect.AllOrNoarchNeverFails` | pmb/build/autodetect.py:25-42 | a package declaring "all" or "noarch" always gets an arch, whatever is requested |
| `Autodetect.ScenarioAllArchNative` | pmb/build/autodetect.py:25-77 | an "all" package with no requested arch resolves to the native arch, the native chroot and no cross-compilation |
| `Autodetect.ScenarioForeignArch` | pmb/build/autodetect.py:25-77 | a package for one foreign arch that needs emulation resolves to that arch; it builds in its buildroot with distcc unless the active pattern list names it, in which case it builds natively with a cross compiler |
| `PackageSpec.Resolve` | pmb/build/package.py:50-54 | resolution fails exactly when `carch` raises, with its error; a resolved environment has `carch`'s arch; its chroot is `suffix` of that arch with the caller's `strict`, and its mode is `crosscompile` of that arch and chroot; it keeps the suffix and cross-mode invariants, and needs the foreign sysroot iff the mode is native cross and `!tracedeps` is not set |
| `PackageSpec.ResolveAsWritten` | pmb/build/package.py:50-51 | the call of `suffix` with three arguments never produces an environment |
| `PackageSpec.AsWrittenNeverReachesBuild` | pmb/build/package.py:50-51 | as written, every package whose arch resolves fails with the arity error, where the corrected call resolves |
| `PackageSpec.OutputName` | pmb/build/package.py:86-87 | the output path is under `carch_buildenv/`, ends in `.apk` and has the length of its parts |
| `PackageSpec.DepsSuffix` | pmb/build/package.py:67-68 | non-strict makedepends go into `buildroot_<carch>` when the foreign sysroot is used, and into the build chroot otherwise |
| `PackageSpec.ToolchainEffects` | pmb/build/package.py:69-76 | nothing is installed iff there is no cross mode; otherwise gcc, g++ and ccache-cross-symlinks for `carch_buildenv` are installed first, into `native`; in native mode that is the only effect; in distcc mode exactly two more follow, distcc installed into the build chroot and then distccd started for `carch_buildenv`; distccd is started iff the mode is distcc |
| `PackageSpec.SysrootLookups` | pmb/build/package.py:111-119 | the seven sysroot variables come in assignment order, each key once; CHOST is the hostspec, and CBUILDROOT and PKG_CONFIG_SYSROOT_DIR are the sysroot path |
| `PackageSpec.BindMountsSysroot` | pmb/build/package.py:106-109 | a bind mount happens iff the mode is native cross with the foreign sysroot; it mounts the caller's `buildroot_<carch>` chroot at the sysroot path inside the native chroot |
| `PackageSpec.SysrootVarsPointIntoSysroot` | pmb/build/package.py:111-119 | every sysroot variable except CHOST refers to the mounted sysroot path |
| `PackageSpec.BuilderEnvLayout` | pmb/build/package.py:99-123 | the variables come in assignment order: CARCH first; CROSS_COMPILE and CC from the hostspec in native cross mode; then the seven sysroot variables when the foreign sysroot is used; PATH and DISTCC_HOSTS in distcc mode |
| `PackageSpec.EnvKeysShape` | pmb/build/package.py:99-123 | no key repeats, and each group of keys is present exactly in its mode |
| `PackageSpec.BuilderEnvKeys` | pmb/build/package.py:99-123 | no key is set twice; CARCH is `carch_buildenv`; CROSS_COMPILE and CC are present iff native cross; the sysroot keys iff the foreign sysroot is used; PATH and DISTCC_HOSTS iff distcc |
| `PackageSpec.BuilderEnvSysroot` | pmb/build/package.py:104-119 | with the foreign sysroot, CBUILDROOT is the mounted sysroot of the caller's arch, CHOST and CROSS_COMPILE come from the hostspec, and the path variables point into the sysroot |
| `PackageSpec.EnvArgs` | pmb/build/package.py:124-125 | one `KEY=VALUE` argument per variable, in order |
| `PackageSpec.AbuildCmdLayout` | pmb/build/package.py:124-132 | the command is the variable assignments, then `abuild`, then `-r` when strict or `-d` otherwise, and `-f` is present iff force is set |
| `PackageSpec.PublishEffectsShape` | pmb/build/package.py:140-155 | a build record is written iff requested; the noarch symlink is made iff the package is noarch; the APKINDEX cache of `carch_buildenv` is always cleared; `abuild undeps` is the last step iff strict |
| `PackageSpec.Build` | pmb/build/package.py:32-157 | a call only adds effects and package files, and a returned output is present in the packages folder |
| `PackageSpec.InstallDeps` | pmb/build/package.py:62-68 | the makedepends step only adds effects, and a non-strict one adds no package file |
| `PackageSpec.BuildDeps` | pmb/build/package.py:64-65 | the strict loop only adds effects and package files |
| `PackageProps.DepChain` | pmb/build/package.py:64-65 | the worlds the strict loop passes through: each makedepend is built, with `strict=True` for `carch_buildenv`, in the world the previous one left |
| `PackageProps.BuildDepsSucceeds` | pmb/build/package.py:64-65 | the strict loop succeeds iff none of the makedepend builds, taken in list order, raised; it then ends in the world after the last one |
| `PackageProps.BuildDepsStopsAtFailure` | pmb/build/package.py:64-65 | a strict loop that raises stops right after the first makedepend whose build raised, with that error, all earlier ones having passed |
| `PackageProps.DepOutputsPresent` | pmb/build/package.py:64-65 | after a successful strict loop, every makedepend that was built has its package file present |
| `PackageProps.StrictBuiltDeps` | pmb/build/package.py:60-132 | a strict call that builds built every makedepend in list order without a failure; each built makedepend's package file is present before the toolchain is installed and abuild runs; its effects are the init, the makedepend builds, the toolchain and the abuild stage |
| `PackageSpec.Compile` | pmb/build/package.py:83-157 | the abuild stage never skips; its output is `OutputName(carch_buildenv, apkbuild)` and present; it fails only when the caller's `carch` is missing for the sysroot, or with the full path of the missing output |
| `PackageSpec.AfterMakedepends` | pmb/build/package.py:69-80 | the cross toolchain and the second necessity check only add effects; the step skips iff `force` is off and `is_necessary` says no on the repository after the toolchain, and a skip leaves exactly the toolchain effects; a returned output is present |
| `PackageSpec.Finish` | pmb/build/package.py:133-157 | the output is present iff it was already in the packages folder or abuild wrote it; when present it is published with exactly `PublishEffects`; when missing the call fails with the full path and changes nothing more |
| `PackageDriver.Builder.Package` | pmb/build/package.py:32-68 | the driver ends in the world and with the outcome that `Build` gives for the call |
| `PackageDriver.Builder.Makedepends` | pmb/build/package.py:62-68 | the makedepends step ends in the world and with the error that `InstallDeps` gives |
| `PackageDriver.Builder.BuildMakedepends` | pmb/build/package.py:64-65 | the loop builds the makedepends in list order, strictly and for `carch_buildenv`, stopping at the first failure, as `BuildDeps` says |
| `PackageDriver.Builder.AfterMakedepends` | pmb/build/package.py:69-80 | the toolchain installs, the second check and the abuild stage end as `AfterMakedepends` says |
| `PackageDriver.Builder.Finish` | pmb/build/package.py:133-157 | the steps after abuild end in the world and with the outcome that `PackageSpec.Finish` gives |
| `PackageDriver.Builder.RunAbuild` | pmb/build/package.py:83-157 | the abuild stage ends in the world and with the outcome that `Compile` gives |
| `PackageDriver.Builder.Publish` | pmb/build/package.py:140-155 | exactly the `PublishEffects` are appended |
| `PackageDriver.Builder.AbuildEnv` | pmb/build/package.py:99-123 | it fails iff the foreign sysroot is needed but the caller's `carch` is None; otherwise the variables are `BuilderEnv` and the only effect is the sysroot bind mount, if any |
| `PackageDriver.AbuildCommand` | pmb/build/package.py:98-132 | the list grown with `+=` is `AbuildCmd` of the variables |
| `PackageProps.MissingAport` | pmb/build/package.py:39-45 | without an aport nothing happens; the call is skipped iff an APKINDEX has the package, and raises otherwise |
| `PackageProps.NotNecessarySkipsFirst` | pmb/build/package.py:56-58 | without force, a package that is not necessary is skipped before any init or install |
| `PackageProps.ArchErrorHasNoEffect` | pmb/build/package.py:47-50 | an arch error is raised before any effect |
| `PackageProps.SkippedStopsBeforeAbuild` | pmb/build/package.py:56-80 | a call is skipped only for one of three reasons. (1) There is no aport but an index has the package, and nothing happened. (2) The first necessity check said no without `force`, and nothing happened. (3) The first check said yes, then the second check said no without `force` on the repository after the init, the makedepends and the toolchain. In case (3) the call stopped there, before abuild was configured |
| `PackageProps.BuildUsesResolvedChroot` | pmb/build/package.py:50-76 | a call past the first check initialises the chroot that `suffix` picks for the resolved arch with the caller's `strict`; a built call then has exactly the toolchain and abuild stage of the mode that `crosscompile` picks for that chroot |
| `PackageProps.NecessaryPassesFirstCheck` | pmb/build/package.py:56-68 | a forced or necessary package passes the first check: the chroot init is its first effect, and the call goes on with the makedepends and what follows them |
| `PackageProps.NotNecessarySkipsSecond` | pmb/build/package.py:78-80 | without `force`, a package that passed the first check is skipped after the toolchain when it is no longer necessary once its makedepends are done |
| `PackageProps.NecessaryReachesAbuild` | pmb/build/package.py:56-83 | a package that is forced, or necessary at both checks, reaches the abuild stage once its makedepends succeed, and is not skipped |
| `PackageProps.CircularDependencySkipped` | pmb/build/package.py:62-80 | when `is_necessary` follows the repository and a strict makedepend built this very package for the same carch, the outer call is skipped right after the toolchain, before abuild is configured for it |
| `PackageProps.BuiltPassedDeps` | pmb/build/package.py:60-80 | a call that builds got through the makedepends and reached the abuild stage |
| `PackageProps.CompileBuiltTrace` | pmb/build/package.py:83-157 | a successful abuild stage performs, in order: configure, copy, the sysroot bind, abuild with its command line, and the publishing steps |
| `PackageProps.CompileMissingTrace` | pmb/build/package.py:133-138 | when the output is missing the stage raises with its full path, and abuild was its last effect, so nothing was published |
| `PackageProps.BuiltOrder` | pmb/build/package.py:32-157 | a successful call returns `OutputName(carch_buildenv, apkbuild)`, which is then present; its effects are the init, the makedepends (one install of all of them when not strict), the toolchain and the abuild stage, in that order |
| `PackageProps.RebuildIsSkipped` | pmb/build/package.py:56-58 | when `is_necessary` answers false once the output is present, building the same package again without force, for the arch it resolved to, is skipped and changes nothing |
| `Text.IntToString` | pmb/qemu/run.py:122-123 | `str(n)` is nonempty, starts with `-` iff n is negative, and is otherwise digits |
| `Text.NatToStringValue` | pmb/qemu/run.py:122-123 | the decimal digits of a natural number denote that number |
| `Text.IntToStringValue` | pmb/qemu/run.py:122-123 | the digits of `str(n)` after the sign denote the absolute value of `n` |
| `QemuRun.InstallHint` | pmb/qemu/run.py:41-44 | the suggested command ends with `pmbootstrap install` and asks to configure the device first iff it is not the configured one |
| `QemuRun.SystemImage` | pmb/qemu/run.py:33-48 | the image path under the native chroot's rootfs folder is returned iff it exists, and otherwise the error names the device and the command to run |
| `QemuRun.WhichQemu` | pmb/qemu/run.py:51-61 | `qemu-system-<arch>` is returned iff it is in PATH, and otherwise the error names it |
| `QemuRun.WhichSpice` | pmb/qemu/run.py:64-73 | a client is found iff remote-viewer or spicy is in PATH; remote-viewer is preferred, and nothing found gives `""` |
| `QemuRun.SpiceCommand` | pmb/qemu/run.py:76-103 | the parameters hold address 127.0.0.1, port 8077, and `enable_spice` true iff SPICE is not disabled and a client exists; the command is empty when disabled, and otherwise is the chosen client's command line for that address and port |
| `QemuRun.BootArgsNumbers` | pmb/qemu/run.py:118-123 | the leading arguments are eleven, the binary first; the memory size follows `-m` and the SSH forward `tcp:<port>::22` follows `-redir`, both in decimal with their sign |
| `QemuRun.DtbArgs` | pmb/qemu/run.py:125-129 | there are no device tree arguments iff the device has no dtb; otherwise they are `-dtb` and the `<dtb>.dtb` file under the rootfs's `/usr/share/dtb/` |
| `QemuRun.KvmArgs` | pmb/qemu/run.py:151-160 | `-enable-kvm` is added, once, iff `args.arch` is unset or maps to the native QEMU arch, and /dev/kvm exists |
| `QemuRun.SpiceArgs` | pmb/qemu/run.py:162-167 | raises the KeyError of the first missing key among `enable_spice` and, when it is true, `spice_port` and `spice_addr`; gives nothing when SPICE is disabled, and `-vga qxl -spice port=<port>,addr=<addr>,disable-ticketing` otherwise |
| `QemuRun.QemuCommandOf` | pmb/qemu/run.py:106-169 | a returned command starts with `qemu-system-<arch>`, which is in PATH; the dtb file exists when the device has one; and some argument attaches the system image |
| `QemuRun.MachineArgs` | pmb/qemu/run.py:131-149 | only x86_64, arm and aarch64 are supported, and each attaches the system image in its last argument |
| `QemuRun.AddMachineArgs` | pmb/qemu/run.py:131-149 | the architecture branches append exactly the machine arguments, and fail iff the arch is unsupported |
| `QemuRun.AddSpiceArgs` | pmb/qemu/run.py:162-167 | the SPICE step appends the SPICE arguments, or raises the KeyError of the first missing key |
| `QemuRun.QemuCommand` | pmb/qemu/run.py:106-169 | the command grown with `+=` is the boot arguments, the dtb, the machine, KVM and SPICE arguments in that order, with the first error met otherwise |
| `QemuRun.QemuCommandErrors` | pmb/qemu/run.py:106-169 | the command fails iff the binary, the dtb file, arch support or a SPICE key is missing, and these are checked in that order |
| `QemuRun.SpiceParametersAccepted` | pmb/qemu/run.py:162-167 | with the parameters `spice_command` produces, the SPICE arguments are `-vga qxl -spice port=8077,addr=127.0.0.1,disable-ticketing` when enabled, and none otherwise |
| `QemuRun.BootArgsHaveNoSwitchedFlags` | pmb/qemu/run.py:117-123 | the fixed leading arguments never contain `-dtb`, `-enable-kvm` or `-vga` |
| `QemuRun.MachineArgsHaveNoSwitchedFlags` | pmb/qemu/run.py:131-149 | nor do the machine arguments, unless the image path is spelled like one of them |
| `QemuRun.QemuCommandLayout` | pmb/qemu/run.py:112-167 | a successful command starts with the binary, kernel, initramfs, the quoted command line (`args.cmdline` winning), memory and the SSH forward; `-dtb` follows iff the device has a dtb; `-enable-kvm` is present iff `args.arch` is unset or maps to the native QEMU arch, and /dev/kvm exists; `-vga qxl -spice ...` is present iff SPICE is enabled, and then ends the command |

## Left out

- `run` (pmb/qemu/run.py:172-211) is not modelled. It launches processes: chmod through root, the VM in the background, the SPICE client, and the interrupt and terminate handling.
- `pmb.parse.deviceinfo`, `uname_to_qemu` and `qemu_to_pmos_device` are inputs, because their definitions are not part of this model.
- The chroot, apk, distccd, mount, configure_abuild, copy_to_buildpath, buildinfo and symlink calls are recorded as opaque effects. Their internals are I/O.
- The opaque effects never fail in the model. Init, Install, ConfigureAbuild and the `RunUser` of abuild always succeed, so an abuild that exits non-zero shows up only as `ArtifactMissing`, and a failing apk install or chroot init is not modelled.
- `pmb.build.find_aport`, `pmb.parse.apkbuild`, `read_any_index`, `is_necessary` and `alpine_to_hostspec` are oracles. `PackageProps.RebuildIsSkipped` assumes that `is_necessary` answers false once the output file is present.
- What abuild produces is the set `abuildWrites`. A run adds its output to the packages folder iff the output is in that set. The noarch symlinks add no files to the model's packages folder.
- The strict recursion has no cycle guard in the code, so a cyclic makedepends graph ends with Python's RecursionError. The `fuel` parameter stands for the depth Python allows, and running out gives `RecursionLimit`. The actual limit of 1000 frames is not modelled.
- All `logging` calls are left out, as they are informational only.
- `Glob.Match`: a reversed range such as `[z-a]` matches nothing, whereas Python's `re` raises an error for it. A backslash is an ordinary character, both outside and inside a class, as `fnmatch.translate` escapes it, so `Glob.LiteralMatchesItself` covers patterns that contain one. The `fnmatch` cache is not modelled.
- `PackageDriver.Builder.Package` models the call of `suffix` with the caller's `strict`, which is the corrected call (see Findings). The TypeError of the call as written is modelled only by `PackageSpec.ResolveAsWritten`.

## Findings

| source | as written | input that shows it | evidently intended | confidence | as-written member | corrected member |
|---|---|---|---|---|---|---|
| pmb/build/package.py:51 | `suffix(args, apkbuild, carch_buildenv)` passes three arguments, but `suffix` (pmb/build/autodetect.py:45) declares four and `strict` has no default, so the call raises TypeError whenever `carch` succeeded | any package with an aport whose arch resolves, for example arch `["all"]` with no requested arch | pass the caller's `strict` as the fourth argument, as `carch` gets it on line 50; `Resolve` ensures that the suffix is `Suffix(…, strict)`, and `PackageProps.BuildUsesResolvedChroot` carries that chroot into `Build` | high, not executed | `PackageSpec.ResolveAsWritten` (with `PackageSpec.AsWrittenNeverReachesBuild`) | `PackageSpec.Resolve` |
