/**
 * Composing the QEMU and SPICE command lines that run a postmarketOS image
 * (pmb/qemu/run.py). The filesystem and PATH probes (`os.path.exists`,
 * `shutil.which`), the parsed deviceinfo and `pmb.parse.arch.uname_to_qemu`
 * are inputs; what remains is a deterministic builder with its error cases.
 */
module QemuRun {
  import opened Wrappers
  import opened Text

  /** The ways the functions of run.py raise. */
  datatype QemuError =
    | ImageMissing(device: string, command: string)  // RuntimeError: image not generated, run `command` first
    | QemuMissing(executable: string)                 // RuntimeError: executable not in PATH
    | DtbMissing(path: string)                        // RuntimeError: DTB file not found
    | ArchUnsupported(arch: string)                   // RuntimeError: architecture not supported
    | KeyMissing(key: string)                         // KeyError on the SPICE configuration dict

  /**
   * The parts of `args` read here. `cmdline` and `arch` are "" when unset
   * (None and "" are both false in the code's tests).
   */
  datatype Args = Args(
    work: string,
    device: string,
    noSpice: bool,
    cmdline: string,
    memory: int,
    port: int,
    arch: string,
    archNative: string)

  /** What the probes see: the paths that exist and the executables in PATH. */
  datatype Host = Host(files: set<string>, path: set<string>)

  /** The deviceinfo fields the command uses; `dtb` is "" when the device has none. */
  datatype DeviceInfo = DeviceInfo(kernelCmdline: string, dtb: string)

  /** A value of the SPICE parameters dict: a string or a boolean. */
  datatype Value = Str(s: string) | Flag(b: bool)

  /** Python truthiness of a dict value. */
  predicate Truthy(v: Value) {
    match v
    case Str(s) => s != ""
    case Flag(b) => b
  }

  /** `"{}".format(v)` */
  function Format(v: Value): string {
    match v
    case Str(s) => s
    case Flag(b) => if b then "True" else "False"
  }

  /** Where the installed system image of a device lives. */
  function ImagePath(work: string, device: string): string {
    work + "/chroot_native/home/user/rootfs/" + device + ".img"
  }

  /** The command the error message tells the user to run when the image is missing (run.py:41-44). */
  function InstallHint(args: Args, device: string): (r: string)
    ensures EndsWith(r, "pmbootstrap install")
    ensures StartsWith(r, "pmbootstrap config device " + device + "' and '") <==> device != args.device
  {
    if device != args.device then
      var r := "pmbootstrap config device " + device + "' and '" + "pmbootstrap install";
      assert r[|r| - |"pmbootstrap install"|..] == "pmbootstrap install";
      assert r[..|"pmbootstrap config device " + device + "' and '"|] == "pmbootstrap config device " + device + "' and '";
      r
    else "pmbootstrap install"
  }

  /** `system_image(args, device)` (run.py:33-48). */
  function SystemImage(args: Args, host: Host, device: string): (r: Result<string, QemuError>)
    ensures r.Success? <==> ImagePath(args.work, device) in host.files
    ensures r.Success? ==> r.value == ImagePath(args.work, device) && StartsWith(r.value, args.work) && EndsWith(r.value, "/" + device + ".img")
    ensures r.Failure? ==> r.error == ImageMissing(device, InstallHint(args, device))
  {
    var path := ImagePath(args.work, device);
    if path !in host.files then Failure(ImageMissing(device, InstallHint(args, device)))
    else
      assert path[..|args.work|] == args.work;
      assert path == (args.work + "/chroot_native/home/user/rootfs") + ("/" + device + ".img");
      Success(path)
  }

  /** `which_qemu(args, arch)` (run.py:51-61). */
  function WhichQemu(host: Host, arch: string): (r: Result<string, QemuError>)
    ensures r.Success? <==> "qemu-system-" + arch in host.path
    ensures r.Success? ==> r.value == "qemu-system-" + arch && StartsWith(r.value, "qemu-system-")
    ensures r.Failure? ==> r.error == QemuMissing("qemu-system-" + arch)
  {
    var executable := "qemu-system-" + arch;
    if executable in host.path then
      assert executable[..|"qemu-system-"|] == "qemu-system-";
      Success(executable)
    else Failure(QemuMissing(executable))
  }

  /** The SPICE clients looked for, in order of preference. */
  const SpiceClients: seq<string> := ["remote-viewer", "spicy"]

  /** `which_spice(args)` (run.py:64-73): the first client of the list that is in PATH. */
  method WhichSpice(path: set<string>) returns (found: bool, executable: string)
    ensures found <==> "remote-viewer" in path || "spicy" in path
    ensures found && "remote-viewer" in path ==> executable == "remote-viewer"
    ensures found && "remote-viewer" !in path ==> executable == "spicy"
    ensures !found ==> executable == ""
  {
    var executables := SpiceClients;
    assert |executables| == 2 && executables[0] == "remote-viewer" && executables[1] == "spicy";
    var i := 0;
    while i < |executables|
      invariant 0 <= i <= |executables|
      invariant forall j :: 0 <= j < i ==> executables[j] !in path
    {
      if executables[i] in path {
        return true, executables[i];
      }
      i := i + 1;
    }
    return false, "";
  }

  const SpiceAddr := "127.0.0.1"
  const SpicePort := "8077"

  /**
   * `spice_command(args)` (run.py:76-103): the parameters dict, filled key by
   * key, and the client command, empty when SPICE is off or no client exists.
   */
  method SpiceCommand(args: Args, host: Host) returns (parameters: map<string, Value>, command: seq<string>)
    ensures parameters.Keys == {"spice_addr", "spice_port", "enable_spice"}
    ensures parameters["spice_addr"] == Str(SpiceAddr) && parameters["spice_port"] == Str(SpicePort)
    ensures var enabled := !args.noSpice && ("remote-viewer" in host.path || "spicy" in host.path);
      && parameters["enable_spice"] == Flag(enabled)
      && (!enabled ==> command == [])
      && (enabled && "remote-viewer" in host.path ==> command == ["remote-viewer", "spice://" + SpiceAddr + "?port=" + SpicePort])
      && (enabled && "remote-viewer" !in host.path ==> command == ["spicy", "-h", SpiceAddr, "-p", SpicePort])
  {
    parameters := map["spice_addr" := Str(SpiceAddr), "spice_port" := Str(SpicePort)];
    if args.noSpice {
      parameters := parameters["enable_spice" := Flag(false)];
      return parameters, [];
    }
    var foundSpice, spiceBin := WhichSpice(host.path);
    if !foundSpice {
      parameters := parameters["enable_spice" := Flag(false)];
      return parameters, [];
    }
    var spiceAddr := parameters["spice_addr"].s;
    var spicePort := parameters["spice_port"].s;
    var commands := map[
      "spicy" := ["spicy", "-h", spiceAddr, "-p", spicePort],
      "remote-viewer" := ["remote-viewer", "spice://" + spiceAddr + "?port=" + spicePort]];
    parameters := parameters["enable_spice" := Flag(true)];
    return parameters, commands[spiceBin];
  }

  /** The kernel command line: `args.cmdline` overrides the deviceinfo value. */
  function Cmdline(args: Args, di: DeviceInfo): string {
    if args.cmdline != "" then args.cmdline else di.kernelCmdline
  }

  /** The rootfs chroot of the device. */
  function Rootfs(args: Args, device: string): string {
    args.work + "/chroot_rootfs_" + device
  }

  function DtbPath(rootfs: string, dtb: string): string {
    rootfs + "/usr/share/dtb/" + dtb + ".dtb"
  }

  /** The arguments every command starts with (run.py:118-123). */
  function BootArgs(qemuBin: string, args: Args, device: string, di: DeviceInfo): seq<string> {
    var rootfs := Rootfs(args, device);
    [qemuBin,
     "-kernel", rootfs + "/boot/vmlinuz-postmarketos",
     "-initrd", rootfs + "/boot/initramfs-postmarketos",
     "-append", "\"" + Cmdline(args, di) + "\"",
     "-m", IntToString(args.memory),
     "-redir", "tcp:" + IntToString(args.port) + "::22"]
  }

  /**
   * The memory size follows `-m` and the SSH forward `tcp:<port>::22`
   * follows `-redir`, both numbers written in decimal with their sign.
   */
  lemma BootArgsNumbers(qemuBin: string, args: Args, device: string, di: DeviceInfo)
    ensures var r := BootArgs(qemuBin, args, device, di);
      && |r| == 11 && r[0] == qemuBin && r[7] == "-m" && r[9] == "-redir"
      && (args.memory >= 0 ==> DigitsValue(r[8]) == args.memory)
      && (args.memory < 0 ==> r[8][0] == '-' && DigitsValue(r[8][1..]) == -args.memory)
      && |r[10]| > 8 && StartsWith(r[10], "tcp:") && EndsWith(r[10], "::22")
      && (args.port >= 0 ==> DigitsValue(r[10][4..|r[10]| - 4]) == args.port)
      && (args.port < 0 ==> r[10][4] == '-' && DigitsValue(r[10][5..|r[10]| - 4]) == -args.port)
  {
    var r := BootArgs(qemuBin, args, device, di);
    IntToStringValue(args.memory);
    IntToStringValue(args.port);
    var p := IntToString(args.port);
    assert r[10] == "tcp:" + p + "::22";
    assert r[10][4..|r[10]| - 4] == p;
    assert r[10][5..|r[10]| - 4] == p[1..];
    assert r[10][..4] == "tcp:" && r[10][|r[10]| - 4..] == "::22";
  }

  /** The device tree arguments (run.py:125-129), given that the file exists. */
  function DtbArgs(args: Args, device: string, di: DeviceInfo): (r: seq<string>)
    ensures r == [] <==> di.dtb == ""
    ensures r != [] ==>
      |r| == 2 && r[0] == "-dtb" && EndsWith(r[1], "/" + di.dtb + ".dtb") &&
      StartsWith(r[1], Rootfs(args, device) + "/usr/share/dtb/")
  {
    if di.dtb != "" then
      var path := DtbPath(Rootfs(args, device), di.dtb);
      assert path == (Rootfs(args, device) + "/usr/share/dtb/") + di.dtb + ".dtb";
      assert path == (Rootfs(args, device) + "/usr/share/dtb") + ("/" + di.dtb + ".dtb");
      ["-dtb", path]
    else []
  }

  /** The machine and storage arguments of each supported architecture (run.py:131-149). */
  function MachineArgs(arch: string, imgPath: string): (r: Option<seq<string>>)
    ensures r.Some? <==> arch == "x86_64" || arch == "arm" || arch == "aarch64"
    // the system image is always attached
    ensures r.Some? ==> r.value != [] && Contains(r.value[|r.value| - 1], imgPath)
  {
    if arch == "x86_64" then
      ContainsAfter("file=", imgPath, ",format=raw");
      Some(["-serial", "stdio", "-drive", "file=" + imgPath + ",format=raw"])
    else if arch == "arm" then
      ContainsAfter("", imgPath, "");
      assert "" + imgPath + "" == imgPath;
      Some(["-M", "vexpress-a9", "-sd", imgPath])
    else if arch == "aarch64" then
      ContainsAfter("if=none,id=system,file=", imgPath, ",id=hd0");
      Some(["-M", "virt", "-cpu", "cortex-a57", "-device", "virtio-gpu-pci",
            "-device", "virtio-blk-device,drive=system",
            "-drive", "if=none,id=system,file=" + imgPath + ",id=hd0"])
    else None
  }

  /** Whether KVM is wanted: always unless `args.arch` names an arch QEMU sees differently from the native one. */
  predicate KvmWanted(args: Args, unameToQemu: string -> string) {
    args.arch == "" || unameToQemu(args.archNative) == unameToQemu(args.arch)
  }

  /** The KVM argument (run.py:151-160). */
  function KvmArgs(args: Args, host: Host, unameToQemu: string -> string): (r: seq<string>)
    ensures |r| <= 1 && (r != [] ==> r[0] == "-enable-kvm")
    ensures r != [] <==> (args.arch == "" || unameToQemu(args.archNative) == unameToQemu(args.arch)) && "/dev/kvm" in host.files
  {
    if KvmWanted(args, unameToQemu) && "/dev/kvm" in host.files then ["-enable-kvm"] else []
  }

  /**
   * The QXL/SPICE arguments (run.py:162-167): a KeyError for a missing key,
   * the `port` field formatted before the `addr` field.
   */
  function SpiceArgs(config: map<string, Value>): (r: Result<seq<string>, QemuError>)
    ensures r.Failure? <==>
      "enable_spice" !in config || (Truthy(config["enable_spice"]) && ("spice_port" !in config || "spice_addr" !in config))
    ensures r.Failure? ==> r.error == KeyMissing(
      if "enable_spice" !in config then "enable_spice" else if "spice_port" !in config then "spice_port" else "spice_addr")
    ensures r.Success? ==> (r.value != [] <==> Truthy(config["enable_spice"]))
    ensures r.Success? && r.value != [] ==>
      |r.value| == 4 && r.value[..3] == ["-vga", "qxl", "-spice"] &&
      StartsWith(r.value[3], "port=" + Format(config["spice_port"]) + ",") &&
      EndsWith(r.value[3], "addr=" + Format(config["spice_addr"]) + ",disable-ticketing")
  {
    if "enable_spice" !in config then Failure(KeyMissing("enable_spice"))
    else if !Truthy(config["enable_spice"]) then Success([])
    else if "spice_port" !in config then Failure(KeyMissing("spice_port"))
    else if "spice_addr" !in config then Failure(KeyMissing("spice_addr"))
    else
      var port := "port=" + Format(config["spice_port"]) + ",";
      var addr := "addr=" + Format(config["spice_addr"]) + ",disable-ticketing";
      var spice := "port=" + Format(config["spice_port"]) + ",addr=" + Format(config["spice_addr"]) + ",disable-ticketing";
      assert spice == port + addr;
      Success(["-vga", "qxl", "-spice", spice])
  }

  /** `qemu_command(args, arch, device, img_path, config)`, as the pieces above put together in order. */
  function QemuCommandOf(args: Args, host: Host, arch: string, device: string, imgPath: string,
                         config: map<string, Value>, di: DeviceInfo, unameToQemu: string -> string): (r: Result<seq<string>, QemuError>)
    ensures r.Success? ==> |r.value| > 11 && r.value[0] == "qemu-system-" + arch && r.value[0] in host.path
    ensures r.Success? ==> di.dtb != "" ==> DtbPath(Rootfs(args, device), di.dtb) in host.files
    // the system image is attached to every command that is returned
    ensures r.Success? ==> exists i :: 0 <= i < |r.value| && Contains(r.value[i], imgPath)
  {
    match WhichQemu(host, arch)
    case Failure(err) => Failure(err)
    case Success(qemuBin) =>
      var dtbImage := DtbPath(Rootfs(args, device), di.dtb);
      if di.dtb != "" && dtbImage !in host.files then Failure(DtbMissing(dtbImage))
      else match MachineArgs(arch, imgPath)
        case None => Failure(ArchUnsupported(arch))
        case Some(machine) =>
          match SpiceArgs(config)
          case Failure(err) => Failure(err)
          case Success(spice) =>
            var front := BootArgs(qemuBin, args, device, di) + DtbArgs(args, device, di) + machine;
            var c := front + KvmArgs(args, host, unameToQemu) + spice;
            assert c[|front| - 1] == machine[|machine| - 1];
            Success(c)
  }

  /**
   * `qemu_command` as the code runs it: the list grown with `+=`, raising
   * at the first missing piece.
   */
  method QemuCommand(args: Args, host: Host, arch: string, device: string, imgPath: string,
                     config: map<string, Value>, di: DeviceInfo, unameToQemu: string -> string)
    returns (r: Result<seq<string>, QemuError>)
    ensures r == QemuCommandOf(args, host, arch, device, imgPath, config, di, unameToQemu)
  {
    var which := WhichQemu(host, arch);
    if which.Failure? {
      return Failure(which.error);
    }
    var qemuBin := which.value;
    var cmdline := di.kernelCmdline;
    if args.cmdline != "" {
      cmdline := args.cmdline;
    }

    var rootfs := args.work + "/chroot_rootfs_" + device;
    var command := [qemuBin];
    command := command + ["-kernel", rootfs + "/boot/vmlinuz-postmarketos"];
    command := command + ["-initrd", rootfs + "/boot/initramfs-postmarketos"];
    command := command + ["-append", "\"" + cmdline + "\""];
    command := command + ["-m", IntToString(args.memory)];
    command := command + ["-redir", "tcp:" + IntToString(args.port) + "::22"];
    assert command == BootArgs(qemuBin, args, device, di);

    if di.dtb != "" {
      var dtbImage := rootfs + "/usr/share/dtb/" + di.dtb + ".dtb";
      if dtbImage !in host.files {
        return Failure(DtbMissing(dtbImage));
      }
      command := command + ["-dtb", dtbImage];
    }
    assert command == BootArgs(qemuBin, args, device, di) + DtbArgs(args, device, di);

    var supported;
    supported, command := AddMachineArgs(command, arch, imgPath);
    if !supported {
      return Failure(ArchUnsupported(arch));
    }

    // -enable-kvm unless the requested arch differs from the native one
    var enableKvm := true;
    if args.arch != "" {
      var arch1 := unameToQemu(args.archNative);
      var arch2 := unameToQemu(args.arch);
      enableKvm := arch1 == arch2;
    }
    if enableKvm && "/dev/kvm" in host.files {
      command := command + ["-enable-kvm"];
    }
    assert command == BootArgs(qemuBin, args, device, di) + DtbArgs(args, device, di) +
      MachineArgs(arch, imgPath).value + KvmArgs(args, host, unameToQemu);

    r := AddSpiceArgs(command, config);
  }

  /** The architecture branches of `qemu_command` (run.py:131-149); `supported` is false where it raises. */
  method AddMachineArgs(command: seq<string>, arch: string, imgPath: string) returns (supported: bool, command': seq<string>)
    ensures supported <==> MachineArgs(arch, imgPath).Some?
    ensures supported ==> command' == command + MachineArgs(arch, imgPath).value
  {
    command' := command;
    if arch == "x86_64" {
      command' := command' + ["-serial", "stdio"];
      command' := command' + ["-drive", "file=" + imgPath + ",format=raw"];
    } else if arch == "arm" {
      command' := command' + ["-M", "vexpress-a9"];
      command' := command' + ["-sd", imgPath];
    } else if arch == "aarch64" {
      command' := command' + ["-M", "virt"];
      command' := command' + ["-cpu", "cortex-a57"];
      command' := command' + ["-device", "virtio-gpu-pci"];
      // the system image as a virtio block device
      command' := command' + ["-device", "virtio-blk-device,drive=system"];
      command' := command' + ["-drive", "if=none,id=system,file=" + imgPath + ",id=hd0"];
    } else {
      return false, command';
    }
    supported := true;
  }

  /** The step of `qemu_command` that adds the 2D-accelerated display and its SPICE server (run.py:162-167). */
  method AddSpiceArgs(command: seq<string>, config: map<string, Value>) returns (r: Result<seq<string>, QemuError>)
    ensures SpiceArgs(config).Failure? ==> r == Failure(SpiceArgs(config).error)
    ensures SpiceArgs(config).Success? ==> r == Success(command + SpiceArgs(config).value)
  {
    if "enable_spice" !in config {
      return Failure(KeyMissing("enable_spice"));
    }
    var command' := command;
    if Truthy(config["enable_spice"]) {
      if "spice_port" !in config {
        return Failure(KeyMissing("spice_port"));
      }
      if "spice_addr" !in config {
        return Failure(KeyMissing("spice_addr"));
      }
      command' := command' + ["-vga", "qxl"];
      command' := command' + ["-spice", "port=" + Format(config["spice_port"]) + ",addr=" + Format(config["spice_addr"]) + ",disable-ticketing"];
      assert command' == command + SpiceArgs(config).value;
    } else {
      assert command' == command + [];
    }
    return Success(command');
  }

  /**
   * The errors of `qemu_command`, in the order the code meets them: the
   * QEMU binary, the device tree file, the architecture, the SPICE keys.
   */
  lemma QemuCommandErrors(args: Args, host: Host, arch: string, device: string, imgPath: string,
                          config: map<string, Value>, di: DeviceInfo, unameToQemu: string -> string)
    ensures var r := QemuCommandOf(args, host, arch, device, imgPath, config, di, unameToQemu);
      var dtbImage := DtbPath(Rootfs(args, device), di.dtb);
      var noQemu := "qemu-system-" + arch !in host.path;
      var noDtb := di.dtb != "" && dtbImage !in host.files;
      var noArch := arch != "x86_64" && arch != "arm" && arch != "aarch64";
      && (r.Failure? <==> noQemu || noDtb || noArch || SpiceArgs(config).Failure?)
      && (noQemu ==> r == Failure(QemuMissing("qemu-system-" + arch)))
      && (!noQemu && noDtb ==> r == Failure(DtbMissing(dtbImage)))
      && (!noQemu && !noDtb && noArch ==> r == Failure(ArchUnsupported(arch)))
  {
  }

  /** `"{}".format` of the values `spice_command` stores is the value itself. */
  lemma SpiceParametersAccepted(enabled: bool)
    ensures var config := map["spice_addr" := Str(SpiceAddr), "spice_port" := Str(SpicePort), "enable_spice" := Flag(enabled)];
      SpiceArgs(config) == Success(if enabled then ["-vga", "qxl", "-spice", "port=8077,addr=127.0.0.1,disable-ticketing"] else [])
  {
    var config := map["spice_addr" := Str(SpiceAddr), "spice_port" := Str(SpicePort), "enable_spice" := Flag(enabled)];
    assert config["spice_port"] == Str(SpicePort) && config["spice_addr"] == Str(SpiceAddr);
    assert "port=" + SpicePort + ",addr=" + SpiceAddr + ",disable-ticketing" == "port=8077,addr=127.0.0.1,disable-ticketing";
  }

  /** Last character of a concatenation. */
  lemma LastOfConcat(p: string, q: string)
    requires q != []
    ensures (p + q)[|p + q| - 1] == q[|q| - 1]
  {
  }

  /** None of the flags whose presence is switched is among the boot arguments. */
  lemma BootArgsHaveNoSwitchedFlags(qemuBin: string, args: Args, device: string, di: DeviceInfo)
    requires StartsWith(qemuBin, "qemu-system-")
    ensures var b := BootArgs(qemuBin, args, device, di);
      "-dtb" !in b && "-enable-kvm" !in b && "-vga" !in b
  {
    var rootfs := Rootfs(args, device);
    var b := BootArgs(qemuBin, args, device, di);
    assert qemuBin[0] == 'q';
    LastOfConcat(rootfs, "/boot/vmlinuz-postmarketos");
    LastOfConcat(rootfs, "/boot/initramfs-postmarketos");
    assert b[6][0] == '"';
    var mem := IntToString(args.memory);
    assert |mem| > 1 ==> '0' <= mem[1] <= '9';
    assert b[10][0] == 't';
    forall i | 0 <= i < |b|
      ensures b[i] != "-dtb" && b[i] != "-enable-kvm" && b[i] != "-vga"
    {
      if i == 8 {
        assert b[8] == mem;
        if |mem| > 1 {
          assert "-dtb"[1] == 'd' && "-enable-kvm"[1] == 'e' && "-vga"[1] == 'v';
        }
      }
    }
  }

  /** Nor is any of them among the machine arguments, unless the image path is spelled like one. */
  lemma MachineArgsHaveNoSwitchedFlags(arch: string, imgPath: string)
    requires MachineArgs(arch, imgPath).Some?
    requires imgPath != "-dtb" && imgPath != "-enable-kvm" && imgPath != "-vga"
    ensures var m := MachineArgs(arch, imgPath).value;
      "-dtb" !in m && "-enable-kvm" !in m && "-vga" !in m
  {
    var m := MachineArgs(arch, imgPath).value;
    if arch == "x86_64" {
      assert m[3][0] == 'f';
    } else if arch == "aarch64" {
      assert m[9][0] == 'i';
    }
  }

  /**
   * On success the command starts with the binary, kernel, initramfs, the
   * quoted kernel command line (`args.cmdline` winning over deviceinfo),
   * memory and the SSH port forward; `-dtb` follows exactly when the device
   * has a dtb; `-enable-kvm` is present exactly when KVM is wanted and
   * /dev/kvm exists; `-vga qxl -spice ...` is present exactly when SPICE is
   * enabled, and then ends the command.
   */
  lemma QemuCommandLayout(args: Args, host: Host, arch: string, device: string, imgPath: string,
                          config: map<string, Value>, di: DeviceInfo, unameToQemu: string -> string)
    requires QemuCommandOf(args, host, arch, device, imgPath, config, di, unameToQemu).Success?
    requires imgPath != "-dtb" && imgPath != "-enable-kvm" && imgPath != "-vga"
    ensures var c := QemuCommandOf(args, host, arch, device, imgPath, config, di, unameToQemu).value;
      var rootfs := args.work + "/chroot_rootfs_" + device;
      && |c| > 11
      && c[..11] == ["qemu-system-" + arch,
                     "-kernel", rootfs + "/boot/vmlinuz-postmarketos",
                     "-initrd", rootfs + "/boot/initramfs-postmarketos",
                     "-append", "\"" + (if args.cmdline != "" then args.cmdline else di.kernelCmdline) + "\"",
                     "-m", IntToString(args.memory),
                     "-redir", "tcp:" + IntToString(args.port) + "::22"]
      && (c[11] == "-dtb" <==> di.dtb != "")
      && ("-dtb" in c <==> di.dtb != "")
      && ("-enable-kvm" in c <==> (args.arch == "" || unameToQemu(args.archNative) == unameToQemu(args.arch)) && "/dev/kvm" in host.files)
      && ("-vga" in c <==> Truthy(config["enable_spice"]))
      && (Truthy(config["enable_spice"]) ==>
            c[|c| - 4..] == ["-vga", "qxl", "-spice",
                             "port=" + Format(config["spice_port"]) + ",addr=" + Format(config["spice_addr"]) + ",disable-ticketing"])
  {
    QemuCommandPrefix(args, host, arch, device, imgPath, config, di, unameToQemu);
    QemuCommandFlags(args, host, arch, device, imgPath, config, di, unameToQemu);
    QemuCommandSpiceLast(args, host, arch, device, imgPath, config, di, unameToQemu);
  }

  /** A successful command is the boot, dtb, machine, KVM and SPICE arguments in this order. */
  lemma QemuCommandParts(args: Args, host: Host, arch: string, device: string, imgPath: string,
                         config: map<string, Value>, di: DeviceInfo, unameToQemu: string -> string)
    requires QemuCommandOf(args, host, arch, device, imgPath, config, di, unameToQemu).Success?
    ensures WhichQemu(host, arch).Success? && MachineArgs(arch, imgPath).Some? && SpiceArgs(config).Success?
    ensures QemuCommandOf(args, host, arch, device, imgPath, config, di, unameToQemu).value ==
      BootArgs(WhichQemu(host, arch).value, args, device, di) + DtbArgs(args, device, di) +
      MachineArgs(arch, imgPath).value + KvmArgs(args, host, unameToQemu) + SpiceArgs(config).value
  {
  }

  /** A flag absent from the boot and machine arguments is in the command iff one of the switched parts holds it. */
  lemma FlagInParts(x: string, boot: seq<string>, dtb: seq<string>, machine: seq<string>, kvm: seq<string>, spice: seq<string>)
    requires x !in boot && x !in machine
    ensures x in boot + dtb + machine + kvm + spice <==> x in dtb || x in kvm || x in spice
  {
    assert boot + dtb + machine + kvm + spice == boot + (dtb + (machine + (kvm + spice)));
  }

  /** The eleven boot arguments open the command, and `-dtb` comes next exactly when the device has a dtb. */
  lemma QemuCommandPrefix(args: Args, host: Host, arch: string, device: string, imgPath: string,
                          config: map<string, Value>, di: DeviceInfo, unameToQemu: string -> string)
    requires QemuCommandOf(args, host, arch, device, imgPath, config, di, unameToQemu).Success?
    ensures var c := QemuCommandOf(args, host, arch, device, imgPath, config, di, unameToQemu).value;
      && |c| > 11
      && c[..11] == BootArgs(WhichQemu(host, arch).value, args, device, di)
      && (c[11] == "-dtb" <==> di.dtb != "")
  {
    QemuCommandParts(args, host, arch, device, imgPath, config, di, unameToQemu);
    var qemuBin := WhichQemu(host, arch).value;
    var machine := MachineArgs(arch, imgPath).value;
    var boot := BootArgs(qemuBin, args, device, di);
    var dtb := DtbArgs(args, device, di);
    BootArgsNumbers(qemuBin, args, device, di);
    PrefixOfParts(boot, dtb, machine, KvmArgs(args, host, unameToQemu), SpiceArgs(config).value);
    if di.dtb == "" {
      assert |machine[0]| != 4;
    }
  }

  /** The first eleven arguments are the boot ones; the twelfth opens the dtb part, or the machine part without one. */
  lemma PrefixOfParts(boot: seq<string>, dtb: seq<string>, machine: seq<string>, kvm: seq<string>, spice: seq<string>)
    requires |boot| == 11 && machine != []
    ensures var c := boot + dtb + machine + kvm + spice;
      |c| > 11 && c[..11] == boot && c[11] == (if dtb != [] then dtb[0] else machine[0])
  {
    var c := boot + dtb + machine + kvm + spice;
    assert c == boot + (dtb + machine + kvm + spice);
  }

  /** `-dtb`, `-enable-kvm` and `-vga` are each present exactly when their condition holds. */
  lemma QemuCommandFlags(args: Args, host: Host, arch: string, device: string, imgPath: string,
                         config: map<string, Value>, di: DeviceInfo, unameToQemu: string -> string)
    requires QemuCommandOf(args, host, arch, device, imgPath, config, di, unameToQemu).Success?
    requires imgPath != "-dtb" && imgPath != "-enable-kvm" && imgPath != "-vga"
    ensures var c := QemuCommandOf(args, host, arch, device, imgPath, config, di, unameToQemu).value;
      && ("-dtb" in c <==> di.dtb != "")
      && ("-enable-kvm" in c <==> (args.arch == "" || unameToQemu(args.archNative) == unameToQemu(args.arch)) && "/dev/kvm" in host.files)
      && ("-vga" in c <==> Truthy(config["enable_spice"]))
  {
    QemuCommandParts(args, host, arch, device, imgPath, config, di, unameToQemu);
    var qemuBin := WhichQemu(host, arch).value;
    var machine := MachineArgs(arch, imgPath).value;
    var spice := SpiceArgs(config).value;
    var boot := BootArgs(qemuBin, args, device, di);
    var dtb := DtbArgs(args, device, di);
    var kvm := KvmArgs(args, host, unameToQemu);
    BootArgsHaveNoSwitchedFlags(qemuBin, args, device, di);
    MachineArgsHaveNoSwitchedFlags(arch, imgPath);
    assert spice == [] || spice[3][0] == 'p';
    if dtb != [] {
      LastOfConcat(Rootfs(args, device) + "/usr/share/dtb/" + di.dtb, ".dtb");
      assert dtb[1][|dtb[1]| - 1] == 'b';
    }
    FlagInParts("-dtb", boot, dtb, machine, kvm, spice);
    FlagInParts("-enable-kvm", boot, dtb, machine, kvm, spice);
    FlagInParts("-vga", boot, dtb, machine, kvm, spice);
  }

  /** With SPICE enabled the command ends with `-vga qxl -spice port=…,addr=…,disable-ticketing`. */
  lemma QemuCommandSpiceLast(args: Args, host: Host, arch: string, device: string, imgPath: string,
                             config: map<string, Value>, di: DeviceInfo, unameToQemu: string -> string)
    requires QemuCommandOf(args, host, arch, device, imgPath, config, di, unameToQemu).Success?
    ensures var c := QemuCommandOf(args, host, arch, device, imgPath, config, di, unameToQemu).value;
      Truthy(config["enable_spice"]) ==>
        |c| >= 4 &&
        c[|c| - 4..] == ["-vga", "qxl", "-spice",
                         "port=" + Format(config["spice_port"]) + ",addr=" + Format(config["spice_addr"]) + ",disable-ticketing"]
  {
    QemuCommandParts(args, host, arch, device, imgPath, config, di, unameToQemu);
    var c := QemuCommandOf(args, host, arch, device, imgPath, config, di, unameToQemu).value;
    var spice := SpiceArgs(config).value;
    if Truthy(config["enable_spice"]) {
      assert c[|c| - 4..] == spice;
    }
  }

}
