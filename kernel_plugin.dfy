/**
 * The build-parameter rules of the kernel plugin: architecture tables, the
 * `make` command line, the image and install targets, and the shell lines
 * that seed, patch and copy the kernel configuration and device trees.
 * The plugin object is a class: the steps of `_init_build_env` assign its
 * attributes, and the commands of `get_build_commands` read them.
 */
module KernelPlugin {
  import opened Wrappers
  import opened Text
  import opened Seqs
  import opened BuildRules
  import KernelConfig

  /**
   * The plugin options this model reads. An absent `kconfigfile` (its
   * schema default is `None`) is the empty string: both are falsy.
   */
  datatype KernelOptions = KernelOptions(
    kdefconfig: seq<string>,
    kconfigfile: string,
    kconfigflavour: string,
    kconfigs: seq<string>,
    imageTarget: ImageTargetOption,
    withFirmware: bool,
    deviceTrees: seq<string>,
    initrdModules: seq<string>,
    compression: Compression,
    compressionOptions: seq<string>,
    initrdChannel: string,
    initrdBaseUrl: string,
    initrdFlavour: string,
    compiler: string,
    compilerParameters: seq<string>)

  // ---------------------------------------------------------------------
  // Tables
  // ---------------------------------------------------------------------

  /** `_get_kernel_architecture`'s table; `None` where it only echoes. */
  function KernelArchFor(target: string): Option<string>
  {
    if target == "armhf" then Some("arm")
    else if target == "arm64" then Some("arm64")
    else if target == "riscv64" then Some("riscv")
    else if target == "amd64" then Some("x86")
    else None
  }

  /** `_get_deb_architecture`'s table: the identity on the four known targets. */
  function DebArchFor(target: string): (r: Option<string>)
    ensures r.Some? ==> r.value == target
  {
    if target in {"armhf", "arm64", "riscv64", "amd64"} then Some(target) else None
  }

  const DefaultImageTargets: map<string, string> := map[
    "amd64" := "bzImage",
    "i386" := "bzImage",
    "armhf" := "zImage",
    "arm64" := "Image.gz",
    "powerpc" := "uImage",
    "ppc64el" := "vmlinux.strip",
    "s390x" := "bzImage",
    "riscv64" := "Image"
  ]

  /** Both tables know the same targets, and the image table has an entry for each. */
  lemma ArchTablesAgree(target: string)
    ensures KernelArchFor(target).Some? <==> DebArchFor(target).Some?
    ensures DebArchFor(target).Some? ==> DebArchFor(target).value in DefaultImageTargets
  {
  }

  /** The out-of-tree `make` invocation `_init_build_env` starts from. */
  const BaseMakeCmd: seq<string> := ["make", "-j$(nproc)", "-C", "${KERNEL_SRC}", "O=${SNAPCRAFT_PART_BUILD}"]

  function CrossCompileArgs(kernelArch: string): seq<string>
  {
    ["ARCH=" + kernelArch, "CROSS_COMPILE=${SNAPCRAFT_ARCH_TRIPLET}-"]
  }

  /**
   * What `_check_cross_compilation` appends to `make_cmd`: nothing for a
   * native build, the cross arguments otherwise; reading an unset
   * `kernel_arch` raises. An unset `SNAP_ARCH` is `None`, never equal to the target.
   */
  function CrossStep(hostArch: Option<string>, targetArch: string, kernelArch: Option<string>): (r: Result<seq<string>, Fault>)
    ensures r.Failure? <==> hostArch != Some(targetArch) && kernelArch.None?
    ensures r.Success? && r.value != [] ==> hostArch != Some(targetArch) && r.value[0] == "ARCH=" + kernelArch.value
  {
    if hostArch == Some(targetArch) then Success([])
    else if kernelArch.None? then Failure(Unset("kernel_arch"))
    else Success(CrossCompileArgs(kernelArch.value))
  }

  const BaseInstallTargets: seq<string> := ["modules_install", "INSTALL_MOD_STRIP=1", "INSTALL_MOD_PATH=${SNAPCRAFT_PART_INSTALL}"]

  const DtbsInstallTargets: seq<string> := ["dtbs_install", "INSTALL_DTBS_PATH=${SNAPCRAFT_PART_INSTALL}/dtbs"]

  /** `_get_fw_install_targets`. */
  function FwInstallTargets(withFirmware: bool): (r: seq<string>)
    ensures withFirmware <==> r != []
    ensures r != [] ==> r == ["firmware_install", "INSTALL_FW_PATH=${SNAPCRAFT_PART_INSTALL}/lib/firmware"]
  {
    if withFirmware then ["firmware_install", "INSTALL_FW_PATH=${SNAPCRAFT_PART_INSTALL}/lib/firmware"] else []
  }

  /** `self.dtbs`: every device tree with `.dtb` appended. */
  function DtbFiles(deviceTrees: seq<string>): (r: seq<string>)
    ensures |r| == |deviceTrees|
    ensures forall i :: 0 <= i < |r| ==> r[i] == deviceTrees[i] + ".dtb"
  {
    seq(|deviceTrees|, i requires 0 <= i < |deviceTrees| => deviceTrees[i] + ".dtb")
  }

  /** The kernel architectures for which the generic `dtbs` targets are added. */
  predicate GenericDtbArch(kernelArch: string)
  {
    kernelArch == "arm" || kernelArch == "arm64" || kernelArch == "riscv64"
  }

  // ---------------------------------------------------------------------
  // Targets
  // ---------------------------------------------------------------------

  /** The attributes `_set_kernel_targets` assigns. */
  datatype Targets = Targets(image: Option<string>, make: seq<string>, install: seq<string>, dtbs: seq<string>)

  /** The attributes after the call, and the fault that interrupted it, if any. */
  datatype TargetsStep = TargetsStep(targets: Targets, fault: Option<Fault>)

  /**
   * `_set_kernel_targets` from the attributes before the call. A fault
   * leaves the attributes as far as the method got: nothing is assigned
   * before the image target is settled, while an unset `kernel_arch` is read
   * only after `make_targets`, `make_install_targets` and `dtbs` are set.
   */
  function KernelTargetsStep(opts: KernelOptions, debArch: Option<string>, kernelArch: Option<string>, before: Targets): TargetsStep
  {
    match SelectImageTarget(opts.imageTarget, debArch, DefaultImageTargets, before.image)
    case Failure(e) => TargetsStep(before, Some(e))
    case Success(image) =>
      if image.None? then TargetsStep(before, Some(Unset("kernel_image_target")))
      else
        var dtbs := DtbFiles(opts.deviceTrees);
        var fw := FwInstallTargets(opts.withFirmware);
        if dtbs != [] then
          TargetsStep(Targets(image, [image.value, "modules"] + dtbs, BaseInstallTargets + fw, dtbs), None)
        else if kernelArch.None? then
          TargetsStep(Targets(image, [image.value, "modules"], BaseInstallTargets, dtbs), Some(Unset("kernel_arch")))
        else if GenericDtbArch(kernelArch.value) then
          TargetsStep(Targets(image, [image.value, "modules", "dtbs"], BaseInstallTargets + DtbsInstallTargets + fw, dtbs), None)
        else
          TargetsStep(Targets(image, [image.value, "modules"], BaseInstallTargets + fw, dtbs), None)
  }

  /** A successful call leaves an image target, and `make_targets` opens with it and `modules`. */
  lemma TargetsOpenWithImage(opts: KernelOptions, debArch: Option<string>, kernelArch: Option<string>, before: Targets)
    ensures var s := KernelTargetsStep(opts, debArch, kernelArch, before);
      s.fault.None? ==>
        (s.targets.image.Some? && |s.targets.make| >= 2 &&
         s.targets.make[..2] == [s.targets.image.value, "modules"] &&
         s.targets.install[..3] == BaseInstallTargets)
  {
  }

  /**
   * Explicit device trees are built as `<name>.dtb` after the two first
   * targets, and the generic `dtbs` and `dtbs_install` targets are not added.
   */
  lemma ExplicitDtbsSuppressGeneric(opts: KernelOptions, debArch: Option<string>, kernelArch: Option<string>, before: Targets)
    requires opts.deviceTrees != []
    ensures var s := KernelTargetsStep(opts, debArch, kernelArch, before);
      s.fault.None? ==>
        && s.targets.make[2..] == s.targets.dtbs == DtbFiles(opts.deviceTrees)
        && "dtbs" !in s.targets.make[2..]
        && "dtbs_install" !in s.targets.install
  {
    var s := KernelTargetsStep(opts, debArch, kernelArch, before);
    if s.fault.None? {
      var t := s.targets;
      assert t.make[2..] == DtbFiles(opts.deviceTrees);
      forall i | 0 <= i < |t.make[2..]| ensures t.make[2..][i] != "dtbs" {
        var x := t.make[2..][i];
        assert x == opts.deviceTrees[i] + ".dtb";
        assert x[|x| - 1] == 'b';
      }
    }
  }

  /**
   * The generic `dtbs` target is added exactly when no device tree is given
   * and the kernel architecture is arm, arm64 or riscv64, and then together
   * with its install targets.
   */
  lemma GenericDtbsExactly(opts: KernelOptions, debArch: Option<string>, kernelArch: Option<string>, before: Targets)
    ensures var s := KernelTargetsStep(opts, debArch, kernelArch, before);
      s.fault.None? ==>
        (("dtbs" in s.targets.make[2..]) <==>
          opts.deviceTrees == [] && GenericDtbArch(kernelArch.value))
        && ("dtbs_install" in s.targets.install <==> "dtbs" in s.targets.make[2..])
  {
    var s := KernelTargetsStep(opts, debArch, kernelArch, before);
    if s.fault.None? && opts.deviceTrees != [] {
      ExplicitDtbsSuppressGeneric(opts, debArch, kernelArch, before);
    }
  }

  /** riscv64 never gets the generic dtbs: its kernel architecture is `riscv`, not `riscv64`. */
  lemma RiscvNeverGenericDtbs(opts: KernelOptions, before: Targets)
    ensures KernelArchFor("riscv64") == Some("riscv") && !GenericDtbArch("riscv")
    ensures var s := KernelTargetsStep(opts, DebArchFor("riscv64"), KernelArchFor("riscv64"), before);
      s.fault.None? ==> "dtbs" !in s.targets.make[2..]
  {
    GenericDtbsExactly(opts, DebArchFor("riscv64"), KernelArchFor("riscv64"), before);
  }

  /** The firmware install targets are there exactly when `kernel-with-firmware` is set. */
  lemma FirmwareExactly(opts: KernelOptions, debArch: Option<string>, kernelArch: Option<string>, before: Targets)
    ensures var s := KernelTargetsStep(opts, debArch, kernelArch, before);
      s.fault.None? ==> ("firmware_install" in s.targets.install <==> opts.withFirmware)
  {
  }

  /**
   * Once the architectures of a known target are set, the only fault left is
   * an object-valued image target without an entry for the architecture,
   * on an object that has no image target yet.
   */
  lemma KnownTargetFaults(opts: KernelOptions, target: string, before: Targets)
    requires DebArchFor(target).Some?
    ensures var s := KernelTargetsStep(opts, DebArchFor(target), KernelArchFor(target), before);
      s.fault.Some? <==>
        opts.imageTarget.PerArch? && !IsUnset(opts.imageTarget)
        && target !in opts.imageTarget.targets && before.image.None?
  {
    ArchTablesAgree(target);
  }

  /** Without a known target, a falsy image target raises on `deb_arch` and leaves the targets as they were. */
  lemma UnknownTargetUnsetImage(opts: KernelOptions, target: string, before: Targets)
    requires DebArchFor(target).None? && IsUnset(opts.imageTarget)
    ensures KernelTargetsStep(opts, DebArchFor(target), KernelArchFor(target), before) ==
      TargetsStep(before, Some(Unset("deb_arch")))
  {
  }

  // ---------------------------------------------------------------------
  // Compiler
  // ---------------------------------------------------------------------

  /** What `_configure_compiler` appends: `CC="<compiler>"` when one is named, then every parameter. */
  function CompilerArgs(compiler: string, parameters: seq<string>): (r: seq<string>)
    ensures |r| == |parameters| + (if compiler != "" then 1 else 0)
    ensures r[|r| - |parameters|..] == parameters
    ensures compiler != "" ==> r[0] == "CC=\"" + compiler + "\""
  {
    (if compiler != "" then ["CC=\"" + compiler + "\""] else []) + parameters
  }

  // ---------------------------------------------------------------------
  // The plugin object
  // ---------------------------------------------------------------------

  /**
   * The attributes of the kernel plugin. The three that the code may read
   * before any assignment are `Option`s; `None` is "never assigned".
   */
  class Plugin {
    const options: KernelOptions
    var targetArch: string
    var debArch: Option<string>
    var kernelArch: Option<string>
    var makeCmd: seq<string>
    var kernelImageTarget: Option<string>
    var makeTargets: seq<string>
    var makeInstallTargets: seq<string>
    var dtbs: seq<string>
    var initrdArch: string
    var ucSeries: string
    var initrdSnapUrl: Option<string>
    var vanillaInitrdSnap: string

    constructor (options: KernelOptions)
      ensures this.options == options
      ensures debArch.None? && kernelArch.None? && kernelImageTarget.None?
      ensures targetArch == "" && makeCmd == [] && makeTargets == [] && makeInstallTargets == [] && dtbs == []
      ensures initrdArch == "" && ucSeries == "" && initrdSnapUrl.None? && vanillaInitrdSnap == ""
    {
      this.options := options;
      targetArch := "";
      debArch := None;
      kernelArch := None;
      makeCmd := [];
      kernelImageTarget := None;
      makeTargets := [];
      makeInstallTargets := [];
      dtbs := [];
      initrdArch := "";
      ucSeries := "";
      initrdSnapUrl := None;
      vanillaInitrdSnap := "";
    }

    function CurrentTargets(): Targets
      reads this
    {
      Targets(kernelImageTarget, makeTargets, makeInstallTargets, dtbs)
    }

    /** `_get_deb_architecture`: an unknown target leaves `deb_arch` as it was. */
    method GetDebArchitecture()
      modifies this`debArch
      ensures debArch == if DebArchFor(targetArch).Some? then DebArchFor(targetArch) else old(debArch)
    {
      if targetArch == "armhf" {
        debArch := Some("armhf");
      } else if targetArch == "arm64" {
        debArch := Some("arm64");
      } else if targetArch == "riscv64" {
        debArch := Some("riscv64");
      } else if targetArch == "amd64" {
        debArch := Some("amd64");
      }
    }

    /** `_get_kernel_architecture`: an unknown target leaves `kernel_arch` as it was. */
    method GetKernelArchitecture()
      modifies this`kernelArch
      ensures kernelArch == if KernelArchFor(targetArch).Some? then KernelArchFor(targetArch) else old(kernelArch)
    {
      if targetArch == "armhf" {
        kernelArch := Some("arm");
      } else if targetArch == "arm64" {
        kernelArch := Some("arm64");
      } else if targetArch == "riscv64" {
        kernelArch := Some("riscv");
      } else if targetArch == "amd64" {
        kernelArch := Some("x86");
      }
    }

    /** `_check_cross_compilation`, with `SNAP_ARCH` passed in. */
    method CheckCrossCompilation(hostArch: Option<string>) returns (fault: Option<Fault>)
      modifies this`makeCmd
      ensures var step := CrossStep(hostArch, targetArch, kernelArch);
        (step.Success? ==> fault.None? && makeCmd == old(makeCmd) + step.value)
        && (step.Failure? ==> fault == Some(step.error) && makeCmd == old(makeCmd))
    {
      fault := None;
      if hostArch != Some(targetArch) {
        if kernelArch.None? {
          return Some(Unset("kernel_arch"));
        }
        makeCmd := makeCmd + ["ARCH=" + kernelArch.value];
        makeCmd := makeCmd + ["CROSS_COMPILE=${SNAPCRAFT_ARCH_TRIPLET}-"];
      }
    }

    /** `_set_kernel_targets`. */
    method SetKernelTargets() returns (fault: Option<Fault>)
      modifies this`kernelImageTarget, this`makeTargets, this`makeInstallTargets, this`dtbs
      ensures TargetsStep(CurrentTargets(), fault) == KernelTargetsStep(options, debArch, kernelArch, old(CurrentTargets()))
    {
      kernelImageTarget, fault := ChooseImageTarget(options.imageTarget, debArch, DefaultImageTargets, kernelImageTarget);
      if fault.Some? {
        return;
      }
      if kernelImageTarget.None? {
        return Some(Unset("kernel_image_target"));
      }
      makeTargets := [kernelImageTarget.value, "modules"];
      makeInstallTargets := BaseInstallTargets;
      dtbs := DtbFiles(options.deviceTrees);
      if dtbs != [] {
        makeTargets := makeTargets + dtbs;
      } else {
        if kernelArch.None? {
          return Some(Unset("kernel_arch"));
        }
        if GenericDtbArch(kernelArch.value) {
          makeTargets := makeTargets + ["dtbs"];
          makeInstallTargets := makeInstallTargets + DtbsInstallTargets;
        }
      }
      makeInstallTargets := makeInstallTargets + FwInstallTargets(options.withFirmware);
      fault := None;
    }

    /** `_compression_cmd`: the initrd compressor command from this plugin's options. */
    method CompressionCmd() returns (cmd: string)
      ensures cmd == CompressionCommand(options.compression, options.compressionOptions)
    {
      cmd := BuildRules.CompressionCmd(options.compression, options.compressionOptions);
    }

    /** `check_new_config`, with this plugin's initrd modules and the lines of the new config. */
    method CheckNewConfig(lines: seq<string>) returns (configWarning: Option<string>, bootWarning: Option<string>)
      ensures var builtin := KernelConfig.KeysIn(lines, KernelConfig.Builtin);
        var modules := KernelConfig.KeysIn(lines, KernelConfig.Module);
        && configWarning == KernelConfig.ConfigWarning(KernelConfig.Missing(KernelConfig.RequiredOptions, builtin, modules))
        && bootWarning == KernelConfig.BootWarning(KernelConfig.BootMissing(KernelConfig.RequiredBoot, builtin, modules, options.initrdModules))
    {
      configWarning, bootWarning := KernelConfig.CheckNewConfig(lines, options.initrdModules);
    }

    /**
     * `_configure_compiler`: appends the compiler and its parameters to
     * `make_cmd`, and tells whether it warns about a compiler other than clang.
     */
    method ConfigureCompiler() returns (warned: bool)
      modifies this`makeCmd
      ensures makeCmd == old(makeCmd) + CompilerArgs(options.compiler, options.compilerParameters)
      ensures warned <==> options.compiler != "" && options.compiler != "clang"
    {
      warned := false;
      if options.compiler != "" {
        if options.compiler != "clang" {
          warned := true;
        }
        makeCmd := makeCmd + ["CC=\"" + options.compiler + "\""];
      }
      ghost var start := makeCmd;
      var params := options.compilerParameters;
      for i := 0 to |params|
        invariant makeCmd == start + params[..i]
      {
        TakeSnoc(params, i);
        makeCmd := makeCmd + [params[i]];
      }
      assert params[..|params|] == params;
    }

    /**
     * `_init_build_env` for a given target and host architecture. Every
     * step's fault stops the method, with the attributes as far as it got;
     * the initrd attributes are assigned only when no step failed.
     */
    method InitBuildEnv(target: string, hostArch: Option<string>) returns (fault: Option<Fault>, warnings: seq<InitrdWarning>)
      modifies this
      ensures targetArch == target
      ensures debArch == if DebArchFor(target).Some? then DebArchFor(target) else old(debArch)
      ensures kernelArch == if KernelArchFor(target).Some? then KernelArchFor(target) else old(kernelArch)
      ensures var cross := CrossStep(hostArch, target, kernelArch);
        && (cross.Failure? ==>
              fault == Some(cross.error) && makeCmd == BaseMakeCmd && CurrentTargets() == old(CurrentTargets()))
        && (cross.Success? ==>
              var step := KernelTargetsStep(options, debArch, kernelArch, old(CurrentTargets()));
              makeCmd == BaseMakeCmd + cross.value && CurrentTargets() == step.targets &&
              fault == step.fault)
      ensures fault.Some? ==>
        warnings == [] && initrdArch == old(initrdArch) && ucSeries == old(ucSeries)
        && initrdSnapUrl == old(initrdSnapUrl) && vanillaInitrdSnap == old(vanillaInitrdSnap)
      ensures fault.None? ==>
        var name := InitrdSnapFileName("20", FlavourSuffix(options.initrdBaseUrl, options.initrdFlavour, options.initrdChannel), target);
        && initrdArch == target && ucSeries == "20"
        && initrdSnapUrl == InitrdSnapUrl(options.initrdBaseUrl, name)
        && vanillaInitrdSnap == VanillaInitrdSnap(name)
        && warnings == InitrdWarnings(options.initrdChannel, options.initrdBaseUrl, options.initrdFlavour)
    {
      warnings := [];
      fault := PrepareMake(target, hostArch);
      if fault.Some? {
        return;
      }
      fault, warnings := SetTargetsAndInitrd();
    }

    /** The rest of `_init_build_env`: the kernel targets, then the initrd attributes unless that step failed. */
    method SetTargetsAndInitrd() returns (fault: Option<Fault>, warnings: seq<InitrdWarning>)
      modifies this`kernelImageTarget, this`makeTargets, this`makeInstallTargets, this`dtbs
      modifies this`initrdArch, this`ucSeries, this`initrdSnapUrl, this`vanillaInitrdSnap
      ensures var step := KernelTargetsStep(options, debArch, kernelArch, old(CurrentTargets()));
        CurrentTargets() == step.targets && fault == step.fault
      ensures fault.Some? ==>
        warnings == [] && initrdArch == old(initrdArch) && ucSeries == old(ucSeries)
        && initrdSnapUrl == old(initrdSnapUrl) && vanillaInitrdSnap == old(vanillaInitrdSnap)
      ensures fault.None? ==>
        var name := InitrdSnapFileName("20", FlavourSuffix(options.initrdBaseUrl, options.initrdFlavour, options.initrdChannel), targetArch);
        && initrdArch == targetArch && ucSeries == "20"
        && initrdSnapUrl == InitrdSnapUrl(options.initrdBaseUrl, name)
        && vanillaInitrdSnap == VanillaInitrdSnap(name)
        && warnings == InitrdWarnings(options.initrdChannel, options.initrdBaseUrl, options.initrdFlavour)
    {
      warnings := [];
      fault := SetKernelTargets();
      if fault.Some? {
        return;
      }
      warnings := SetInitrdSnap();
    }

    /** The first part of `_init_build_env`: the architectures of the target and the base `make` command with its cross arguments. */
    method PrepareMake(target: string, hostArch: Option<string>) returns (fault: Option<Fault>)
      modifies this`targetArch, this`debArch, this`kernelArch, this`makeCmd
      ensures targetArch == target
      ensures debArch == if DebArchFor(target).Some? then DebArchFor(target) else old(debArch)
      ensures kernelArch == if KernelArchFor(target).Some? then KernelArchFor(target) else old(kernelArch)
      ensures var cross := CrossStep(hostArch, target, kernelArch);
        && (cross.Failure? ==> fault == Some(cross.error) && makeCmd == BaseMakeCmd)
        && (cross.Success? ==> fault == None && makeCmd == BaseMakeCmd + cross.value)
    {
      targetArch := target;
      GetDebArchitecture();
      GetKernelArchitecture();
      makeCmd := BaseMakeCmd;
      fault := CheckCrossCompilation(hostArch);
    }

    /** The initrd part of `_init_build_env`: series, snap file name, URL and local path. */
    method SetInitrdSnap() returns (warnings: seq<InitrdWarning>)
      modifies this`initrdArch, this`ucSeries, this`initrdSnapUrl, this`vanillaInitrdSnap
      ensures var name := InitrdSnapFileName("20", FlavourSuffix(options.initrdBaseUrl, options.initrdFlavour, options.initrdChannel), targetArch);
        && initrdArch == targetArch && ucSeries == "20"
        && initrdSnapUrl == InitrdSnapUrl(options.initrdBaseUrl, name)
        && vanillaInitrdSnap == VanillaInitrdSnap(name)
        && warnings == InitrdWarnings(options.initrdChannel, options.initrdBaseUrl, options.initrdFlavour)
    {
      initrdArch := targetArch;
      ucSeries := "20";
      warnings := InitrdWarnings(options.initrdChannel, options.initrdBaseUrl, options.initrdFlavour);
      var flavour := FlavourSuffix(options.initrdBaseUrl, options.initrdFlavour, options.initrdChannel);
      var name := InitrdSnapFileName(ucSeries, flavour, initrdArch);
      initrdSnapUrl := InitrdSnapUrl(options.initrdBaseUrl, name);
      vanillaInitrdSnap := VanillaInitrdSnap(name);
    }
  }

  /** A native build of a known target keeps the base `make` command; a cross build adds exactly the two cross arguments. */
  lemma MakeCmdForKnownTarget(target: string, hostArch: Option<string>)
    requires KernelArchFor(target).Some?
    ensures var cross := CrossStep(hostArch, target, KernelArchFor(target));
      cross.Success? &&
      BaseMakeCmd + cross.value ==
        if hostArch == Some(target) then BaseMakeCmd
        else BaseMakeCmd + ["ARCH=" + KernelArchFor(target).value, "CROSS_COMPILE=${SNAPCRAFT_ARCH_TRIPLET}-"]
  {
  }

  // ---------------------------------------------------------------------
  // Configuration commands
  // ---------------------------------------------------------------------

  const PrepareConfigLine: string := "echo \"Preparing config...\""
  const IfNoConfigLine: string := "if [ ! -e ${SNAPCRAFT_PART_BUILD}/.config ]; then"

  /** The fixed opening of the Ubuntu config assembly: where the fragments are found. */
  const UbuntuConfigPrelude: seq<string> := [
    "\techo \"Assembling Ubuntu config...\"",
    "\tbranch=$(cut -d'.' -f 2- < ${KERNEL_SRC}/debian/debian.env)",
    "\tbaseconfigdir=${KERNEL_SRC}/debian.${branch}/config",
    "\tarchconfigdir=${KERNEL_SRC}/debian.${branch}/config/${DEB_ARCH}",
    "\tcommonconfig=${baseconfigdir}/config.common.ports",
    "\tubuntuconfig=${baseconfigdir}/config.common.ubuntu",
    "\tarchconfig=${archconfigdir}/config.common.${DEB_ARCH}"
  ]

  const UbuntuConfigCat: string := "\tcat ${commonconfig} ${ubuntuconfig} ${archconfig} ${flavourconfig} > " + PartConfig

  /** The line that names the flavour's own fragment, up to the flavour. */
  const FlavourConfigPrefix: string := "\tflavourconfig=${archconfigdir}/config.flavour."

  /** `_assemble_ubuntu_config_cmd`: concatenate the Ubuntu config fragments of a flavour. */
  function UbuntuConfigCmd(flavour: string): seq<string>
  {
    UbuntuConfigPrelude + [FlavourConfigPrefix + flavour, UbuntuConfigCat]
  }

  /**
   * The flavour enters the Ubuntu config assembly through one line only: the
   * other eight lines are the same for every flavour, and the command tells
   * the flavours apart.
   */
  lemma UbuntuConfigFlavourLine(a: string, b: string)
    ensures |UbuntuConfigCmd(a)| == 9
    ensures forall i :: 0 <= i < 9 && i != 7 ==> UbuntuConfigCmd(a)[i] == UbuntuConfigCmd(b)[i]
    ensures UbuntuConfigCmd(a)[7] == FlavourConfigPrefix + a
    ensures UbuntuConfigCmd(a) == UbuntuConfigCmd(b) <==> a == b
  {
    var p := FlavourConfigPrefix;
    if UbuntuConfigCmd(a) == UbuntuConfigCmd(b) {
      assert p + a == UbuntuConfigCmd(a)[7] == UbuntuConfigCmd(b)[7] == p + b;
      assert a == (p + a)[|p|..];
      assert b == (p + b)[|p|..];
    }
  }

  /** The kernel configuration file the build reads. */
  const PartConfig: string := "${SNAPCRAFT_PART_BUILD}/.config"

  function CopyConfigLine(kconfigfile: string): string
  {
    Join(["\t", "cp", kconfigfile, PartConfig], " ")
  }

  /** The defconfig line: a copy of `make_cmd` with its second word set to `-j1`, then the defconfig targets. */
  function DefconfigLine(makeCmd: seq<string>, kdefconfig: seq<string>): string
    requires |makeCmd| >= 2
  {
    Join(["\t", Join(makeCmd[1 := "-j1"], " "), Join(kdefconfig, " ")], " ")
  }

  /** `_do_base_config_cmd`: `kconfigfile`, else `kconfigflavour`, else `kdefconfig`. */
  function BaseConfigCmd(opts: KernelOptions, makeCmd: seq<string>): seq<string>
    requires |makeCmd| >= 2
  {
    [PrepareConfigLine, IfNoConfigLine] + BaseConfigSeed(opts, makeCmd) + ["fi"]
  }

  /** The lines between the `if` and the `fi`. */
  function BaseConfigSeed(opts: KernelOptions, makeCmd: seq<string>): (r: seq<string>)
    requires |makeCmd| >= 2
    ensures |r| >= 1
  {
    if opts.kconfigfile != "" then [CopyConfigLine(opts.kconfigfile)]
    else if opts.kconfigflavour != "" then UbuntuConfigCmd(opts.kconfigflavour)
    else [DefconfigLine(makeCmd, opts.kdefconfig)]
  }

  /** The command always opens with the `if` and closes with `fi`, the seed between them. */
  lemma BaseConfigParts(opts: KernelOptions, makeCmd: seq<string>)
    requires |makeCmd| >= 2
    ensures var r := BaseConfigCmd(opts, makeCmd);
      && |r| >= 4 && r[..2] == [PrepareConfigLine, IfNoConfigLine] && r[|r| - 1] == "fi"
      && r[2..|r| - 1] == BaseConfigSeed(opts, makeCmd)
  {
    var r := BaseConfigCmd(opts, makeCmd);
    var seed := BaseConfigSeed(opts, makeCmd);
    assert r == [PrepareConfigLine, IfNoConfigLine] + seed + ["fi"];
    assert r[..2] == [PrepareConfigLine, IfNoConfigLine];
    assert r[2..|r| - 1] == seed;
  }

  lemma CopyConfigLineText(f: string)
    ensures CopyConfigLine(f) == "\t cp " + f + " " + PartConfig
  {
    calc {
      CopyConfigLine(f);
      { JoinCons("\t", ["cp", f, PartConfig], " "); }
      "\t" + " " + Join(["cp", f, PartConfig], " ");
      { JoinCons("cp", [f, PartConfig], " "); }
      "\t" + " " + ("cp" + " " + Join([f, PartConfig], " "));
      { JoinCons(f, [PartConfig], " "); }
      "\t" + " " + ("cp" + " " + (f + " " + PartConfig));
      { assert "\t" + " " + "cp" + " " == "\t cp "; }
      "\t cp " + f + " " + PartConfig;
    }
  }

  /** A config file wins: flavour, defconfig targets and `make_cmd` play no part. */
  lemma ConfigFileWins(o1: KernelOptions, o2: KernelOptions, m1: seq<string>, m2: seq<string>)
    requires |m1| >= 2 && |m2| >= 2
    requires o1.kconfigfile != "" && o1.kconfigfile == o2.kconfigfile
    ensures BaseConfigCmd(o1, m1) == BaseConfigCmd(o2, m2)
    ensures var r := BaseConfigCmd(o1, m1);
      r[2..|r| - 1] == ["\t cp " + o1.kconfigfile + " " + PartConfig]
  {
    BaseConfigParts(o1, m1);
    BaseConfigParts(o2, m2);
    CopyConfigLineText(o1.kconfigfile);
  }

  /** Without a config file, a flavour wins over the defconfig targets and `make_cmd`. */
  lemma FlavourWins(o1: KernelOptions, o2: KernelOptions, m1: seq<string>, m2: seq<string>)
    requires |m1| >= 2 && |m2| >= 2
    requires o1.kconfigfile == "" && o2.kconfigfile == ""
    requires o1.kconfigflavour != "" && o1.kconfigflavour == o2.kconfigflavour
    ensures BaseConfigCmd(o1, m1) == BaseConfigCmd(o2, m2)
    ensures var r := BaseConfigCmd(o1, m1); r[2..|r| - 1] == UbuntuConfigCmd(o1.kconfigflavour)
  {
    BaseConfigParts(o1, m1);
    BaseConfigParts(o2, m2);
  }

  /**
   * With neither, the seed line is the caller's `make_cmd` with `-j1` as its
   * second word followed by the defconfig targets: read back word by word
   * when no word holds a space.
   */
  lemma DefconfigWords(opts: KernelOptions, makeCmd: seq<string>)
    requires |makeCmd| >= 2 && opts.kconfigfile == "" && opts.kconfigflavour == "" && opts.kdefconfig != []
    requires forall i :: 0 <= i < |makeCmd| ==> ' ' !in makeCmd[i]
    requires forall i :: 0 <= i < |opts.kdefconfig| ==> ' ' !in opts.kdefconfig[i]
    ensures var r := BaseConfigCmd(opts, makeCmd);
      |r| == 4 && Split(r[2], ' ') == ["\t"] + makeCmd[1 := "-j1"] + opts.kdefconfig
  {
    BaseConfigParts(opts, makeCmd);
    DefconfigLineWords(makeCmd, opts.kdefconfig);
  }

  lemma DefconfigLineWords(makeCmd: seq<string>, kdefconfig: seq<string>)
    requires |makeCmd| >= 2 && kdefconfig != []
    requires forall i :: 0 <= i < |makeCmd| ==> ' ' !in makeCmd[i]
    requires forall i :: 0 <= i < |kdefconfig| ==> ' ' !in kdefconfig[i]
    ensures Split(DefconfigLine(makeCmd, kdefconfig), ' ') == ["\t"] + makeCmd[1 := "-j1"] + kdefconfig
  {
    var mk := makeCmd[1 := "-j1"];
    var kd := kdefconfig;
    var parts := ["\t"] + mk + kd;
    var jm, jk := Join(mk, " "), Join(kd, " ");
    calc {
      DefconfigLine(makeCmd, kd);
      Join(["\t", jm, jk], " ");
      { JoinCons("\t", [jm, jk], " "); JoinCons(jm, [jk], " "); }
      "\t" + " " + (jm + " " + jk);
      { JoinConcat(["\t"], mk, " "); assert Join(["\t"], " ") == "\t"; }
      Join(["\t"] + mk, " ") + " " + jk;
      { JoinConcat(["\t"] + mk, kd, " "); }
      Join(parts, [' ']);
    }
    forall i | 0 <= i < |parts| ensures ' ' !in parts[i] {
      if 1 <= i <= |mk| {
        assert parts[i] == mk[i - 1];
      } else if i > |mk| {
        assert parts[i] == kd[i - 1 - |mk|];
      }
    }
    SplitJoin(parts, ' ');
  }

  const SnapConfig: string := "${SNAPCRAFT_PART_BUILD}/.config_snap"

  /** A shell line that writes (`>`) or appends (`>>`) `text` to `file`. */
  function EchoTo(text: string, redirect: string, file: string): string
  {
    "echo '" + text + "' " + redirect + " " + file
  }

  /** `_do_patch_config_cmd`: one empty line without kconfigs, else five lines around the joined kconfigs. */
  function PatchConfigCmd(kconfigs: seq<string>): (r: seq<string>)
    ensures kconfigs == [] <==> r == [""]
    ensures kconfigs != [] ==> |r| == 5
  {
    if kconfigs == [] then [""]
    else
      var config := Join(kconfigs, "\n");
      [
        "echo \"Appling extra config....\"",
        EchoTo(config, ">", SnapConfig),
        "cat ${SNAPCRAFT_PART_BUILD}/.config >> " + SnapConfig,
        EchoTo(config, ">>", SnapConfig),
        "mv " + SnapConfig + " " + PartConfig
      ]
  }

  /**
   * The overrides are written both before and after the current config, one
   * per line: the text echoed twice splits back into the kconfigs.
   */
  lemma PatchConfigWritesKconfigs(kconfigs: seq<string>)
    requires kconfigs != []
    requires forall i :: 0 <= i < |kconfigs| ==> '\n' !in kconfigs[i]
    ensures exists config: string ::
      && Split(config, '\n') == kconfigs
      && PatchConfigCmd(kconfigs)[1] == EchoTo(config, ">", SnapConfig)
      && PatchConfigCmd(kconfigs)[3] == EchoTo(config, ">>", SnapConfig)
  {
    var config := Join(kconfigs, "\n");
    SplitJoin(kconfigs, '\n');
    assert Split(config, '\n') == kconfigs;
  }

  // ---------------------------------------------------------------------
  // Device trees
  // ---------------------------------------------------------------------

  /** The installed name of a dtb: what follows its last `/`, unless that `/` is the first character. */
  function InstallDtbName(dtb: string): (r: string)
    ensures |r| <= |dtb| && r == dtb[|dtb| - |r|..]
  {
    var k := RFind(dtb, '/');
    if k > 0 then dtb[k + 1..] else dtb
  }

  /** The name has no directory left in it, except a name whose only `/` leads, which is kept whole. */
  lemma InstallDtbNameNoSubdir(dtb: string)
    ensures var r := InstallDtbName(dtb);
      || ('/' !in r && (r == dtb || (exists k :: 0 < k < |dtb| && dtb[k] == '/' && r == dtb[k + 1..])))
      || (r == dtb && dtb[0] == '/' && '/' !in dtb[1..])
  {
    var k := RFind(dtb, '/');
    var r := InstallDtbName(dtb);
    if k > 0 {
      assert r == dtb[k + 1..];
      forall j | 0 <= j < |r| ensures r[j] != '/' {
        assert r[j] == dtb[k + 1 + j];
      }
    } else if k == 0 {
      forall j | 0 <= j < |dtb[1..]| ensures dtb[1..][j] != '/' {
        assert dtb[1..][j] == dtb[j + 1];
      }
    } else {
      RFindNone(dtb, '/');
    }
  }

  lemma {:induction false} RFindNone(s: string, c: char)
    requires RFind(s, c) == -1
    ensures c !in s
    decreases |s|
  {
    if s != [] {
      RFindNone(s[..|s| - 1], c);
      assert s == s[..|s| - 1] + [s[|s| - 1]];
    }
  }

  function DtbLink(dtb: string): string
  {
    Join(["ln -f", "${KERNEL_BUILD_ARCH_DIR}/dts/" + dtb, "${SNAPCRAFT_PART_INSTALL}/dtbs/" + InstallDtbName(dtb)], " ")
  }

  const DtbsHeader: seq<string> := ["echo \"Copying custom dtbs...\"", "mkdir -p ${SNAPCRAFT_PART_INSTALL}/dtbs"]

  /**
   * `_copy_dtbs_cmd` over `kernel-device-trees` (the test) and `self.dtbs`
   * (the loop): one empty line without device trees, else the two header
   * lines and one link per dtb, in order.
   */
  function DtbsCmd(deviceTrees: seq<string>, dtbs: seq<string>): (r: seq<string>)
    ensures deviceTrees == [] ==> r == [""]
    ensures deviceTrees != [] ==>
      |r| == 2 + |dtbs| && r[..2] == DtbsHeader && forall i :: 0 <= i < |dtbs| ==> r[2 + i] == DtbLink(dtbs[i])
  {
    if deviceTrees == [] then [""]
    else DtbsHeader + seq(|dtbs|, i requires 0 <= i < |dtbs| => DtbLink(dtbs[i]))
  }

  /** `_copy_dtbs_cmd`, extending the command in a loop. */
  method CopyDtbsCmd(deviceTrees: seq<string>, dtbs: seq<string>) returns (cmd: seq<string>)
    ensures cmd == DtbsCmd(deviceTrees, dtbs)
  {
    if deviceTrees == [] {
      return [""];
    }
    cmd := DtbsHeader;
    for i := 0 to |dtbs|
      invariant |cmd| == 2 + i && cmd[..2] == DtbsHeader
      invariant forall j :: 0 <= j < i ==> cmd[2 + j] == DtbLink(dtbs[j])
    {
      var dtb := dtbs[i];
      var subdirIndex := RFind(dtb, '/');
      var installDtb;
      if subdirIndex > 0 {
        installDtb := dtb[subdirIndex + 1..];
      } else {
        installDtb := dtb;
      }
      assert installDtb == InstallDtbName(dtb);
      var line := Join(["ln -f", "${KERNEL_BUILD_ARCH_DIR}/dts/" + dtb, "${SNAPCRAFT_PART_INSTALL}/dtbs/" + installDtb], " ");
      assert line == DtbLink(dtb);
      cmd := cmd + [line];
    }
    var expected := DtbsCmd(deviceTrees, dtbs);
    forall k | 0 <= k < |cmd| ensures cmd[k] == expected[k] {
      if k < 2 {
        assert cmd[k] == cmd[..2][k] && expected[k] == expected[..2][k];
      } else {
        assert cmd[2 + (k - 2)] == DtbLink(dtbs[k - 2]);
      }
    }
  }
}
