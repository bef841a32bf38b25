/**
 * The build-parameter rules of the initrd plugin. It applies the kernel
 * plugin's rules for the initrd snap name, the image target, compression
 * and the EFI stub, but with smaller architecture tables and its own
 * default image targets. The plugin object is a class: the steps of
 * `_init_build_env` assign its attributes, and the compressor command reads
 * its options.
 */
module InitrdPlugin {
  import opened Wrappers
  import opened BuildRules

  /** The plugin options this model reads. */
  datatype InitrdOptions = InitrdOptions(
    imageTarget: ImageTargetOption,
    compression: Compression,
    compressionOptions: seq<string>,
    initrdChannel: string,
    initrdBaseUrl: string,
    initrdFlavour: string)

  // ---------------------------------------------------------------------
  // Tables
  // ---------------------------------------------------------------------

  /** `_get_kernel_architecture`'s table: three targets, riscv64 is not among them. */
  function KernelArchFor(target: string): Option<string>
  {
    if target == "armhf" then Some("arm")
    else if target == "arm64" then Some("arm64")
    else if target == "amd64" then Some("x86")
    else None
  }

  /** `_get_deb_architecture`'s table: the identity on the three known targets. */
  function DebArchFor(target: string): (r: Option<string>)
    ensures r.Some? ==> r.value == target
  {
    if target in {"armhf", "arm64", "amd64"} then Some(target) else None
  }

  const DefaultImageTargets: map<string, string> := map[
    "amd64" := "bzImage",
    "i386" := "bzImage",
    "armhf" := "vmlinuz",
    "arm64" := "vmlinuz",
    "powerpc" := "uImage",
    "ppc64el" := "vmlinux.strip",
    "s390x" := "bzImage"
  ]

  /** Both tables know exactly armhf, arm64 and amd64. */
  lemma ArchTablesAgree(target: string)
    ensures KernelArchFor(target).Some? <==> target in {"armhf", "arm64", "amd64"}
    ensures DebArchFor(target).Some? <==> KernelArchFor(target).Some?
  {
  }

  /** Both ARM targets boot a `vmlinuz`, and riscv64 has no default at all. */
  lemma DefaultTable()
    ensures DefaultImageTargets["armhf"] == "vmlinuz" && DefaultImageTargets["arm64"] == "vmlinuz"
    ensures "riscv64" !in DefaultImageTargets
  {
  }

  // ---------------------------------------------------------------------
  // The plugin object
  // ---------------------------------------------------------------------

  /**
   * The attributes of the initrd plugin. The three that the code may read
   * before any assignment are `Option`s; `None` is "never assigned".
   */
  class Plugin {
    const options: InitrdOptions
    var targetArch: string
    var debArch: Option<string>
    var kernelArch: Option<string>
    var kernelImageTarget: Option<string>
    var initrdArch: string
    var ucSeries: string
    var initrdSnapUrl: Option<string>
    var vanillaInitrdSnap: string

    constructor (options: InitrdOptions)
      ensures this.options == options
      ensures debArch.None? && kernelArch.None? && kernelImageTarget.None?
      ensures targetArch == "" && initrdArch == "" && ucSeries == "" && initrdSnapUrl.None? && vanillaInitrdSnap == ""
    {
      this.options := options;
      targetArch := "";
      debArch := None;
      kernelArch := None;
      kernelImageTarget := None;
      initrdArch := "";
      ucSeries := "";
      initrdSnapUrl := None;
      vanillaInitrdSnap := "";
    }

    /** `_get_deb_architecture`: an unknown target leaves `deb_arch` as it was. */
    method GetDebArchitecture()
      modifies this`debArch
      ensures debArch == if DebArchFor(targetArch).Some? then DebArchFor(targetArch) else old(debArch)
    {
      if targetArch == "armhf" {
        debArch := Some("armhf");
      } else if targetArch == "arm64" {
        debArch := Some("arm64");
      } else if targetArch == "amd64" {
        debArch := Some("amd64");
      }
    }

    /** `_get_kernel_architecture`: an unknown target leaves `kernel_arch` as it was. */
    method GetKernelArchitecture()
      modifies this`kernelArch
      ensures kernelArch == if KernelArchFor(targetArch).Some? then KernelArchFor(targetArch) else old(kernelArch)
    {
      if targetArch == "armhf" {
        kernelArch := Some("arm");
      } else if targetArch == "arm64" {
        kernelArch := Some("arm64");
      } else if targetArch == "amd64" {
        kernelArch := Some("x86");
      }
    }

    /**
     * `_set_kernel_targets`: the image target from the option or from the
     * table. A per-architecture map without an entry for `deb_arch` keeps
     * the current value.
     */
    method SetKernelTargets() returns (fault: Option<Fault>)
      modifies this`kernelImageTarget
      ensures var sel := SelectImageTarget(options.imageTarget, debArch, DefaultImageTargets, old(kernelImageTarget));
        && (sel.Failure? ==> fault == Some(sel.error) && kernelImageTarget == old(kernelImageTarget))
        && (sel.Success? ==> fault.None? && kernelImageTarget == sel.value)
    {
      kernelImageTarget, fault := ChooseImageTarget(options.imageTarget, debArch, DefaultImageTargets, kernelImageTarget);
    }

    /**
     * `_init_build_env`, with the target architecture passed in. A fault of
     * `_set_kernel_targets` stops it before the initrd attributes are set.
     */
    method InitBuildEnv(target: string) returns (fault: Option<Fault>, warnings: seq<InitrdWarning>)
      modifies this
      ensures targetArch == target
      ensures debArch == if DebArchFor(target).Some? then DebArchFor(target) else old(debArch)
      ensures kernelArch == if KernelArchFor(target).Some? then KernelArchFor(target) else old(kernelArch)
      ensures var sel := SelectImageTarget(options.imageTarget, debArch, DefaultImageTargets, old(kernelImageTarget));
        && (sel.Failure? ==> fault == Some(sel.error) && kernelImageTarget == old(kernelImageTarget))
        && (sel.Success? ==> fault.None? && kernelImageTarget == sel.value)
      ensures fault.Some? ==>
        warnings == [] && initrdArch == old(initrdArch) && ucSeries == old(ucSeries)
        && initrdSnapUrl == old(initrdSnapUrl) && vanillaInitrdSnap == old(vanillaInitrdSnap)
      ensures fault.None? ==>
        var name := InitrdSnapFileName("20", FlavourSuffix(options.initrdBaseUrl, options.initrdFlavour, options.initrdChannel), target);
        && initrdArch == target && ucSeries == "20"
        && initrdSnapUrl == InitrdSnapUrl(options.initrdBaseUrl, name)
        && vanillaInitrdSnap == VanillaInitrdSnap(name)
        && warnings == InitrdWarnings(options.initrdChannel, options.initrdBaseUrl, options.initrdFlavour)
    {
      warnings := [];
      targetArch := target;
      GetDebArchitecture();
      GetKernelArchitecture();
      fault := SetKernelTargets();
      if fault.Some? {
        return;
      }
      warnings := SetInitrdSnap();
    }

    /** `_compression_cmd`: the initrd compressor command from this plugin's options. */
    method CompressionCmd() returns (cmd: string)
      ensures cmd == CompressionCommand(options.compression, options.compressionOptions)
    {
      cmd := BuildRules.CompressionCmd(options.compression, options.compressionOptions);
    }

    /** The initrd part of `_init_build_env`: series, snap file name, URL and local path. */
    method SetInitrdSnap() returns (warnings: seq<InitrdWarning>)
      modifies this`initrdArch, this`ucSeries, this`initrdSnapUrl, this`vanillaInitrdSnap
      ensures var name := InitrdSnapFileName("20", FlavourSuffix(options.initrdBaseUrl, options.initrdFlavour, options.initrdChannel), targetArch);
        && initrdArch == targetArch && ucSeries == "20"
        && initrdSnapUrl == InitrdSnapUrl(options.initrdBaseUrl, name)
        && vanillaInitrdSnap == VanillaInitrdSnap(name)
        && warnings == InitrdWarnings(options.initrdChannel, options.initrdBaseUrl, options.initrdFlavour)
    {
      initrdArch := targetArch;
      ucSeries := "20";
      warnings := InitrdWarnings(options.initrdChannel, options.initrdBaseUrl, options.initrdFlavour);
      var flavour := FlavourSuffix(options.initrdBaseUrl, options.initrdFlavour, options.initrdChannel);
      var name := InitrdSnapFileName(ucSeries, flavour, initrdArch);
      initrdSnapUrl := InitrdSnapUrl(options.initrdBaseUrl, name);
      vanillaInitrdSnap := VanillaInitrdSnap(name);
    }
  }

  /**
   * riscv64 is in neither architecture table, so `deb_arch` is never assigned
   * for it: with the option unset, a fresh plugin faults on reading it.
   */
  lemma RiscvNeedsExplicitTarget(opt: ImageTargetOption, current: Option<string>)
    requires IsUnset(opt)
    ensures DebArchFor("riscv64").None? && KernelArchFor("riscv64").None?
    ensures SelectImageTarget(opt, None, DefaultImageTargets, current) == Failure(Unset("deb_arch"))
  {
  }

  /** A named image target is taken as it stands on every architecture, riscv64 included. */
  lemma NamedTargetOnAnyArch(name: string, debArch: Option<string>, current: Option<string>)
    requires name != ""
    ensures SelectImageTarget(Named(name), debArch, DefaultImageTargets, current) == Success(Some(name))
  {
  }
}
