/**
 * The selection rules both plugins share: the initrd compressor command, the
 * name and location of the initrd snap, the kernel image target precedence
 * and the EFI stub of `_make_efi_cmd`.
 */
module BuildRules {
  import opened Wrappers
  import opened Text
  import opened Seqs

  /**
   * Why a plugin method raises: an attribute read before any assignment
   * (Python's `AttributeError`) or a table without the key (`KeyError`).
   */
  datatype Fault = Unset(attribute: string) | NoKey(key: string)

  // ---------------------------------------------------------------------
  // Compression
  // ---------------------------------------------------------------------

  /** `kernel-initrd-compression`: the schema admits exactly these three. */
  datatype Compression = Gz | Lz4 | Xz

  function CompressorName(c: Compression): string
  {
    match c
    case Gz => "gzip"
    case Lz4 => "lz4"
    case Xz => "xz"
  }

  function DefaultCompressorOptions(c: Compression): string
  {
    match c
    case Gz => "-7"
    case Lz4 => "-l -9"
    case Xz => "-7"
  }

  /** What the option loop accumulates: each option with a leading space. */
  function OptionsText(opts: seq<string>): string
  {
    FlatMap((o: string) => " " + o, opts)
  }

  /** The command `_compression_cmd` returns. */
  function CompressionCommand(c: Compression, opts: seq<string>): string
  {
    CompressorName(c) + " " + (if opts == [] then DefaultCompressorOptions(c) else OptionsText(opts))
  }

  lemma OptionsTextSnoc(opts: seq<string>, o: string)
    ensures OptionsText(opts + [o]) == OptionsText(opts) + (" " + o)
  {
    FlatMapSnoc((o: string) => " " + o, opts, o);
  }

  /** `_compression_cmd`, with its accumulating loop. */
  method CompressionCmd(c: Compression, opts: seq<string>) returns (cmd: string)
    ensures cmd == CompressionCommand(c, opts)
  {
    var compressor := CompressorName(c);
    var options := "";
    if opts != [] {
      for i := 0 to |opts|
        invariant options == OptionsText(opts[..i])
      {
        TakeSnoc(opts, i);
        OptionsTextSnoc(opts[..i], opts[i]);
        options := options + " " + opts[i];
      }
      assert opts[..|opts|] == opts;
    } else {
      options := DefaultCompressorOptions(c);
    }
    cmd := compressor + " " + options;
  }

  lemma {:induction false} OptionsTextJoin(opts: seq<string>)
    requires opts != []
    ensures OptionsText(opts) == " " + Join(opts, " ")
    decreases |opts|
  {
    assert OptionsText(opts) == " " + opts[0] + OptionsText(opts[1..]);
    if |opts| > 1 {
      OptionsTextJoin(opts[1..]);
    } else {
      assert opts[1..] == [];
    }
  }

  /**
   * Given options are joined after the compressor name with two spaces: the
   * one that separates it from the options and the one each option brings.
   */
  lemma CompressionWithOptions(c: Compression, opts: seq<string>)
    requires opts != []
    ensures CompressionCommand(c, opts) == CompressorName(c) + "  " + Join(opts, " ")
  {
    OptionsTextJoin(opts);
  }

  /**
   * Split on spaces, a command with given options (none holding a space)
   * reads back as the compressor, one empty word, and the options in order.
   */
  lemma CompressionTokens(c: Compression, opts: seq<string>)
    requires opts != []
    requires forall i :: 0 <= i < |opts| ==> ' ' !in opts[i]
    ensures Split(CompressionCommand(c, opts), ' ') == [CompressorName(c), ""] + opts
  {
    var name := CompressorName(c);
    var parts := [name, ""] + opts;
    CompressionWithOptions(c, opts);
    JoinConcat([name, ""], opts, " ");
    assert Join([name, ""], " ") == name + " " + "";
    assert CompressionCommand(c, opts) == Join(parts, [' ']);
    assert ' ' !in name by {
      match c
      case Gz => assert name == "gzip";
      case Lz4 => assert name == "lz4";
      case Xz => assert name == "xz";
    }
    forall i | 0 <= i < |parts| ensures ' ' !in parts[i] {
      if i >= 2 {
        assert parts[i] == opts[i - 2];
      }
    }
    SplitJoin(parts, ' ');
  }

  /** Without options the command is the compressor's defaults, and those differ by compressor. */
  lemma DefaultCompression()
    ensures CompressionCommand(Gz, []) == "gzip -7"
    ensures CompressionCommand(Lz4, []) == "lz4 -l -9"
    ensures CompressionCommand(Xz, []) == "xz -7"
  {
  }

  // ---------------------------------------------------------------------
  // The initrd snap
  // ---------------------------------------------------------------------

  const InitrdSnapName: string := "uc-initrd"

  /** The build directory `vanilla_initrd_snap` lives in. */
  const PartBuild: string := "${SNAPCRAFT_PART_BUILD}"

  /**
   * The flavour part of the snap file name: `-<flavour>` (or nothing) when a
   * base URL is given, `-<channel>` otherwise.
   */
  function FlavourSuffix(baseUrl: string, flavour: string, channel: string): string
  {
    if baseUrl != "" then (if flavour != "" then "-" + flavour else "")
    else "-" + channel
  }

  /** `uc-initrd_<series><flavour>_<architecture>.snap`. */
  function InitrdSnapFileName(series: string, suffix: string, arch: string): string
  {
    InitrdSnapName + "_" + series + suffix + "_" + arch + ".snap"
  }

  /** `initrd_snap_url`: where to download the snap, only when a base URL is given. */
  function InitrdSnapUrl(baseUrl: string, fileName: string): Option<string>
  {
    if baseUrl != "" then Some(baseUrl + "/" + fileName) else None
  }

  /** `os.path.join(a, b)` for two components. */
  function PathJoin(a: string, b: string): string
  {
    if b != [] && b[0] == '/' then b
    else if a == [] || a[|a| - 1] == '/' then a + b
    else a + "/" + b
  }

  /** `vanilla_initrd_snap`. */
  function VanillaInitrdSnap(fileName: string): string
  {
    PathJoin(PartBuild, fileName)
  }

  /** The two notices `_init_build_env` echoes about initrd options it ignores. */
  datatype InitrdWarning = ChannelIgnored | FlavourIgnored

  function InitrdWarnings(channel: string, baseUrl: string, flavour: string): seq<InitrdWarning>
  {
    (if channel != "stable" && baseUrl != "" then [ChannelIgnored] else [])
    + (if flavour != "" && baseUrl == "" then [FlavourIgnored] else [])
  }

  /** With a base URL the channel plays no part in the name. */
  lemma ChannelUnusedWithBaseUrl(baseUrl: string, flavour: string, c1: string, c2: string)
    requires baseUrl != ""
    ensures FlavourSuffix(baseUrl, flavour, c1) == FlavourSuffix(baseUrl, flavour, c2)
  {
  }

  /** Without a base URL the flavour plays no part in the name. */
  lemma FlavourUnusedWithoutBaseUrl(channel: string, f1: string, f2: string)
    ensures FlavourSuffix("", f1, channel) == FlavourSuffix("", f2, channel)
  {
  }

  /**
   * The channel notice is given exactly when a channel other than `stable`
   * yields the same name as `stable` would.
   */
  lemma ChannelWarningHonest(channel: string, baseUrl: string, flavour: string)
    ensures ChannelIgnored in InitrdWarnings(channel, baseUrl, flavour) <==>
      channel != "stable" && FlavourSuffix(baseUrl, flavour, channel) == FlavourSuffix(baseUrl, flavour, "stable")
  {
    if baseUrl == "" && channel != "stable" {
      assert ("-" + channel)[1..] == channel;
      assert ("-" + "stable")[1..] == "stable";
    }
  }

  /**
   * The flavour notice is given exactly when a flavour is set and the name
   * comes out as if it were not.
   */
  lemma FlavourWarningHonest(channel: string, baseUrl: string, flavour: string)
    ensures FlavourIgnored in InitrdWarnings(channel, baseUrl, flavour) <==>
      flavour != "" && FlavourSuffix(baseUrl, flavour, channel) == FlavourSuffix(baseUrl, "", channel)
  {
    if baseUrl != "" && flavour != "" {
      assert |"-" + flavour| > 0;
    }
  }

  /** Two flavour suffixes give the same file name (for one series and architecture) only if equal. */
  lemma FileNameInjective(series: string, x: string, y: string, arch: string)
    requires InitrdSnapFileName(series, x, arch) == InitrdSnapFileName(series, y, arch)
    ensures x == y
  {
    var p := InitrdSnapName + "_" + series;
    var t := "_" + arch + ".snap";
    assert InitrdSnapFileName(series, x, arch) == p + x + t;
    assert InitrdSnapFileName(series, y, arch) == p + y + t;
    assert |x| == |y|;
    assert x == (p + x + t)[|p|..|p| + |x|];
    assert y == (p + y + t)[|p|..|p| + |y|];
  }

  /** The snap lands directly in the build directory, and the URL names the same file. */
  lemma SnapLocations(series: string, suffix: string, arch: string, baseUrl: string)
    ensures var name := InitrdSnapFileName(series, suffix, arch);
      && VanillaInitrdSnap(name) == PartBuild + "/" + name
      && (InitrdSnapUrl(baseUrl, name).Some? <==> baseUrl != "")
      && (baseUrl != "" ==> InitrdSnapUrl(baseUrl, name) == Some(baseUrl + "/" + name))
      && (baseUrl != "" ==> InitrdSnapUrl(baseUrl, name).value[|baseUrl| + 1..] == name)
  {
    var name := InitrdSnapFileName(series, suffix, arch);
    assert name[0] == 'u';
    if baseUrl != "" {
      assert (baseUrl + "/" + name)[|baseUrl| + 1..] == name;
    }
  }

  // ---------------------------------------------------------------------
  // Kernel image target
  // ---------------------------------------------------------------------

  /** `kernel-image-target`: a string, or an object from deb architecture to target. */
  datatype ImageTargetOption = Named(name: string) | PerArch(targets: map<string, string>)

  /** Python falsiness of the option: the empty string or the empty object. */
  predicate IsUnset(opt: ImageTargetOption)
  {
    match opt
    case Named(name) => name == ""
    case PerArch(targets) => targets == map[]
  }

  /**
   * The assignment to `kernel_image_target` in `_set_kernel_targets`: the
   * default for `deb_arch` when the option is falsy, the string when it is
   * one, the entry for `deb_arch` of an object, which keeps `current` when
   * there is none.
   */
  function SelectImageTarget(opt: ImageTargetOption, debArch: Option<string>, defaults: map<string, string>,
                             current: Option<string>): (r: Result<Option<string>, Fault>)
    ensures r.Failure? <==>
      (debArch.None? && !(opt.Named? && opt.name != ""))
      || (IsUnset(opt) && debArch.Some? && debArch.value !in defaults)
    ensures r.Failure? && debArch.None? ==> r.error == Unset("deb_arch")
    ensures r.Failure? && debArch.Some? ==> r.error == NoKey(debArch.value)
    ensures r.Success? && r.value != current ==> r.value.Some?
  {
    if IsUnset(opt) then
      if debArch.None? then Failure(Unset("deb_arch"))
      else if debArch.value !in defaults then Failure(NoKey(debArch.value))
      else Success(Some(defaults[debArch.value]))
    else if opt.Named? then Success(Some(opt.name))
    else if debArch.None? then Failure(Unset("deb_arch"))
    else if debArch.value in opt.targets then Success(Some(opt.targets[debArch.value]))
    else Success(current)
  }

  /**
   * The statements of `_set_kernel_targets` that assign `kernel_image_target`,
   * which either raise or leave `image` as the attribute's new value.
   */
  method ChooseImageTarget(opt: ImageTargetOption, debArch: Option<string>, defaults: map<string, string>,
                           current: Option<string>) returns (image: Option<string>, fault: Option<Fault>)
    ensures var sel := SelectImageTarget(opt, debArch, defaults, current);
      && (sel.Failure? ==> fault == Some(sel.error) && image == current)
      && (sel.Success? ==> fault.None? && image == sel.value)
  {
    image, fault := current, None;
    if IsUnset(opt) {
      if debArch.None? {
        return current, Some(Unset("deb_arch"));
      }
      if debArch.value !in defaults {
        return current, Some(NoKey(debArch.value));
      }
      image := Some(defaults[debArch.value]);
    } else if opt.Named? {
      image := Some(opt.name);
    } else {
      if debArch.None? {
        return current, Some(Unset("deb_arch"));
      }
      if debArch.value in opt.targets {
        image := Some(opt.targets[debArch.value]);
      }
    }
  }

  /** The default table is consulted only when the option is falsy. */
  lemma DefaultsOnlyWhenUnset(opt: ImageTargetOption, debArch: Option<string>,
                              d1: map<string, string>, d2: map<string, string>, current: Option<string>)
    requires !IsUnset(opt)
    ensures SelectImageTarget(opt, debArch, d1, current) == SelectImageTarget(opt, debArch, d2, current)
  {
  }

  /** A falsy option takes the table entry of the architecture. */
  lemma UnsetTakesDefault(opt: ImageTargetOption, arch: string, defaults: map<string, string>, current: Option<string>)
    requires IsUnset(opt) && arch in defaults
    ensures SelectImageTarget(opt, Some(arch), defaults, current) == Success(Some(defaults[arch]))
  {
  }

  /** A target named as a string is used as given, whatever the architecture, even an unknown one. */
  lemma NamedTargetWins(name: string, debArch: Option<string>, defaults: map<string, string>, current: Option<string>)
    requires name != ""
    ensures SelectImageTarget(Named(name), debArch, defaults, current) == Success(Some(name))
  {
  }

  /** An object picks the entry of the architecture and otherwise leaves the target as it was. */
  lemma PerArchTarget(targets: map<string, string>, arch: string, defaults: map<string, string>, current: Option<string>)
    requires targets != map[]
    ensures SelectImageTarget(PerArch(targets), Some(arch), defaults, current) ==
      Success(if arch in targets then Some(targets[arch]) else current)
  {
  }

  // ---------------------------------------------------------------------
  // EFI stub
  // ---------------------------------------------------------------------

  /** `{"amd64": "x64", "arm64": "aa64"}.get(deb_arch)`. */
  function EfiArch(debArch: string): Option<string>
  {
    if debArch == "amd64" then Some("x64")
    else if debArch == "arm64" then Some("aa64")
    else None
  }

  /** `str()` of the looked-up value: `None` prints as `None`. */
  function OptionText(o: Option<string>): string
  {
    match o
    case Some(s) => s
    case None => "None"
  }

  /** The stub `objcopy` wraps: reading an unset `deb_arch` raises. */
  function EfiStubPath(debArch: Option<string>): (r: Result<string, Fault>)
    ensures r.Failure? <==> debArch.None?
  {
    match debArch
    case None => Failure(Unset("deb_arch"))
    case Some(d) => Success("/usr/lib/systemd/boot/efi/linux" + OptionText(EfiArch(d)) + ".efi.stub")
  }

  /** amd64 and arm64 get their own stubs. */
  lemma EfiStubsKnown()
    ensures EfiStubPath(Some("amd64")) == Success("/usr/lib/systemd/boot/efi/linuxx64.efi.stub")
    ensures EfiStubPath(Some("arm64")) == Success("/usr/lib/systemd/boot/efi/linuxaa64.efi.stub")
  {
    var dir, ext := "/usr/lib/systemd/boot/efi/linux", ".efi.stub";
    assert OptionText(EfiArch("amd64")) == "x64";
    assert OptionText(EfiArch("arm64")) == "aa64";
    assert dir + "x64" + ext == "/usr/lib/systemd/boot/efi/linuxx64.efi.stub";
    assert dir + "aa64" + ext == "/usr/lib/systemd/boot/efi/linuxaa64.efi.stub";
  }

  /** Every other architecture asks for `linuxNone.efi.stub`. */
  lemma EfiStubOther(d: string)
    requires d != "amd64" && d != "arm64"
    ensures EfiStubPath(Some(d)) == Success("/usr/lib/systemd/boot/efi/linuxNone.efi.stub")
  {
    var dir, ext := "/usr/lib/systemd/boot/efi/linux", ".efi.stub";
    assert dir + "None" + ext == "/usr/lib/systemd/boot/efi/linuxNone.efi.stub";
  }

}
