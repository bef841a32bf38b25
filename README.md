# Snapcraft kernel and initrd plugins: config checker and build-parameter rules

This project models the decision logic of two snapcraft build plugins. The
kernel plugin is `x_kernel.py` and the initrd plugin is `x_initrd.py`.

- **Config checker** (`KernelConfig`). It sorts the `key=value` lines of a
  kernel `.config` into a built-in list (`Y`) and a module list (`M`). It then
  reports, in declaration order, the required `CONFIG_<code>` keys found in
  neither list, and the boot-essential key `CONFIG_SQUASHFS` unless it is
  built in or shipped as an initrd module. It also builds the warning texts
  the plugin echoes.
- **Shared rules** (`BuildRules`). These are used by both plugins:
  - the initrd compressor command;
  - the initrd snap file name, URL and local path, with the two notices
    about ignored options;
  - the precedence for the kernel image target;
  - the EFI stub name.
- **Kernel plugin** (`KernelPlugin`): the architecture tables, the `make`
  command with its cross-compile and compiler arguments, the make and install
  targets, the base-config, patch-config and dtb-copy command lines, and a
  `Plugin` class. Its methods model:
  - the steps of `_init_build_env`, which assign the plugin's attributes;
  - `_configure_compiler` (`ConfigureCompiler`), which extends `make_cmd`;
  - `_compression_cmd` (`CompressionCmd`), which reads the compression options;
  - `check_new_config` itself (`CheckNewConfig`), which reads the initrd modules.
- **Initrd plugin** (`InitrdPlugin`): the smaller architecture tables, its
  own default image targets, and its own `Plugin` class.

`Text` and `Seqs` hold the models of the Python string operations the code
uses (`strip`, `split`, `upper`, `join`, `rfind`) and a `FlatMap` over lists.
`Wrappers` holds `Option` and `Result`.

Python's exceptions are modelled as values of `BuildRules.Fault`:
- reading an attribute that was never assigned (`AttributeError`) is
  `Unset(name)`;
- a dictionary miss (`KeyError`) is `NoKey(key)`.

A method that hits one returns it, and leaves the attributes it assigned
before the raise.

Inputs that come from the environment are parameters:
- the target architecture (`sys.argv` or `ProjectOptions().deb_arch`);
- the host architecture (`SNAP_ARCH`, `None` when unset);
- the lines of the config file.

Some messages the code prints with `click.echo` are returned instead:
- the completeness and boot warnings of the config check;
- the two notices about an ignored initrd channel or flavour;
- the non-clang compiler notice, as a flag.

The other messages it echoes are not modelled (see "## Left out").

## Model

| member | source | states |
|---|---|---|
| KernelConfig.ParseLine | x_kernel.py:1243-1251 | definition: the stripped line split on `=`; with exactly two tokens, the upper-cased key is built in for the upper-cased value `Y`, a module for `M`, and otherwise the line gives nothing. |
| KernelConfig.KeysIn | x_kernel.py:1241-1252 | definition: the keys the lines give one state, concatenated in file order, duplicates kept. |
| KernelConfig.ParseConfig | x_kernel.py:1237-1252 | The two lists are the keys the file's lines give `Y` and `M`, line by line in file order, duplicates kept (`KeysIn`). |
| KernelConfig.ParseLineNeedsOneEquals | x_kernel.py:1243-1245 | A line without exactly one `=` contributes nothing. |
| KernelConfig.ParseLineIgnoresCase | x_kernel.py:1243-1247 | Upper-casing a line does not change how it is read, so `CONFIG_X=y` counts as `CONFIG_X=Y`. |
| KernelConfig.ParseAssignment | x_kernel.py:1243-1251 | A line `key=value` plus trailing white space is filed under the upper-cased key. `Y` makes it built in, `M` a module, and any other value drops it. |
| KernelConfig.ParseTokens | x_kernel.py:1245-1251 | Once a line splits into two tokens, the upper-cased second token alone decides where the upper-cased first token goes. |
| KernelConfig.AssignmentTokens | x_kernel.py:1243 | Stripping `key=value` plus trailing white space and splitting it on `=` gives exactly `[key, value]`. |
| KernelConfig.StripAssignment | x_kernel.py:1243 | `strip()` removes only the trailing white space from a line whose content starts and ends with a non-space character. |
| KernelConfig.SplitAssignment | x_kernel.py:1243 | `split("=")` of `key=value` is `[key, value]` when neither side holds `=`. |
| KernelConfig.KeysInSnoc | x_kernel.py:1241-1251 | One more line appends that line's contribution, and only that, to each list. |
| KernelConfig.KeysInCons | x_kernel.py:1241-1251 | The first line's contribution comes before all later lines'. |
| KernelConfig.KeysInAppend | x_kernel.py:1241-1252 | The lists of a file are the lists of its two halves, concatenated: file order is kept. |
| KernelConfig.KeysInMember | x_kernel.py:1241-1252 | A key is in a list if and only if some line of the file is read as that key with that state. |
| KernelConfig.LineKeysMember | x_kernel.py:1245-1251 | A line adds a key to a list if and only if it is read as that key with that state. |
| KernelConfig.UpperSpelling | x_kernel.py:1247-1251 | `y`/`Y` upper-case to `Y` and `m`/`M` to `M`. |
| KernelConfig.UniformLine | x_kernel.py:1241-1251 | A line `key=y` (or `key=m`) adds the upper-cased key to that one list and nothing to the other. |
| KernelConfig.UniformFile | x_kernel.py:1241-1252 | A file of `key=y` lines (or of `key=m` lines) yields every upper-cased key, in order and with repeats, in that list, and nothing in the other. |
| KernelConfig.TwoLines | x_kernel.py:1241-1252 | A two-line file's lists are the first line's contribution followed by the second's. |
| KernelConfig.ConflictingLines | x_kernel.py:1241-1251 | `key=y` followed by `key=m` puts the key into both lists. |
| KernelConfig.Missing | x_kernel.py:1268-1272 | definition: for each code in table order, `CONFIG_<code>` when that key is in neither list. |
| KernelConfig.ConfigWarning | x_kernel.py:1274-1282 | definition: nothing when no key is missing; otherwise a newline, the header, a newline, then `<key> <note>` and a newline per missing key. |
| KernelConfig.MissingSnoc | x_kernel.py:1268-1272 | One more required code appends at most its own key to the missing list. |
| KernelConfig.BodySnoc | x_kernel.py:1276-1282 | One more missing key appends exactly its line to the warning text. |
| KernelConfig.CollectMissing | x_kernel.py:1263-1272 | The loop over the codes collects exactly `Missing`: the keys found in neither list, in code order. |
| KernelConfig.FormatConfigWarning | x_kernel.py:1274-1282 | The loop builds the header and then one `"<key> <note>\n"` line per missing key, i.e. `ConfigWarning`. |
| KernelConfig.CheckConfig | x_kernel.py:1254-1283 | The result is the missing list over the 44 required codes and its warning. There is a warning if and only if something is missing. |
| KernelConfig.MissingMember | x_kernel.py:1268-1272 | A key is reported if and only if it is the key of a required code and in neither list. |
| KernelConfig.MissingMultiplicity | x_kernel.py:1268-1272 | A key is reported as often as the requirement lists name it, or not at all when it is configured. |
| KernelConfig.NothingConfigured | x_kernel.py:1268-1272 | With both lists empty, every code's key is reported, in order. |
| KernelConfig.CompleteConfig | x_kernel.py:1268-1274 | With every required key configured, nothing is reported and there is no warning. |
| KernelConfig.EmptyConfigReportsAll | x_kernel.py:186-240 | An empty file reports all 44 keys. DEVTMPFS, IPV6, TMPFS_POSIX_ACL and SECCOMP appear twice, at their positions in the four lists. |
| KernelConfig.ConfigWarningLines | x_kernel.py:1276-1282 | The warning body splits into one line per missing key, in order, each being the key, a space and its note. |
| KernelConfig.WarningLineSingle | x_kernel.py:1282 | A warning line holds no newline of its own. |
| KernelConfig.NoteSingle | x_kernel.py:1277-1281 | Neither note holds a newline. |
| KernelConfig.BodyIsJoin | x_kernel.py:1276-1282 | The warning body is the warning lines joined by newlines, plus a final newline. |
| KernelConfig.BootMissing | x_kernel.py:1295-1301 | definition: for each boot code, `CONFIG_<CODE>` unless that key is built in, or is a module whose code is among the initrd modules. |
| KernelConfig.BootWarning | x_kernel.py:1303-1306 | definition: nothing when no boot key is missing; otherwise a newline, the header, a newline, then each missing key and a newline. |
| KernelConfig.BootMissingSnoc | x_kernel.py:1295-1301 | One more boot code appends at most its own key to the boot missing list. |
| KernelConfig.BootBodySnoc | x_kernel.py:1305-1306 | One more missing boot key appends exactly `"<key>\n"` to the boot warning. |
| KernelConfig.CheckInitrd | x_kernel.py:1285-1307 | The result is the boot-essential keys that are neither built in nor, as a module, listed by lower-case code among the initrd modules, with their warning. There is a warning if and only if one is missing. |
| KernelConfig.CheckNewConfig | x_kernel.py:1231-1235 | It parses the lines and returns the completeness warning and the boot warning computed from the same two lists. |
| KernelConfig.UpperSquashfs | x_kernel.py:1296 | The key checked for `squashfs` is `CONFIG_SQUASHFS`. |
| KernelConfig.SquashfsVerdict | x_kernel.py:1295-1301 | `CONFIG_SQUASHFS` is reported unless it is built in, or it is a module and the literal `squashfs` is among the initrd modules. |
| KernelConfig.UpperOfUpperCase | x_kernel.py:1246 | `upper()` leaves a key without lower-case letters as it is. |
| KernelConfig.EmptyFile | x_kernel.py:1231-1235 | An empty file reports every required key and `CONFIG_SQUASHFS`. |
| KernelConfig.UpperCaseLine | x_kernel.py:1241-1251 | A line with an upper-case key puts the key, as written, into the list of its state only. |
| KernelConfig.TwoKeyFile | x_kernel.py:1237-1252 | A file `A=Y`, `B=M` with upper-case keys gives `builtin == [A]` and `modules == [B]`. |
| KernelConfig.SecurityAndSquashfsFile | x_kernel.py:1254-1307 | With `CONFIG_SECURITY` built in and `CONFIG_SQUASHFS` a module listed in the initrd, every other required key is reported and no boot-essential one is. |
| BuildRules.CompressionCommand | x_kernel.py:960-971 | definition: the compressor of the compression, a space, then its default flags when no options are given, else each option with a leading space. |
| BuildRules.CompressionCmd | x_kernel.py:960-971 | The loop yields `"<compressor> <defaults>"` without options, else the compressor and a space, then each option with a leading space (x_initrd.py:668-679 is the same code). |
| BuildRules.OptionsTextSnoc | x_kernel.py:964-965 | One more option appends `" " + option` to the accumulated options. |
| BuildRules.OptionsTextJoin | x_kernel.py:964-965 | The accumulated options are a space followed by the options joined with spaces. |
| BuildRules.CompressionWithOptions | x_initrd.py:671-677 | Given options are separated from the compressor name by two spaces. |
| BuildRules.CompressionTokens | x_initrd.py:671-677 | Split on spaces, such a command reads back as the compressor, one empty word, and the options in order. |
| BuildRules.DefaultCompression | x_initrd.py:112-113 | Without options the commands are `gzip -7`, `lz4 -l -9` and `xz -7`. |
| BuildRules.FlavourSuffix | x_initrd.py:230-236 | definition: with a base URL, `-<flavour>` or nothing when no flavour is set; without one, `-<channel>`. |
| BuildRules.InitrdSnapFileName | x_initrd.py:239-244 | definition: `uc-initrd_<series><suffix>_<architecture>.snap`. |
| BuildRules.InitrdSnapUrl | x_initrd.py:246-251 | definition: `<base URL>/<file name>` when a base URL is given, else `None`. |
| BuildRules.VanillaInitrdSnap | x_initrd.py:253-255 | definition: the file name joined to `${SNAPCRAFT_PART_BUILD}` as `os.path.join` does. |
| BuildRules.InitrdWarnings | x_initrd.py:211-228 | definition: the channel notice when the channel is not `stable` and a base URL is given, then the flavour notice when a flavour is set without a base URL. |
| BuildRules.ChannelUnusedWithBaseUrl | x_initrd.py:230-236 | With a base URL the channel does not affect the file name. |
| BuildRules.FlavourUnusedWithoutBaseUrl | x_initrd.py:230-236 | Without a base URL the flavour does not affect the file name. |
| BuildRules.ChannelWarningHonest | x_initrd.py:211-236 | The channel notice is given if and only if a non-`stable` channel yields the same name as `stable`. |
| BuildRules.FlavourWarningHonest | x_initrd.py:221-236 | The flavour notice is given if and only if a set flavour yields the same name as no flavour. |
| BuildRules.FileNameInjective | x_initrd.py:238-244 | For one series and architecture, different flavour suffixes give different file names. |
| BuildRules.SnapLocations | x_initrd.py:246-255 | The local snap is `${SNAPCRAFT_PART_BUILD}/<file name>`. A URL exists if and only if a base URL is given, and then it is exactly `<base URL>/<file name>`. |
| BuildRules.SelectImageTarget | x_kernel.py:480-486 | It fails if and only if `deb_arch` is read while unset, or a falsy option meets an architecture without a default. The fault names the unset attribute or the missing key. A success that differs from the current value is a value. |
| BuildRules.ChooseImageTarget | x_kernel.py:481-486 | The statements return the selected image target, or the fault with the current value kept. |
| BuildRules.DefaultsOnlyWhenUnset | x_kernel.py:481-486 | The default table is consulted only when the option is falsy. |
| BuildRules.UnsetTakesDefault | x_kernel.py:481-482 | A falsy option takes the table entry of the architecture. |
| BuildRules.NamedTargetWins | x_kernel.py:483-484 | A non-empty string option is used as given, whatever the architecture. |
| BuildRules.PerArchTarget | x_kernel.py:485-486 | A map option takes its entry for the architecture, and keeps the current value when it has none. |
| BuildRules.EfiArch | x_initrd.py:802 | definition: `x64` for amd64, `aa64` for arm64, `None` for any other architecture. |
| BuildRules.EfiStubPath | x_initrd.py:797-820 | It fails if and only if `deb_arch` is unset. |
| BuildRules.EfiStubsKnown | x_initrd.py:802-816 | amd64 gets `linuxx64.efi.stub` and arm64 gets `linuxaa64.efi.stub`. |
| BuildRules.EfiStubOther | x_initrd.py:802-816 | Any other architecture gets `linuxNone.efi.stub`. |
| KernelPlugin.KernelArchFor | x_kernel.py:449-459 | definition: `arm`, `arm64`, `riscv` and `x86` for armhf, arm64, riscv64 and amd64; `None` for any other target. |
| KernelPlugin.DebArchFor | x_kernel.py:461-471 | A known target's deb architecture is the target itself. |
| KernelPlugin.ArchTablesAgree | x_kernel.py:449-471 | Both tables know the same four targets, and the default image table has an entry for each. |
| KernelPlugin.CrossCompileArgs | x_kernel.py:477-478 | definition: `ARCH=<kernel arch>` then `CROSS_COMPILE=${SNAPCRAFT_ARCH_TRIPLET}-`. |
| KernelPlugin.CrossStep | x_kernel.py:473-478 | Reading `kernel_arch` fails if and only if it is unset and the host differs from the target. Otherwise cross arguments are added only when they differ, starting with `ARCH=<kernel arch>`. |
| KernelPlugin.FwInstallTargets | x_kernel.py:504-511 | There are firmware targets if and only if `kernel-with-firmware` is set, and then they are the two firmware arguments. |
| KernelPlugin.DtbFiles | x_kernel.py:495 | Each device tree, in order, becomes `<name>.dtb`. |
| KernelPlugin.KernelTargetsStep | x_kernel.py:480-502 | definition: the image target by `SelectImageTarget`; then the make targets, install targets and dtbs, with explicit dtbs, else the generic `dtbs` targets for arm, arm64 or riscv64, then the firmware targets; a fault keeps what was assigned before it. |
| KernelPlugin.TargetsOpenWithImage | x_kernel.py:488-493 | After a successful call there is an image target. `make_targets` opens with it and `modules`, and the install targets open with the three module-install arguments. |
| KernelPlugin.ExplicitDtbsSuppressGeneric | x_kernel.py:495-497 | Explicit device trees follow the first two targets as `<name>.dtb`, and the generic `dtbs` and `dtbs_install` targets are absent. |
| KernelPlugin.GenericDtbsExactly | x_kernel.py:496-501 | `dtbs` is added if and only if no device tree is given and the kernel architecture is arm, arm64 or riscv64. `dtbs_install` is present if and only if `dtbs` is. |
| KernelPlugin.RiscvNeverGenericDtbs | x_kernel.py:454-455 | riscv64's kernel architecture is `riscv`, so it never gets the generic dtbs. |
| KernelPlugin.FirmwareExactly | x_kernel.py:502 | After a successful call, `firmware_install` is among the install targets if and only if `kernel-with-firmware` is set. |
| KernelPlugin.KnownTargetFaults | x_kernel.py:480-502 | For a known target, the method fails if and only if the option is a non-empty map without the architecture, on an object with no image target yet. |
| KernelPlugin.UnknownTargetUnsetImage | x_kernel.py:481-482 | For an unknown target, a falsy option raises on `deb_arch` and changes nothing. |
| KernelPlugin.CompilerArgs | x_kernel.py:1395-1405 | The arguments are `CC="<compiler>"` (only when one is named) followed by exactly the parameters. |
| KernelPlugin.Plugin.constructor | x_kernel.py:246 | A plugin object before `_init_build_env` runs: it keeps its options and has no attribute assigned yet. |
| KernelPlugin.Plugin.GetDebArchitecture | x_kernel.py:461-471 | `deb_arch` becomes the table entry of the target, or keeps its value for an unknown target. |
| KernelPlugin.Plugin.GetKernelArchitecture | x_kernel.py:449-459 | `kernel_arch` becomes the table entry of the target, or keeps its value for an unknown target. |
| KernelPlugin.Plugin.CheckCrossCompilation | x_kernel.py:473-478 | `make_cmd` gains exactly the `CrossStep` arguments, or stays as it was when that step faults. |
| KernelPlugin.Plugin.SetKernelTargets | x_kernel.py:480-502 | The four target attributes and the fault are those of `KernelTargetsStep` from the attributes before the call. |
| KernelPlugin.Plugin.CompressionCmd | x_kernel.py:960-971 | The command is `CompressionCommand` of the plugin's own `kernel-initrd-compression` and `kernel-initrd-compression-options`. |
| KernelPlugin.Plugin.CheckNewConfig | x_kernel.py:1231-1235 | Both warnings are those of `KernelConfig.CheckNewConfig`, with the plugin's own `kernel-initrd-modules` as the initrd modules. |
| KernelPlugin.Plugin.ConfigureCompiler | x_kernel.py:1395-1405 | `make_cmd` gains exactly `CompilerArgs`. The non-clang notice is given if and only if a compiler other than `clang` is named. |
| KernelPlugin.Plugin.PrepareMake | x_kernel.py:364-377 | It sets the target and both architectures, then `make_cmd` is the out-of-tree base command plus the cross arguments, or the fault of the cross step. |
| KernelPlugin.Plugin.InitBuildEnv | x_kernel.py:364-429 | It runs `PrepareMake`, then, unless the cross step faulted, `SetTargetsAndInitrd`. Its contract states every attribute it assigns and the fault, in terms of the arguments and the attributes before the call. |
| KernelPlugin.Plugin.SetTargetsAndInitrd | x_kernel.py:378-429 | The target attributes are those of `KernelTargetsStep`. On success it sets series `20`, the snap file name, the URL, the local path and the notices. A fault stops it before the initrd attributes, which keep their values. |
| KernelPlugin.Plugin.SetInitrdSnap | x_kernel.py:381-429 | The initrd architecture is the target and the series is `20`. The URL and local path are built from `uc-initrd_20<suffix>_<arch>.snap`, and the notices are returned. |
| KernelPlugin.MakeCmdForKnownTarget | x_kernel.py:473-478 | For a known target, a native build keeps the base `make` command and a cross build adds exactly `ARCH=<kernel arch>` and the cross-compile prefix. |
| KernelPlugin.BaseConfigCmd | x_kernel.py:1101-1144 | definition: the prepare line and the `if [ ! -e` line, then the copy line for a config file, else the Ubuntu assembly for a flavour, else the defconfig line, then `fi`. |
| KernelPlugin.CopyConfigLine | x_kernel.py:1112-1124 | definition: the tab, `cp`, the config file and `${SNAPCRAFT_PART_BUILD}/.config`, joined by spaces. |
| KernelPlugin.DefconfigLine | x_kernel.py:1127-1141 | definition: the tab, `make_cmd` with `-j1` as its second word, and the defconfig targets, each joined by spaces. |
| KernelPlugin.BaseConfigSeed | x_kernel.py:1112-1141 | The part between `if` and `fi` is never empty. |
| KernelPlugin.BaseConfigParts | x_kernel.py:1101-1144 | The result opens with the prepare line and the `if [ ! -e ...` line, closes with `fi`, and holds the seed in between. |
| KernelPlugin.CopyConfigLineText | x_kernel.py:1113-1124 | The copy line is `\t cp <file> ${SNAPCRAFT_PART_BUILD}/.config`. |
| KernelPlugin.ConfigFileWins | x_kernel.py:1112-1124 | A config file wins: the flavour, the defconfig targets and `make_cmd` make no difference. |
| KernelPlugin.UbuntuConfigCmd | x_kernel.py:1064-1099 | definition: the seven fixed lines that locate the fragments, the flavour's fragment line, and the `cat` line that writes them to `${SNAPCRAFT_PART_BUILD}/.config`. |
| KernelPlugin.UbuntuConfigFlavourLine | x_kernel.py:1064-1099 | The Ubuntu config assembly has nine lines. Only the eighth, `flavourconfig=…/config.flavour.<flavour>`, depends on the flavour, and two flavours give the same command if and only if they are equal. |
| KernelPlugin.FlavourWins | x_kernel.py:1125-1126 | Without a config file, a flavour wins over the defconfig targets and `make_cmd`. |
| KernelPlugin.DefconfigWords | x_kernel.py:1127-1141 | Otherwise the only seed line is `make_cmd` with `-j1` as its second word, then the defconfig targets, read back word by word. |
| KernelPlugin.DefconfigLineWords | x_kernel.py:1129-1141 | Split on spaces, the defconfig line is a tab, the copied `make_cmd` with index 1 replaced, and the defconfig targets. |
| KernelPlugin.PatchConfigCmd | x_kernel.py:1146-1190 | There are no kconfigs if and only if the result is `[""]`; otherwise it has five lines. |
| KernelPlugin.PatchConfigWritesKconfigs | x_kernel.py:1154-1183 | The text written before and appended after the current config is the same, and splits on newlines back into the kconfigs. |
| KernelPlugin.InstallDtbName | x_kernel.py:1046-1050 | The install name is a suffix of the dtb path. |
| KernelPlugin.InstallDtbNameNoSubdir | x_kernel.py:1046-1050 | The install name has no `/`: it is the whole name, or what follows a `/` at an index above 0. The exception is a name whose only `/` leads, which is kept whole. |
| KernelPlugin.RFindNone | x_kernel.py:1046 | `rfind` gives -1 only when the character is absent. |
| KernelPlugin.DtbLink | x_kernel.py:1053-1061 | definition: `ln -f`, the dtb under `${KERNEL_BUILD_ARCH_DIR}/dts/`, and its install name under `${SNAPCRAFT_PART_INSTALL}/dtbs/`, joined by spaces. |
| KernelPlugin.DtbsCmd | x_kernel.py:1035-1062 | With no device trees the result is `[""]`. Otherwise it is the two header lines and one `ln` line per dtb, in order. |
| KernelPlugin.CopyDtbsCmd | x_kernel.py:1035-1062 | The loop builds exactly `DtbsCmd`. |
| InitrdPlugin.KernelArchFor | x_initrd.py:275-283 | definition: `arm`, `arm64` and `x86` for armhf, arm64 and amd64; `None` for any other target, riscv64 included. |
| InitrdPlugin.DebArchFor | x_initrd.py:285-293 | A known target's deb architecture is the target itself. |
| InitrdPlugin.ArchTablesAgree | x_initrd.py:275-293 | Both tables know exactly armhf, arm64 and amd64. |
| InitrdPlugin.DefaultTable | x_initrd.py:118-126 | armhf and arm64 default to `vmlinuz`, and riscv64 has no default. |
| InitrdPlugin.Plugin.constructor | x_initrd.py:129 | A plugin object before `_init_build_env` runs: it keeps its options and has no attribute assigned yet. |
| InitrdPlugin.Plugin.GetDebArchitecture | x_initrd.py:285-293 | `deb_arch` becomes the table entry of the target, or keeps its value. |
| InitrdPlugin.Plugin.GetKernelArchitecture | x_initrd.py:275-283 | `kernel_arch` becomes the table entry of the target, or keeps its value. |
| InitrdPlugin.Plugin.SetKernelTargets | x_initrd.py:295-301 | `kernel_image_target` follows `SelectImageTarget` with this plugin's table. On a fault it is kept. |
| InitrdPlugin.Plugin.InitBuildEnv | x_initrd.py:197-255 | It sets the target and both architectures and the image target. Unless that step faults, it then sets the initrd attributes and returns the notices. |
| InitrdPlugin.Plugin.CompressionCmd | x_initrd.py:668-679 | The command is `CompressionCommand` of the plugin's own compression option and compression options. |
| InitrdPlugin.Plugin.SetInitrdSnap | x_initrd.py:206-255 | The initrd architecture is the target and the series is `20`. The URL and local path are built from `uc-initrd_20<suffix>_<arch>.snap`, and the notices are returned. |
| InitrdPlugin.RiscvNeedsExplicitTarget | x_initrd.py:275-301 | riscv64 is in neither table, so with a falsy option a plugin without `deb_arch` faults on reading it. |
| InitrdPlugin.NamedTargetOnAnyArch | x_initrd.py:295-299 | A non-empty string option is taken as given on every architecture. |

## Left out

- Shell-text assembly and the ambient inputs are not modelled:
  - the `link_files` function text, the ZFS commands, and the download, unpack, make-initrd, pack, arrange-install and post-install commands;
  - `_do_remake_config_cmd`, `_get_configure_command`, `_call_check_config_cmd` and the assembly of `get_build_commands`.

  Their meaning lies in external tools, which the model cannot see.
- `_get_target_architecture` reads `sys.argv` and `ProjectOptions`. The target it finds is a parameter of `InitBuildEnv`.
- `_check_cross_compilation` reads `SNAP_ARCH`. Its value is the `hostArch` parameter.
- `get_build_environment` is not modelled. This covers its `MAKEFLAGS` regex and its compiler-path loop, which reads `custom_path` before assigning it.
- File I/O: the parser takes the lines of the file. I/O errors are not modelled.
- Progress and diagnostic echoes are dropped, because they print and decide nothing:
  - "Initializing build env..." (x_kernel.py:366, x_initrd.py:199);
  - the "Unknown … architecture!!!" messages (x_kernel.py:459, x_kernel.py:471, x_initrd.py:283, x_initrd.py:293);
  - "Configuring cross build to …" (x_kernel.py:476);
  - "Using initrd compressions command" (x_kernel.py:970, x_initrd.py:678);
  - "Using ubuntu config flavour" (x_kernel.py:1066);
  - "Checking created config..." (x_kernel.py:1232).
- `get_schema`, the plugin base class, `get_build_packages` and `get_build_snaps` are declarative glue and are not modelled.
- The schema's option types are taken as given: the compression is one of `gz`/`lz4`/`xz`, and the image target is a string or a string map.
- An absent `kconfigfile` (schema default `None`) is modelled as the empty string; both are falsy.
- Text.Upper: only ASCII letters are upper-cased; Python's full Unicode case mapping is not modelled.
- KernelPlugin.DefconfigLine: requires `make_cmd` to have at least two words; the source would raise `IndexError` on a shorter one, which `_init_build_env` never builds.
- Attributes that are only assigned, never read before assignment, start as empty values in the constructors. The three that can be read first are `Option`s.
- KernelConfig.SecurityAndSquashfsFile: stated over the two parsed lists. `TwoKeyFile` proves a file `CONFIG_SECURITY=Y`, `CONFIG_SQUASHFS=M` parses to exactly those lists.

## Notes on the code

- The parser returns lists, in file order and with duplicates.
- The requirement tables are lists: a code listed twice is reported once per occurrence when missing (`MissingMultiplicity`).
- A file that sets only `CONFIG_SECURITY=Y` and `CONFIG_SQUASHFS=M` reports every required key other than those two (`SecurityAndSquashfsFile`).
- The missing keys are reported in table order (`CollectMissing`).
