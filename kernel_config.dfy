/**
 * The kernel `.config` checker of the kernel plugin: a tokenizer that sorts
 * the options of a configuration file into built-in and module options, a
 * completeness check against four fixed requirement lists, and a check that
 * the boot-essential options are built in or shipped in the initrd.
 * Warnings are returned as text instead of being echoed.
 */
module KernelConfig {
  import opened Wrappers
  import opened Text
  import opened Seqs

  const RequiredGeneric: seq<string> := [
    "DEVTMPFS", "DEVTMPFS_MOUNT", "TMPFS_POSIX_ACL", "IPV6", "SYSVIPC",
    "SYSVIPC_SYSCTL", "VFAT_FS", "NLS_CODEPAGE_437", "NLS_ISO8859_1"
  ]

  const RequiredSecurity: seq<string> := [
    "SECURITY", "SECURITY_APPARMOR", "SYN_COOKIES", "STRICT_DEVMEM",
    "DEFAULT_SECURITY_APPARMOR", "SECCOMP", "SECCOMP_FILTER", "CC_STACKPROTECTOR",
    "CC_STACKPROTECTOR_STRONG", "DEBUG_RODATA", "DEBUG_SET_MODULE_RONX"
  ]

  const RequiredSnappy: seq<string> := [
    "RD_LZMA", "KEYS", "ENCRYPTED_KEYS", "SQUASHFS", "SQUASHFS_XATTR",
    "SQUASHFS_XZ", "DEVPTS_MULTIPLE_INSTANCES"
  ]

  const RequiredSystemd: seq<string> := [
    "DEVTMPFS", "CGROUPS", "INOTIFY_USER", "SIGNALFD", "TIMERFD", "EPOLL",
    "NET", "SYSFS", "PROC_FS", "FHANDLE", "BLK_DEV_BSG", "NET_NS", "IPV6",
    "AUTOFS4_FS", "TMPFS_POSIX_ACL", "TMPFS_XATTR", "SECCOMP"
  ]

  /** Every code the completeness check asks for, in declaration order (duplicates included). */
  const RequiredOptions: seq<string> := RequiredGeneric + RequiredSecurity + RequiredSnappy + RequiredSystemd

  /** Codes that must be built in or loadable from the initrd. */
  const RequiredBoot: seq<string> := ["squashfs"]

  const ConfigWarningHeader: string :=
    "**** WARNING **** WARNING **** WARNING **** WARNING ****\n"
    + "Your kernel config is missing some features that Ubuntu Core recommends or requires.\n"
    + "While we will not prevent you from building this kernel snap, we suggest you take a look at these:\n"

  const BootWarningHeader: string :=
    "**** WARNING **** WARNING **** WARNING **** WARNING ****\n"
    + "The following features are deemed boot essential for\n"
    + "ubuntu core, consider making them static[=Y] or adding\n"
    + "the corresponding module to initrd:\n"

  /** The configuration key of a requirement code. */
  function ConfigKey(code: string): string
  {
    "CONFIG_" + code
  }

  /** The keys of a list of codes, position by position. */
  function ConfigKeys(codes: seq<string>): (keys: seq<string>)
    ensures |keys| == |codes|
    ensures forall i :: 0 <= i < |codes| ==> keys[i] == ConfigKey(codes[i])
  {
    seq(|codes|, i requires 0 <= i < |codes| => ConfigKey(codes[i]))
  }

  // ---------------------------------------------------------------------
  // Tokenizer
  // ---------------------------------------------------------------------

  datatype State = Builtin | Module

  /** One accepted line: its upper-cased key and where it goes. */
  datatype Entry = Entry(key: string, state: State)

  /**
   * One line of the file: stripped, split on `=`, kept only with exactly two
   * tokens, both upper-cased; `Y` means built in, `M` a module, anything else
   * is dropped.
   */
  function ParseLine(line: string): Option<Entry>
  {
    var tok := Split(Strip(line), '=');
    if |tok| != 2 then None
    else
      var key, value := Upper(tok[0]), Upper(tok[1]);
      if value == "Y" then Some(Entry(key, Builtin))
      else if value == "M" then Some(Entry(key, Module))
      else None
  }

  /** What one line adds to the list of `state`: its key or nothing. */
  function LineKeys(line: string, state: State): seq<string>
  {
    match ParseLine(line)
    case Some(e) => if e.state == state then [e.key] else []
    case None => []
  }

  /** The keys the file gives `state`, in file order, duplicates kept. */
  function KeysIn(lines: seq<string>, state: State): seq<string>
  {
    FlatMap((line: string) => LineKeys(line, state), lines)
  }

  /** `_do_parse_config`, over the lines of the file. */
  method ParseConfig(lines: seq<string>) returns (builtin: seq<string>, modules: seq<string>)
    ensures builtin == KeysIn(lines, Builtin)
    ensures modules == KeysIn(lines, Module)
  {
    builtin, modules := [], [];
    for i := 0 to |lines|
      invariant builtin == KeysIn(lines[..i], Builtin)
      invariant modules == KeysIn(lines[..i], Module)
    {
      TakeSnoc(lines, i);
      KeysInSnoc(lines[..i], lines[i], Builtin);
      KeysInSnoc(lines[..i], lines[i], Module);
      var tok := Split(Strip(lines[i]), '=');
      if |tok| == 2 {
        var opt := Upper(tok[0]);
        var val := Upper(tok[1]);
        if val == "Y" {
          builtin := builtin + [opt];
        } else if val == "M" {
          modules := modules + [opt];
        }
      }
    }
    assert lines[..|lines|] == lines;
  }

  lemma KeysInSnoc(lines: seq<string>, line: string, state: State)
    ensures KeysIn(lines + [line], state) == KeysIn(lines, state) + LineKeys(line, state)
  {
    FlatMapSnoc((line: string) => LineKeys(line, state), lines, line);
  }

  lemma KeysInCons(line: string, lines: seq<string>, state: State)
    ensures KeysIn([line] + lines, state) == LineKeys(line, state) + KeysIn(lines, state)
  {
    assert ([line] + lines)[1..] == lines;
  }

  /** A line without exactly one `=` adds nothing to either list. */
  lemma ParseLineNeedsOneEquals(line: string)
    requires multiset(line)['='] != 1
    ensures ParseLine(line) == None
  {
    assert !IsSpace('=');
    StripKeeps(line);
    SplitCount(Strip(line), '=');
  }

  /** Case does not matter: `CONFIG_X=y` is read as `CONFIG_X=Y`. */
  lemma ParseLineIgnoresCase(line: string)
    ensures ParseLine(Upper(line)) == ParseLine(line)
  {
    var t := Strip(line);
    StripUpper(line);
    SplitUpper(t, '=');
    var tok := Split(t, '=');
    if |tok| == 2 {
      UpperIdempotent(tok[0]);
      UpperIdempotent(tok[1]);
    }
  }

  /** Stripping a well-delimited `key=value` followed by white space leaves `key=value`. */
  lemma StripAssignment(core: string, trail: string)
    requires core != [] && !IsSpace(core[0]) && !IsSpace(core[|core| - 1])
    requires forall i :: 0 <= i < |trail| ==> IsSpace(trail[i])
    ensures Strip(core + trail) == core
  {
    var s := core + trail;
    assert s[0] == core[0];
    assert TrimLeft(s) == s;
    var r := TrimRight(s);
    assert forall j :: |core| <= j < |s| ==> IsSpace(s[j]) by {
      forall j | |core| <= j < |s| ensures IsSpace(s[j]) {
        assert s[j] == trail[j - |core|];
      }
    }
    assert s[|core| - 1] == core[|core| - 1];
    assert |r| >= |core|;
    assert |r| <= |core|;
    assert r == s[..|core|] == core;
  }

  /** The two tokens of `key=value`. */
  lemma SplitAssignment(key: string, value: string)
    requires '=' !in key && '=' !in value
    ensures Split(key + "=" + value, '=') == [key, value]
  {
    assert key + "=" + value == key + ("=" + value);
    SplitPrefix(key, "=" + value, '=');
    SplitCons('=', value, '=');
    assert "=" + value == ['='] + value;
    SplitCount(value, '=');
    JoinSplit(value, '=');
    assert Split(value, '=') == [value];
    assert key + "" == key;
  }

  /** The tokens of a line `key=value` followed by white space (the newline). */
  lemma AssignmentTokens(key: string, value: string, trail: string)
    requires '=' !in key && '=' !in value
    requires key == [] || !IsSpace(key[0])
    requires value == [] || !IsSpace(value[|value| - 1])
    requires forall i :: 0 <= i < |trail| ==> IsSpace(trail[i])
    ensures Split(Strip(key + "=" + value + trail), '=') == [key, value]
  {
    var core := key + "=" + value;
    assert core[|key|] == '=';
    assert core[0] == if key == [] then '=' else key[0];
    assert core[|core| - 1] == if value == [] then '=' else value[|value| - 1];
    StripAssignment(core, trail);
    SplitAssignment(key, value);
  }

  /** A line is sorted by its second token, under its first. */
  lemma ParseTokens(line: string, key: string, value: string)
    requires Split(Strip(line), '=') == [key, value]
    ensures ParseLine(line) ==
      if Upper(value) == "Y" then Some(Entry(Upper(key), Builtin))
      else if Upper(value) == "M" then Some(Entry(Upper(key), Module))
      else None
  {
  }

  /**
   * A line `key=value` followed by white space (the newline) is sorted by the
   * upper-cased value, under the upper-cased key.
   */
  lemma ParseAssignment(key: string, value: string, trail: string)
    requires '=' !in key && '=' !in value
    requires key == [] || !IsSpace(key[0])
    requires value == [] || !IsSpace(value[|value| - 1])
    requires forall i :: 0 <= i < |trail| ==> IsSpace(trail[i])
    ensures ParseLine(key + "=" + value + trail) ==
      if Upper(value) == "Y" then Some(Entry(Upper(key), Builtin))
      else if Upper(value) == "M" then Some(Entry(Upper(key), Module))
      else None
  {
    AssignmentTokens(key, value, trail);
    ParseTokens(key + "=" + value + trail, key, value);
  }

  /** Both lists keep the order of the file: parsing two pieces parses each. */
  lemma KeysInAppend(a: seq<string>, b: seq<string>, state: State)
    ensures KeysIn(a + b, state) == KeysIn(a, state) + KeysIn(b, state)
  {
    FlatMapAppend((line: string) => LineKeys(line, state), a, b);
  }

  /** A key is in a list exactly when some line of the file puts it there. */
  lemma KeysInMember(lines: seq<string>, state: State, k: string)
    ensures k in KeysIn(lines, state) <==>
      exists i :: 0 <= i < |lines| && ParseLine(lines[i]) == Some(Entry(k, state))
  {
    FlatMapMember((line: string) => LineKeys(line, state), lines, k);
    forall i | 0 <= i < |lines|
      ensures k in LineKeys(lines[i], state) <==> ParseLine(lines[i]) == Some(Entry(k, state))
    {
      LineKeysMember(lines[i], state, k);
    }
  }

  lemma LineKeysMember(line: string, state: State, k: string)
    ensures k in LineKeys(line, state) <==> ParseLine(line) == Some(Entry(k, state))
  {
  }

  predicate WellFormedKey(key: string)
  {
    '=' !in key && (key == [] || !IsSpace(key[0]))
  }

  /** The values that put a key into the list of `state`. */
  function Spellings(state: State): set<string>
  {
    if state == Builtin then {"y", "Y"} else {"m", "M"}
  }

  lemma UpperSpelling(v: string, state: State)
    requires v in Spellings(state)
    ensures Upper(v) == (if state == Builtin then "Y" else "M")
    ensures '=' !in v && !IsSpace(v[0]) && |v| == 1
  {
    assert Upper(v)[0] == UpperChar(v[0]);
  }

  /** A line `key=y\n` (or `key=m\n`) adds its upper-cased key to that one list. */
  lemma UniformLine(key: string, value: string, state: State)
    requires WellFormedKey(key) && value in Spellings(state)
    ensures LineKeys(key + "=" + value + "\n", state) == [Upper(key)]
    ensures LineKeys(key + "=" + value + "\n", Other(state)) == []
  {
    var line := key + "=" + value + "\n";
    var e := Entry(Upper(key), state);
    UpperSpelling(value, state);
    ParseAssignment(key, value, "\n");
    EntryKeys(line, e, state);
    EntryKeys(line, e, Other(state));
  }

  lemma EntryKeys(line: string, e: Entry, state: State)
    requires ParseLine(line) == Some(e)
    ensures LineKeys(line, state) == if e.state == state then [e.key] else []
  {
  }

  function Other(state: State): State
  {
    if state == Builtin then Module else Builtin
  }

  /**
   * A file of lines `key=y` (or all `key=m`) puts every key, upper-cased, in
   * file order and with repetitions, into that one list, and nothing into the
   * other one.
   */
  lemma {:induction false} UniformFile(keys: seq<string>, values: seq<string>, lines: seq<string>, state: State)
    requires |keys| == |values| == |lines|
    requires forall i :: 0 <= i < |keys| ==> WellFormedKey(keys[i])
    requires forall i :: 0 <= i < |values| ==> values[i] in Spellings(state)
    requires forall i :: 0 <= i < |lines| ==> lines[i] == keys[i] + "=" + values[i] + "\n"
    ensures KeysIn(lines, state) == seq(|keys|, i requires 0 <= i < |keys| => Upper(keys[i]))
    ensures KeysIn(lines, Other(state)) == []
    decreases |lines|
  {
    if lines != [] {
      var ups := seq(|keys|, i requires 0 <= i < |keys| => Upper(keys[i]));
      var tail := keys[1..];
      var upsTail := seq(|tail|, i requires 0 <= i < |tail| => Upper(tail[i]));
      assert ups == [Upper(keys[0])] + upsTail by {
        forall i | 0 <= i < |ups| ensures ups[i] == ([Upper(keys[0])] + upsTail)[i] {
          if i > 0 {
            assert tail[i - 1] == keys[i];
          }
        }
      }
      assert lines == [lines[0]] + lines[1..];
      UniformLine(keys[0], values[0], state);
      UniformFile(tail, values[1..], lines[1..], state);
      calc {
        KeysIn(lines, state);
        { KeysInCons(lines[0], lines[1..], state); }
        LineKeys(lines[0], state) + KeysIn(lines[1..], state);
        [Upper(keys[0])] + upsTail;
      }
      calc {
        KeysIn(lines, Other(state));
        { KeysInCons(lines[0], lines[1..], Other(state)); }
        LineKeys(lines[0], Other(state)) + KeysIn(lines[1..], Other(state));
        [];
      }
    }
  }

  lemma TwoLines(a: string, b: string, state: State)
    ensures KeysIn([a, b], state) == LineKeys(a, state) + LineKeys(b, state)
  {
    calc {
      KeysIn([a, b], state);
      { assert [a, b] == [a] + [b]; KeysInCons(a, [b], state); }
      LineKeys(a, state) + KeysIn([b], state);
      { assert [b] == [b] + []; KeysInCons(b, [], state); }
      LineKeys(a, state) + (LineKeys(b, state) + KeysIn([], state));
      { assert KeysIn([], state) == []; }
      LineKeys(a, state) + LineKeys(b, state);
    }
  }

  /** An inconsistent file can give one key both states. */
  lemma ConflictingLines(key: string)
    requires WellFormedKey(key)
    ensures var lines := [key + "=y\n", key + "=m\n"];
      KeysIn(lines, Builtin) == [Upper(key)] && KeysIn(lines, Module) == [Upper(key)]
  {
    var a, b := key + "=y\n", key + "=m\n";
    assert a == key + "=" + "y" + "\n";
    assert b == key + "=" + "m" + "\n";
    UniformLine(key, "y", Builtin);
    UniformLine(key, "m", Module);
    TwoLines(a, b, Builtin);
    TwoLines(a, b, Module);
  }

  // ---------------------------------------------------------------------
  // Completeness check
  // ---------------------------------------------------------------------

  /** The key of `code` when it is neither built in nor a module. */
  function MissingKey(code: string, builtin: seq<string>, modules: seq<string>): seq<string>
  {
    var opt := ConfigKey(code);
    if opt in builtin || opt in modules then [] else [opt]
  }

  /** The keys of `codes` found in neither list, in the order of `codes`. */
  function Missing(codes: seq<string>, builtin: seq<string>, modules: seq<string>): seq<string>
  {
    FlatMap((code: string) => MissingKey(code, builtin, modules), codes)
  }

  /** The two keys that carry a note, and their notes. */
  const StackProtectorStrongKey: string := "CONFIG_CC_STACKPROTECTOR_STRONG"
  const DevptsMultipleInstancesKey: string := "CONFIG_DEVPTS_MULTIPLE_INSTANCES"
  const LaterNote: string := "(4.1.x and later versions only)"
  const EarlierNote: string := "(4.8.x and earlier versions only)"

  /** The note attached to a missing key. */
  function Note(opt: string): string
  {
    if opt == StackProtectorStrongKey then LaterNote
    else if opt == DevptsMultipleInstancesKey then EarlierNote
    else ""
  }

  function WarningLine(opt: string): string
  {
    opt + " " + Note(opt)
  }

  /** One `"<key> <note>\n"` line per missing key. */
  function ConfigWarningBody(missing: seq<string>): string
  {
    FlatMap((opt: string) => WarningLine(opt) + "\n", missing)
  }

  function ConfigWarning(missing: seq<string>): Option<string>
  {
    if missing == [] then None else Some("\n" + ConfigWarningHeader + "\n" + ConfigWarningBody(missing))
  }

  /** Proof step for the two warning loops: the text appended to the accumulated warning regroups. */
  lemma ConcatAssoc(a: string, b: string, c: string)
    ensures a + b + c == a + (b + c)
  {
  }

  lemma MissingSnoc(codes: seq<string>, code: string, builtin: seq<string>, modules: seq<string>)
    ensures Missing(codes + [code], builtin, modules) == Missing(codes, builtin, modules) + MissingKey(code, builtin, modules)
  {
    FlatMapSnoc((code: string) => MissingKey(code, builtin, modules), codes, code);
  }

  lemma BodySnoc(missing: seq<string>, opt: string)
    ensures ConfigWarningBody(missing + [opt]) == ConfigWarningBody(missing) + (WarningLine(opt) + "\n")
  {
    FlatMapSnoc((opt: string) => WarningLine(opt) + "\n", missing, opt);
  }

  /** The first loop of `_do_check_config`: the keys of `codes` configured in neither list. */
  method CollectMissing(codes: seq<string>, builtin: seq<string>, modules: seq<string>) returns (missing: seq<string>)
    ensures missing == Missing(codes, builtin, modules)
  {
    missing := [];
    for i := 0 to |codes|
      invariant missing == Missing(codes[..i], builtin, modules)
    {
      var code := codes[i];
      TakeSnoc(codes, i);
      MissingSnoc(codes[..i], code, builtin, modules);
      var opt := "CONFIG_" + code;
      if opt in builtin || opt in modules {
        continue;
      }
      missing := missing + [opt];
    }
    assert codes[..|codes|] == codes;
  }

  /** The second loop of `_do_check_config`: the warning text for a non-empty missing list. */
  method FormatConfigWarning(missing: seq<string>) returns (warn: string)
    requires missing != []
    ensures Some(warn) == ConfigWarning(missing)
  {
    ghost var head := "\n" + ConfigWarningHeader + "\n";
    warn := "\n" + ConfigWarningHeader + "\n";
    for j := 0 to |missing|
      invariant warn == head + ConfigWarningBody(missing[..j])
    {
      var opt := missing[j];
      TakeSnoc(missing, j);
      BodySnoc(missing[..j], opt);
      var note := "";
      if opt == StackProtectorStrongKey {
        note := LaterNote;
      } else if opt == DevptsMultipleInstancesKey {
        note := EarlierNote;
      }
      assert note == Note(opt);
      var line := opt + " " + note + "\n";
      assert line == WarningLine(opt) + "\n";
      ConcatAssoc(head, ConfigWarningBody(missing[..j]), line);
      warn := warn + line;
    }
    assert missing[..|missing|] == missing;
  }

  /** `_do_check_config`: the missing list and the warning it would echo. */
  method CheckConfig(builtin: seq<string>, modules: seq<string>) returns (missing: seq<string>, warning: Option<string>)
    ensures missing == Missing(RequiredOptions, builtin, modules)
    ensures warning == ConfigWarning(missing)
    ensures warning.Some? <==> missing != []
  {
    missing := CollectMissing(RequiredOptions, builtin, modules);
    warning := None;
    if missing != [] {
      var warn := FormatConfigWarning(missing);
      warning := Some(warn);
    }
  }

  /** A key is missing exactly when it is the key of a listed code and in neither list. */
  lemma MissingMember(codes: seq<string>, builtin: seq<string>, modules: seq<string>, k: string)
    ensures k in Missing(codes, builtin, modules) <==>
      k !in builtin && k !in modules && k in ConfigKeys(codes)
  {
    var f := (code: string) => MissingKey(code, builtin, modules);
    FlatMapMember(f, codes, k);
    if k in ConfigKeys(codes) && k !in builtin && k !in modules {
      var i :| 0 <= i < |codes| && ConfigKeys(codes)[i] == k;
      assert k in f(codes[i]);
    }
  }

  /**
   * A missing key is reported once per code that names it: as often as the
   * requirement lists name it, or not at all when it is configured.
   */
  lemma {:induction false} MissingMultiplicity(codes: seq<string>, builtin: seq<string>, modules: seq<string>, k: string)
    ensures multiset(Missing(codes, builtin, modules))[k] ==
      if k in builtin || k in modules then 0 else multiset(ConfigKeys(codes))[k]
    decreases |codes|
  {
    if codes != [] {
      MissingMultiplicity(codes[1..], builtin, modules, k);
      assert ConfigKeys(codes) == [ConfigKey(codes[0])] + ConfigKeys(codes[1..]);
      assert Missing(codes, builtin, modules)
        == MissingKey(codes[0], builtin, modules) + Missing(codes[1..], builtin, modules);
    }
  }

  /** With nothing configured every code is reported, in order. */
  lemma {:induction false} NothingConfigured(codes: seq<string>)
    ensures Missing(codes, [], []) == ConfigKeys(codes)
    decreases |codes|
  {
    if codes != [] {
      NothingConfigured(codes[1..]);
      assert ConfigKeys(codes) == [ConfigKey(codes[0])] + ConfigKeys(codes[1..]);
    }
  }

  /** With every required key configured there is nothing to report and no warning. */
  lemma {:induction false} CompleteConfig(codes: seq<string>, builtin: seq<string>, modules: seq<string>)
    requires forall i :: 0 <= i < |codes| ==> ConfigKey(codes[i]) in builtin || ConfigKey(codes[i]) in modules
    ensures Missing(codes, builtin, modules) == []
    ensures ConfigWarning(Missing(codes, builtin, modules)) == None
    decreases |codes|
  {
    if codes != [] {
      CompleteConfig(codes[1..], builtin, modules);
    }
  }

  /**
   * An empty configuration reports all 44 entries; codes listed twice
   * (DEVTMPFS, IPV6, TMPFS_POSIX_ACL, SECCOMP) are reported twice.
   */
  lemma EmptyConfigReportsAll()
    ensures var missing := Missing(RequiredOptions, KeysIn([], Builtin), KeysIn([], Module));
      && missing == ConfigKeys(RequiredOptions) && |missing| == 44
      && missing[0] == missing[27] == "CONFIG_DEVTMPFS"
      && missing[3] == missing[39] == "CONFIG_IPV6"
      && missing[2] == missing[41] == "CONFIG_TMPFS_POSIX_ACL"
      && missing[14] == missing[43] == "CONFIG_SECCOMP"
  {
    NothingConfigured(RequiredOptions);
  }

  /**
   * The warning holds one line per missing key, in order, each the key, a
   * space and its note.
   */
  lemma {:induction false} ConfigWarningLines(missing: seq<string>)
    requires forall i :: 0 <= i < |missing| ==> '\n' !in missing[i]
    ensures Split(ConfigWarningBody(missing), '\n') ==
      seq(|missing|, i requires 0 <= i < |missing| => WarningLine(missing[i])) + [""]
  {
    var lines := seq(|missing|, i requires 0 <= i < |missing| => WarningLine(missing[i]));
    BodyIsJoin(missing);
    forall i | 0 <= i < |lines + [""]| ensures '\n' !in (lines + [""])[i] {
      if i < |lines| {
        WarningLineSingle(missing[i]);
      }
    }
    SplitJoin(lines + [""], '\n');
  }

  lemma WarningLineSingle(opt: string)
    requires '\n' !in opt
    ensures '\n' !in WarningLine(opt)
  {
    NoteSingle(opt);
    NotInConcat('\n', opt, " ");
    NotInConcat('\n', opt + " ", Note(opt));
  }

  lemma NoteSingle(opt: string)
    ensures '\n' !in Note(opt)
  {
    assert '\n' !in LaterNote;
    assert '\n' !in EarlierNote;
  }

  lemma {:induction false} BodyIsJoin(missing: seq<string>)
    ensures ConfigWarningBody(missing) ==
      Join(seq(|missing|, i requires 0 <= i < |missing| => WarningLine(missing[i])) + [""], "\n")
    decreases |missing|
  {
    var lines := seq(|missing|, i requires 0 <= i < |missing| => WarningLine(missing[i]));
    if missing == [] {
      assert lines + [""] == [""];
    } else {
      var tail := missing[1..];
      var rest := seq(|tail|, i requires 0 <= i < |tail| => WarningLine(tail[i]));
      var head := WarningLine(missing[0]);
      calc {
        ConfigWarningBody(missing);
        head + "\n" + ConfigWarningBody(tail);
        { BodyIsJoin(tail); }
        head + "\n" + Join(rest + [""], "\n");
        { JoinCons(head, rest + [""], "\n"); }
        Join([head] + (rest + [""]), "\n");
        { assert lines + [""] == [head] + (rest + [""]); }
        Join(lines + [""], "\n");
      }
    }
  }

  // ---------------------------------------------------------------------
  // Boot-essential check
  // ---------------------------------------------------------------------

  /**
   * The key of a boot-essential code unless it is built in, or a module whose
   * lower-case code is listed among the initrd modules.
   */
  function BootMissingKey(code: string, builtin: seq<string>, modules: seq<string>, initrdModules: seq<string>): seq<string>
  {
    var opt := ConfigKey(Upper(code));
    if opt in builtin then []
    else if opt in modules && code in initrdModules then []
    else [opt]
  }

  function BootMissing(codes: seq<string>, builtin: seq<string>, modules: seq<string>, initrdModules: seq<string>): seq<string>
  {
    FlatMap((code: string) => BootMissingKey(code, builtin, modules, initrdModules), codes)
  }

  /** One `"<key>\n"` line per missing key. */
  function BootWarningBody(missing: seq<string>): string
  {
    FlatMap((opt: string) => opt + "\n", missing)
  }

  function BootWarning(missing: seq<string>): Option<string>
  {
    if missing == [] then None else Some("\n" + BootWarningHeader + "\n" + BootWarningBody(missing))
  }

  lemma BootMissingSnoc(codes: seq<string>, code: string, builtin: seq<string>, modules: seq<string>, initrdModules: seq<string>)
    ensures BootMissing(codes + [code], builtin, modules, initrdModules)
      == BootMissing(codes, builtin, modules, initrdModules) + BootMissingKey(code, builtin, modules, initrdModules)
  {
    FlatMapSnoc((code: string) => BootMissingKey(code, builtin, modules, initrdModules), codes, code);
  }

  lemma BootBodySnoc(missing: seq<string>, opt: string)
    ensures BootWarningBody(missing + [opt]) == BootWarningBody(missing) + (opt + "\n")
  {
    FlatMapSnoc((opt: string) => opt + "\n", missing, opt);
  }

  /** `_do_check_initrd`: the boot-essential keys that are missing and the warning it would echo. */
  method CheckInitrd(builtin: seq<string>, modules: seq<string>, initrdModules: seq<string>)
    returns (missing: seq<string>, warning: Option<string>)
    ensures missing == BootMissing(RequiredBoot, builtin, modules, initrdModules)
    ensures warning == BootWarning(missing)
    ensures warning.Some? <==> missing != []
  {
    missing := [];
    for i := 0 to |RequiredBoot|
      invariant missing == BootMissing(RequiredBoot[..i], builtin, modules, initrdModules)
    {
      var code := RequiredBoot[i];
      TakeSnoc(RequiredBoot, i);
      BootMissingSnoc(RequiredBoot[..i], code, builtin, modules, initrdModules);
      var opt := "CONFIG_" + Upper(code);
      if opt in builtin {
        continue;
      }
      if opt in modules && code in initrdModules {
        continue;
      }
      missing := missing + [opt];
    }
    assert RequiredBoot[..|RequiredBoot|] == RequiredBoot;
    warning := None;
    if missing != [] {
      ghost var head := "\n" + BootWarningHeader + "\n";
      var warn := "\n" + BootWarningHeader + "\n";
      for j := 0 to |missing|
        invariant warn == head + BootWarningBody(missing[..j])
      {
        TakeSnoc(missing, j);
        BootBodySnoc(missing[..j], missing[j]);
        ConcatAssoc(head, BootWarningBody(missing[..j]), missing[j] + "\n");
        warn := warn + missing[j] + "\n";
      }
      assert missing[..|missing|] == missing;
      warning := Some(warn);
    }
  }

  /**
   * `check_new_config`: parse the lines of the new config, then report the
   * missing recommended options and the missing boot-essential ones.
   */
  method CheckNewConfig(lines: seq<string>, initrdModules: seq<string>)
    returns (configWarning: Option<string>, bootWarning: Option<string>)
    ensures var builtin, modules := KeysIn(lines, Builtin), KeysIn(lines, Module);
      && configWarning == ConfigWarning(Missing(RequiredOptions, builtin, modules))
      && bootWarning == BootWarning(BootMissing(RequiredBoot, builtin, modules, initrdModules))
  {
    var builtin, modules := ParseConfig(lines);
    var missing;
    missing, configWarning := CheckConfig(builtin, modules);
    missing, bootWarning := CheckInitrd(builtin, modules, initrdModules);
  }

  lemma UpperSquashfs()
    ensures Upper("squashfs") == "SQUASHFS"
  {
    var u := Upper("squashfs");
    assert u[0] == 'S' && u[1] == 'Q' && u[2] == 'U' && u[3] == 'A';
    assert u[4] == 'S' && u[5] == 'H' && u[6] == 'F' && u[7] == 'S';
  }

  /**
   * `CONFIG_SQUASHFS` is reported unless it is built in, or it is a module and
   * the literal `squashfs` (not the key) is among the initrd modules.
   */
  lemma SquashfsVerdict(builtin: seq<string>, modules: seq<string>, initrdModules: seq<string>)
    ensures var k := "CONFIG_SQUASHFS";
      BootMissing(RequiredBoot, builtin, modules, initrdModules) ==
        if k in builtin || (k in modules && "squashfs" in initrdModules) then [] else [k]
  {
    UpperSquashfs();
    assert ConfigKey("SQUASHFS") == "CONFIG_SQUASHFS";
    assert RequiredBoot == [] + ["squashfs"];
    BootMissingSnoc([], "squashfs", builtin, modules, initrdModules);
  }

  // ---------------------------------------------------------------------
  // Whole-file scenarios
  // ---------------------------------------------------------------------

  lemma UpperOfUpperCase(s: string)
    requires forall i :: 0 <= i < |s| ==> !('a' <= s[i] <= 'z')
    ensures Upper(s) == s
  {
  }

  /** An empty file reports every required key and the missing `CONFIG_SQUASHFS`. */
  lemma EmptyFile(initrdModules: seq<string>)
    ensures var builtin, modules := KeysIn([], Builtin), KeysIn([], Module);
      && Missing(RequiredOptions, builtin, modules) == ConfigKeys(RequiredOptions)
      && BootMissing(RequiredBoot, builtin, modules, initrdModules) == ["CONFIG_SQUASHFS"]
  {
    NothingConfigured(RequiredOptions);
    SquashfsVerdict([], [], initrdModules);
  }

  /** A file of one upper-case `key=Y` line and one `key=M` line, sorted into the two lists. */
  lemma TwoKeyFile(a: string, b: string, lines: seq<string>)
    requires WellFormedKey(a) && forall i :: 0 <= i < |a| ==> !('a' <= a[i] <= 'z')
    requires WellFormedKey(b) && forall i :: 0 <= i < |b| ==> !('a' <= b[i] <= 'z')
    requires lines == [a + "=Y\n", b + "=M\n"]
    ensures KeysIn(lines, Builtin) == [a] && KeysIn(lines, Module) == [b]
  {
    assert lines[0] == a + "=" + "Y" + "\n";
    assert lines[1] == b + "=" + "M" + "\n";
    UpperCaseLine(a, "Y", lines[0], Builtin);
    UpperCaseLine(b, "M", lines[1], Module);
    TwoLines(lines[0], lines[1], Builtin);
    TwoLines(lines[0], lines[1], Module);
  }

  /**
   * The parse of a file with `CONFIG_SECURITY=Y` and `CONFIG_SQUASHFS=M`
   * (see TwoKeyFile), with `squashfs` in the initrd: every other required key
   * is reported, and no boot-essential one is.
   */
  lemma SecurityAndSquashfsFile()
    ensures var builtin, modules := ["CONFIG_SECURITY"], ["CONFIG_SQUASHFS"];
      && (forall k :: k in Missing(RequiredOptions, builtin, modules) <==>
            k in ConfigKeys(RequiredOptions) && k != "CONFIG_SECURITY" && k != "CONFIG_SQUASHFS")
      && BootMissing(RequiredBoot, builtin, modules, ["squashfs"]) == []
  {
    var a, b := "CONFIG_SECURITY", "CONFIG_SQUASHFS";
    forall k ensures k in Missing(RequiredOptions, [a], [b]) <==>
      k in ConfigKeys(RequiredOptions) && k != a && k != b
    {
      MissingMember(RequiredOptions, [a], [b], k);
    }
    SquashfsVerdict([a], [b], ["squashfs"]);
  }

  /** A line whose key is already upper case keeps the key as written. */
  lemma UpperCaseLine(key: string, value: string, line: string, state: State)
    requires WellFormedKey(key) && value in Spellings(state)
    requires forall i :: 0 <= i < |key| ==> !('a' <= key[i] <= 'z')
    requires line == key + "=" + value + "\n"
    ensures LineKeys(line, state) == [key]
    ensures LineKeys(line, Other(state)) == []
  {
    UpperOfUpperCase(key);
    UniformLine(key, value, state);
  }
}
