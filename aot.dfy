/**
 * The decision logic of the ahead-of-time compiler CLI
 * (`hyperlight-wasm-aot`): which target a precompiled file was built for,
 * which engine settings the command-line flags select, where the output
 * goes by default, and how the wasmtime version is recovered from a load
 * error. Parsing the ELF file, compiling and loading are wasmtime's and
 * the `object` crate's; they appear here as inputs.
 */
module Aot {
  import V = Values

  /** A result whose error is a message, as the CLI's `Result<_, String>`. */
  datatype Result<+T> = Ok(value: T) | Err(error: string)

  datatype SupportedTarget = X86_64UnknownNone | WasmtimePulley64

  /** The `Display` rendering of a target, which is also its target triple. */
  function TargetName(t: SupportedTarget): string {
    match t
    case X86_64UnknownNone => "x86_64-unknown-none"
    case WasmtimePulley64 => "pulley64"
  }

  // ---------------------------------------------------------------------
  // Target classification
  // ---------------------------------------------------------------------

  /** The ELF machine architectures the classification distinguishes. */
  datatype Architecture = X86_64 | Aarch64 | S390x | Riscv64 | Other(debugName: string)

  /** The `{:?}` rendering of an architecture. */
  function ArchName(a: Architecture): string {
    match a
    case X86_64 => "X86_64"
    case Aarch64 => "Aarch64"
    case S390x => "S390x"
    case Riscv64 => "Riscv64"
    case Other(n) => n
  }

  /** The header flags of the file: ELF `e_flags`, or flags of another format. */
  datatype FileFlags = ElfFlags(eFlags: bv32) | OtherFlags

  /** What parsing the file as a 64-bit ELF object yields. */
  datatype ParsedFile = NotElf | Elf64(architecture: Architecture, flags: FileFlags)

  /** Wasmtime's `EF_WASMTIME_PULLEY64` and `EF_WASMTIME_PULLEY32` header bits. */
  const EF_WASMTIME_PULLEY64: bv32 := 1 << 3
  const EF_WASMTIME_PULLEY32: bv32 := 1 << 2

  const NOT_ELF: string := "Failed to parse AOT compiled file as ELF"
  const UNSUPPORTED_FORMAT: string := "Unsupported file format in AOT compiled file"
  const PULLEY32_UNSUPPORTED: string :=
    "Unsupported Riscv64 AOT compiled file: pulley32 artifacts are not supported"
  const MISSING_E_FLAGS: string :=
    "Unsupported Riscv64 AOT compiled file, missing expected e_flags in elf header"

  function UnsupportedArchitecture(name: string): string {
    "Unsupported architecture " + name + " in AOT compiled file"
  }

  /**
   * `get_aot_target`: x86_64 objects are native code; RISC-V 64 objects
   * are Pulley bytecode, whose width is told by wasmtime's header bits,
   * the 64-bit bit winning; everything else is refused.
   */
  function GetAotTarget(file: ParsedFile): (r: Result<SupportedTarget>)
    ensures r == Ok(X86_64UnknownNone) <==> file.Elf64? && file.architecture == X86_64
    ensures r == Ok(WasmtimePulley64) <==>
      (file.Elf64? && file.architecture == Riscv64 && file.flags.ElfFlags? &&
       file.flags.eFlags & EF_WASMTIME_PULLEY64 != 0)
    ensures file.NotElf? ==> r == Err(NOT_ELF)
    ensures file.Elf64? && !(file.architecture.X86_64? || file.architecture.Riscv64?) ==>
      r == Err(UnsupportedArchitecture(ArchName(file.architecture)))
    ensures file.Elf64? && file.architecture.Riscv64? ==>
      (file.flags.OtherFlags? ==> r == Err(UNSUPPORTED_FORMAT)) &&
      (file.flags.ElfFlags? && file.flags.eFlags & EF_WASMTIME_PULLEY64 == 0 ==>
         r == Err(if file.flags.eFlags & EF_WASMTIME_PULLEY32 != 0 then PULLEY32_UNSUPPORTED else MISSING_E_FLAGS))
  {
    match file
    case NotElf => Err(NOT_ELF)
    case Elf64(arch, flags) =>
      match arch
      case X86_64 => Ok(X86_64UnknownNone)
      case Aarch64 => Err(UnsupportedArchitecture("Aarch64"))
      case S390x => Err(UnsupportedArchitecture("S390x"))
      case Riscv64 =>
        if flags.OtherFlags? then Err(UNSUPPORTED_FORMAT)
        else if flags.eFlags & EF_WASMTIME_PULLEY64 != 0 then Ok(WasmtimePulley64)
        else if flags.eFlags & EF_WASMTIME_PULLEY32 != 0 then Err(PULLEY32_UNSUPPORTED)
        else Err(MISSING_E_FLAGS)
      case Other(n) => Err(UnsupportedArchitecture(n))
  }

  /**
   * What wasmtime emits for a target: an x86_64 object with any header
   * flags, or a RISC-V 64 object carrying the Pulley-64 bit.
   */
  predicate EmittedFor(file: ParsedFile, t: SupportedTarget) {
    match t
    case X86_64UnknownNone => file.Elf64? && file.architecture == X86_64
    case WasmtimePulley64 =>
      file.Elf64? && file.architecture == Riscv64 && file.flags.ElfFlags? &&
      file.flags.eFlags & EF_WASMTIME_PULLEY64 == EF_WASMTIME_PULLEY64
  }

  /**
   * A file precompiled for a target is classified as that target,
   * whatever other header bits it carries (the Pulley-32 bit included).
   */
  lemma ClassifiesEmittedTarget(file: ParsedFile, t: SupportedTarget)
    requires EmittedFor(file, t)
    ensures GetAotTarget(file) == Ok(t)
  {
    if t.WasmtimePulley64? {
      assert file.flags.eFlags & EF_WASMTIME_PULLEY64 != 0;
    }
  }

  /** Every accepted file is one a supported target emits. */
  lemma AcceptedFilesAreEmitted(file: ParsedFile)
    requires GetAotTarget(file).Ok?
    ensures EmittedFor(file, GetAotTarget(file).value)
  {
    if GetAotTarget(file).value.WasmtimePulley64? {
      var e := file.flags.eFlags;
      assert e & EF_WASMTIME_PULLEY64 != 0;
      assert e & 8 == 0 || e & 8 == 8;
    }
  }

  // ---------------------------------------------------------------------
  // Engine configuration
  // ---------------------------------------------------------------------

  /** Cranelift optimisation levels (`OptLevel`). */
  datatype OptLevel = NoOptimisation | Speed | SpeedAndSize

  /** The wasmtime `Config` settings the CLI touches. */
  datatype Config = Config(
    target: V.Option<string>,
    debugInfo: bool,
    optLevel: OptLevel,
    generateAddressMap: bool,
    nativeUnwindInfo: bool)

  /**
   * `Config::new()`: the host target, no debug info, optimised for speed,
   * with the address map and native unwind information generated.
   */
  const DEFAULT_CONFIG: Config := Config(V.None, false, Speed, true, true)

  /**
   * The configuration for the flags: the target's triple; `debug` turns on
   * debug information and turns optimisation off; `minimal` drops the
   * address map and the native unwind information. Each flag governs its
   * own settings and leaves the other's at their defaults.
   */
  function ConfigFor(debug: bool, minimal: bool, target: SupportedTarget): (c: Config)
    ensures c.target == V.Some(TargetName(target))
    ensures c.debugInfo <==> debug
    ensures c.optLevel == (if debug then NoOptimisation else DEFAULT_CONFIG.optLevel)
    ensures !c.generateAddressMap <==> minimal
    ensures !c.nativeUnwindInfo <==> minimal
  {
    var withTarget := DEFAULT_CONFIG.(target := V.Some(TargetName(target)));
    var withDebug := if debug then withTarget.(debugInfo := true, optLevel := NoOptimisation) else withTarget;
    if minimal then withDebug.(generateAddressMap := false, nativeUnwindInfo := false) else withDebug
  }

  /** `get_config`: the settings are applied one after another to a default configuration. */
  method GetConfig(debug: bool, minimal: bool, target: SupportedTarget) returns (config: Config)
    ensures config == ConfigFor(debug, minimal, target)
  {
    config := DEFAULT_CONFIG;
    match target {
      case X86_64UnknownNone =>
        config := config.(target := V.Some("x86_64-unknown-none"));
      case WasmtimePulley64 =>
        config := config.(target := V.Some("pulley64"));
    }
    if debug {
      config := config.(debugInfo := true);
      config := config.(optLevel := NoOptimisation);
    }
    if minimal {
      config := config.(generateAddressMap := false);
      config := config.(nativeUnwindInfo := false);
    }
  }

  /**
   * A file checked with the settings of its own target is checked against
   * the configuration it would have been compiled with (without `minimal`).
   */
  lemma CheckConfigMatchesCompile(file: ParsedFile, t: SupportedTarget, debug: bool)
    requires EmittedFor(file, t)
    ensures ConfigFor(debug, false, GetAotTarget(file).value) == ConfigFor(debug, false, t)
  {
    ClassifiesEmittedTarget(file, t);
  }

  // ---------------------------------------------------------------------
  // Default output path
  // ---------------------------------------------------------------------

  /** The index of the last `c` in `p[..e]`, or -1 when there is none. */
  function LastIndexOf(p: string, c: char, e: nat): (r: int)
    requires e <= |p|
    ensures -1 <= r < e
    ensures r >= 0 ==> p[r] == c
    ensures forall i :: r < i < e ==> p[i] != c
    decreases e
  {
    if e == 0 then -1 else if p[e - 1] == c then e - 1 else LastIndexOf(p, c, e - 1)
  }

  /** The last `c` in `p[..e]` is at `k` when `k` holds one and nothing after it does. */
  lemma LastIndexOfIs(p: string, c: char, e: nat, k: int)
    requires e <= |p| && -1 <= k < e
    requires k >= 0 ==> p[k] == c
    requires forall i :: k < i < e ==> p[i] != c
    ensures LastIndexOf(p, c, e) == k
  {
  }

  /** Where a path's file name lies: nowhere, or `p[start..end]`. */
  datatype Span = NoFileName | Span(start: nat, end: nat)

  /**
   * Where the last component of `p[..e]` ends, skipping empty and `.`
   * components (as the Unix `Path::components` does, with `/` the only
   * separator); 0 when there is none.
   */
  function ComponentEnd(p: string, e: nat): (r: nat)
    requires e <= |p|
    ensures r <= e
    ensures r > 0 ==> LastIndexOf(p, '/', r) + 1 < r && p[LastIndexOf(p, '/', r) + 1..r] != "."
    decreases e
  {
    var s := LastIndexOf(p, '/', e) + 1;
    if p[s..e] == "" || p[s..e] == "." then
      if s == 0 then 0 else ComponentEnd(p, s - 1)
    else e
  }

  /**
   * The file name of a path (the Unix `Path::file_name`): its last
   * component; none when that component is `..` or the path has no component.
   */
  function FileNameSpan(p: string): (r: Span)
    ensures r.Span? ==> r.start < r.end <= |p|
    ensures r.Span? ==> r.start == 0 || p[r.start - 1] == '/'
    ensures r.Span? ==> forall i :: r.start <= i < r.end ==> p[i] != '/'
    ensures r.Span? ==> p[r.start..r.end] != "." && p[r.start..r.end] != ".."
  {
    var end := ComponentEnd(p, |p|);
    var s := LastIndexOf(p, '/', end) + 1;
    if end == 0 || p[s..end] == ".." then NoFileName else Span(s, end)
  }

  /**
   * The length of a file name's stem (`Path::file_stem`): everything before
   * its last `.`, unless that dot is the name's first character or there
   * is none, in which case the whole name.
   */
  function StemLength(name: string): (n: nat)
    ensures 0 < n <= |name| || n == |name| == 0
  {
    var k := LastIndexOf(name, '.', |name|);
    if k <= 0 then |name| else k
  }

  /**
   * `PathBuf::set_extension`: cut the path right after the stem of its
   * file name and append `.` and the extension (nothing when it is empty);
   * a path without a file name is left as it is.
   */
  function SetExtension(p: string, ext: string): string {
    match FileNameSpan(p)
    case NoFileName => p
    case Span(s, e) =>
      var cut := p[..s + StemLength(p[s..e])];
      if ext == "" then cut else cut + "." + ext
  }

  /** The output path: the one given, or the input with its extension replaced by `aot`. */
  function OutputPath(input: string, output: V.Option<string>): string {
    match output
    case Some(o) => o
    case None => SetExtension(input, "aot")
  }

  /** No `/` in `s`. */
  predicate NoSlash(s: string) {
    forall i :: 0 <= i < |s| ==> s[i] != '/'
  }

  /** No `.` in `s`. */
  predicate NoDot(s: string) {
    forall i :: 0 <= i < |s| ==> s[i] != '.'
  }

  /**
   * The file name of a path is its last component when that component is
   * neither `.` nor `..`.
   */
  lemma FileNameIsLastComponent(base: string, name: string)
    requires base == "" || base[|base| - 1] == '/'
    requires name != "" && NoSlash(name) && name != "." && name != ".."
    ensures FileNameSpan(base + name) == Span(|base|, |base + name|)
  {
    var p := base + name;
    var s := |base|;
    assert forall i :: s <= i < |p| ==> p[i] == name[i - s];
    LastIndexOfIs(p, '/', |p|, s - 1);
    assert p[s..|p|] == name;
    assert ComponentEnd(p, |p|) == |p|;
  }

  /** The stem of `stem.ext` is `stem` when the extension holds no dot. */
  lemma StemBeforeExtension(stem: string, ext: string)
    requires stem != "" && NoDot(ext)
    ensures StemLength(stem + "." + ext) == |stem|
  {
    var name := stem + "." + ext;
    assert name[|stem|] == '.';
    assert forall i :: |stem| < i < |name| ==> name[i] == ext[i - |stem| - 1];
    LastIndexOfIs(name, '.', |name|, |stem|);
  }

  /** Setting a non-empty extension on a path whose file name starts at `s` keeps `kept`, the path up to the end of the stem. */
  lemma SetExtensionAt(p: string, ext: string, s: nat, kept: string)
    requires ext != "" && FileNameSpan(p) == Span(s, |p|)
    requires p[..s + StemLength(p[s..])] == kept
    ensures SetExtension(p, ext) == kept + "." + ext
  {
    assert p[s..|p|] == p[s..];
  }

  /** How `base + stem + "." + ext` splits around its last component. */
  lemma SplitPath(base: string, stem: string, ext: string)
    ensures base + stem + "." + ext == base + (stem + "." + ext)
    ensures (base + stem + "." + ext)[|base|..] == stem + "." + ext
    ensures (base + stem + "." + ext)[..|base| + |stem|] == base + stem
  {
  }

  /** `stem.prior` is a file name: one component, neither `.` nor `..`. */
  lemma FileNameOfFile(stem: string, prior: string)
    requires stem != "" && NoSlash(stem) && NoSlash(prior) && NoDot(prior)
    requires prior != "" || stem != "."
    ensures NoSlash(stem + "." + prior)
    ensures stem + "." + prior != "." && stem + "." + prior != ".."
  {
    var name := stem + "." + prior;
    forall i | 0 <= i < |name| ensures name[i] != '/' {
      if i < |stem| { assert name[i] == stem[i]; }
      else if i > |stem| { assert name[i] == prior[i - |stem| - 1]; }
    }
    if prior == "" {
      assert |stem| == 1 ==> stem == [stem[0]] && name[0] == stem[0];
    } else {
      assert name[|name| - 1] == prior[|prior| - 1];
    }
  }

  /** Where the file name and the stem of `base + stem.prior` lie. */
  lemma FileInDirectory(base: string, stem: string, prior: string)
    requires base == "" || base[|base| - 1] == '/'
    requires stem != "" && NoSlash(stem) && NoSlash(prior) && NoDot(prior)
    requires prior != "" || stem != "."
    ensures var p := base + stem + "." + prior;
      FileNameSpan(p) == Span(|base|, |p|) &&
      p[..|base| + StemLength(p[|base|..])] == base + stem
  {
    SplitPath(base, stem, prior);
    FileNameOfFile(stem, prior);
    FileNameIsLastComponent(base, stem + "." + prior);
    StemBeforeExtension(stem, prior);
  }

  /**
   * Setting the extension of `stem.prior` in a directory (empty, or ending in
   * `/`) gives `stem.ext` in the same directory, whatever dots the stem
   * holds.
   */
  lemma SetExtensionOfFile(base: string, stem: string, prior: string, ext: string)
    requires base == "" || base[|base| - 1] == '/'
    requires stem != "" && NoSlash(stem) && NoSlash(prior) && NoDot(prior)
    requires ext != "" && (prior != "" || stem != ".")
    ensures SetExtension(base + stem + "." + prior, ext) == base + stem + "." + ext
  {
    var p := base + stem + "." + prior;
    FileInDirectory(base, stem, prior);
    SetExtensionAt(p, ext, |base|, base + stem);
  }

  /**
   * In a directory (empty, or ending in `/`), a file `stem.ext` defaults to
   * the output `stem.aot` in the same directory.
   */
  lemma DefaultOutputReplacesExtension(dir: string, stem: string, ext: string)
    requires dir == "" || dir[|dir| - 1] == '/'
    requires stem != "" && NoSlash(stem) && NoSlash(ext) && NoDot(ext)
    requires ext != "" || stem != "."
    ensures OutputPath(dir + stem + "." + ext, V.None) == dir + stem + ".aot"
  {
    SetExtensionOfFile(dir, stem, ext, "aot");
  }

  /**
   * Replacing the extension twice is replacing it once: the default
   * output of a file that already ends in the extension is that file.
   */
  lemma SetExtensionIdempotent(p: string, ext: string)
    requires ext != "" && NoSlash(ext) && NoDot(ext)
    ensures SetExtension(SetExtension(p, ext), ext) == SetExtension(p, ext)
  {
    match FileNameSpan(p)
    case NoFileName =>
    case Span(s, e) =>
      var n := StemLength(p[s..e]);
      var base := p[..s];
      var stem := p[s..s + n];
      assert p[..s + n] == base + stem;
      assert SetExtension(p, ext) == base + stem + "." + ext;
      assert NoSlash(stem) by {
        forall i | 0 <= i < |stem| ensures stem[i] != '/' {
          assert stem[i] == p[s + i];
        }
      }
      SetExtensionOfFile(base, stem, ext, ext);
  }

  // ---------------------------------------------------------------------
  // Version recovery
  // ---------------------------------------------------------------------

  /** The error wasmtime gives for a module compiled by another version starts with this. */
  const INCOMPATIBLE: string := "Module was compiled with incompatible Wasmtime version"
  /** What is stripped from that error to leave the version. */
  const INCOMPATIBLE_PREFIX: string := INCOMPATIBLE + " "

  predicate StartsWith(s: string, prefix: string) {
    |prefix| <= |s| && s[..|prefix|] == prefix
  }

  /** Unicode `White_Space`, which `str::trim` removes. */
  predicate IsWhitespace(c: char) {
    var n := c as int;
    (0x09 <= n <= 0x0D) || n == 0x20 || n == 0x85 || n == 0xA0 || n == 0x1680 ||
    (0x2000 <= n <= 0x200A) || n == 0x2028 || n == 0x2029 || n == 0x202F || n == 0x205F || n == 0x3000
  }

  /** `str::trim_start_matches`: remove every leading repetition of the pattern. */
  function TrimStartMatches(s: string, pattern: string): (r: string)
    ensures |r| <= |s| && r == s[|s| - |r|..]
    ensures pattern != "" ==> !StartsWith(r, pattern)
    ensures !StartsWith(s, pattern) ==> r == s
    decreases |s|
  {
    if pattern != "" && StartsWith(s, pattern) then TrimStartMatches(s[|pattern|..], pattern) else s
  }

  /** `str::trim_start`: drop leading whitespace. */
  function TrimStart(s: string): (r: string)
    ensures |r| <= |s| && r == s[|s| - |r|..]
    ensures r == "" || !IsWhitespace(r[0])
    ensures forall i :: 0 <= i < |s| - |r| ==> IsWhitespace(s[i])
    decreases |s|
  {
    if s != "" && IsWhitespace(s[0]) then TrimStart(s[1..]) else s
  }

  /** `str::trim_end`: drop trailing whitespace. */
  function TrimEnd(s: string): (r: string)
    ensures |r| <= |s| && r == s[..|r|]
    ensures r == "" || !IsWhitespace(r[|r| - 1])
    ensures forall i :: |r| <= i < |s| ==> IsWhitespace(s[i])
    decreases |s|
  {
    if s != "" && IsWhitespace(s[|s| - 1]) then TrimEnd(s[..|s| - 1]) else s
  }

  /** `str::trim`: drop leading and trailing whitespace. */
  function Trim(s: string): (r: string)
    ensures r == "" || (!IsWhitespace(r[0]) && !IsWhitespace(r[|r| - 1]))
  {
    var t := TrimStart(s);
    assert TrimEnd(t) != "" ==> TrimEnd(t)[0] == t[0];
    TrimEnd(t)
  }

  /**
   * The version a load error reports: none when the error is not about an
   * incompatible version (it is printed as it is); otherwise what is left
   * once the prefix is stripped and the rest trimmed.
   */
  function VersionFromError(message: string): (r: V.Option<string>)
    ensures r.Some? <==> StartsWith(message, INCOMPATIBLE)
    ensures r.Some? ==> r.value == "" || (!IsWhitespace(r.value[0]) && !IsWhitespace(r.value[|r.value| - 1]))
  {
    if StartsWith(message, INCOMPATIBLE) then V.Some(Trim(TrimStartMatches(message, INCOMPATIBLE_PREFIX)))
    else V.None
  }

  /** A string of whitespace only trims to nothing from the start. */
  lemma {:induction false} TrimStartAllWhitespace(w: string)
    requires forall i :: 0 <= i < |w| ==> IsWhitespace(w[i])
    ensures TrimStart(w) == ""
    decreases |w|
  {
    if w != "" {
      TrimStartAllWhitespace(w[1..]);
    }
  }

  /** Trailing whitespace after a word that ends in a non-space trims back to the word. */
  lemma {:induction false} TrimEndAppendWhitespace(v: string, w: string)
    requires v == "" || !IsWhitespace(v[|v| - 1])
    requires forall i :: 0 <= i < |w| ==> IsWhitespace(w[i])
    ensures TrimEnd(v + w) == v
    decreases |w|
  {
    if w == "" {
      assert v + w == v;
    } else {
      assert (v + w)[..|v + w| - 1] == v + w[..|w| - 1];
      TrimEndAppendWhitespace(v, w[..|w| - 1]);
    }
  }

  /**
   * A version written after the prefix, followed by any whitespace (a
   * trailing newline, say), is recovered exactly, as long as the text
   * after the prefix does not repeat the prefix.
   */
  lemma VersionRoundTrip(version: string, w: string)
    requires version == "" || (!IsWhitespace(version[0]) && !IsWhitespace(version[|version| - 1]))
    requires forall i :: 0 <= i < |w| ==> IsWhitespace(w[i])
    requires !StartsWith(version + w, INCOMPATIBLE_PREFIX)
    ensures VersionFromError(INCOMPATIBLE_PREFIX + version + w) == V.Some(version)
  {
    var m := INCOMPATIBLE_PREFIX + version + w;
    assert m[..|INCOMPATIBLE|] == INCOMPATIBLE;
    assert m[..|INCOMPATIBLE_PREFIX|] == INCOMPATIBLE_PREFIX;
    assert m[|INCOMPATIBLE_PREFIX|..] == version + w;
    assert TrimStartMatches(m, INCOMPATIBLE_PREFIX) == version + w;
    if version == "" {
      assert version + w == w;
      TrimStartAllWhitespace(w);
    } else {
      assert (version + w)[0] == version[0];
    }
    TrimEndAppendWhitespace(version, w);
  }

  // ---------------------------------------------------------------------
  // The two commands
  // ---------------------------------------------------------------------

  /** What `compile` does: precompile `input` as a module or a component into `outfile`. */
  datatype CompilePlan = CompilePlan(
    input: string, outfile: string, target: SupportedTarget, config: Config, component: bool)

  /**
   * The `compile` command up to the precompilation itself: the output
   * path, the target `--pulley` selects, and the configuration.
   */
  method Compile(input: string, output: V.Option<string>, component: bool, debug: bool,
                 minimal: bool, pulley: bool) returns (plan: CompilePlan)
    ensures plan.input == input && plan.component == component
    ensures output.Some? ==> plan.outfile == output.value
    ensures output.None? ==> plan.outfile == SetExtension(input, "aot")
    ensures plan.target == WasmtimePulley64 <==> pulley
    ensures plan.config == ConfigFor(debug, minimal, plan.target)
  {
    var outfile := OutputPath(input, output);
    var target := if pulley then WasmtimePulley64 else X86_64UnknownNone;
    var config := GetConfig(debug, minimal, target);
    plan := CompilePlan(input, outfile, target, config, component);
  }

  /** What `Engine::detect_precompiled` recognises. */
  datatype Precompiled = PrecompiledModule | PrecompiledComponent

  /** The outcome of `check-wasmtime-version`. */
  datatype CheckReport =
    | DependencyMissing
    | InvalidTarget(error: string)
    | CompiledWith(target: SupportedTarget, version: string)
    | LoadFailed(error: string)
    | IsComponent
    | NotPrecompiled

  /**
   * The `check-wasmtime-version` command. `toolVersion` is the wasmtime
   * version in the tool's own dependencies (none if it is missing),
   * `detected` what wasmtime recognises in the file, and `deserialize`
   * the error of loading it as a module under a configuration (none when
   * it loads).
   */
  method CheckWasmtimeVersion(debug: bool, file: ParsedFile, toolVersion: V.Option<string>,
                              detected: V.Option<Precompiled>, deserialize: Config -> V.Option<string>)
    returns (report: CheckReport)
    ensures toolVersion.None? <==> report == DependencyMissing
    ensures report.InvalidTarget? <==> toolVersion.Some? && GetAotTarget(file).Err?
    ensures report.InvalidTarget? ==> report.error == GetAotTarget(file).error
    ensures report.CompiledWith? ==>
      var config := ConfigFor(debug, false, report.target);
      GetAotTarget(file) == Ok(report.target) && detected == V.Some(PrecompiledModule) &&
      (deserialize(config).None? ==> report.version == toolVersion.value) &&
      (deserialize(config).Some? ==> V.Some(report.version) == VersionFromError(deserialize(config).value))
    ensures report.LoadFailed? ==>
      && toolVersion.Some? && GetAotTarget(file).Ok? && detected == V.Some(PrecompiledModule)
      && var err := deserialize(ConfigFor(debug, false, GetAotTarget(file).value));
         err == V.Some(report.error) && VersionFromError(report.error).None?
    ensures toolVersion.Some? && GetAotTarget(file).Ok? && detected == V.Some(PrecompiledModule) ==>
      var t := GetAotTarget(file).value;
      var err := deserialize(ConfigFor(debug, false, t));
      report == (if err.None? then CompiledWith(t, toolVersion.value)
                 else if VersionFromError(err.value).Some? then CompiledWith(t, VersionFromError(err.value).value)
                 else LoadFailed(err.value))
    ensures report == NotPrecompiled <==> toolVersion.Some? && GetAotTarget(file).Ok? && detected.None?
    ensures report == IsComponent <==>
      toolVersion.Some? && GetAotTarget(file).Ok? && detected == V.Some(PrecompiledComponent)
  {
    if toolVersion.None? {
      return DependencyMissing;
    }
    var target;
    match GetAotTarget(file) {
      case Ok(t) => target := t;
      case Err(e) => return InvalidTarget(e);
    }
    var config := GetConfig(debug, false, target);
    if detected.None? {
      return NotPrecompiled;
    }
    if detected.value.PrecompiledComponent? {
      return IsComponent;
    }
    match deserialize(config) {
      case None => report := CompiledWith(target, toolVersion.value);
      case Some(message) =>
        var version := VersionFromError(message);
        if version.None? {
          return LoadFailed(message);
        }
        report := CompiledWith(target, version.value);
    }
  }
}
