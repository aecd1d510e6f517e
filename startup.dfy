/**
 * startProlog up to the point where Prolog itself is started: the system
 * defaults, the pre-scan for boot mode, the `-r`, `-x` and `-help` entries
 * that must come first, the choice between the options stored in a saved
 * state and the built-in defaults, the flag loop, and the boot output file.
 */
module Startup {
  import opened Wrappers
  import opened Platform
  import opened Numerals
  import opened Locate
  import opened Flags

  /** The `systemDefaults` record. `state` is a C pointer that may be NULL. */
  datatype SystemDefaults = SystemDefaults(
    machine: string, home: string, state: Option<string>, startup: string,
    local: int, global: int, trail: int, argument: int, lock: int,
    goal: string, toplevel: string, notty: bool)

  /**
   * What the build fixes: the machine name, the system home and the startup
   * file already in Prolog notation, and the five default stack sizes in
   * kilobytes.
   */
  datatype Build = Build(
    machine: string, systemHome: string, startup: string,
    local: int, global: int, trail: int, argument: int, lock: int)

  /** The options a saved state carries, as loadWicFile reads them when it only scans for options. */
  datatype ImageOptions = ImageOptions(
    localSize: int, globalSize: int, trailSize: int, argumentSize: int, lockSize: int,
    goal: string, topLevel: string, initFile: string)

  /** The first start of a process either has its defaults or stops with fatalError. */
  datatype Initial = Ready(defaults: SystemDefaults) | Halted(message: string)

  /**
   * How startProlog ends before Prolog runs: usage() was called, the saved
   * state could not be read (Halt(1)), or the launch goes on with the
   * configuration, the state to load, the state recorded by `-r` and the
   * file arguments.
   */
  datatype Outcome =
    | UsageExit
    | LoadFailed
    | Launch(cfg: Config, state: Option<string>, restored: Option<string>, files: seq<string>)

  /** The leading `-r <file>` and `-x <state>` pairs, peeled off in that order. */
  datatype Peeled = Peeled(restored: Option<string>, state: Option<string>, rest: seq<string>)

  const WelcomeGoal := "'$welcome'"
  const DefaultTopLevel := "prolog"
  const DefaultCompileOut := "a.out"

  /**
   * The defaults of a process that was not restarted from a dumped state:
   * the home from findHome, then the state from findState with that home.
   */
  function InitialDefaults(h: Host, b: Build, staleBufferExists: bool): (r: Initial)
    ensures r.Halted? <==> HomeSearch(h, b.systemHome).Fatal?
    ensures r.Ready? ==> r.defaults.home == HomeSearch(h, b.systemHome).path &&
                         h.existsDirectory(r.defaults.home) &&
                         r.defaults.state == Some(FindState(h, r.defaults.home, b.machine, staleBufferExists))
  {
    HomeIsDirectory(h, b.systemHome);
    match HomeSearch(h, b.systemHome)
    case Fatal(message) => Halted(message)
    case Found(home) =>
      Ready(SystemDefaults(
        b.machine, home, Some(FindState(h, home, b.machine, staleBufferExists)), b.startup,
        b.local, b.global, b.trail, b.argument, b.lock,
        WelcomeGoal, DefaultTopLevel, false))
  }

  /** Running under Emacs (`EMACS=t`) or as a PceEmacs inferior (`INFERIOR=yes`) turns tty control off. */
  predicate InferiorProcess(h: Host)
  {
    h.getenv("EMACS") == Some("t") || h.getenv("INFERIOR") == Some("yes")
  }

  /** `args` are the arguments after the program name. */
  function Peel(h: Host, state: Option<string>, args: seq<string>): Peeled
  {
    var (restored, afterR) :=
      if |args| >= 2 && args[0] == "-r" then (Some(h.absoluteFile(args[1])), args[2..]) else (None, args);
    if |afterR| >= 2 && afterR[0] == "-x" then
      Peeled(restored, Some(afterR[1]), afterR[2..])
    else
      Peeled(restored, state, afterR)
  }

  /**
   * A `-r` pair is taken only in first position and a `-x` pair only right
   * after it or in first position; each needs both of its entries, and what
   * is left is the rest of the arguments.
   */
  lemma PeelPairs(h: Host, state: Option<string>, args: seq<string>)
    ensures var p := Peel(h, state, args);
            var j := if |args| >= 2 && args[0] == "-r" then 2 else 0;
            var x := |args| >= j + 2 && args[j] == "-x";
            p.restored == (if j == 2 then Some(h.absoluteFile(args[1])) else None) &&
            p.state == (if x then Some(args[j + 1]) else state) &&
            p.rest == args[if x then j + 2 else j..]
  {
  }

  lemma PeelRestSuffix(h: Host, state: Option<string>, args: seq<string>)
    ensures IsSuffix(Peel(h, state, args).rest, args)
  {
  }

  /**
   * The options before the flag loop: those of the saved state when one is
   * read (`image`), otherwise the defaults scaled to bytes and "a.out" as the
   * compile output. The status flags, and the compile output in the first
   * branch, are those of `start`; `compile` and `explicit_compile_out` are off.
   */
  function BranchConfig(start: Config, d: SystemDefaults, image: Option<ImageOptions>): Config
  {
    match image
    case Some(i) =>
      Config(i.localSize, i.globalSize, i.trailSize, i.argumentSize, i.lockSize,
             i.goal, i.topLevel, i.initFile, start.compileOut,
             start.notty, start.debugLevel, start.optimise, start.boot, false, false)
    case None =>
      Config(d.local * K, d.global * K, d.trail * K, d.argument * K, d.lock * K,
             d.goal, d.toplevel, d.startup, DefaultCompileOut,
             start.notty, start.debugLevel, start.optimise, start.boot, false, false)
  }

  /** In boot mode without `-o` the output is the proposed startup file. */
  function BootOutput(h: Host, d: SystemDefaults, c: Config): Config
  {
    if c.boot && !c.explicitCompileOut then c.(compileOut := ProposedStartupFile(h, d.home, d.machine)) else c
  }

  /** From the choice of branch to the end of the flag loop, and the boot output file. */
  function Configure(start: Config, h: Host, d: SystemDefaults, image: Option<ImageOptions>,
                     rest: seq<string>, dynamicStacks: bool): (r: ScanOutcome)
    ensures r.Done? ==> r.rest == [] || !IsFlagToken(r.rest[0])
  {
    match Scan(BranchConfig(start, d, image), rest, dynamicStacks)
    case Usage => Usage
    case Done(c, files) => Done(BootOutput(h, d, c), files)
  }

  /**
   * startProlog as a function of what it reads: the records before the call
   * (`prior`), the host, the defaults, the state loader and the arguments
   * after the program name.
   */
  function Resolve(prior: Config, h: Host, d: SystemDefaults, loader: string -> Option<ImageOptions>,
                   dynamicStacks: bool, args: seq<string>): (r: Outcome)
    ensures r.Launch? ==> r.files == [] || !IsFlagToken(r.files[0])
  {
    var start := prior.(notty := d.notty || InferiorProcess(h), boot := "-b" in args);
    var p := Peel(h, d.state, args);
    if |p.rest| >= 1 && p.rest[0] == "-help" then UsageExit
    else if p.state.Some? && !start.boot && loader(p.state.value).None? then LoadFailed
    else
      var image := if p.state.Some? && !start.boot then loader(p.state.value) else None;
      match Configure(start, h, d, image, p.rest, dynamicStacks)
      case Usage => UsageExit
      case Done(c, files) => Launch(c, p.state, p.restored, files)
  }

  /**
   * startProlog on the `options` and `status` records, up to the start of
   * Prolog. On a launch the records hold the configuration reported.
   */
  method StartProlog(o: Options, s: Status, h: Host, d: SystemDefaults, loader: string -> Option<ImageOptions>,
                     dynamicStacks: bool, args: seq<string>)
    returns (r: Outcome)
    modifies o, s
    ensures r == Resolve(old(Snap(o, s, false, false)), h, d, loader, dynamicStacks, args)
    ensures r.Launch? ==> Snap(o, s, r.cfg.compile, r.cfg.explicitCompileOut) == r.cfg
    ensures !s.ioInitialised && !s.initialised && s.extendMode
  {
    ghost var prior := Snap(o, s, false, false);
    ResetStatus(s, h, d, args);
    assert Snap(o, s, false, false) == prior.(notty := d.notty || InferiorProcess(h), boot := "-b" in args);
    var restored, state, argv := PeelLeading(h, d.state, args);
    if |argv| >= 1 && argv[0] == "-help" {
      return UsageExit;
    }
    var image := None;
    if state.Some? && !s.boot {
      image := loader(state.value);
      if image.None? {
        return LoadFailed;
      }
    }
    var usage, files, compile, explicitCompileOut := ConfigureOptions(o, s, h, d, image, argv, dynamicStacks);
    if usage {
      return UsageExit;
    }
    r := Launch(Snap(o, s, compile, explicitCompileOut), state, restored, files);
  }

  /** The branch, the flag loop and the boot output on the records. */
  method ConfigureOptions(o: Options, s: Status, h: Host, d: SystemDefaults, image: Option<ImageOptions>,
                          argv: seq<string>, dynamicStacks: bool)
    returns (usage: bool, files: seq<string>, compile: bool, explicitCompileOut: bool)
    modifies o, s`notty, s`debugLevel, s`optimise, s`boot
    ensures var r := Configure(old(Snap(o, s, false, false)), h, d, image, argv, dynamicStacks);
            usage == r.Usage? && (!usage ==> files == r.rest && Snap(o, s, compile, explicitCompileOut) == r.cfg)
  {
    SetBranchOptions(o, s, d, image);
    usage, files, compile, explicitCompileOut := ScanFlags(o, s, argv, dynamicStacks, false, false);
    if !usage && s.boot && !explicitCompileOut {
      o.compileOut := ProposeStartupFile(h, d.home, d.machine);
    }
  }

  /**
   * The status flags at the start of startProlog: nothing initialised yet,
   * extend mode on, notty from the defaults or an Emacs environment, and
   * boot mode from the pre-scan.
   */
  method ResetStatus(s: Status, h: Host, d: SystemDefaults, args: seq<string>)
    modifies s`ioInitialised, s`initialised, s`notty, s`boot, s`extendMode
    ensures !s.ioInitialised && !s.initialised && s.extendMode
    ensures s.notty == (d.notty || InferiorProcess(h))
    ensures s.boot == ("-b" in args)
  {
    s.ioInitialised := false;
    s.initialised := false;
    s.notty := d.notty;
    s.boot := false;
    s.extendMode := true;
    if h.getenv("EMACS") == Some("t") || h.getenv("INFERIOR") == Some("yes") {
      s.notty := true;
    }
    var boot := BootRequested(args);
    if boot {
      s.boot := true;
    }
  }

  /** The leading `-r <file>` pair, then the leading `-x <state>` pair, each only when both entries are there. */
  method PeelLeading(h: Host, state0: Option<string>, args: seq<string>)
    returns (restored: Option<string>, state: Option<string>, argv: seq<string>)
    ensures Peel(h, state0, args) == Peeled(restored, state, argv)
  {
    argv, restored, state := args, None, state0;
    if |argv| >= 2 && argv[0] == "-r" {
      restored := Some(h.absoluteFile(argv[1]));
      argv := argv[2..];
    }
    if |argv| >= 2 && argv[0] == "-x" {
      state := Some(argv[1]);
      argv := argv[2..];
    }
  }

  /** The pre-scan: boot mode is on when any argument is exactly `-b`, wherever it stands. */
  method BootRequested(args: seq<string>) returns (boot: bool)
    ensures boot <==> "-b" in args
  {
    boot := false;
    var n := 0;
    while n < |args|
      invariant 0 <= n <= |args|
      invariant boot <==> "-b" in args[..n]
    {
      assert args[..n + 1] == args[..n] + [args[n]];
      if args[n] == "-b" {
        boot := true;
      }
      n := n + 1;
    }
    assert args[..n] == args;
  }

  /** The two branches before the flag loop: the options of the saved state, or the defaults. */
  method SetBranchOptions(o: Options, s: Status, d: SystemDefaults, image: Option<ImageOptions>)
    modifies o
    ensures Snap(o, s, false, false) == BranchConfig(old(Snap(o, s, false, false)), d, image)
  {
    match image
    case Some(i) =>
      o.localSize := i.localSize;
      o.globalSize := i.globalSize;
      o.trailSize := i.trailSize;
      o.argumentSize := i.argumentSize;
      o.lockSize := i.lockSize;
      o.goal := i.goal;
      o.topLevel := i.topLevel;
      o.initFile := i.initFile;
    case None =>
      o.compileOut := DefaultCompileOut;
      o.localSize := d.local * K;
      o.globalSize := d.global * K;
      o.trailSize := d.trail * K;
      o.argumentSize := d.argument * K;
      o.lockSize := d.lock * K;
      o.goal := d.goal;
      o.topLevel := d.toplevel;
      o.initFile := d.startup;
  }

  // ---------------------------------------------------------------------------
  // Properties of startProlog
  // ---------------------------------------------------------------------------

  /** The files of a launch are the arguments that follow the leading pairs and the flags. */
  lemma FilesEndCommandLine(prior: Config, h: Host, d: SystemDefaults, loader: string -> Option<ImageOptions>,
                            dynamicStacks: bool, args: seq<string>)
    ensures var r := Resolve(prior, h, d, loader, dynamicStacks, args);
            r.Launch? ==> IsSuffix(r.files, args)
  {
    var r := Resolve(prior, h, d, loader, dynamicStacks, args);
    if r.Launch? {
      var start := prior.(notty := d.notty || InferiorProcess(h), boot := "-b" in args);
      var p := Peel(h, d.state, args);
      var image := if p.state.Some? && !start.boot then loader(p.state.value) else None;
      var k := Configure(start, h, d, image, p.rest, dynamicStacks);
      assert k.Done? && r.files == k.rest;
      ConfigureRestSuffix(start, h, d, image, p.rest, dynamicStacks);
      PeelRestSuffix(h, d.state, args);
      SuffixTransitive(r.files, p.rest, args);
    }
  }

  /** What the flag loop of startProlog leaves as files is a suffix of what it was given. */
  lemma ConfigureRestSuffix(start: Config, h: Host, d: SystemDefaults, image: Option<ImageOptions>,
                            rest: seq<string>, dynamicStacks: bool)
    ensures var k := Configure(start, h, d, image, rest, dynamicStacks);
            k.Done? ==> IsSuffix(k.rest, rest)
  {
    var c := BranchConfig(start, d, image);
    if Scan(c, rest, dynamicStacks).Done? {
      ScanRestSuffix(c, rest, dynamicStacks);
    }
  }

  /**
   * With `-b` anywhere among the arguments, even among the files, boot mode
   * is on: the saved state is not read, the flag loop cannot turn boot mode
   * off, and unless `-o` named the output the proposed startup file is the
   * output.
   */
  lemma BootMode(prior: Config, h: Host, d: SystemDefaults, loader: string -> Option<ImageOptions>,
                 dynamicStacks: bool, args: seq<string>)
    requires "-b" in args
    ensures var r := Resolve(prior, h, d, loader, dynamicStacks, args);
            !r.LoadFailed? &&
            (r.Launch? ==> r.cfg.boot &&
                           (r.cfg.explicitCompileOut || r.cfg.compileOut == ProposedStartupFile(h, d.home, d.machine)))
  {
    var start := prior.(notty := d.notty || InferiorProcess(h), boot := true);
    ConfigureBoot(start, h, d, None, Peel(h, d.state, args).rest, dynamicStacks);
  }

  /**
   * In boot mode the state loader is never called: two loaders give the same
   * outcome, so the saved state cannot affect the launch.
   */
  lemma BootIgnoresLoader(prior: Config, h: Host, d: SystemDefaults, l1: string -> Option<ImageOptions>,
                          l2: string -> Option<ImageOptions>, dynamicStacks: bool, args: seq<string>)
    requires "-b" in args
    ensures Resolve(prior, h, d, l1, dynamicStacks, args) == Resolve(prior, h, d, l2, dynamicStacks, args)
  {
  }

  /** Started in boot mode, the flag loop ends in boot mode with the boot output file unless `-o` was given. */
  lemma ConfigureBoot(start: Config, h: Host, d: SystemDefaults, image: Option<ImageOptions>,
                      rest: seq<string>, dynamicStacks: bool)
    requires start.boot
    ensures var r := Configure(start, h, d, image, rest, dynamicStacks);
            r.Done? ==> r.cfg.boot &&
                        (r.cfg.explicitCompileOut || r.cfg.compileOut == ProposedStartupFile(h, d.home, d.machine))
  {
    var c := BranchConfig(start, d, image);
    if Scan(c, rest, dynamicStacks).Done? {
      ScanKeepsBoot(c, rest, dynamicStacks);
    }
  }

  /**
   * The boot compilation command `-b <file>`: the built-in defaults, not a
   * saved state, and the proposed startup file as the output.
   */
  lemma BootCompilation(prior: Config, h: Host, d: SystemDefaults, loader: string -> Option<ImageOptions>,
                        dynamicStacks: bool, file: string)
    requires !IsFlagToken(file)
    ensures var start := prior.(notty := d.notty || InferiorProcess(h), boot := true);
            Resolve(prior, h, d, loader, dynamicStacks, ["-b", file]) ==
            Launch(BranchConfig(start, d, None).(compileOut := ProposedStartupFile(h, d.home, d.machine)),
                   d.state, None, [file])
  {
    var args := ["-b", file];
    var start := prior.(notty := d.notty || InferiorProcess(h), boot := true);
    assert "-b" in args;
    assert Peel(h, d.state, args) == Peeled(None, d.state, args);
    var c := BranchConfig(start, d, None);
    assert "-b"[1..] == "b";
    TokenThenScan(c, "-b", [file], dynamicStacks);
    assert ScanToken(c, "-b", 1, [file], dynamicStacks) == Done(c, [file]);
  }

  /** A `-b` standing among the files still turns boot mode on; it stays in the file list. */
  lemma LateBootStillBoots(prior: Config, h: Host, d: SystemDefaults, loader: string -> Option<ImageOptions>,
                           dynamicStacks: bool, file: string)
    requires !IsFlagToken(file)
    ensures var r := Resolve(prior, h, d, loader, dynamicStacks, [file, "-b"]);
            r.Launch? && r.cfg.boot && r.files == [file, "-b"] && r.state == d.state
  {
  }

  /**
   * Without a state and without flags the options are the defaults: sizes in
   * kilobytes times 1024, "a.out" as the compile output, and every argument a
   * file.
   */
  lemma PlainDefaults(prior: Config, h: Host, d: SystemDefaults, loader: string -> Option<ImageOptions>,
                      dynamicStacks: bool, args: seq<string>)
    requires d.state.None? && "-b" !in args && (args == [] || !IsFlagToken(args[0]))
    ensures Resolve(prior, h, d, loader, dynamicStacks, args) ==
            Launch(Config(d.local * K, d.global * K, d.trail * K, d.argument * K, d.lock * K,
                          d.goal, d.toplevel, d.startup, "a.out",
                          d.notty || InferiorProcess(h), prior.debugLevel, prior.optimise, false, false, false),
                   None, None, args)
  {
  }

  /** Without flags the configuration is the one the branch chose, with the boot output file in boot mode. */
  lemma NoFlags(start: Config, h: Host, d: SystemDefaults, image: Option<ImageOptions>,
                args: seq<string>, dynamicStacks: bool)
    requires args == [] || !IsFlagToken(args[0])
    ensures Configure(start, h, d, image, args, dynamicStacks) == Done(BootOutput(h, d, BranchConfig(start, d, image)), args)
  {
  }

  /** Arguments that do not start with a flag hold no leading pair. */
  lemma NothingPeeled(h: Host, state: Option<string>, args: seq<string>)
    requires args == [] || !IsFlagToken(args[0])
    ensures Peel(h, state, args) == Peeled(None, state, args)
    ensures args == [] || args[0] != "-help"
  {
  }

  /**
   * The flags apply on top of the options of a saved state as they do on
   * top of the defaults: `-L<n>` after loading a state sets the local stack
   * and leaves the other options of the state alone.
   */
  lemma ImageFlagsStillApply(prior: Config, h: Host, d: SystemDefaults, loader: string -> Option<ImageOptions>,
                             dynamicStacks: bool, n: nat, files: seq<string>)
    requires d.state.Some? && loader(d.state.value).Some?
    requires "-b" !in files && (files == [] || !IsFlagToken(files[0]))
    ensures var i := loader(d.state.value).value;
            var start := prior.(notty := d.notty || InferiorProcess(h), boot := false);
            Resolve(prior, h, d, loader, dynamicStacks, ["-L" + Decimal(n)] + files) ==
            Launch(BranchConfig(start, d, Some(i)).(localSize := n * 1024), d.state, None, files)
  {
    var tok := "-L" + Decimal(n);
    var args := [tok] + files;
    assert args[0] == tok && args[1..] == files;
    assert tok[1] == 'L';
    assert "-b" !in args by {
      assert tok != "-b";
      forall m | 0 <= m < |args| ensures args[m] != "-b" {
        if m > 0 { assert args[m] == files[m - 1]; }
      }
    }
    assert Peel(h, d.state, args) == Peeled(None, d.state, args) by {
      assert tok != "-r" && tok != "-x";
    }
    var start := prior.(notty := d.notty || InferiorProcess(h), boot := false);
    LocalSizeToken(BranchConfig(start, d, loader(d.state.value)), n, files, dynamicStacks);
  }

  /** `-help` as the first argument after the leading pairs calls usage(). */
  lemma HelpFirst(prior: Config, h: Host, d: SystemDefaults, loader: string -> Option<ImageOptions>,
                  dynamicStacks: bool, more: seq<string>)
    ensures Resolve(prior, h, d, loader, dynamicStacks, ["-help"] + more) == UsageExit
  {
  }

  /**
   * `-x <state>` replaces the state of the defaults: without `-b` that state
   * is read, and the launch fails exactly when it cannot be read.
   */
  lemma ExplicitState(prior: Config, h: Host, d: SystemDefaults, loader: string -> Option<ImageOptions>,
                      dynamicStacks: bool, st: string, more: seq<string>)
    requires st != "-b" && "-b" !in more && (more == [] || more[0] != "-help")
    ensures var r := Resolve(prior, h, d, loader, dynamicStacks, ["-x", st] + more);
            (r.LoadFailed? <==> loader(st).None?) &&
            (r.Launch? ==> r.state == Some(st) && r.restored.None?)
  {
  }

  /**
   * The pairs are recognised only in the order `-r`, then `-x`: after `-x`
   * a `-r` is an ordinary flag token, which the switch skips, and its
   * argument becomes a file.
   */
  lemma RestoreAfterStateIsFile(prior: Config, h: Host, d: SystemDefaults, loader: string -> Option<ImageOptions>,
                                dynamicStacks: bool, st: string, file: string)
    requires st != "-b" && !IsFlagToken(file)
    ensures var r := Resolve(prior, h, d, loader, dynamicStacks, ["-x", st, "-r", file]);
            r.Launch? ==> r.restored.None? && r.state == Some(st) && r.files == [file]
  {
    var args := ["-x", st, "-r", file];
    assert args[2..] == ["-r"] + [file];
    assert "-b" !in args;
    assert Peel(h, d.state, args) == Peeled(None, Some(st), ["-r"] + [file]);
    var start := prior.(notty := d.notty || InferiorProcess(h), boot := false);
    var c := BranchConfig(start, d, loader(st));
    assert "-r"[1..] != "tty" && Skipped("-r"[1]);
    SkippedToken(c, "-r", [file], dynamicStacks);
    assert Scan(c, [file], dynamicStacks) == Done(c, [file]);
  }

  /** The leading `-r <file>` pair records the absolute path of the file as the restored state. */
  lemma RestoredIsAbsolute(prior: Config, h: Host, d: SystemDefaults, loader: string -> Option<ImageOptions>,
                           dynamicStacks: bool, file: string, more: seq<string>)
    ensures var r := Resolve(prior, h, d, loader, dynamicStacks, ["-r", file] + more);
            r.Launch? ==> r.restored == Some(h.absoluteFile(file))
  {
  }

  /**
   * Under Emacs tty control is off, but a `+tty` flag turns it back on:
   * the environment only sets the starting value.
   */
  lemma TtyFlagOverridesEmacs(prior: Config, h: Host, d: SystemDefaults, loader: string -> Option<ImageOptions>,
                              dynamicStacks: bool)
    requires InferiorProcess(h)
    ensures var r := Resolve(prior, h, d, loader, dynamicStacks, []);
            r.Launch? ==> r.cfg.notty
    ensures var r := Resolve(prior, h, d, loader, dynamicStacks, ["+tty"]);
            r.Launch? ==> !r.cfg.notty
  {
  }

  /**
   * A fresh start always has a state to load, since findState never
   * returns NULL; so unless `-b` is given the built-in defaults are never
   * used, and a state that cannot be read stops the launch.
   */
  lemma FreshStartReadsState(prior: Config, h: Host, b: Build, staleBufferExists: bool,
                             loader: string -> Option<ImageOptions>, dynamicStacks: bool, args: seq<string>)
    requires InitialDefaults(h, b, staleBufferExists).Ready?
    requires "-b" !in args && forall st :: loader(st).None?
    ensures Resolve(prior, h, InitialDefaults(h, b, staleBufferExists).defaults, loader, dynamicStacks, args)
            in {UsageExit, LoadFailed}
  {
  }
}
