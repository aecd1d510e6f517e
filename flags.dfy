/**
 * The command-line flag tokenizer of startProlog (src/pl-main.c): the global
 * `options` and `status` records it writes, and the state machine over the
 * argument vector and the character cursor inside the current token.
 */
module Flags {
  import opened Numerals

  /** The `K` of the source: sizes are given in kilobytes and stored in bytes. */
  const K := 1024

  /** The global `options` record: the effective launch configuration. */
  class Options {
    var localSize: int
    var globalSize: int
    var trailSize: int
    var argumentSize: int
    var lockSize: int
    var goal: string
    var topLevel: string
    var initFile: string
    var compileOut: string
  }

  /** The global `status` record: process-wide flags. */
  class Status {
    var notty: bool
    var debugLevel: int
    var optimise: bool
    var boot: bool
    var ioInitialised: bool
    var initialised: bool
    var extendMode: bool
  }

  /**
   * The values the tokenizer reads and writes: the fields of `options`, the
   * four `status` flags, and startProlog's locals `compile` and
   * `explicit_compile_out`.
   */
  datatype Config = Config(
    localSize: int, globalSize: int, trailSize: int, argumentSize: int, lockSize: int,
    goal: string, topLevel: string, initFile: string, compileOut: string,
    notty: bool, debugLevel: int, optimise: bool, boot: bool,
    compile: bool, explicitCompileOut: bool)

  function Snap(o: Options, s: Status, compile: bool, explicitCompileOut: bool): Config
    reads o, s
  {
    Config(o.localSize, o.globalSize, o.trailSize, o.argumentSize, o.lockSize,
           o.goal, o.topLevel, o.initFile, o.compileOut,
           s.notty, s.debugLevel, s.optimise, s.boot,
           compile, explicitCompileOut)
  }

  /** Either usage() was called (the process halts with status 1), or the scan ended with `rest` unread. */
  datatype ScanOutcome = Usage | Done(cfg: Config, rest: seq<string>)

  /** A token the flag loop accepts: one that starts with '-' or '+'. */
  predicate IsFlagToken(t: string)
  {
    |t| > 0 && (t[0] == '-' || t[0] == '+')
  }

  predicate IsSuffix(a: seq<string>, b: seq<string>)
  {
    |a| <= |b| && a == b[|b| - |a|..]
  }

  /** What `-B` does when stacks are not dynamic: 32K local, 8K global and trail, 1K argument and lock. */
  function SmallStacks(c: Config): Config
  {
    c.(localSize := 32 * K, globalSize := 8 * K, trailSize := 8 * K, argumentSize := 1 * K, lockSize := 1 * K)
  }

  /** What one character of a flag token does: go on with the next character, end the token, or call usage(). */
  datatype Step = Next(cfg: Config, more: seq<string>) | Stop(cfg: Config) | Halt

  /** The flags that take the next argument entry: `d`, `o`, `f`, `g` and `t`. */
  predicate TakesArgument(ch: char)
  {
    ch == 'd' || ch == 'o' || ch == 'f' || ch == 'g' || ch == 't'
  }

  /** The flags that end the token: `B` and the five size flags. */
  predicate EndsToken(ch: char)
  {
    ch == 'B' || ch == 'L' || ch == 'G' || ch == 'T' || ch == 'A' || ch == 'P'
  }

  /** An argument flag with its argument: `d` the debug level, `o` the compile output, `f` the init file, `g` the goal, `t` the top level. */
  function TakeArgument(c: Config, ch: char, arg: string): (r: Config)
    requires TakesArgument(ch)
    ensures r.boot == c.boot
  {
    match ch
    case 'd' => c.(debugLevel := Atoi(arg))
    case 'o' => c.(compileOut := arg, explicitCompileOut := true)
    case 'f' => c.(initFile := arg)
    case 'g' => c.(goal := arg)
    case 't' => c.(topLevel := arg)
  }

  /** `B` and the size flags, which read the digits that follow them in the same token. */
  function TokenEnd(c: Config, tok: string, j: nat, dynamicStacks: bool): (r: Config)
    requires j < |tok| && EndsToken(tok[j])
    ensures r.boot == c.boot
  {
    match tok[j]
    case 'B' => if dynamicStacks then c else SmallStacks(c)
    case 'L' => c.(localSize := Atoi(tok[j + 1..]) * K)
    case 'G' => c.(globalSize := Atoi(tok[j + 1..]) * K)
    case 'T' => c.(trailSize := Atoi(tok[j + 1..]) * K)
    case 'A' => c.(argumentSize := Atoi(tok[j + 1..]) * K)
    case 'P' => c.(lockSize := Atoi(tok[j + 1..]) * K)
  }

  /** The remaining characters: `O`, `c` and `b` set a flag, any other is skipped. */
  function SetFlag(c: Config, ch: char): (r: Config)
    ensures c.boot ==> r.boot
  {
    match ch
    case 'O' => c.(optimise := true)
    case 'c' => c.(compile := true)
    case 'b' => c.(boot := true)
    case _ => c
  }

  /**
   * The `switch` on the character at `j` of `tok`; `more` holds the argument
   * entries after the last one consumed. An argument flag with no entry left
   * calls usage(). `dynamicStacks` is the build's O_DYNAMIC_STACKS.
   */
  function FlagStep(c: Config, tok: string, j: nat, more: seq<string>, dynamicStacks: bool): (r: Step)
    requires j < |tok|
  {
    var ch := tok[j];
    if TakesArgument(ch) then
      if |more| > 0 then Next(TakeArgument(c, ch, more[0]), more[1..]) else Halt
    else if EndsToken(ch) then Stop(TokenEnd(c, tok, j, dynamicStacks))
    else Next(SetFlag(c, ch), more)
  }

  /** The characters of `tok` from position `j` on, one step at a time. */
  function ScanToken(c: Config, tok: string, j: nat, more: seq<string>, dynamicStacks: bool): ScanOutcome
    decreases |tok| - j
  {
    if j >= |tok| then Done(c, more)
    else
      match FlagStep(c, tok, j, more, dynamicStacks)
      case Halt => Usage
      case Stop(c') => Done(c', more)
      case Next(c', more') => ScanToken(c', tok, j + 1, more', dynamicStacks)
  }

  /**
   * The flag loop: tokens are read while they start with '-' or '+'; `+tty`
   * and `-tty` set notty, every other token is scanned character by
   * character. What is left is the file list.
   */
  function Scan(c: Config, args: seq<string>, dynamicStacks: bool): (r: ScanOutcome)
    ensures r.Done? ==> r.rest == [] || !IsFlagToken(r.rest[0])
    decreases |args|
  {
    if |args| == 0 || !IsFlagToken(args[0]) then Done(c, args)
    else if args[0][1..] == "tty" then Scan(c.(notty := args[0][0] == '-'), args[1..], dynamicStacks)
    else
      match ScanToken(c, args[0], 1, args[1..], dynamicStacks)
      case Usage => Usage
      case Done(c', rest) =>
        TokenConsumption(c, args[0], 1, args[1..], dynamicStacks);
        Scan(c', rest, dynamicStacks)
  }

  /** Scanning continues with the rest of the arguments once a token is done. */
  function Continue(r: ScanOutcome, dynamicStacks: bool): ScanOutcome
  {
    match r
    case Usage => Usage
    case Done(c, rest) => Scan(c, rest, dynamicStacks)
  }

  /** How the flag loop goes on after one character. */
  datatype Control = Advance | EndToken | CallUsage

  /**
   * The `switch` of the flag loop on one character, on the records: `argv[0]`
   * is the current token or the last entry consumed, and a flag that takes an
   * argument consumes `argv[1]`. The three kinds of case are ArgumentFlag,
   * SizeFlag and SwitchFlag.
   */
  method ApplyFlag(o: Options, s: Status, tok: string, j: nat, argv: seq<string>, dynamicStacks: bool,
                   compile: bool, explicitCompileOut: bool)
    returns (control: Control, argv': seq<string>, compile': bool, explicitCompileOut': bool)
    requires j < |tok| && |argv| >= 1
    modifies o, s`debugLevel, s`optimise, s`boot
    ensures var r := FlagStep(old(Snap(o, s, compile, explicitCompileOut)), tok, j, argv[1..], dynamicStacks);
            match control
            case CallUsage => r.Halt?
            case EndToken => r == Stop(Snap(o, s, compile', explicitCompileOut'))
            case Advance => |argv'| >= 1 && r == Next(Snap(o, s, compile', explicitCompileOut'), argv'[1..])
    ensures control != CallUsage ==> 1 <= |argv'| <= |argv|
    ensures control == EndToken ==> argv' == argv
  {
    if TakesArgument(tok[j]) {
      compile' := compile;
      control, argv', explicitCompileOut' := ArgumentFlag(o, s, tok, j, argv, dynamicStacks, compile, explicitCompileOut);
    } else if EndsToken(tok[j]) {
      control, argv', compile', explicitCompileOut' := EndToken, argv, compile, explicitCompileOut;
      SizeFlag(o, s, tok, j, dynamicStacks, compile, explicitCompileOut);
    } else {
      control, argv', explicitCompileOut' := Advance, argv, explicitCompileOut;
      compile' := SwitchFlag(o, s, tok[j], compile, explicitCompileOut);
    }
  }

  /** `d`, `o`, `f`, `g` and `t`: take `argv[1]`, or call usage() when there is none. */
  method ArgumentFlag(o: Options, s: Status, tok: string, j: nat, argv: seq<string>, dynamicStacks: bool,
                      compile: bool, explicitCompileOut: bool)
    returns (control: Control, argv': seq<string>, explicitCompileOut': bool)
    requires j < |tok| && |argv| >= 1 && TakesArgument(tok[j])
    modifies o`compileOut, o`initFile, o`goal, o`topLevel, s`debugLevel
    ensures var r := FlagStep(old(Snap(o, s, compile, explicitCompileOut)), tok, j, argv[1..], dynamicStacks);
            control != EndToken &&
            (control == CallUsage ==> r.Halt?) &&
            (control == Advance ==> |argv| > 1 && argv' == argv[1..] &&
                                    r == Next(Snap(o, s, compile, explicitCompileOut'), argv'[1..]))
  {
    if |argv| <= 1 {
      return CallUsage, argv, explicitCompileOut;
    }
    control, argv', explicitCompileOut' := Advance, argv[1..], explicitCompileOut;
    match tok[j]
    case 'd' =>
      s.debugLevel := Atoi(argv[1]);
    case 'o' =>
      o.compileOut := argv[1];
      explicitCompileOut' := true;
    case 'f' =>
      o.initFile := argv[1];
    case 'g' =>
      o.goal := argv[1];
    case 't' =>
      o.topLevel := argv[1];
  }

  /** `B` and the size flags `L`, `G`, `T`, `A` and `P`, which end the token. */
  method SizeFlag(o: Options, s: Status, tok: string, j: nat, dynamicStacks: bool,
                  ghost compile: bool, ghost explicitCompileOut: bool)
    requires j < |tok| && EndsToken(tok[j])
    modifies o`localSize, o`globalSize, o`trailSize, o`argumentSize, o`lockSize
    ensures Snap(o, s, compile, explicitCompileOut) ==
            TokenEnd(old(Snap(o, s, compile, explicitCompileOut)), tok, j, dynamicStacks)
  {
    match tok[j]
    case 'B' =>
      if !dynamicStacks {
        o.localSize := 32 * K;
        o.globalSize := 8 * K;
        o.trailSize := 8 * K;
        o.argumentSize := 1 * K;
        o.lockSize := 1 * K;
      }
    case 'L' =>
      o.localSize := Atoi(tok[j + 1..]) * K;
    case 'G' =>
      o.globalSize := Atoi(tok[j + 1..]) * K;
    case 'T' =>
      o.trailSize := Atoi(tok[j + 1..]) * K;
    case 'A' =>
      o.argumentSize := Atoi(tok[j + 1..]) * K;
    case 'P' =>
      o.lockSize := Atoi(tok[j + 1..]) * K;
  }

  /** `O`, `c` and `b` set a flag and the scan goes on in the token; other characters are skipped. */
  method SwitchFlag(o: Options, s: Status, ch: char, compile: bool, ghost explicitCompileOut: bool)
    returns (compile': bool)
    requires !TakesArgument(ch) && !EndsToken(ch)
    modifies s`optimise, s`boot
    ensures Snap(o, s, compile', explicitCompileOut) == SetFlag(old(Snap(o, s, compile, explicitCompileOut)), ch)
  {
    compile' := compile;
    match ch
    case 'O' =>
      s.optimise := true;
    case 'c' =>
      compile' := true;
    case 'b' =>
      s.boot := true;
    case _ =>
  }

  /**
   * The flag loop of startProlog, as the source runs it: tokens are read while
   * they start with '-' or '+'. `usage` reports a call of usage(); otherwise
   * `rest` is the file list and the records hold what the scan wrote.
   */
  method ScanFlags(o: Options, s: Status, args: seq<string>, dynamicStacks: bool, compile0: bool, explicit0: bool)
    returns (usage: bool, rest: seq<string>, compile: bool, explicitCompileOut: bool)
    modifies o, s`notty, s`debugLevel, s`optimise, s`boot
    ensures var r := Scan(old(Snap(o, s, compile0, explicit0)), args, dynamicStacks);
            usage == r.Usage? &&
            (!usage ==> rest == r.rest && Snap(o, s, compile, explicitCompileOut) == r.cfg)
  {
    ghost var goal := Scan(Snap(o, s, compile0, explicit0), args, dynamicStacks);
    compile, explicitCompileOut := compile0, explicit0;
    var argv := args;
    while |argv| > 0 && IsFlagToken(argv[0])
      invariant Scan(Snap(o, s, compile, explicitCompileOut), argv, dynamicStacks) == goal
      decreases |argv|
    {
      var tok := argv[0];
      if tok[1..] == "tty" {
        s.notty := tok[0] == '-';
        argv := argv[1..];
        continue;
      }
      ghost var before := Snap(o, s, compile, explicitCompileOut);
      assert Continue(ScanToken(before, tok, 1, argv[1..], dynamicStacks), dynamicStacks) == goal;
      var argv';
      usage, argv', compile, explicitCompileOut := ScanTokenFlags(o, s, tok, argv, dynamicStacks, compile, explicitCompileOut);
      if usage {
        return true, [], compile, explicitCompileOut;
      }
      argv := argv'[1..];
    }
    return false, argv, compile, explicitCompileOut;
  }

  /**
   * The inner loop over the characters of one flag token `tok == argv[0]`:
   * `argv'[0]` is the token or, once a flag has consumed entries, the last
   * entry consumed, so the scan resumes at `argv'[1..]`.
   */
  method ScanTokenFlags(o: Options, s: Status, tok: string, argv: seq<string>, dynamicStacks: bool,
                        compile0: bool, explicit0: bool)
    returns (usage: bool, argv': seq<string>, compile: bool, explicitCompileOut: bool)
    requires |argv| >= 1
    modifies o, s`debugLevel, s`optimise, s`boot
    ensures var r := ScanToken(old(Snap(o, s, compile0, explicit0)), tok, 1, argv[1..], dynamicStacks);
            usage == r.Usage? &&
            (!usage ==> 1 <= |argv'| <= |argv| && argv'[1..] == r.rest &&
                        Snap(o, s, compile, explicitCompileOut) == r.cfg)
  {
    ghost var goal := ScanToken(Snap(o, s, compile0, explicit0), tok, 1, argv[1..], dynamicStacks);
    compile, explicitCompileOut := compile0, explicit0;
    argv' := argv;
    var j := 1;
    while j < |tok|
      invariant 1 <= j && 1 <= |argv'| <= |argv|
      invariant ScanToken(Snap(o, s, compile, explicitCompileOut), tok, j, argv'[1..], dynamicStacks) == goal
      decreases |tok| - j
    {
      ghost var before := Snap(o, s, compile, explicitCompileOut);
      ghost var more := argv'[1..];
      var control;
      control, argv', compile, explicitCompileOut := ApplyFlag(o, s, tok, j, argv', dynamicStacks, compile, explicitCompileOut);
      if control == CallUsage {
        assert ScanToken(before, tok, j, more, dynamicStacks) == Usage;
        return true, argv', compile, explicitCompileOut;
      } else if control == EndToken {
        assert ScanToken(before, tok, j, more, dynamicStacks) == Done(Snap(o, s, compile, explicitCompileOut), argv'[1..]);
        return false, argv', compile, explicitCompileOut;
      }
      assert ScanToken(before, tok, j, more, dynamicStacks) ==
             ScanToken(Snap(o, s, compile, explicitCompileOut), tok, j + 1, argv'[1..], dynamicStacks);
      j := j + 1;
    }
    usage := false;
  }

  // ---------------------------------------------------------------------------
  // Properties of the tokenizer
  // ---------------------------------------------------------------------------

  /** How many argument entries the characters of `tok` from `j` on ask for. */
  function Consumed(tok: string, j: nat): nat
    decreases |tok| - j
  {
    if j >= |tok| then 0
    else if TakesArgument(tok[j]) then 1 + Consumed(tok, j + 1)
    else if EndsToken(tok[j]) then 0
    else Consumed(tok, j + 1)
  }

  /**
   * A token consumes exactly as many following entries as it has argument
   * flags before its end, and calls usage() exactly when fewer remain.
   */
  lemma {:induction false} TokenConsumption(c: Config, tok: string, j: nat, more: seq<string>, dynamicStacks: bool)
    ensures ScanToken(c, tok, j, more, dynamicStacks).Usage? <==> |more| < Consumed(tok, j)
    ensures ScanToken(c, tok, j, more, dynamicStacks).Done? ==>
              ScanToken(c, tok, j, more, dynamicStacks).rest == more[Consumed(tok, j)..]
    decreases |tok| - j
  {
    if j < |tok| {
      match FlagStep(c, tok, j, more, dynamicStacks)
      case Halt =>
      case Stop(_) =>
      case Next(c', more') =>
        TokenConsumption(c', tok, j + 1, more', dynamicStacks);
        if TakesArgument(tok[j]) && Consumed(tok, j) <= |more| {
          assert more[1..][Consumed(tok, j + 1)..] == more[Consumed(tok, j)..];
        }
    }
  }

  /** What the scan leaves unread is a suffix of the arguments: the file list ends the command line. */
  lemma {:induction false} ScanRestSuffix(c: Config, args: seq<string>, dynamicStacks: bool)
    requires Scan(c, args, dynamicStacks).Done?
    ensures IsSuffix(Scan(c, args, dynamicStacks).rest, args)
    decreases |args|
  {
    var r := Scan(c, args, dynamicStacks);
    if |args| > 0 && IsFlagToken(args[0]) {
      if args[0][1..] == "tty" {
        ScanRestSuffix(c.(notty := args[0][0] == '-'), args[1..], dynamicStacks);
        SuffixOfDrop(r.rest, args, 1);
      } else {
        var t := ScanToken(c, args[0], 1, args[1..], dynamicStacks);
        TokenConsumption(c, args[0], 1, args[1..], dynamicStacks);
        ScanRestSuffix(t.cfg, t.rest, dynamicStacks);
        SuffixOfDrop(t.rest, args[1..], Consumed(args[0], 1));
        SuffixOfDrop(r.rest, args[1..], |args| - 1 - |t.rest|);
        SuffixOfDrop(r.rest, args, 1);
      }
    } else {
      assert args[0..] == args;
    }
  }

  lemma SuffixOfDrop(a: seq<string>, b: seq<string>, n: nat)
    requires n <= |b| && IsSuffix(a, b[n..])
    ensures IsSuffix(a, b)
  {
  }

  lemma SuffixTransitive(a: seq<string>, b: seq<string>, c: seq<string>)
    requires IsSuffix(a, b) && IsSuffix(b, c)
    ensures IsSuffix(a, c)
  {
  }

  /** One step reads at most the first of the entries after the token, so appending entries changes nothing else. */
  lemma StepExtend(c: Config, tok: string, j: nat, more: seq<string>, extra: seq<string>, dynamicStacks: bool)
    requires j < |tok| && !FlagStep(c, tok, j, more, dynamicStacks).Halt?
    ensures var r := FlagStep(c, tok, j, more, dynamicStacks);
            FlagStep(c, tok, j, more + extra, dynamicStacks) ==
              if r.Next? then Next(r.cfg, r.more + extra) else r
  {
  }

  /** Entries appended after those a token consumes are left to the rest of the scan. */
  lemma {:induction false} TokenExtend(c: Config, tok: string, j: nat, more: seq<string>, extra: seq<string>, dynamicStacks: bool)
    requires ScanToken(c, tok, j, more, dynamicStacks).Done?
    ensures var r := ScanToken(c, tok, j, more, dynamicStacks);
            ScanToken(c, tok, j, more + extra, dynamicStacks) == Done(r.cfg, r.rest + extra)
    decreases |tok| - j
  {
    if j < |tok| {
      var step := FlagStep(c, tok, j, more, dynamicStacks);
      StepExtend(c, tok, j, more, extra, dynamicStacks);
      if step.Next? {
        TokenExtend(step.cfg, tok, j + 1, step.more, extra, dynamicStacks);
      }
    }
  }

  /**
   * The scan is a left-to-right fold: once `a` is scanned to its end, scanning
   * `a + b` goes on with `b` from the configuration `a` left behind.
   */
  lemma {:induction false} ScanThen(c: Config, a: seq<string>, b: seq<string>, dynamicStacks: bool)
    requires Scan(c, a, dynamicStacks).Done? && Scan(c, a, dynamicStacks).rest == []
    ensures Scan(c, a + b, dynamicStacks) == Scan(Scan(c, a, dynamicStacks).cfg, b, dynamicStacks)
    decreases |a|
  {
    if a == [] {
      assert a + b == b;
    } else {
      assert (a + b)[0] == a[0];
      assert (a + b)[1..] == a[1..] + b;
      if a[0][1..] == "tty" {
        ScanThen(c.(notty := a[0][0] == '-'), a[1..], b, dynamicStacks);
      } else {
        var t := ScanToken(c, a[0], 1, a[1..], dynamicStacks);
        TokenConsumption(c, a[0], 1, a[1..], dynamicStacks);
        TokenExtend(c, a[0], 1, a[1..], b, dynamicStacks);
        ScanThen(t.cfg, t.rest, b, dynamicStacks);
      }
    }
  }

  /** A flag token other than `+tty`/`-tty` is scanned character by character, then the scan goes on. */
  lemma TokenThenScan(c: Config, tok: string, more: seq<string>, dynamicStacks: bool)
    requires IsFlagToken(tok) && tok[1..] != "tty"
    ensures Scan(c, [tok] + more, dynamicStacks) == Continue(ScanToken(c, tok, 1, more, dynamicStacks), dynamicStacks)
  {
  }

  /** A `-g` at the end of the flags decides the goal, whatever came before. */
  lemma LastGoalWins(c: Config, a: seq<string>, x: string, dynamicStacks: bool)
    requires Scan(c, a, dynamicStacks).Done? && Scan(c, a, dynamicStacks).rest == []
    ensures Scan(c, a + ["-g", x], dynamicStacks) == Done(Scan(c, a, dynamicStacks).cfg.(goal := x), [])
  {
    ScanThen(c, a, ["-g", x], dynamicStacks);
    var c1 := Scan(c, a, dynamicStacks).cfg;
    assert "-g"[1..] == "g";
    assert ScanToken(c1, "-g", 1, [x], dynamicStacks) == ScanToken(c1.(goal := x), "-g", 2, [], dynamicStacks);
  }

  /** A size flag at the end of the flags decides that size, whatever came before. */
  lemma LastLocalSizeWins(c: Config, a: seq<string>, n: nat, dynamicStacks: bool)
    requires Scan(c, a, dynamicStacks).Done? && Scan(c, a, dynamicStacks).rest == []
    ensures Scan(c, a + ["-L" + Decimal(n)], dynamicStacks) ==
            Done(Scan(c, a, dynamicStacks).cfg.(localSize := n * K), [])
  {
    ScanThen(c, a, ["-L" + Decimal(n)], dynamicStacks);
    LocalSizeToken(Scan(c, a, dynamicStacks).cfg, n, [], dynamicStacks);
  }

  /**
   * `-L<n>` sets the local stack to n kilobytes and ends the token: the next
   * entry is not consumed.
   */
  lemma LocalSizeToken(c: Config, n: nat, more: seq<string>, dynamicStacks: bool)
    requires more == [] || !IsFlagToken(more[0])
    ensures Scan(c, ["-L" + Decimal(n)] + more, dynamicStacks) == Done(c.(localSize := n * K), more)
  {
    var tok := "-L" + Decimal(n);
    assert tok[1] == 'L' && tok[2..] == Decimal(n);
    assert tok[1..] != "tty" by { assert tok[1..][0] == 'L'; }
    TokenThenScan(c, tok, more, dynamicStacks);
    SizeToken(c, tok, n, more, dynamicStacks);
  }

  /** A size flag followed by the decimal spelling of `n` reads `n` and ends the token at once. */
  lemma SizeToken(c: Config, tok: string, n: nat, more: seq<string>, dynamicStacks: bool)
    requires |tok| >= 2 && tok[1] != 'B' && EndsToken(tok[1]) && tok[2..] == Decimal(n)
    ensures Atoi(tok[2..]) == n
    ensures ScanToken(c, tok, 1, more, dynamicStacks) == Done(TokenEnd(c, tok, 1, dynamicStacks), more)
  {
    AtoiOfDecimal(n, []);
    assert Decimal(n) + [] == Decimal(n);
    assert FlagStep(c, tok, 1, more, dynamicStacks) == Stop(TokenEnd(c, tok, 1, dynamicStacks));
  }

  // ---------------------------------------------------------------------------
  // The effect of each flag, as a token of its own
  // ---------------------------------------------------------------------------

  /** An argument flag alone in its token takes the next entry, and the scan goes on after it. */
  lemma ArgumentFlagScan(c: Config, ch: char, x: string, more: seq<string>, dynamicStacks: bool)
    requires TakesArgument(ch)
    ensures Scan(c, [['-', ch], x] + more, dynamicStacks) == Scan(TakeArgument(c, ch, x), more, dynamicStacks)
  {
    var tok := ['-', ch];
    assert [tok, x] + more == [tok] + ([x] + more);
    assert tok[1..] != "tty";
    TokenThenScan(c, tok, [x] + more, dynamicStacks);
    assert ([x] + more)[0] == x && ([x] + more)[1..] == more;
    assert ScanToken(c, tok, 1, [x] + more, dynamicStacks) == ScanToken(TakeArgument(c, ch, x), tok, 2, more, dynamicStacks);
  }

  /** `-d level` sets the debug level to atoi of the next entry. */
  lemma DebugFlag(c: Config, x: string, more: seq<string>, dynamicStacks: bool)
    ensures Scan(c, ["-d", x] + more, dynamicStacks) == Scan(c.(debugLevel := Atoi(x)), more, dynamicStacks)
  {
    ArgumentFlagScan(c, 'd', x, more, dynamicStacks);
  }

  /** `-o file` sets the compile output and marks it as given explicitly. */
  lemma OutputFlag(c: Config, x: string, more: seq<string>, dynamicStacks: bool)
    ensures Scan(c, ["-o", x] + more, dynamicStacks) ==
            Scan(c.(compileOut := x, explicitCompileOut := true), more, dynamicStacks)
  {
    ArgumentFlagScan(c, 'o', x, more, dynamicStacks);
  }

  /** `-f file` sets the init file. */
  lemma InitFileFlag(c: Config, x: string, more: seq<string>, dynamicStacks: bool)
    ensures Scan(c, ["-f", x] + more, dynamicStacks) == Scan(c.(initFile := x), more, dynamicStacks)
  {
    ArgumentFlagScan(c, 'f', x, more, dynamicStacks);
  }

  /** `-g goal` sets the initialisation goal. */
  lemma GoalFlag(c: Config, x: string, more: seq<string>, dynamicStacks: bool)
    ensures Scan(c, ["-g", x] + more, dynamicStacks) == Scan(c.(goal := x), more, dynamicStacks)
  {
    ArgumentFlagScan(c, 'g', x, more, dynamicStacks);
  }

  /** `-t goal` sets the top-level goal. */
  lemma TopLevelFlag(c: Config, x: string, more: seq<string>, dynamicStacks: bool)
    ensures Scan(c, ["-t", x] + more, dynamicStacks) == Scan(c.(topLevel := x), more, dynamicStacks)
  {
    ArgumentFlagScan(c, 't', x, more, dynamicStacks);
  }

  /** A size flag as the first character of a token ends the token: no further entry is consumed. */
  lemma SizeTokenScan(c: Config, tok: string, more: seq<string>, dynamicStacks: bool)
    requires |tok| >= 2 && tok[0] == '-' && EndsToken(tok[1])
    ensures Scan(c, [tok] + more, dynamicStacks) == Scan(TokenEnd(c, tok, 1, dynamicStacks), more, dynamicStacks)
  {
    assert tok[1..] != "tty" by { assert tok[1..][0] == tok[1]; }
    TokenThenScan(c, tok, more, dynamicStacks);
    assert FlagStep(c, tok, 1, more, dynamicStacks) == Stop(TokenEnd(c, tok, 1, dynamicStacks));
  }

  /** A size flag with a decimal number as its token sets that size and consumes nothing more. */
  lemma SizeFlagScan(c: Config, tok: string, n: nat, more: seq<string>, dynamicStacks: bool)
    requires |tok| >= 2 && tok[0] == '-' && tok[1] != 'B' && EndsToken(tok[1]) && tok[2..] == Decimal(n)
    ensures Atoi(tok[2..]) == n
    ensures Scan(c, [tok] + more, dynamicStacks) == Scan(TokenEnd(c, tok, 1, dynamicStacks), more, dynamicStacks)
  {
    AtoiOfDecimal(n, []);
    assert Decimal(n) + [] == Decimal(n);
    SizeTokenScan(c, tok, more, dynamicStacks);
  }

  /** `-L<n>`: n kilobytes of local stack. */
  lemma LocalSizeFlag(c: Config, n: nat, more: seq<string>, dynamicStacks: bool)
    ensures Scan(c, ["-L" + Decimal(n)] + more, dynamicStacks) == Scan(c.(localSize := n * K), more, dynamicStacks)
  {
    var tok := "-L" + Decimal(n);
    assert tok[1] == 'L' && tok[2..] == Decimal(n);
    SizeFlagScan(c, tok, n, more, dynamicStacks);
  }

  /** `-G<n>`: n kilobytes of global stack. */
  lemma GlobalSizeFlag(c: Config, n: nat, more: seq<string>, dynamicStacks: bool)
    ensures Scan(c, ["-G" + Decimal(n)] + more, dynamicStacks) == Scan(c.(globalSize := n * K), more, dynamicStacks)
  {
    var tok := "-G" + Decimal(n);
    assert tok[1] == 'G' && tok[2..] == Decimal(n);
    SizeFlagScan(c, tok, n, more, dynamicStacks);
  }

  /** `-T<n>`: n kilobytes of trail stack. */
  lemma TrailSizeFlag(c: Config, n: nat, more: seq<string>, dynamicStacks: bool)
    ensures Scan(c, ["-T" + Decimal(n)] + more, dynamicStacks) == Scan(c.(trailSize := n * K), more, dynamicStacks)
  {
    var tok := "-T" + Decimal(n);
    assert tok[1] == 'T' && tok[2..] == Decimal(n);
    SizeFlagScan(c, tok, n, more, dynamicStacks);
  }

  /** `-A<n>`: n kilobytes of argument stack. */
  lemma ArgumentSizeFlag(c: Config, n: nat, more: seq<string>, dynamicStacks: bool)
    ensures Scan(c, ["-A" + Decimal(n)] + more, dynamicStacks) == Scan(c.(argumentSize := n * K), more, dynamicStacks)
  {
    var tok := "-A" + Decimal(n);
    assert tok[1] == 'A' && tok[2..] == Decimal(n);
    SizeFlagScan(c, tok, n, more, dynamicStacks);
  }

  /** `-P<n>`: n kilobytes of lock stack. */
  lemma LockSizeFlag(c: Config, n: nat, more: seq<string>, dynamicStacks: bool)
    ensures Scan(c, ["-P" + Decimal(n)] + more, dynamicStacks) == Scan(c.(lockSize := n * K), more, dynamicStacks)
  {
    var tok := "-P" + Decimal(n);
    assert tok[1] == 'P' && tok[2..] == Decimal(n);
    SizeFlagScan(c, tok, n, more, dynamicStacks);
  }

  /** A size is atoi of the rest of the token, so `-L-<n>` gives a negative local stack size. */
  lemma NegativeLocalSize(c: Config, n: nat, more: seq<string>, dynamicStacks: bool)
    ensures Scan(c, ["-L-" + Decimal(n)] + more, dynamicStacks) ==
            Scan(c.(localSize := -(n as int) * K), more, dynamicStacks)
  {
    NegativeLocalEnd(c, n, dynamicStacks);
    SizeTokenScan(c, "-L-" + Decimal(n), more, dynamicStacks);
  }

  lemma NegativeLocalEnd(c: Config, n: nat, dynamicStacks: bool)
    ensures var tok := "-L-" + Decimal(n);
            |tok| >= 2 && tok[0] == '-' && tok[1] == 'L' &&
            TokenEnd(c, tok, 1, dynamicStacks) == c.(localSize := -(n as int) * K)
  {
    var tok := "-L-" + Decimal(n);
    assert tok[1] == 'L' && tok[2..] == "-" + Decimal(n) by {
      assert tok == "-L" + ("-" + Decimal(n));
    }
    MinusSpelling(n);
  }

  /** `-L` without digits sets the local stack size to 0. */
  lemma LocalSizeWithoutDigits(c: Config, more: seq<string>, dynamicStacks: bool)
    ensures Scan(c, ["-L"] + more, dynamicStacks) == Scan(c.(localSize := 0), more, dynamicStacks)
  {
    assert "-L"[1] == 'L' && "-L"[2..] == [];
    SizeTokenScan(c, "-L", more, dynamicStacks);
    AtoiNoDigits([], "", []);
    assert [] + "" + [] == [];
  }

  lemma MinusSpelling(n: nat)
    ensures Atoi("-" + Decimal(n)) == -(n as int)
  {
    AtoiNegative([], n, []);
    assert [] + ("-" + Decimal(n) + []) == "-" + Decimal(n);
  }

  /** A switch flag alone in its token. */
  lemma SwitchFlagScan(c: Config, ch: char, more: seq<string>, dynamicStacks: bool)
    requires !TakesArgument(ch) && !EndsToken(ch)
    ensures Scan(c, [['-', ch]] + more, dynamicStacks) == Scan(SetFlag(c, ch), more, dynamicStacks)
  {
    var tok := ['-', ch];
    assert tok[1..] != "tty";
    TokenThenScan(c, tok, more, dynamicStacks);
    assert ScanToken(c, tok, 1, more, dynamicStacks) == ScanToken(SetFlag(c, ch), tok, 2, more, dynamicStacks);
  }

  /** `-O` turns optimised compilation on. */
  lemma OptimiseFlag(c: Config, more: seq<string>, dynamicStacks: bool)
    ensures Scan(c, ["-O"] + more, dynamicStacks) == Scan(c.(optimise := true), more, dynamicStacks)
  {
    SwitchFlagScan(c, 'O', more, dynamicStacks);
  }

  /** `-c` asks for compilation of the files. */
  lemma CompileFlag(c: Config, more: seq<string>, dynamicStacks: bool)
    ensures Scan(c, ["-c"] + more, dynamicStacks) == Scan(c.(compile := true), more, dynamicStacks)
  {
    SwitchFlagScan(c, 'c', more, dynamicStacks);
  }

  /** `-b` turns boot mode on. */
  lemma BootFlag(c: Config, more: seq<string>, dynamicStacks: bool)
    ensures Scan(c, ["-b"] + more, dynamicStacks) == Scan(c.(boot := true), more, dynamicStacks)
  {
    SwitchFlagScan(c, 'b', more, dynamicStacks);
  }

  /** `-L512`: 512 kilobytes of local stack, and the next entry stays where it is. */
  lemma MinusL512(c: Config, file: string, dynamicStacks: bool)
    requires !IsFlagToken(file)
    ensures Scan(c, ["-L512", file], dynamicStacks) == Done(c.(localSize := 512 * 1024), [file])
  {
    var tok := "-L" + Decimal(512);
    assert tok == "-L512" by {
      SpellDecimal512();
      assert tok == "-L" + "512";
    }
    LocalSizeToken(c, 512, [file], dynamicStacks);
    assert [tok] + [file] == ["-L512", file];
  }

  lemma SpellDecimal512()
    ensures Decimal(512) == "512"
  {
  }

  /**
   * `-B` sets all five sizes to their small values when stacks are not
   * dynamic; a size flag after it changes only its own size.
   */
  lemma SmallStacksThenGlobal(c: Config, n: nat, more: seq<string>)
    requires more == [] || !IsFlagToken(more[0])
    ensures Scan(c, ["-B", "-G" + Decimal(n)] + more, false) == Done(SmallStacks(c).(globalSize := n * K), more)
  {
    var tok := "-G" + Decimal(n);
    assert "-B"[1..] == "B";
    assert ["-B", tok] + more == ["-B"] + ([tok] + more);
    TokenThenScan(c, "-B", [tok] + more, false);
    assert FlagStep(c, "-B", 1, [tok] + more, false) == Stop(SmallStacks(c));
    assert tok[1..] != "tty" by { assert tok[1..][0] == 'G'; }
    TokenThenScan(SmallStacks(c), tok, more, false);
    assert tok[2..] == Decimal(n);
    SizeToken(SmallStacks(c), tok, n, more, false);
  }

  /** With dynamic stacks `-B` changes nothing and still ends its token. */
  lemma SmallStacksIgnoredWhenDynamic(c: Config, more: seq<string>)
    requires more == [] || !IsFlagToken(more[0])
    ensures Scan(c, ["-B"] + more, true) == Done(c, more)
  {
  }

  /** `+tty` and `-tty` set notty to whether the sign is '-', consume only themselves and change nothing else. */
  lemma TtyToken(c: Config, t: string, more: seq<string>, dynamicStacks: bool)
    requires t == "+tty" || t == "-tty"
    ensures Scan(c, [t] + more, dynamicStacks) == Scan(c.(notty := t == "-tty"), more, dynamicStacks)
  {
  }

  /** Argument flags in one token take the following entries in the order they appear. */
  lemma ArgumentsInOrder(c: Config, x: string, y: string, more: seq<string>, dynamicStacks: bool)
    requires more == [] || !IsFlagToken(more[0])
    ensures Scan(c, ["-fg", x, y] + more, dynamicStacks) == Done(c.(initFile := x, goal := y), more)
  {
  }

  /** An argument flag (`-d`, `-o`, `-f`, `-g`, `-t`) with nothing after it calls usage(). */
  lemma MissingArgumentIsUsage(c: Config, ch: char, dynamicStacks: bool)
    requires TakesArgument(ch)
    ensures Scan(c, [['-', ch]], dynamicStacks) == Usage
  {
    assert ['-', ch][1..] != "tty";
  }

  /** A character the switch has no case for. */
  predicate Skipped(ch: char)
  {
    !TakesArgument(ch) && !EndsToken(ch) && ch != 'O' && ch != 'c' && ch != 'b'
  }

  /** Characters the switch has no case for are passed over and change nothing. */
  lemma {:induction false} SkippedRest(c: Config, tok: string, j: nat, more: seq<string>, dynamicStacks: bool)
    requires forall k :: j <= k < |tok| ==> Skipped(tok[k])
    ensures ScanToken(c, tok, j, more, dynamicStacks) == Done(c, more)
    decreases |tok| - j
  {
    if j < |tok| {
      assert FlagStep(c, tok, j, more, dynamicStacks) == Next(c, more);
      SkippedRest(c, tok, j + 1, more, dynamicStacks);
    }
  }

  /** A flag token made only of characters the switch has no case for is consumed and changes nothing. */
  lemma SkippedToken(c: Config, tok: string, more: seq<string>, dynamicStacks: bool)
    requires IsFlagToken(tok) && tok[1..] != "tty"
    requires forall k :: 1 <= k < |tok| ==> Skipped(tok[k])
    ensures Scan(c, [tok] + more, dynamicStacks) == Scan(c, more, dynamicStacks)
  {
    TokenThenScan(c, tok, more, dynamicStacks);
    SkippedRest(c, tok, 1, more, dynamicStacks);
  }

  /** `-help` anywhere but first is an ordinary flag token whose characters are all skipped. */
  lemma HelpNotFirstIgnored(c: Config, more: seq<string>, dynamicStacks: bool)
    ensures Scan(c, ["-help"] + more, dynamicStacks) == Scan(c, more, dynamicStacks)
  {
  }

  /** Boot mode, once on, stays on: no flag clears it. */
  lemma {:induction false} TokenKeepsBoot(c: Config, tok: string, j: nat, more: seq<string>, dynamicStacks: bool)
    requires c.boot && ScanToken(c, tok, j, more, dynamicStacks).Done?
    ensures ScanToken(c, tok, j, more, dynamicStacks).cfg.boot
    decreases |tok| - j
  {
    if j < |tok| {
      match FlagStep(c, tok, j, more, dynamicStacks)
      case Halt =>
      case Stop(_) =>
      case Next(c', more') =>
        TokenKeepsBoot(c', tok, j + 1, more', dynamicStacks);
    }
  }

  lemma {:induction false} ScanKeepsBoot(c: Config, args: seq<string>, dynamicStacks: bool)
    requires c.boot && Scan(c, args, dynamicStacks).Done?
    ensures Scan(c, args, dynamicStacks).cfg.boot
    decreases |args|
  {
    if |args| > 0 && IsFlagToken(args[0]) {
      if args[0][1..] == "tty" {
        ScanKeepsBoot(c.(notty := args[0][0] == '-'), args[1..], dynamicStacks);
      } else {
        var t := ScanToken(c, args[0], 1, args[1..], dynamicStacks);
        TokenConsumption(c, args[0], 1, args[1..], dynamicStacks);
        TokenKeepsBoot(c, args[0], 1, args[1..], dynamicStacks);
        ScanKeepsBoot(t.cfg, t.rest, dynamicStacks);
      }
    }
  }
}
