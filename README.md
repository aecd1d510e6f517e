# SWI-Prolog launcher: home, startup image and command-line options

This project models the start-up logic of SWI-Prolog's `src/pl-main.c` in Dafny
and proves properties of that model. It covers:

- **findHome**: the search for the Prolog home directory. The order is
  `SWI_HOME_DIR` (or `SWIPL` when that is unset), then the marker file `swipl`
  next to the executable's `bin` directory, then the compiled-in default, then
  the drive letters `/c:/pl` … `/b:/pl` on platforms that have them. When none
  of these is found the result is a fatal error.
- **proposeStartupFile**: the executable path with its extension replaced by
  `.qlf`. When the executable is unknown it is `<home>/startup/startup.<machine>`.
- **findState**: the choice between the proposed image,
  `<home>/startup/startup.<machine>` and `<home>/startup/startup`.
- **startProlog, up to the start of Prolog**:
  - the reset of the `status` record;
  - the Emacs and PceEmacs check for tty control;
  - the pre-scan that turns on boot mode when any argument is `-b`;
  - the leading `-r <file>` and `-x <state>` pairs;
  - `-help` in first position;
  - the choice between the options stored in a saved state and the built-in
    defaults, where sizes are given in kilobytes and scaled by 1024 and the
    compile output is `"a.out"`;
  - the flag loop;
  - in boot mode without `-o`, the proposed startup file as the compile output.

The host is one value of type `Platform.Host`. It holds:

- the executable path (`Symbols`) and the environment;
- `PrologPath`, `AbsoluteFile` and `DirName`;
- the existence tests for files and directories;
- the first line of a file, as `fgets` reads it;
- whether the build has drive letters, and which drives are present.

These operations are uninterpreted: the model states its results in terms of
them and fixes nothing about them.

Modules:

- `Numerals`: C's `atoi`, which the flag loop uses for `-d` and the stack sizes.
  Its lemmas show that `atoi` skips leading white space, honours a sign, stops
  at the first non-digit, gives 0 when no digit follows the white space and
  the sign, and reads back every decimal spelling.
- `Locate`: findHome as a method proved equal to the first-match function
  `HomeSearch`. proposeStartupFile as a method with the extension scan as a
  loop, proved equal to `ProposedStartupFile`. findState as a function.
- `Flags`: the global `options` and `status` records as the classes `Options`
  and `Status`, and the flag loop in two forms:
  - `Scan`/`ScanToken`/`FlagStep`: a pure specification over the argument
    vector and the cursor inside the current token;
  - `ScanFlags`/`ScanTokenFlags`/`ApplyFlag`: a method with two nested loops.
    It writes the records field by field, like the C loop, and is proved to
    reach the state the specification describes. `argv[0]` is the current token
    or the last entry consumed by a flag, exactly like the C pointer.
- `Startup`: startProlog.
  - `Resolve` is a function of what startProlog reads. It covers the records
    before the call, the host, `systemDefaults`, the state loader, whether
    stacks are dynamic (`O_DYNAMIC_STACKS`) and the arguments.
  - `StartProlog` is the method on the records, proved equal to `Resolve`.
  - The lemmas state the resulting behaviour. Examples: the file list is a
    suffix of the command line; `-b` anywhere means boot mode and no state is
    read; `-help` counts only in first position; `-r` is recognised only
    before `-x`; `-B` sets the small stacks unless stacks are dynamic.
  - The flags apply from left to right (`Flags.ScanThen`), and each flag has a
    lemma that gives its effect on the configuration (`Flags.DebugFlag` …
    `Flags.BootFlag`). Together these say that a later flag overrides an
    earlier one writing the same field. `Flags.LastGoalWins` and
    `Flags.LastLocalSizeWins` state it outright for the goal and the local
    stack.

### Notes on the code

- **Flags and saved states.** Flags apply on top of a saved state's options
  too. The flag loop at `src/pl-main.c:287` follows both branches of the `if`
  at line 263 (`Startup.ImageFlagsStillApply`).
- **The `tty` flag.** The only tty spellings are `+tty` and `-tty` (line 288).
  `+tty` turns notty off and `-tty` turns it on.
- **Sizes.** A size is `atoi` of the rest of its token times 1024, so `-L-5`
  gives a negative size (`Flags.NegativeLocalSize`) and `-L` alone gives 0
  (`Flags.LocalSizeWithoutDigits`).
- **The stale buffer in findState.** The first test of findState (line 144)
  asks whether a file exists at the path in the local buffer `state`, which
  nothing has written at that point. It does not ask about the proposed path
  `full`.
  - The model keeps the code as written. The answer to that test is the
    input `staleBufferExists` of `Locate.FindState`, and it is not tied to any
    path.
  - `Locate.FindStateOverlooksProposedImage` shows a consequence. When the
    answer is no, an existing image next to the executable loses to the image
    in the home directory.
  - `Locate.IntendedFindState` is the search with the test made on the proposed
    path. `Locate.FindStateAsIntended` shows that it is the special case where
    the stale buffer happens to answer for the proposed path.

## Model

| member | source | states |
|---|---|---|
| Numerals.Atoi | src/pl-main.c:297 | C's atoi as used by `-d` and the size flags: a negative value only comes from a `-` followed by a digit after the white space; the rest is stated by AtoiAfterSpace, AtoiNegative, AtoiPositive, AtoiOfDecimal and AtoiNoDigits below |
| Numerals.LeadingDigits | src/pl-main.c:326-330 | the digits atoi reads are a prefix of its input, all digits, and stop at the first non-digit |
| Numerals.AtoiOfDigits | src/pl-main.c:326-330 | atoi of a digit string followed by a non-digit is the value of the digits |
| Numerals.AtoiOfDecimal | src/pl-main.c:326-330 | atoi reads back the decimal spelling of every n, whatever non-digit follows |
| Numerals.SkipSpace | src/pl-main.c:326-330 | what atoi reads after skipping white space starts with no white space and is no longer than its input |
| Numerals.SkipSpaceSuffix | src/pl-main.c:326-330 | the skipped part is white space only and what is left is the end of the input |
| Numerals.AtoiAfterSpace | src/pl-main.c:297 | white space before the number does not change atoi's value |
| Numerals.AtoiNegative | src/pl-main.c:326-330 | after white space, `-` followed by the digits of n gives -n |
| Numerals.AtoiPositive | src/pl-main.c:326-330 | after white space, `+` followed by the digits of n gives n |
| Numerals.AtoiNoDigits | src/pl-main.c:326-330 | when no digit follows the leading white space and the optional sign, atoi gives 0 (`"  x"`, `"-x"`, `""`) |
| Locate.StripNewline | src/pl-main.c:57-60 | the line read from the marker file loses exactly one trailing newline, and only when there is one |
| Locate.DriveOrder | src/pl-main.c:82-91 | on a build with drive letters, when the first three steps fail, the home is `/<d>:/pl` for the first drive of `cdefghijklmnopab` that is present and holds that directory |
| Locate.FirstFound | src/pl-main.c:39-96 | the first-match search: none exactly when no candidate succeeds, otherwise the earliest success |
| Locate.FindHome | src/pl-main.c:39-96 | findHome's steps, run one after the other, give the first-match result of the four candidate kinds, or Fatal |
| Locate.HomeIsDirectory | src/pl-main.c:39-96 | a home that findHome returns is always an existing directory |
| Locate.EnvironmentWins | src/pl-main.c:44-47 | a home named by SWI_HOME_DIR/SWIPL that is an existing directory after PrologPath wins over every other candidate |
| Locate.SwiHomeDirHidesSwipl | src/pl-main.c:44-47 | when SWI_HOME_DIR is set but has no canonical form, a set SWIPL does not rescue the search: with no other candidate findHome is fatal |
| Locate.SwiplNeverConsulted | src/pl-main.c:44-45 | when SWI_HOME_DIR is set, SWIPL is never consulted: a host differing only in SWIPL gets the same home, and the first step tests SWI_HOME_DIR alone |
| Locate.OnlyDefaultExists | src/pl-main.c:73-74 | when the compiled-in default is the only directory, findHome returns it |
| Locate.FatalIffNoCandidate | src/pl-main.c:94-95 | findHome ends in fatalError exactly when no environment, marker, default or drive candidate is a directory |
| Locate.ExtensionDot | src/pl-main.c:114-124 | the remembered dot is the last '.' with no '.' or '/' after it; none when every '.' is followed by a '/' |
| Locate.ProposeStartupFile | src/pl-main.c:108-135 | the scan that remembers the last dot and forgets it at each separator yields the executable path cut at the extension dot plus `.qlf`, or `<home>/startup/startup.<machine>` without an executable |
| Locate.ImageForShape | src/pl-main.c:113-128 | the proposed image is a prefix of the executable path plus `.qlf`; what is cut off is a '.' followed by neither '.' nor '/' |
| Locate.ImageForIdempotent | src/pl-main.c:113-128 | proposing an image for a proposed image path gives the same path |
| Locate.FindState | src/pl-main.c:138-159 | findState returns the proposed path, or an existing `startup.<machine>`, or an existing `startup` in the home directory |
| Locate.FindStateFallsBack | src/pl-main.c:150-158 | with neither home image present, findState returns the proposed path so that loading it reports that name |
| Locate.FindStateGeneric | src/pl-main.c:153-156 | with no machine-specific image, an existing generic `startup` in the home directory is returned |
| Locate.FindStatePrefersMachineImage | src/pl-main.c:147-151 | the machine-specific image is preferred to the generic one |
| Locate.FindStateOverlooksProposedImage | src/pl-main.c:143-151 | because the first test reads the unwritten buffer, an existing proposed image can lose to the machine image in the home directory |
| Locate.IntendedFindState | src/pl-main.c:138-159 | the search with the first test made on the proposed path: it returns an existing file exactly when some candidate exists, and prefers the proposed image |
| Locate.FindStateAsIntended | src/pl-main.c:143-145 | findState as written equals the intended search exactly when the buffer test answers for the proposed path |
| Flags.TakeArgument | src/pl-main.c:296-312 | no argument flag changes boot mode (what each one stores is stated by the per-flag lemmas below) |
| Flags.TokenEnd | src/pl-main.c:317-330 | `B` and the size flags never change boot mode (the sizes they write are stated by the per-flag lemmas below) |
| Flags.SetFlag | src/pl-main.c:302-316 | no character of this kind clears boot mode (what `O`, `c` and `b` set is stated by the per-flag lemmas below) |
| Flags.Scan | src/pl-main.c:287-335 | the flag loop stops at the first argument that does not start with '-' or '+' |
| Flags.ApplyFlag | src/pl-main.c:295-331 | one character of the switch changes the records as the specification step does: usage, end of token, or on with the entries left |
| Flags.ArgumentFlag | src/pl-main.c:296-312 | an argument flag consumes the next entry into its field, or calls usage() when there is none |
| Flags.SizeFlag | src/pl-main.c:317-330 | `B` writes the five small sizes unless stacks are dynamic; `L`/`G`/`T`/`A`/`P` write atoi of the rest of the token times 1024 |
| Flags.SwitchFlag | src/pl-main.c:302-316 | `O`, `c` and `b` set optimise, compile and boot; other characters change nothing |
| Flags.ScanFlags | src/pl-main.c:287-335 | the loop over the argument vector calls usage() exactly when the specification does and otherwise leaves the records in the specified configuration and the specified file list |
| Flags.ScanTokenFlags | src/pl-main.c:293-334 | the loop over the characters of one token reaches the specified configuration and the entries after the last one consumed |
| Flags.TokenConsumption | src/pl-main.c:33-37 | a token consumes one entry per argument flag before its end, and calls usage() exactly when fewer entries remain |
| Flags.ScanRestSuffix | src/pl-main.c:287-335 | what the flag loop leaves is a suffix of its input |
| Flags.TokenExtend | src/pl-main.c:293-334 | entries after those a token consumes are left to the rest of the loop |
| Flags.ScanThen | src/pl-main.c:287-335 | the flag loop is a left-to-right fold: scanning `a + b` scans `b` from the configuration `a` left |
| Flags.TokenThenScan | src/pl-main.c:287-293 | a flag token other than `±tty` is scanned character by character before the loop goes on |
| Flags.LastGoalWins | src/pl-main.c:309-310 | a final `-g x` decides the goal, whatever came before |
| Flags.LastLocalSizeWins | src/pl-main.c:326 | a final `-L<n>` decides the local stack size, whatever came before |
| Flags.LocalSizeToken | src/pl-main.c:326 | `-L<n>` sets the local stack to n×1024 and consumes no further entry |
| Flags.SizeToken | src/pl-main.c:326-330 | a size flag followed by a decimal n reads n and ends the token |
| Flags.ArgumentFlagScan | src/pl-main.c:33-37 | an argument flag alone in its token takes the next entry, and the loop goes on after that entry |
| Flags.DebugFlag | src/pl-main.c:296-301 | `-d x` sets the debug level to atoi(x) and changes nothing else |
| Flags.OutputFlag | src/pl-main.c:304-306 | `-o x` sets the compile output to x, marks it as explicit and changes nothing else |
| Flags.InitFileFlag | src/pl-main.c:307-308 | `-f x` sets the init file to x and changes nothing else |
| Flags.GoalFlag | src/pl-main.c:309-310 | `-g x` sets the goal to x and changes nothing else |
| Flags.TopLevelFlag | src/pl-main.c:311-312 | `-t x` sets the top level to x and changes nothing else |
| Flags.SizeTokenScan | src/pl-main.c:317-330 | a token starting with `B` or a size flag ends at that flag and consumes no further entry |
| Flags.SizeFlagScan | src/pl-main.c:326-330 | a size flag followed by a decimal n reads n, and the loop goes on with the next entry |
| Flags.LocalSizeFlag | src/pl-main.c:326 | `-L<n>` sets the local stack to n×1024 and changes nothing else |
| Flags.GlobalSizeFlag | src/pl-main.c:327 | `-G<n>` sets the global stack to n×1024 and changes nothing else |
| Flags.TrailSizeFlag | src/pl-main.c:328 | `-T<n>` sets the trail stack to n×1024 and changes nothing else |
| Flags.ArgumentSizeFlag | src/pl-main.c:329 | `-A<n>` sets the argument stack to n×1024 and changes nothing else |
| Flags.LockSizeFlag | src/pl-main.c:330 | `-P<n>` sets the lock stack to n×1024 and changes nothing else |
| Flags.NegativeLocalSize | src/pl-main.c:326 | `-L-<n>` sets the local stack to -n×1024: the size is atoi of the rest of the token, sign included |
| Flags.LocalSizeWithoutDigits | src/pl-main.c:326 | `-L` with no digits sets the local stack size to 0 |
| Flags.MinusSpelling | src/pl-main.c:326 | atoi of `-` followed by the digits of n is -n |
| Flags.NegativeLocalEnd | src/pl-main.c:326 | the token `-L-<n>` ends at `L` with the local stack set to -n×1024 |
| Flags.SwitchFlagScan | src/pl-main.c:302-316 | a switch flag alone in its token sets its field, and the loop goes on with the next entry |
| Flags.OptimiseFlag | src/pl-main.c:302-303 | `-O` turns optimise on and changes nothing else |
| Flags.CompileFlag | src/pl-main.c:313-314 | `-c` turns compile on and changes nothing else |
| Flags.BootFlag | src/pl-main.c:315-316 | `-b` turns boot mode on and changes nothing else |
| Flags.MinusL512 | src/pl-main.c:326 | `-L512 file` gives 512×1024 bytes of local stack and leaves `file` |
| Flags.SmallStacksThenGlobal | src/pl-main.c:317-327 | `-B` sets 32K/8K/8K/1K/1K, and a following `-G<n>` changes only the global size |
| Flags.SmallStacksIgnoredWhenDynamic | src/pl-main.c:317-325 | with dynamic stacks `-B` changes nothing |
| Flags.TtyToken | src/pl-main.c:288-291 | `+tty`/`-tty` set notty to whether the sign is '-', consume only themselves and change nothing else |
| Flags.ArgumentsInOrder | src/pl-main.c:307-310 | `-fg x y` gives x to the init file and y to the goal |
| Flags.MissingArgumentIsUsage | src/pl-main.c:33-37 | each argument flag (`-d`, `-o`, `-f`, `-g`, `-t`) with nothing after it calls usage() |
| Flags.SkippedRest | src/pl-main.c:294-333 | characters the switch has no case for are passed over and change nothing |
| Flags.SkippedToken | src/pl-main.c:293-334 | a token made only of such characters is consumed and changes nothing |
| Flags.HelpNotFirstIgnored | src/pl-main.c:287-335 | `-help` after the first position is a token of skipped characters |
| Flags.TokenKeepsBoot | src/pl-main.c:295-331 | no character of a token turns boot mode off |
| Flags.ScanKeepsBoot | src/pl-main.c:287-335 | once on, boot mode survives the whole flag loop |
| Startup.InitialDefaults | src/pl-main.c:196-211 | a fresh start halts exactly when findHome fails; otherwise the home is the existing directory findHome chose and the state is findState's, never NULL |
| Startup.PeelPairs | src/pl-main.c:247-256 | `-r` is taken only first and `-x` only after it or first, each only with both entries, leaving the rest |
| Startup.PeelRestSuffix | src/pl-main.c:247-256 | the arguments left after the pairs are a suffix of the command line |
| Startup.PeelLeading | src/pl-main.c:247-256 | the two `if`s that peel `-r` and `-x` compute the specified pairs and rest |
| Startup.BootRequested | src/pl-main.c:239-243 | the pre-scan turns boot mode on exactly when some argument is `-b` |
| Startup.ResetStatus | src/pl-main.c:216-243 | the status reset: nothing initialised, extend mode on, notty from the defaults or an Emacs/PceEmacs environment, boot from the pre-scan |
| Startup.SetBranchOptions | src/pl-main.c:263-285 | the records get either the saved state's options or the defaults ×1024 with "a.out" |
| Startup.Configure | src/pl-main.c:263-345 | the file list after the flags never starts with a flag |
| Startup.ConfigureOptions | src/pl-main.c:263-345 | the branch, the flag loop and the boot output on the records reach the specified configuration |
| Startup.Resolve | src/pl-main.c:216-345 | a launch's file list never starts with a flag |
| Startup.StartProlog | src/pl-main.c:216-345 | startProlog's outcome is the specified one, the records hold the reported configuration, and the status is reset |
| Startup.FilesEndCommandLine | src/pl-main.c:247-335 | the files of a launch are a suffix of the command line |
| Startup.ConfigureRestSuffix | src/pl-main.c:287-335 | the entries the flag loop leaves as files are a suffix of the entries it was given |
| Startup.BootMode | src/pl-main.c:239-345 | with `-b` anywhere loading cannot fail, boot mode stays on, and without `-o` the output is the proposed startup file |
| Startup.BootIgnoresLoader | src/pl-main.c:263 | with `-b` anywhere the saved state is never read: the outcome is the same whatever the state loader returns |
| Startup.ConfigureBoot | src/pl-main.c:343-345 | started in boot mode, the flag loop ends in boot mode with the proposed startup file unless `-o` was given |
| Startup.BootCompilation | src/pl-main.c:239-345 | `-b file` uses the defaults, the proposed startup file as output and `file` as the file list |
| Startup.LateBootStillBoots | src/pl-main.c:239-243 | `file -b` is still a boot session, with both entries left as files |
| Startup.PlainDefaults | src/pl-main.c:275-285 | without a state and without flags the options are the defaults ×1024 and "a.out", and every argument is a file |
| Startup.NoFlags | src/pl-main.c:263-345 | without flags the configuration is the one the branch chose, plus the boot output file |
| Startup.NothingPeeled | src/pl-main.c:247-259 | arguments that do not start with a flag hold no leading pair and no `-help` |
| Startup.ImageFlagsStillApply | src/pl-main.c:263-335 | after a saved state is read, `-L<n>` still sets the local stack and leaves the state's other options |
| Startup.HelpFirst | src/pl-main.c:258-259 | `-help` first (after the pairs) calls usage() |
| Startup.ExplicitState | src/pl-main.c:252-266 | `-x st` replaces the default state; the launch fails exactly when `st` cannot be read |
| Startup.RestoreAfterStateIsFile | src/pl-main.c:247-256 | `-r` after `-x` is not a pair: it is a skipped flag token and its argument becomes a file |
| Startup.RestoredIsAbsolute | src/pl-main.c:247-250 | a leading `-r file` records the absolute path of `file` |
| Startup.TtyFlagOverridesEmacs | src/pl-main.c:235-291 | under Emacs notty is on, but `+tty` turns it off |
| Startup.FreshStartReadsState | src/pl-main.c:196-266 | a fresh start always has a state, so without `-b` the defaults branch is never taken and an unreadable state stops the launch |

## Left out

- Messages and output: sysError, fatalError and warning are not modelled as
  printing. fatalError in findHome is the outcome `Fatal`, and in startProlog
  it is `Halted`. usage() is the outcome `UsageExit` (exit status 1), without
  its text.
- loadWicFile is a function parameter `loader`. In its options-only scan it
  gives the eight option fields or fails; a failure is `LoadFailed` (Halt(1)).
  Its other effects are not modelled. The compile output, which it does not
  set, keeps its earlier value.
- Everything after line 345 is not modelled: compileFileList, the second
  loadWicFile, the foreign reinit hook and prolog(). The `compile` flag is
  reported in the configuration but not acted upon.
- setupProlog() and systemMode(TRUE) at lines 340-341 run before the boot
  output file is chosen (lines 343-345). They are not modelled: the model
  assumes they leave `options` and `status.boot` unchanged.
- The restart from a dumped state (`status.dumped`): `Startup.Resolve` takes
  `systemDefaults` as an input, and `Startup.InitialDefaults` builds it for a
  fresh start. The `version` and `operating_system` fields are not modelled.
- mainArgc/mainArgv/mainEnv, the MS-Windows console title and message box,
  O_MALLOC_DEBUG and the DEBUG output are not modelled.
- The file system and the environment are the uninterpreted `Host`. `fgets`
  is `readFirstLine`. Path buffers are unbounded, so MAXPATHLEN truncation is
  not modelled. '/' is the only directory separator.
- Integers are unbounded. The overflow of atoi and of the `long`
  multiplication by 1024 is not modelled.
- Flags.Scan: its own contract only says that the file list does not start
  with a flag; what the loop computes is stated by the lemmas about it.
- Startup.Configure: its own contract only says that the file list does not
  start with a flag; its meaning is given by Startup.NoFlags,
  Startup.ConfigureBoot and the method Startup.ConfigureOptions.
- Startup.Resolve: its own contract only says that the file list does not
  start with a flag; its behaviour is stated by the lemmas that follow it in
  the table.
- Flags.TokenEnd: its own contract only says that boot mode is untouched; the
  value each size flag writes is stated by Flags.LocalSizeFlag,
  Flags.GlobalSizeFlag, Flags.TrailSizeFlag, Flags.ArgumentSizeFlag,
  Flags.LockSizeFlag and Flags.NegativeLocalSize, and what `-B` writes by
  Flags.SmallStacksThenGlobal and Flags.SmallStacksIgnoredWhenDynamic.
- Flags.TakeArgument: its own contract only says that boot mode is untouched;
  what each argument flag stores is stated by Flags.DebugFlag,
  Flags.OutputFlag, Flags.InitFileFlag, Flags.GoalFlag and Flags.TopLevelFlag.
- Flags.SetFlag: its own contract only says that boot mode is never cleared;
  what `O`, `c` and `b` set is stated by Flags.OptimiseFlag, Flags.CompileFlag
  and Flags.BootFlag.
