/**
 * Where the launcher finds its home directory and its startup image
 * (findHome, proposeStartupFile and findState in src/pl-main.c).
 */
module Locate {
  import opened Wrappers
  import opened Platform

  /** findHome either yields a directory or ends the process through fatalError. */
  datatype Located = Found(path: string) | Fatal(message: string)

  const HomeNotFound := "Can't find Prolog Home Directory"

  /** The drive letters tried, in order, on platforms that have them. */
  const Drives := "cdefghijklmnopab"

  /** The extension given to a startup image. */
  const ImageExtension := ".qlf"

  // ---------------------------------------------------------------------------
  // First-match search
  // ---------------------------------------------------------------------------

  /** The first candidate that succeeded; None when none did. */
  function FirstFound(tries: seq<Option<string>>): (r: Option<string>)
    ensures r.None? <==> forall k :: 0 <= k < |tries| ==> tries[k].None?
    ensures r.Some? ==> exists k :: 0 <= k < |tries| && tries[k] == r && forall m :: 0 <= m < k ==> tries[m].None?
  {
    if |tries| == 0 then None
    else if tries[0].Some? then tries[0]
    else
      var r := FirstFound(tries[1..]);
      assert r.Some? ==> exists k :: 1 <= k < |tries| && tries[k] == r && forall m :: 0 <= m < k ==> tries[m].None? by {
        if r.Some? {
          var k :| 0 <= k < |tries| - 1 && tries[1..][k] == r && forall m :: 0 <= m < k ==> tries[1..][m].None?;
          assert forall m :: 0 <= m < k + 1 ==> tries[m].None? by {
            forall m | 0 <= m < k + 1 ensures tries[m].None? {
              if m > 0 { assert tries[m] == tries[1..][m - 1]; }
            }
          }
        }
      }
      r
  }

  /** The first success is the answer, whatever comes after it. */
  lemma FirstFoundAt(tries: seq<Option<string>>, k: nat)
    requires k < |tries| && tries[k].Some?
    requires forall m :: 0 <= m < k ==> tries[m].None?
    ensures FirstFound(tries) == tries[k]
  {
  }

  // ---------------------------------------------------------------------------
  // findHome
  // ---------------------------------------------------------------------------

  /** Step 1: SWI_HOME_DIR, or SWIPL when SWI_HOME_DIR is unset, in canonical form, if it is a directory. */
  function EnvironmentTry(h: Host): Option<string>
  {
    var home := if h.getenv("SWI_HOME_DIR").Some? then h.getenv("SWI_HOME_DIR") else h.getenv("SWIPL");
    if home.None? then None
    else
      match h.prologPath(home.value)
      case None => None
      case Some(p) => if h.existsDirectory(p) then Some(p) else None
  }

  /** `<root>/bin/<exe>` gives `<root>`. */
  function InstallRoot(h: Host, exe: string): string
  {
    h.dirName(h.dirName(h.absoluteFile(exe)))
  }

  function MarkerFile(h: Host, exe: string): string
  {
    InstallRoot(h, exe) + "/swipl"
  }

  /** One trailing newline, if there is one, is dropped from a line read by fgets. */
  function StripNewline(line: string): (r: string)
    ensures line == r || line == r + "\n"
    ensures r == line <==> (line == [] || line[|line| - 1] != '\n')
  {
    if |line| > 0 && line[|line| - 1] == '\n' then
      assert line == line[..|line| - 1] + "\n";
      line[..|line| - 1]
    else line
  }

  /** Step 2: the first line of the marker file `<root>/swipl` next to the executable's directory. */
  function MarkerTry(h: Host): Option<string>
  {
    if h.symbols.None? then None
    else
      var magic := MarkerFile(h, h.symbols.value);
      if !h.existsFile(magic) then None
      else
        match h.readFirstLine(magic)
        case None => None
        case Some(line) =>
          var home := h.absoluteFile(StripNewline(line));
          if h.existsDirectory(home) then Some(home) else None
  }

  /** Step 3: the compiled-in default. */
  function DefaultTry(h: Host, def: string): Option<string>
  {
    if h.existsDirectory(def) then Some(def) else None
  }

  function DrivePath(drive: char): string
  {
    "/" + [drive] + ":/pl"
  }

  /** Step 4, one drive letter. */
  function DriveTry(h: Host, drive: char): Option<string>
  {
    if h.hasDrive(drive) && h.existsDirectory(DrivePath(drive)) then Some(DrivePath(drive)) else None
  }

  /** Step 4: one try per drive letter, in order, on builds that have drive letters. */
  function DriveTries(h: Host): (tries: seq<Option<string>>)
    ensures !h.driveLetters ==> tries == []
    ensures forall i :: 0 <= i < |tries| ==>
              i < |Drives| &&
              (tries[i].Some? <==> h.hasDrive(Drives[i]) && h.existsDirectory(DrivePath(Drives[i]))) &&
              (tries[i].Some? ==> tries[i].value == DrivePath(Drives[i]))
  {
    if h.driveLetters then seq(|Drives|, i requires 0 <= i < |Drives| => DriveTry(h, Drives[i])) else []
  }

  /** The outcome of findHome: the first step that yields an existing directory. */
  function HomeSearch(h: Host, def: string): Located
  {
    if EnvironmentTry(h).Some? then Found(EnvironmentTry(h).value)
    else if MarkerTry(h).Some? then Found(MarkerTry(h).value)
    else if DefaultTry(h, def).Some? then Found(def)
    else
      match FirstFound(DriveTries(h))
      case Some(p) => Found(p)
      case None => Fatal(HomeNotFound)
  }

  /** findHome never yields a path that is not an existing directory. */
  lemma HomeIsDirectory(h: Host, def: string)
    ensures HomeSearch(h, def).Found? ==> h.existsDirectory(HomeSearch(h, def).path)
  {
  }

  /**
   * findHome: the first of the four steps that yields an existing directory,
   * or Fatal when none does.
   */
  method FindHome(h: Host, def: string) returns (r: Located)
    ensures r == HomeSearch(h, def)
  {
    var home := h.getenv("SWI_HOME_DIR");
    if home.None? {
      home := h.getenv("SWIPL");
    }
    if home.Some? {
      var canonical := h.prologPath(home.value);
      if canonical.Some? && h.existsDirectory(canonical.value) {
        return Found(canonical.value);
      }
    }
    assert EnvironmentTry(h).None?;
    if h.symbols.Some? {
      var root := h.dirName(h.dirName(h.absoluteFile(h.symbols.value)));
      var magic := root + "/swipl";
      if h.existsFile(magic) {
        var line := h.readFirstLine(magic);
        if line.Some? {
          var l := line.value;
          if |l| > 0 && l[|l| - 1] == '\n' {
            l := l[..|l| - 1];
          }
          assert magic == MarkerFile(h, h.symbols.value) && l == StripNewline(line.value);
          var candidate := h.absoluteFile(l);
          if h.existsDirectory(candidate) {
            return Found(candidate);
          }
        }
      }
    }
    assert MarkerTry(h).None?;
    if h.existsDirectory(def) {
      return Found(def);
    }
    if h.driveLetters {
      var i := 0;
      while i < |Drives|
        invariant 0 <= i <= |Drives|
        invariant forall m :: 0 <= m < i ==> DriveTries(h)[m].None?
      {
        var drive := DrivePath(Drives[i]);
        if h.hasDrive(Drives[i]) && h.existsDirectory(drive) {
          FirstFoundAt(DriveTries(h), i);
          return Found(drive);
        }
        i := i + 1;
      }
    }
    return Fatal(HomeNotFound);
  }

  /** A home named by the environment wins over every other candidate. */
  lemma EnvironmentWins(h: Host, def: string, home: string)
    requires h.getenv("SWI_HOME_DIR").Some? || h.getenv("SWIPL").Some?
    requires home == (if h.getenv("SWI_HOME_DIR").Some? then h.getenv("SWI_HOME_DIR") else h.getenv("SWIPL")).value
    requires h.prologPath(home).Some? && h.existsDirectory(h.prologPath(home).value)
    ensures HomeSearch(h, def) == Found(h.prologPath(home).value)
  {
  }

  /** SWI_HOME_DIR, once set, hides SWIPL even when it names no directory. */
  lemma SwiHomeDirHidesSwipl(h: Host, def: string)
    requires h.getenv("SWI_HOME_DIR").Some? && h.getenv("SWIPL").Some?
    requires h.prologPath(h.getenv("SWI_HOME_DIR").value).None?
    requires MarkerTry(h).None? && !h.existsDirectory(def) && !h.driveLetters
    ensures HomeSearch(h, def) == Fatal(HomeNotFound)
  {
  }

  /**
   * When the compiled-in default is the only directory there is, findHome
   * returns it, whatever the environment and the marker file say.
   */
  lemma OnlyDefaultExists(h: Host, def: string)
    requires forall p :: h.existsDirectory(p) <==> p == def
    ensures HomeSearch(h, def) == Found(def)
  {
  }

  /** findHome fails exactly when no step names an existing directory. */
  lemma FatalIffNoCandidate(h: Host, def: string)
    ensures HomeSearch(h, def).Fatal? <==>
              EnvironmentTry(h).None? && MarkerTry(h).None? && !h.existsDirectory(def) &&
              (h.driveLetters ==> forall i :: 0 <= i < |Drives| ==> DriveTry(h, Drives[i]).None?)
  {
  }

  /**
   * When SWI_HOME_DIR is set, SWIPL is never consulted: a host that differs
   * only in the value of SWIPL gets the same home, and the first step tests
   * SWI_HOME_DIR alone.
   */
  lemma SwiplNeverConsulted(h: Host, def: string, env: string -> Option<string>)
    requires h.getenv("SWI_HOME_DIR").Some?
    requires forall name :: name != "SWIPL" ==> env(name) == h.getenv(name)
    ensures HomeSearch(h.(getenv := env), def) == HomeSearch(h, def)
    ensures var p := h.prologPath(h.getenv("SWI_HOME_DIR").value);
            EnvironmentTry(h) == if p.Some? && h.existsDirectory(p.value) then p else None
  {
    assert env("SWI_HOME_DIR") == h.getenv("SWI_HOME_DIR");
    assert EnvironmentTry(h.(getenv := env)) == EnvironmentTry(h);
    assert MarkerTry(h.(getenv := env)) == MarkerTry(h);
    assert DriveTries(h.(getenv := env)) == DriveTries(h);
  }

  /**
   * On a build with drive letters, when the first three steps fail, the home
   * is `/<d>:/pl` for the first drive `d` of `cdefghijklmnopab` that is present
   * and holds that directory.
   */
  lemma DriveOrder(h: Host, def: string, k: nat)
    requires h.driveLetters && EnvironmentTry(h).None? && MarkerTry(h).None? && !h.existsDirectory(def)
    requires k < |Drives| && h.hasDrive(Drives[k]) && h.existsDirectory(DrivePath(Drives[k]))
    requires forall m :: 0 <= m < k ==> !(h.hasDrive(Drives[m]) && h.existsDirectory(DrivePath(Drives[m])))
    ensures HomeSearch(h, def) == Found(DrivePath(Drives[k]))
  {
    FirstFoundAt(DriveTries(h), k);
  }

  // ---------------------------------------------------------------------------
  // proposeStartupFile
  // ---------------------------------------------------------------------------

  /**
   * The position of the dot that starts the file extension: the last '.' that
   * no '/' follows. Scanned from the end: the first '.' met is it, a '/' met
   * first means there is none.
   */
  function ExtensionDot(s: string): (d: Option<nat>)
    ensures d.Some? ==> d.value < |s| && s[d.value] == '.' &&
                        forall j :: d.value < j < |s| ==> s[j] != '.' && s[j] != '/'
    ensures d.None? ==> forall i :: 0 <= i < |s| && s[i] == '.' ==> exists j :: i < j < |s| && s[j] == '/'
  {
    if |s| == 0 then None
    else if s[|s| - 1] == '.' then Some(|s| - 1)
    else if s[|s| - 1] == '/' then None
    else
      var d := ExtensionDot(s[..|s| - 1]);
      assert d.None? ==> forall i :: 0 <= i < |s| && s[i] == '.' ==> exists j :: i < j < |s| && s[j] == '/' by {
        if d.None? {
          forall i | 0 <= i < |s| && s[i] == '.' ensures exists j :: i < j < |s| && s[j] == '/' {
            assert s[..|s| - 1][i] == '.';
            var j :| i < j < |s| - 1 && s[..|s| - 1][j] == '/';
            assert s[j] == '/';
          }
        }
      }
      d
  }

  /** The executable path with its extension, if any, replaced by `.qlf`. */
  function ImageFor(exe: string): string
  {
    match ExtensionDot(exe)
    case Some(i) => exe[..i] + ImageExtension
    case None => exe + ImageExtension
  }

  function StartupMachinePath(h: Host, home: string, machine: string): string
  {
    h.absoluteFile(home + "/startup/startup." + machine)
  }

  function StartupPath(h: Host, home: string): string
  {
    h.absoluteFile(home + "/startup/startup")
  }

  /** What proposeStartupFile returns: next to the executable when it is known, else in the home directory. */
  function ProposedStartupFile(h: Host, home: string, machine: string): string
  {
    match h.symbols
    case Some(exe) => ImageFor(exe)
    case None => StartupMachinePath(h, home, machine)
  }

  /**
   * proposeStartupFile: one pass over the executable path remembers the last
   * dot and forgets it at every directory separator; the path is cut at that
   * dot and `.qlf` appended.
   */
  method ProposeStartupFile(h: Host, home: string, machine: string) returns (r: string)
    ensures r == ProposedStartupFile(h, home, machine)
  {
    if h.symbols.Some? {
      var state := h.symbols.value;
      var dot: Option<nat> := None;
      var i := 0;
      while i < |state|
        invariant 0 <= i <= |state|
        invariant dot == ExtensionDot(state[..i])
      {
        assert state[..i + 1][..i] == state[..i];
        if state[i] == '.' {
          dot := Some(i);
        }
        if state[i] == '/' {
          dot := None;
        }
        i := i + 1;
      }
      assert state[..i] == state;
      if dot.Some? {
        state := state[..dot.value];
      }
      return state + ImageExtension;
    }
    return h.absoluteFile(home + "/startup/startup." + machine);
  }

  /**
   * The image path is the executable path up to the extension dot, followed by
   * `.qlf`; what is cut off is a '.' and then neither '.' nor '/'. Without such
   * a dot the whole path is kept.
   */
  lemma ImageForShape(exe: string)
    ensures var r := ImageFor(exe);
            exists base :: r == base + ImageExtension && base <= exe &&
              (base == exe || (exe[|base|] == '.' && forall j :: |base| < j < |exe| ==> exe[j] != '.' && exe[j] != '/'))
    ensures ExtensionDot(exe).None? ==> ImageFor(exe) == exe + ImageExtension
  {
    match ExtensionDot(exe)
    case Some(i) =>
      var base := exe[..i];
      assert ImageFor(exe) == base + ImageExtension && base <= exe && exe[|base|] == '.';
    case None =>
      assert ImageFor(exe) == exe + ImageExtension;
  }

  /** Proposing an image for an image path gives the same path back. */
  lemma {:induction false} ImageForIdempotent(exe: string)
    ensures ImageFor(ImageFor(exe)) == ImageFor(exe)
  {
    var base := match ExtensionDot(exe) case Some(i) => exe[..i] case None => exe;
    var r := base + ImageExtension;
    assert r == ImageFor(exe);
    var n := |base|;
    assert r[n] == '.' && r[n + 1] == 'q' && r[n + 2] == 'l' && r[n + 3] == 'f';
    var d := ExtensionDot(r);
    if d.None? {
      assert false;
    }
    assert d.value == n;
    assert r[..n] == base;
  }

  // ---------------------------------------------------------------------------
  // findState
  // ---------------------------------------------------------------------------

  /**
   * findState. Its first test asks whether a file exists at the path held in a
   * local buffer that nothing has written yet, not at the proposed path; the
   * answer is `staleBufferExists`, an input that is not tied to the proposed
   * path. Then `<home>/startup/startup.<machine>` and `<home>/startup/startup`
   * are tried, and the proposed path is the fallback.
   */
  function FindState(h: Host, home: string, machine: string, staleBufferExists: bool): (r: string)
    ensures r == ProposedStartupFile(h, home, machine) ||
            (r == StartupMachinePath(h, home, machine) && h.existsFile(r)) ||
            (r == StartupPath(h, home) && h.existsFile(r))
  {
    var full := ProposedStartupFile(h, home, machine);
    if staleBufferExists then full
    else if h.existsFile(StartupMachinePath(h, home, machine)) then StartupMachinePath(h, home, machine)
    else if h.existsFile(StartupPath(h, home)) then StartupPath(h, home)
    else ProposedStartupFile(h, home, machine)
  }

  /** When no candidate exists the proposed path is returned, so that loading it names the expected file. */
  lemma FindStateFallsBack(h: Host, home: string, machine: string)
    requires !h.existsFile(StartupMachinePath(h, home, machine)) && !h.existsFile(StartupPath(h, home))
    ensures FindState(h, home, machine, false) == ProposedStartupFile(h, home, machine)
  {
  }

  /** The machine-specific image is preferred to the generic one. */
  lemma FindStatePrefersMachineImage(h: Host, home: string, machine: string)
    requires h.existsFile(StartupMachinePath(h, home, machine))
    ensures FindState(h, home, machine, false) == StartupMachinePath(h, home, machine)
  {
  }

  /** With no machine-specific image, an existing generic image in the home directory is taken. */
  lemma FindStateGeneric(h: Host, home: string, machine: string)
    requires !h.existsFile(StartupMachinePath(h, home, machine)) && h.existsFile(StartupPath(h, home))
    ensures FindState(h, home, machine, false) == StartupPath(h, home)
  {
  }

  /**
   * Consequence of the stale-buffer test: an existing image next to the
   * executable does not stop findState from choosing the home directory's image.
   */
  lemma FindStateOverlooksProposedImage(h: Host, home: string, machine: string)
    requires h.existsFile(ProposedStartupFile(h, home, machine))
    requires h.existsFile(StartupMachinePath(h, home, machine))
    requires ProposedStartupFile(h, home, machine) != StartupMachinePath(h, home, machine)
    ensures FindState(h, home, machine, false) != ProposedStartupFile(h, home, machine)
  {
  }

  /**
   * findState with its first test made on the proposed path, which is what
   * the code around it evidently means: the proposed image when it exists,
   * then the two images in the home directory, and the proposed path as the
   * fallback.
   */
  function IntendedFindState(h: Host, home: string, machine: string): (r: string)
    ensures h.existsFile(ProposedStartupFile(h, home, machine)) ==> r == ProposedStartupFile(h, home, machine)
    ensures h.existsFile(r) <==>
              h.existsFile(ProposedStartupFile(h, home, machine)) ||
              h.existsFile(StartupMachinePath(h, home, machine)) ||
              h.existsFile(StartupPath(h, home))
    ensures !h.existsFile(r) ==> r == ProposedStartupFile(h, home, machine)
  {
    var full := ProposedStartupFile(h, home, machine);
    if h.existsFile(full) then full
    else if h.existsFile(StartupMachinePath(h, home, machine)) then StartupMachinePath(h, home, machine)
    else if h.existsFile(StartupPath(h, home)) then StartupPath(h, home)
    else full
  }

  /** The code as written agrees with the intended search exactly when the stale buffer answers for the proposed path. */
  lemma FindStateAsIntended(h: Host, home: string, machine: string)
    ensures FindState(h, home, machine, h.existsFile(ProposedStartupFile(h, home, machine))) ==
            IntendedFindState(h, home, machine)
  {
  }
}
