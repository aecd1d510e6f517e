/**
 * What the launcher asks of the machine it runs on. The real file system, the
 * environment and the executable lookup are not modelled: they are inputs, and
 * every property proved holds for every host.
 */
module Platform {
  import opened Wrappers

  datatype Host = Host(
    /** Symbols(): the path of the running executable, None when it is unknown. */
    symbols: Option<string>,
    /** getenv(): None for an unset variable. */
    getenv: string -> Option<string>,
    /** PrologPath(): the canonical form of a path, None when it has none. */
    prologPath: string -> Option<string>,
    absoluteFile: string -> string,
    dirName: string -> string,
    existsDirectory: string -> bool,
    existsFile: string -> bool,
    /** Fopen followed by one fgets: the first line, newline included, or None when either fails. */
    readFirstLine: string -> Option<string>,
    /** Built for a platform with drive letters (tos, DOS, Windows). */
    driveLetters: bool,
    /** HasDrive(): the drive map on tos, always true on DOS and Windows. */
    hasDrive: char -> bool)
}
