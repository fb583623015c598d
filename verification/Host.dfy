/**
  The host platform, which the C# source selects with preprocessor symbols
  (UNITY_EDITOR_WIN versus UNITY_EDITOR_OSX / UNITY_EDITOR_LINUX). Here it is
  an ordinary parameter.
 */
module Host {

  /** Windows runs `cmd.exe`; macOS and Linux run `bash`. */
  datatype Platform = Windows | Posix

  /** The shell executable started for every command (`shellApp`). */
  function ShellApp(platform: Platform): string
  {
    match platform
    case Windows => "cmd.exe"
    case Posix => "bash"
  }

  /** The shell's "run this string" flag, the first part of the argument string. */
  function ShellFlag(platform: Platform): string
  {
    match platform
    case Windows => "/c"
    case Posix => "-c"
  }

  /** The separator of the entries of `PATH` (`PATH_SPLIT_CHAR`). */
  function PathSplitChar(platform: Platform): char
  {
    match platform
    case Windows => ';'
    case Posix => ':'
  }
}
