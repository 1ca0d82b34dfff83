/** Where the file tools put a path they were given inside a container:
    an absolute path is kept, a relative one is taken under `/app`, the
    sandbox's working directory. */
module Destinations {
  import opened Wrappers
  import Paths

  const AppDir: string := "/app"

  /** `filepath.Join("/app", p)` unless `p` already starts with `/`. */
  function UnderApp(p: string): string
  {
    if Paths.IsAbs(p) then p else Paths.Join(AppDir, p)
  }

  /** Whatever was given, the resolved path is absolute; an absolute one
      is used unchanged, and a relative one is cleaned. */
  lemma UnderAppAbsolute(p: string)
    ensures Paths.IsAbs(UnderApp(p))
    ensures Paths.IsAbs(p) ==> UnderApp(p) == p
    ensures !Paths.IsAbs(p) ==> Paths.Clean(UnderApp(p)) == UnderApp(p)
  {
    if !Paths.IsAbs(p) {
      Paths.JoinAbs(AppDir, p);
    }
  }

  /** The container path of `copy_project` and `copy_file`: the given
      destination resolved by `UnderApp`, or by default the source's last
      element under `/app`. */
  function Destination(given: Option<string>, local: string): string
  {
    match given
    case Some(p) => UnderApp(p)
    case None => Paths.Join(AppDir, Paths.Base(local))
  }

  /** The destination is always absolute, and a given absolute one is
      used unchanged. */
  lemma DestinationAbsolute(given: Option<string>, local: string)
    ensures Paths.IsAbs(Destination(given, local))
    ensures given.Some? && Paths.IsAbs(given.value) ==> Destination(given, local) == given.value
  {
    match given
    case Some(p) => UnderAppAbsolute(p);
    case None => Paths.JoinAbs(AppDir, Paths.Base(local));
  }
}
