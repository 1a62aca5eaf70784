/**
 * The abstract filesystem that completion scans: given a directory path
 * relative to the manifest's directory, it yields the names of the entries
 * in that directory, a not-found condition, or some other I/O failure.
 *
 * A concrete directory tree, a tarball or a git tree are all values of
 * `Filesystem`; a sequence keeps the listing order fixed, so what completion
 * produces is determined by the value.
 */
module Afs {

  datatype Listing =
    | NotFound
    | Failed(message: string)
    | Entries(names: seq<string>)

  /** Each directory that can be listed, with what listing it yields. */
  type Filesystem = map<string, Listing>

  /** Listing `dir`; a directory the filesystem does not know is not found. */
  function FileNamesIn(fs: Filesystem, dir: string): Listing
  {
    if dir in fs then fs[dir] else NotFound
  }

  /** The listing of `dir` succeeds and names `entry`. */
  predicate ListingContains(fs: Filesystem, dir: string, entry: string)
  {
    FileNamesIn(fs, dir).Entries? && entry in FileNamesIn(fs, dir).names
  }
}
