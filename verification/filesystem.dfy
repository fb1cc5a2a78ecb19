/** The world the logger acts on: a filesystem mapping paths to their
    contents, plus the lines written to standard output and standard error. */
module FileSystem {

  type Path = string

  /** Each existing file's contents, as the characters it holds. */
  type Files = map<Path, string>

  datatype World = World(files: Files, console: seq<string>, stderr: seq<string>)

  /** What a file holds; a missing file reads as empty. */
  function Contents(files: Files, p: Path): string {
    if p in files then files[p] else ""
  }

  /** The file's length as `fseek(f, 0, SEEK_END); ftell(f)` reports it. */
  function Size(files: Files, p: Path): nat {
    |Contents(files, p)|
  }

  /** The two filesystems hold the same files with the same contents at
      every path outside `ps`. */
  ghost predicate AgreeOutside(a: Files, b: Files, ps: set<Path>) {
    forall q :: q !in ps ==> (q in a <==> q in b) && (q in a ==> a[q] == b[q])
  }

  lemma AgreeOutsideTrans(a: Files, b: Files, c: Files, ps: set<Path>)
    requires AgreeOutside(a, b, ps) && AgreeOutside(b, c, ps)
    ensures AgreeOutside(a, c, ps)
  {
  }

  /** A successful `fopen(p, "a")`: the file exists afterwards, is created
      empty when it was missing, and keeps its contents otherwise. */
  function OpenForAppend(files: Files, p: Path): (r: Files)
    ensures p in r && r[p] == Contents(files, p)
    ensures AgreeOutside(files, r, {p})
  {
    files[p := Contents(files, p)]
  }

  /** Writing `text` through a handle opened for append on `p`. */
  function Append(files: Files, p: Path, text: string): (r: Files)
    ensures p in r && r[p] == Contents(files, p) + text
    ensures AgreeOutside(files, r, {p})
  {
    files[p := Contents(files, p) + text]
  }

  /** A successful `rename(from, to)`: the contents of `from` now live at
      `to`, replacing whatever was there, and `from` no longer exists. A
      missing `from` makes `rename` fail and leaves everything as it was. */
  function Rename(files: Files, from: Path, to: Path): (r: Files)
    ensures from in files && from != to ==> to in r && r[to] == files[from] && from !in r
    ensures from !in files ==> r == files
    ensures AgreeOutside(files, r, {from, to})
  {
    if from in files then (files - {from})[to := files[from]] else files
  }
}
