/** `rotate_log`: when the open log file has reached a size limit, move it
    aside to `<path>.old` and start a new file at the same path. */
module Rotation {
  import opened CInt
  import opened Levels
  import opened FileSystem
  import opened Config
  import opened Emission

  /** The name the rotated-out file gets. */
  function RotatedPath(p: Path): Path {
    p + ".old"
  }

  lemma RotatedPathDiffers(p: Path)
    ensures RotatedPath(p) != p
  {
  }

  /** A handle is open and the file it writes has reached `maxSize` bytes. */
  predicate RotationDue(s: System, maxSize: Int64) {
    s.logger.fileOpen && Size(s.world.files, s.logger.path) >= maxSize
  }

  /** `rotate_log`. When no handle is open, or the file is still below the
      limit, nothing happens. Otherwise the handle is closed, the file is
      renamed to `RotatedPath(path)` (replacing an earlier rotated file),
      and `path` is opened again for append. `renameOk` says whether
      `rename` succeeds and `openOk` whether `fopen` does; a failed rename
      goes unreported and the reopened handle then appends to the old file. */
  function RotateLog(s: System, maxSize: Int64, renameOk: bool, openOk: bool): (r: System)
    ensures !RotationDue(s, maxSize) ==> r == s
    ensures RotationDue(s, maxSize) ==>
              && SameExcept(s.logger, r.logger, {FileHandle})
              && r.logger.fileOpen == openOk
              && r.world.console == s.world.console
              && r.world.stderr == s.world.stderr + (if openOk then [] else [OpenError(s.logger.path)])
              && AgreeOutside(s.world.files, r.world.files, {s.logger.path, RotatedPath(s.logger.path)})
    ensures var p := s.logger.path;
            RotationDue(s, maxSize) && renameOk && p in s.world.files ==>
              && RotatedPath(p) in r.world.files
              && r.world.files[RotatedPath(p)] == s.world.files[p]
              && (openOk ==> p in r.world.files && r.world.files[p] == "")
              && (!openOk ==> p !in r.world.files)
    ensures var p := s.logger.path;
            RotationDue(s, maxSize) && !(renameOk && p in s.world.files) ==>
              && AgreeOutside(s.world.files, r.world.files, {p})
              && Contents(r.world.files, p) == Contents(s.world.files, p)
              && (openOk || p in s.world.files ==> p in r.world.files)
  {
    var l := s.logger;
    if l.fileOpen then
      var fileSize := Size(s.world.files, l.path);
      if fileSize >= maxSize then
        RotatedPathDiffers(l.path);
        var closed := l.(fileOpen := false);
        var files := if renameOk then Rename(s.world.files, l.path, RotatedPath(l.path)) else s.world.files;
        OpenLogFile(System(closed, s.world.(files := files)), openOk)
      else s
    else s
  }

  /** Right after a successful rotation the file is empty, so rotating
      again under any positive limit changes nothing. */
  lemma RotateSettles(s: System, maxSize: Int64, renameOk: bool, openOk: bool)
    requires RotationDue(s, maxSize) && s.logger.path in s.world.files
    requires maxSize > 0
    ensures var r := RotateLog(s, maxSize, true, true);
            RotateLog(r, maxSize, renameOk, openOk) == r
  {
  }

  /** After a successful rotation the next file line starts a fresh file,
      while the lines written before the rotation stay in the rotated file. */
  lemma RotateThenLog(s: System, maxSize: Int64, env: Env, level: Level, msg: string)
    requires RotationDue(s, maxSize) && s.logger.path in s.world.files
    requires ReachesFile(s.logger.(fileOpen := true), level)
    ensures var r := LogMessage(RotateLog(s, maxSize, true, true), env, level, msg);
            && Contents(r.world.files, s.logger.path) == Line(s.logger, env, level, msg) + "\n"
            && Contents(r.world.files, RotatedPath(s.logger.path)) == s.world.files[s.logger.path]
  {
  }
}
