/** The scratch directory every request shares, as mutable state. */
module Scratch {
  import opened Types

  class ScratchDir {
    /** The files currently in the directory and their contents. */
    var files: FileMap

    /** Whether a path exists, as `os.path.exists` reports it. */
    function Exists(path: Path): bool
      reads this
    {
      path in files
    }

    /** Creates or truncates the file at `path` and writes `content` into it. */
    method Write(path: Path, content: Bytes)
      modifies this
      ensures files == old(files)[path := content]
    {
      files := files[path := content];
    }

    /** Deletes an existing file, as `os.remove` does; nothing else changes. */
    method Remove(path: Path)
      requires path in files
      modifies this
      ensures files == old(files) - {path}
      ensures path !in files
    {
      files := files - {path};
    }
  }
}
