/** The part of the file system the build script touches: the regular files,
    by path, with their contents. Python 2 `str` is a byte string, so a
    `char` here stands for a byte. */
module FileSystem {

  type Files = map<string, string>

  class Disk {
    var files: Files

    constructor (initial: Files)
      ensures files == initial
    {
      files := initial;
    }

    /** `os.path.isfile(path)`. */
    predicate IsFile(path: string)
      reads this
    {
      path in files
    }

    /** `open(path).read()`. */
    function Read(path: string): string
      reads this
      requires IsFile(path)
    {
      files[path]
    }

    /** `os.unlink(path)` on a regular file. */
    method Unlink(path: string)
      requires IsFile(path)
      modifies this
      ensures files == old(files) - {path}
    {
      files := files - {path};
    }

    /** `open(path, 'w').write(content)`: creates or truncates, then writes. */
    method WriteText(path: string, content: string)
      modifies this
      ensures files == old(files)[path := content]
    {
      files := files[path := content];
    }

    /** The files as a delegated build step leaves them. */
    method Replace(after: Files)
      modifies this
      ensures files == after
    {
      files := after;
    }
  }
}
