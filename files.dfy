/** The part of the file system the file writer, the rotator and the old-file
    sweeper touch: directories, and files holding text. A file that was run
    through gzip keeps the text it was made from, marked as compressed. */
module Files {

  datatype FilePath = FilePath(dir: string, name: string)

  datatype FileData = Plain(text: string) | Gzipped(text: string)

  /** The text of a plain file; a missing or compressed file reads as empty. */
  function TextAt(files: map<FilePath, FileData>, p: FilePath): string {
    if p in files && files[p].Plain? then files[p].text else ""
  }

  /** The size of a file in bytes, one byte per character. */
  function Size(files: map<FilePath, FileData>, p: FilePath): nat
    requires p in files
  {
    |files[p].text|
  }

  /** `filePath + ".gz"`. */
  function GzipPath(p: FilePath): FilePath {
    FilePath(p.dir, p.name + ".gz")
  }

  class FileSystem {
    var files: map<FilePath, FileData>
    var dirs: set<string>

    constructor (files: map<FilePath, FileData>, dirs: set<string>)
      ensures this.files == files && this.dirs == dirs
    {
      this.files := files;
      this.dirs := dirs;
    }

    /** `mkdirSync(dir, {recursive: true})`: no error when it exists. */
    method MakeDir(d: string)
      modifies this
      ensures dirs == old(dirs) + {d} && files == old(files)
    {
      dirs := dirs + {d};
    }

    /** `unlink`; removing a missing file changes nothing (the callers
        ignore that error). */
    method Unlink(p: FilePath)
      modifies this
      ensures files == old(files) - {p} && dirs == old(dirs)
    {
      files := files - {p};
    }

    /** Opening a file for appending creates it, empty, when it is missing. */
    method OpenForAppend(p: FilePath)
      modifies this
      ensures files == (if p in old(files) then old(files) else old(files)[p := Plain("")])
      ensures dirs == old(dirs)
    {
      if p !in files {
        files := files[p := Plain("")];
      }
    }

    /** A write on an append stream adds `s` at the end of the file. */
    method Append(p: FilePath, s: string)
      modifies this
      ensures files == old(files)[p := Plain(TextAt(old(files), p) + s)]
      ensures dirs == old(dirs)
    {
      files := files[p := Plain(TextAt(files, p) + s)];
    }

    /** `rename(p, q)` of an existing file: `q` gets its content, `p` is gone. */
    method Rename(p: FilePath, q: FilePath)
      requires p in files
      modifies this
      ensures files == (old(files) - {p})[q := old(files)[p]]
      ensures dirs == old(dirs)
    {
      files := (files - {p})[q := files[p]];
    }

    /** `compressFileGzip(q)`: writes `q.gz` holding `q`'s content
        compressed; `q` itself stays. */
    method Gzip(q: FilePath)
      requires q in files
      modifies this
      ensures files == old(files)[GzipPath(q) := Gzipped(old(files)[q].text)]
      ensures dirs == old(dirs)
    {
      files := files[GzipPath(q) := Gzipped(files[q].text)];
    }
  }
}
