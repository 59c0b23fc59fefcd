/**
 * What the triggers reach outside themselves besides the broker: the job they
 * belong to (`job.scheduleBuild`, `job.getRootDir()`) and the file system the
 * event log is written to.
 */
module Host {
  class Job {
    /** `job.getRootDir()` as a path string. */
    const rootDir: string
    /** The descriptions of the causes of the builds scheduled so far. */
    var builds: seq<string>

    constructor (rootDir: string)
      ensures this.rootDir == rootDir && builds == []
    {
      this.rootDir := rootDir;
      builds := [];
    }

    /** `scheduleBuild(0, new ObsEventCause(description))`. */
    method ScheduleBuild(description: string)
      modifies this
      ensures builds == old(builds) + [description]
    {
      builds := builds + [description];
    }
  }

  /**
   * The contents of `path` after `new FileWriter(path, append)` and one
   * `write(text)`: appended to what was there, or replacing it.
   */
  function AfterWrite(files: map<string, string>, path: string, text: string, append: bool): (r: map<string, string>)
    ensures r.Keys == files.Keys + {path}
    ensures forall p :: p in files && p != path ==> r[p] == files[p]
    ensures append && path in files ==> r[path] == files[path] + text
    ensures !append || path !in files ==> r[path] == text
  {
    files[path := if append && path in files then files[path] + text else text]
  }

  class FileSystem {
    /** File contents by path. */
    var files: map<string, string>

    constructor (files: map<string, string>)
      ensures this.files == files
    {
      this.files := files;
    }

    method Write(path: string, text: string, append: bool)
      modifies this
      ensures files == AfterWrite(old(files), path, text, append)
    {
      files := AfterWrite(files, path, text, append);
    }
  }
}
