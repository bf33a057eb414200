/**
 * The part of the file system the client writes to: the directories it creates and
 * the content of the files it writes, keyed by path.
 */
module Files {

  /**
   * `filepath.Join(dir, name)` for a clean directory without a trailing slash and a
   * plain file name; the cleaning `Join` does on other paths is not modelled.
   */
  function JoinPath(dir: string, name: string): string
  {
    dir + "/" + name
  }

  class Workspace {
    var dirs: set<string>
    var files: map<string, string>

    constructor(dirs0: set<string>, files0: map<string, string>)
      ensures dirs == dirs0 && files == files0
    {
      dirs := dirs0;
      files := files0;
    }

    /** `os.MkdirAll(dir, 0o755)`. */
    method MkdirAll(dir: string)
      modifies this
      ensures dirs == old(dirs) + {dir}
      ensures files == old(files)
    {
      dirs := dirs + {dir};
    }

    /** `os.WriteFile(path, content, 0o644)`: creates or overwrites the file. */
    method WriteFile(path: string, content: string)
      modifies this
      ensures files == old(files)[path := content]
      ensures dirs == old(dirs)
    {
      files := files[path := content];
    }
  }
}
