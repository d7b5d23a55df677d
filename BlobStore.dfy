/** The file area under the web root that holds uploaded image bytes, as a set of relative paths. */
module Blobs {

  class BlobStore {
    var files: set<string>

    constructor ()
      ensures files == {}
    {
      files := {};
    }

    /** Whether a file is stored at `path`. */
    function Exists(path: string): (present: bool)
      reads this
      ensures present <==> path in files
    {
      path in files
    }

    /** Creates or overwrites the file at `path`. */
    method Save(path: string)
      modifies this
      ensures files == old(files) + {path}
    {
      files := files + {path};
    }

    /** Removes the file at `path`. */
    method Delete(path: string)
      modifies this
      ensures files == old(files) - {path}
    {
      files := files - {path};
    }
  }
}
