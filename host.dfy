/**
 * The host filesystem as an abstract map from path to text content: what the
 * daemon reaches through os.path.exists, open(..., 'w').write, read and os.remove.
 */
module Host {
  import opened Wrappers
  import opened Python

  class FileSystem {
    var files: map<string, string>

    constructor (files: map<string, string>)
      ensures this.files == files
    {
      this.files := files;
    }

    /** `os.path.exists(path)` */
    predicate Exists(path: string)
      reads this
    {
      path in files
    }

    /** `open(path, 'w').write(text)`: creates or truncates the file. */
    method WriteText(path: string, text: string)
      modifies this
      ensures files == old(files)[path := text]
    {
      files := files[path := text];
    }

    /** `open(path, 'r').read()` */
    method ReadText(path: string) returns (r: Result<string, PyError>)
      ensures path in files ==> r == Success(files[path])
      ensures path !in files ==> r == Failure(FileNotFoundError)
    {
      if path in files {
        r := Success(files[path]);
      } else {
        r := Failure(FileNotFoundError);
      }
    }

    /** `os.remove(path)` */
    method Remove(path: string) returns (o: Outcome<PyError>)
      modifies this
      ensures path in old(files) ==> o == Pass && files == old(files) - {path}
      ensures path !in old(files) ==> o == Fail(FileNotFoundError) && files == old(files)
    {
      if path in files {
        files := files - {path};
        o := Pass;
      } else {
        o := Fail(FileNotFoundError);
      }
    }
  }
}
