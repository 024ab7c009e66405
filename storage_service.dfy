/** `StorageService`: files kept under a root directory, modelled as a map
    from the locator `folder/name` to the file's bytes. The random UUID of a
    new file is a parameter. */
module StorageService {
  import opened Wrappers
  import opened Strings
  import opened JavaText
  import opened Entities
  import Numeric

  /** The extension of a file name: from its last '.' on, or nothing. */
  function Extension(name: Option<string>): (r: string)
    ensures r == [] <==> name.None? || '.' !in name.value
    ensures r != [] ==> r[0] == '.' && EndsWith(name.value, r) && '.' !in r[1..]
  {
    if name.Some? && '.' in name.value then
      var n := name.value;
      var k := LastIndexOf(n, '.');
      assert n[k..][1..] == n[k + 1..];
      n[k..]
    else []
  }

  /** The locator `uploadFile` and `uploadBytes` return. */
  function Locator(folder: string, uuid: string, extension: string): string {
    folder + "/" + uuid + extension
  }

  /** `downloadFile` on a snapshot of the files. */
  function Download(files: map<string, seq<Numeric.byte>>, path: string): (r: Result<seq<Numeric.byte>>)
    ensures r.Ok? <==> path in files
    ensures r.Ok? ==> r.value == files[path]
  {
    if path in files then Ok(files[path]) else Err("File not found: " + path)
  }

  /** `getFileUrl`. */
  function FileUrl(fileName: string): (u: string)
    ensures StartsWith(u, "/files/") && u[7..] == fileName
  {
    "/files/" + fileName
  }

  /** Distinct file names have distinct URLs. */
  lemma FileUrlInjective(a: string, b: string)
    requires FileUrl(a) == FileUrl(b)
    ensures a == b
  {
    assert a == FileUrl(a)[7..];
  }

  /** Bytes written under a locator are what a later download reads back,
      and other files are not affected. */
  lemma WriteThenDownload(files: map<string, seq<Numeric.byte>>, path: string, data: seq<Numeric.byte>, other: string)
    ensures Download(files[path := data], path) == Ok(data)
    ensures other != path ==> Download(files[path := data], other) == Download(files, other)
  {
  }

  class StorageService {
    var files: map<string, seq<Numeric.byte>>

    constructor ()
      ensures files == map[]
    {
      files := map[];
    }

    /** `uploadFile`: an empty file is refused before anything is stored;
        `Files.copy` refuses an existing target. */
    method UploadFile(file: MultipartFile, folder: string, uuid: string) returns (r: Result<string>)
      modifies this
      ensures file.bytes == [] ==> r == Err("File cannot be empty") && files == old(files)
      ensures file.bytes != [] ==>
        var loc := Locator(folder, uuid, Extension(file.originalFilename));
        if loc in old(files) then r.Err? && files == old(files)
        else r == Ok(loc) && files == old(files)[loc := file.bytes]
    {
      if file.bytes == [] {
        return Err("File cannot be empty");
      }
      var loc := Locator(folder, uuid, Extension(file.originalFilename));
      if loc in files {
        return Err("FileAlreadyExistsException: " + loc);
      }
      files := files[loc := file.bytes];
      r := Ok(loc);
    }

    /** `uploadBytes`: `Files.write` replaces whatever was there. */
    method UploadBytes(data: seq<Numeric.byte>, fileName: string, folder: string, uuid: string) returns (loc: string)
      modifies this
      ensures loc == Locator(folder, uuid, Extension(Some(fileName)))
      ensures files == old(files)[loc := data]
    {
      loc := Locator(folder, uuid, Extension(Some(fileName)));
      files := files[loc := data];
    }

    /** `downloadFile`. */
    method DownloadFile(path: string) returns (r: Result<seq<Numeric.byte>>)
      ensures r == Download(files, path)
    {
      if path !in files {
        return Err("File not found: " + path);
      }
      r := Ok(files[path]);
    }

    /** `deleteFile`: a missing file is not an error. */
    method DeleteFile(path: string)
      modifies this
      ensures files == old(files) - {path}
      ensures path !in files
    {
      if path in files {
        files := files - {path};
      }
    }

    /** `uploadBytes` followed by `downloadFile` of the returned locator. */
    method UploadThenDownload(data: seq<Numeric.byte>, fileName: string, folder: string, uuid: string) returns (r: Result<seq<Numeric.byte>>)
      modifies this
      ensures r == Ok(data)
    {
      var loc := UploadBytes(data, fileName, folder, uuid);
      r := DownloadFile(loc);
    }
  }
}
