/** `BlobStorage` (lib/blob-storage.ts): path and extension helpers, size and type
    validators, and uploads through an abstract blob store. */
module BlobStorage {
  import opened Wrappers
  import opened Strings

  /** The parts of a browser `File` the helpers read. */
  datatype File = File(name: string, fileType: string, size: nat)

  /** `put(pathname, file)` of the blob store: the public URL, or a failure. */
  type Put = (string, File) -> Result<string, string>

  /** `del(url)` of the blob store: success, or a failure. */
  type Delete = string -> Option<string>

  const DefaultFolder := "documents"
  const UploadFailed := "File upload failed"
  const DeletionFailed := "File deletion failed"
  const UnknownFileName := "unknown"

  /** The pathname `uploadFile` stores a file under: `folder/timestamp-name`. */
  function UploadPath(folder: string, timestamp: nat, name: string): string
  {
    folder + "/" + NatToString(timestamp) + "-" + name
  }

  /** The upload path starts with the folder and a slash, and ends with a dash and the file name. */
  lemma UploadPathShape(folder: string, timestamp: nat, name: string)
    ensures var p := UploadPath(folder, timestamp, name);
      && StartsWith(p, folder + "/")
      && |p| >= |name| + 1 && p[|p| - |name| - 1..] == "-" + name
  {
    var p := UploadPath(folder, timestamp, name);
    assert p == (folder + "/") + (NatToString(timestamp) + "-" + name);
    assert p == (folder + "/" + NatToString(timestamp)) + ("-" + name);
  }

  /** `uploadFile`: store the file under its path; any failure becomes "File upload failed". */
  method UploadFile(file: File, folder: string, now: nat, put: Put) returns (r: Result<string, string>)
    ensures put(UploadPath(folder, now, file.name), file).Ok? ==> r == put(UploadPath(folder, now, file.name), file)
    ensures put(UploadPath(folder, now, file.name), file).Err? ==> r == Err(UploadFailed)
  {
    var blob := put(UploadPath(folder, now, file.name), file);
    if blob.Ok? {
      r := Ok(blob.value);
    } else {
      r := Err(UploadFailed);
    }
  }

  /** Whether every file's upload succeeds, given the clock reading of each call. */
  predicate AllStored(files: seq<File>, folder: string, clock: seq<nat>, put: Put)
    requires |clock| == |files|
  {
    forall i :: 0 <= i < |files| ==> put(UploadPath(folder, clock[i], files[i].name), files[i]).Ok?
  }

  /** `uploadMultipleFiles`: one upload per file, in input order; the combined promise
      fails with "File upload failed" as soon as one upload fails. `clock[i]` is the
      value `Date.now()` returns in the i-th call. */
  method UploadMultipleFiles(files: seq<File>, folder: string, clock: seq<nat>, put: Put)
    returns (r: Result<seq<string>, string>)
    requires |clock| == |files|
    ensures r.Ok? <==> AllStored(files, folder, clock, put)
    ensures r.Err? ==> r.error == UploadFailed
    ensures r.Ok? ==> |r.value| == |files|
    ensures r.Ok? ==> forall i :: 0 <= i < |files| ==>
      r.value[i] == put(UploadPath(folder, clock[i], files[i].name), files[i]).value
  {
    var urls: seq<string> := [];
    var failed := false;
    for i := 0 to |files|
      invariant |urls| == i
      invariant !failed <==> forall j :: 0 <= j < i ==> put(UploadPath(folder, clock[j], files[j].name), files[j]).Ok?
      invariant forall j :: 0 <= j < i && !failed ==> urls[j] == put(UploadPath(folder, clock[j], files[j].name), files[j]).value
    {
      var u := UploadFile(files[i], folder, clock[i], put);
      if u.Ok? {
        urls := urls + [u.value];
      } else {
        urls := urls + [""];
        failed := true;
      }
    }
    if failed {
      r := Err(UploadFailed);
    } else {
      r := Ok(urls);
    }
  }

  /** `deleteFile`: any failure of the store becomes "File deletion failed". */
  method DeleteFile(url: string, del: Delete) returns (r: Option<string>)
    ensures r.None? <==> del(url).None?
    ensures r.Some? ==> r.value == DeletionFailed
  {
    var failure := del(url);
    if failure.Some? {
      r := Some(DeletionFailed);
    } else {
      r := None;
    }
  }

  /** `extractFileNameFromUrl`: the last `/`-separated piece, or "unknown" when it is empty. */
  function ExtractFileNameFromUrl(url: string): string
  {
    var piece := Last(Split(url, '/'));
    if piece == "" then UnknownFileName else piece
  }

  /** The extracted name is the text after the last '/', or the whole URL without one;
      it is "unknown" exactly when that text is empty. */
  lemma ExtractFileNameIsLastSegment(url: string)
    ensures var name := ExtractFileNameFromUrl(url);
      && (name == UnknownFileName <==> (Last(Split(url, '/')) == "" || Last(Split(url, '/')) == UnknownFileName))
      && (name != UnknownFileName ==> IsTextAfterLast(url, '/', name))
      && ('/' !in url && url != "" ==> name == url)
  {
    LastPiece(url, '/');
    if '/' !in url {
      SplitWithoutSeparator(url, '/');
    }
  }

  /** Without a '/' in the name, the file name of an upload URL whose path ends in
      the stored pathname is the timestamped file name. */
  lemma FileNameOfUploadPath(prefix: string, folder: string, timestamp: nat, name: string)
    requires '/' !in name && name != ""
    ensures ExtractFileNameFromUrl(prefix + UploadPath(folder, timestamp, name)) == NatToString(timestamp) + "-" + name
  {
    var stamped := NatToString(timestamp) + "-" + name;
    var url := prefix + UploadPath(folder, timestamp, name);
    assert url == (prefix + folder) + ['/'] + stamped;
    assert '/' !in stamped by {
      forall i | 0 <= i < |stamped| ensures stamped[i] != '/' {
        if i < |NatToString(timestamp)| {
          assert stamped[i] == NatToString(timestamp)[i];
        } else if i > |NatToString(timestamp)| {
          assert stamped[i] == name[i - |NatToString(timestamp)| - 1];
        }
      }
    }
    LastPiece(url, '/');
    TextAfterLastOfAppend(prefix + folder, '/', stamped);
    TextAfterLastUnique(url, '/', Last(Split(url, '/')), stamped);
  }

  /** `getFileExtension`: the lower-cased text after the last '.', the whole name
      lower-cased when there is no '.', and "" for an empty name. */
  function GetFileExtension(filename: string): string
  {
    Lower(Last(Split(filename, '.')))
  }

  lemma FileExtensionIsLastSegment(filename: string)
    ensures exists tail :: IsTextAfterLast(filename, '.', tail) && GetFileExtension(filename) == Lower(tail)
    ensures '.' !in filename ==> GetFileExtension(filename) == Lower(filename)
    ensures filename == "" ==> GetFileExtension(filename) == ""
  {
    LastPiece(filename, '.');
    if '.' !in filename {
      SplitWithoutSeparator(filename, '.');
    }
  }

  /** `validateFileType`: the file's MIME type is one of the allowed ones. */
  function ValidateFileType(file: File, allowedTypes: seq<string>): (ok: bool)
    ensures ok <==> exists i :: 0 <= i < |allowedTypes| && allowedTypes[i] == file.fileType
  {
    file.fileType in allowedTypes
  }

  const BytesPerMB: nat := 1024 * 1024

  /** `validateFileSize`: at most `maxSizeMB` mebibytes, the limit itself included. */
  function ValidateFileSize(file: File, maxSizeMB: nat): bool
  {
    file.size <= maxSizeMB * BytesPerMB
  }

  /** The size check accepts exactly the sizes up to the limit in bytes, is
      monotone in the size and in the limit. */
  lemma FileSizeLimit(file: File, smaller: File, maxSizeMB: nat, largerMB: nat)
    requires smaller.size <= file.size && maxSizeMB <= largerMB
    ensures ValidateFileSize(File(file.name, file.fileType, maxSizeMB * 1048576), maxSizeMB)
    ensures !ValidateFileSize(File(file.name, file.fileType, maxSizeMB * 1048576 + 1), maxSizeMB)
    ensures ValidateFileSize(file, maxSizeMB) ==> ValidateFileSize(smaller, maxSizeMB)
    ensures ValidateFileSize(file, maxSizeMB) ==> ValidateFileSize(file, largerMB)
  {
    assert maxSizeMB * BytesPerMB <= largerMB * BytesPerMB;
  }
}
