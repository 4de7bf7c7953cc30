/**
 * `uploadFilesToDrive`: one Drive create call per usable file descriptor, in
 * the order the `files` object lists them, keeping only the files Drive
 * reports as created. The Drive service is an oracle: the answer to the i-th
 * create call of the request.
 */
module DriveUpload {
  import opened Wrappers

  /** One item of a `files` entry: a file descriptor, or a hole (`null`/`undefined`). "" stands for a falsy property. */
  datatype FilePart = NoFile | File(filepath: string, originalFilename: string, mimetype: string)

  /** The value of one `files` entry: a single item, or an array of them. */
  datatype FileEntry = Single(part: FilePart) | List(parts: seq<FilePart>)

  /** `Object.entries(files)`: field name and entry, in the object's enumeration order. */
  type FilesObj = seq<(string, FileEntry)>

  /** The metadata of one `drive.files.create` call; `filepath` is the temp file streamed as its body. */
  datatype CreateRequest = CreateRequest(name: string, mimeType: string, parent: string, filepath: string)

  /** `res.data` of a successful create (fields `id,name,webViewLink`). */
  datatype DriveFile = DriveFile(id: string, name: string, webViewLink: Option<string>)

  /** What Drive answers to one create call. */
  datatype Outcome = Created(file: DriveFile) | Failed(message: string)

  const DefaultMimeType: string := "application/octet-stream"

  /** The answer to the i-th create call; an oracle that runs out answers every further call with a failure. */
  function Answer(drive: seq<Outcome>, i: nat): Outcome
  {
    if i < |drive| then drive[i] else Failed("no answer")
  }

  /** `Array.isArray(fileOrList) ? fileOrList : [fileOrList]`. */
  function Parts(entry: FileEntry): seq<FilePart>
  {
    match entry
    case Single(p) => [p]
    case List(ps) => ps
  }

  /** Every item of every entry, entries in order and items in order within each. */
  function Flatten(files: FilesObj): seq<FilePart>
  {
    if files == [] then [] else Flatten(files[..|files| - 1]) + Parts(files[|files| - 1].1)
  }

  /** The negation of `!f || !f.filepath || !f.originalFilename`. */
  predicate Usable(p: FilePart)
  {
    p.File? && p.filepath != "" && p.originalFilename != ""
  }

  /** The create call for a usable item: its own name and path, its MIME type or the default. */
  function RequestFor(parent: string, p: FilePart): CreateRequest
    requires p.File?
  {
    CreateRequest(p.originalFilename, if p.mimetype != "" then p.mimetype else DefaultMimeType, parent, p.filepath)
  }

  /** The create calls the loop makes for `parts`, skipping unusable items. */
  function Requests(parent: string, parts: seq<FilePart>): seq<CreateRequest>
  {
    if parts == [] then []
    else
      var p := parts[|parts| - 1];
      Requests(parent, parts[..|parts| - 1]) + if Usable(p) then [RequestFor(parent, p)] else []
  }

  /** The files Drive created among the first `n` calls, in call order; failed calls leave no trace. */
  function Successes(drive: seq<Outcome>, n: nat): seq<DriveFile>
  {
    if n == 0 then []
    else
      Successes(drive, n - 1)
        + match Answer(drive, n - 1)
          case Created(f) => [f]
          case Failed(_) => []
  }

  /**
   * `uploadFilesToDrive(drive, parentFolderId, files)`. Returns the created
   * files and the create calls made, in order.
   */
  method UploadFilesToDrive(parent: string, files: FilesObj, drive: seq<Outcome>)
    returns (uploads: seq<DriveFile>, calls: seq<CreateRequest>)
    ensures calls == Requests(parent, Flatten(files))
    ensures uploads == Successes(drive, |calls|)
  {
    uploads, calls := [], [];
    for i := 0 to |files|
      invariant calls == Requests(parent, Flatten(files[..i]))
      invariant uploads == Successes(drive, |calls|)
    {
      var list := Parts(files[i].1);
      ghost var before := Flatten(files[..i]);
      assert before + list[..0] == before;
      FlattenStep(files, i);
      for j := 0 to |list|
        invariant calls == Requests(parent, before + list[..j])
        invariant uploads == Successes(drive, |calls|)
      {
        var f := list[j];
        RequestsStep(parent, before, list, j);
        if !Usable(f) {
          continue;
        }
        var mimeType := if f.mimetype != "" then f.mimetype else DefaultMimeType;
        var request := CreateRequest(f.originalFilename, mimeType, parent, f.filepath);
        assert request == RequestFor(parent, f);
        var outcome := Answer(drive, |calls|);
        SuccessesStep(drive, |calls|);
        calls := calls + [request];
        match outcome {
          case Created(file) =>
            uploads := uploads + [file];
          case Failed(_) =>
            // the error is logged and the loop goes on with the next file
        }
      }
      assert list[..|list|] == list;
    }
    assert files[..|files|] == files;
  }

  lemma FlattenStep(files: FilesObj, i: nat)
    requires i < |files|
    ensures Flatten(files[..i + 1]) == Flatten(files[..i]) + Parts(files[i].1)
  {
    assert files[..i + 1][..i] == files[..i];
  }

  lemma RequestsStep(parent: string, before: seq<FilePart>, list: seq<FilePart>, j: nat)
    requires j < |list|
    ensures Requests(parent, before + list[..j + 1]) == Requests(parent, before + list[..j])
      + if Usable(list[j]) then [RequestFor(parent, list[j])] else []
  {
    assert (before + list[..j + 1])[..|before| + j] == before + list[..j];
  }

  lemma SuccessesStep(drive: seq<Outcome>, n: nat)
    ensures Successes(drive, n + 1) ==
      Successes(drive, n) + if Answer(drive, n).Created? then [Answer(drive, n).file] else []
  {
  }

  // ----- properties of the fan-out -----

  /**
   * At most one call per item, and every call goes to the parent folder with
   * a non-empty name, path and MIME type.
   */
  lemma {:induction false} RequestsShape(parent: string, parts: seq<FilePart>)
    ensures |Requests(parent, parts)| <= |parts|
    ensures forall r :: r in Requests(parent, parts) ==>
      r.parent == parent && r.name != "" && r.filepath != "" && r.mimeType != ""
  {
    if parts != [] {
      RequestsShape(parent, parts[..|parts| - 1]);
    }
  }

  /** Skipping is per item: the calls for a concatenation are the calls for each part. */
  lemma {:induction false} RequestsAppend(parent: string, a: seq<FilePart>, b: seq<FilePart>)
    ensures Requests(parent, a + b) == Requests(parent, a) + Requests(parent, b)
    decreases |b|
  {
    if b == [] {
      assert a + b == a;
    } else {
      var b' := b[..|b| - 1];
      assert (a + b)[..|a + b| - 1] == a + b';
      RequestsAppend(parent, a, b');
    }
  }

  /** An unusable item causes no call: the calls are those of the parts around it. */
  lemma SkippedItemIsNotCalled(parent: string, a: seq<FilePart>, p: FilePart, b: seq<FilePart>)
    requires !Usable(p)
    ensures Requests(parent, a + [p] + b) == Requests(parent, a + b)
  {
    RequestsAppend(parent, a + [p], b);
    RequestsAppend(parent, a, [p]);
    RequestsAppend(parent, a, b);
    assert Requests(parent, [p]) == [] by { assert [p][..0] == []; }
  }

  /** A usable item is called with its own name and path, and its MIME type or the default. */
  lemma UsableItemIsCalled(parent: string, p: FilePart)
    requires Usable(p)
    ensures Requests(parent, [p]) ==
      [CreateRequest(p.originalFilename, if p.mimetype != "" then p.mimetype else DefaultMimeType, parent, p.filepath)]
  {
    assert [p][..0] == [];
  }

  /** The result never holds more files than there were calls. */
  lemma {:induction false} SuccessesBound(drive: seq<Outcome>, n: nat)
    ensures |Successes(drive, n)| <= n
  {
    if n > 0 {
      SuccessesBound(drive, n - 1);
    }
  }

  /** The upload result never holds more files than the `files` object holds items. */
  lemma UploadsBound(parent: string, files: FilesObj, drive: seq<Outcome>)
    ensures |Successes(drive, |Requests(parent, Flatten(files))|)| <= |Flatten(files)|
  {
    RequestsShape(parent, Flatten(files));
    SuccessesBound(drive, |Requests(parent, Flatten(files))|);
  }

  /** Every call succeeded exactly when the result has one file per call. */
  lemma {:induction false} SuccessesAllCreated(drive: seq<Outcome>, n: nat)
    ensures |Successes(drive, n)| == n <==> forall i :: 0 <= i < n ==> Answer(drive, i).Created?
  {
    if n > 0 {
      SuccessesAllCreated(drive, n - 1);
      SuccessesBound(drive, n - 1);
    }
  }

  /** A later failure never removes an earlier success: results only grow. */
  lemma {:induction false} SuccessesGrow(drive: seq<Outcome>, n: nat, m: nat)
    requires n <= m
    ensures Successes(drive, n) <= Successes(drive, m)
    decreases m
  {
    if n < m {
      SuccessesGrow(drive, n, m - 1);
    }
  }

  /**
   * The result is exactly the created files: each one Drive created among the
   * first `n` calls is in it, and everything in it is such a file.
   */
  lemma {:induction false} SuccessesAreTheCreated(drive: seq<Outcome>, n: nat)
    ensures forall i :: 0 <= i < n && Answer(drive, i).Created? ==> Answer(drive, i).file in Successes(drive, n)
    ensures forall f :: f in Successes(drive, n) ==> exists i :: 0 <= i < n && Answer(drive, i) == Created(f)
  {
    if n > 0 {
      SuccessesAreTheCreated(drive, n - 1);
    }
  }
}
