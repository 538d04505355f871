/** The image upload route: it checks the session cookie, keeps the files
    that are images of at most 10 MiB, rejects an empty or too large batch,
    and hands every kept file to the image host, answering with all the
    URLs or with an error. The host is a function from a file to its URL
    (`None` for a failed upload); token verification is an input. */
module Upload {
  import opened Util

  /** A submitted file: its MIME type and its size in bytes. */
  datatype File = File(mimeType: string, size: nat)

  const MaxFileSize: nat := 10 * 1024 * 1024
  const MaxFiles: nat := 10

  /** `file.type.startsWith('image/')`. */
  predicate IsImage(f: File) { "image/" <= f.mimeType }

  /** An image of at most 10 MiB, the limit included. */
  predicate IsValidFile(f: File) { IsImage(f) && f.size <= MaxFileSize }

  /** `files.filter(...)`: the valid files, in their submitted order. */
  function ValidFiles(files: seq<File>): (r: seq<File>)
    ensures |r| <= |files|
    ensures forall f :: f in r <==> f in files && IsValidFile(f)
    ensures IsSubsequence(r, files)
  {
    if files == [] then []
    else if IsValidFile(files[0]) then [files[0]] + ValidFiles(files[1..])
    else
      var rest := ValidFiles(files[1..]);
      assert rest != [] ==> rest[0] != files[0];
      rest
  }

  /** The filter keeps every valid file as often as it was submitted and
      drops every other file. */
  lemma {:induction false} ValidFilesCounts(files: seq<File>, f: File)
    ensures multiset(ValidFiles(files))[f] == if IsValidFile(f) then multiset(files)[f] else 0
  {
    if files != [] {
      assert files == [files[0]] + files[1..];
      ValidFilesCounts(files[1..], f);
      if IsValidFile(files[0]) {
        assert ValidFiles(files) == [files[0]] + ValidFiles(files[1..]);
      }
    }
  }

  /** `Promise.all` over the uploads: every URL in order, or nothing as soon
      as one upload fails. */
  function UploadAll(files: seq<File>, host: File -> Option<string>): (r: Option<seq<string>>)
    ensures r.Some? <==> forall i :: 0 <= i < |files| ==> host(files[i]).Some?
    ensures r.Some? ==> |r.value| == |files| &&
                        forall i :: 0 <= i < |files| ==> r.value[i] == host(files[i]).value
  {
    if files == [] then Some([])
    else
      var rest := UploadAll(files[1..], host);
      if host(files[0]).None? then None
      else if rest.None? then
        assert exists i :: 1 <= i < |files| && host(files[i]).None? by {
          var j :| 0 <= j < |files| - 1 && host(files[1..][j]).None?;
          assert host(files[j + 1]).None?;
        }
        None
      else Some([host(files[0]).value] + rest.value)
  }

  datatype UploadResult =
    | Unauthorized
    | ServerError
    | NoFiles
    | NoValidImages
    | TooManyImages
    | UploadFailed
    | Uploaded(urls: seq<string>, count: nat)
  {
    function Status(): nat
    {
      match this
      case Unauthorized => 401
      case ServerError => 500
      case NoFiles => 400
      case NoValidImages => 400
      case TooManyImages => 400
      case UploadFailed => 500
      case Uploaded(_, _) => 200
    }
  }

  /** The `POST` handler. */
  function HandleUpload(token: Option<string>, tokenValid: bool, files: seq<File>,
                        host: File -> Option<string>): (r: UploadResult)
    ensures r == Unauthorized <==> token.None? || token.value == ""
    ensures r == ServerError <==> token.Some? && token.value != "" && !tokenValid
    ensures r == NoFiles <==> token.Some? && token.value != "" && tokenValid && files == []
    ensures r == NoValidImages <==>
              token.Some? && token.value != "" && tokenValid && files != [] && |ValidFiles(files)| == 0
    ensures r == TooManyImages <==>
              token.Some? && token.value != "" && tokenValid && |ValidFiles(files)| > MaxFiles
    ensures r.Uploaded? <==>
              && token.Some? && token.value != "" && tokenValid
              && 1 <= |ValidFiles(files)| <= MaxFiles
              && forall i :: 0 <= i < |ValidFiles(files)| ==> host(ValidFiles(files)[i]).Some?
    ensures r.Uploaded? ==> r.count == |r.urls| == |ValidFiles(files)|
    ensures r.Uploaded? ==>
              forall i :: 0 <= i < |r.urls| ==> host(ValidFiles(files)[i]) == Some(r.urls[i])
    ensures r == UploadFailed <==>
              && token.Some? && token.value != "" && tokenValid
              && 1 <= |ValidFiles(files)| <= MaxFiles
              && exists i :: 0 <= i < |ValidFiles(files)| && host(ValidFiles(files)[i]).None?
  {
    if token.None? || token.value == "" then Unauthorized
    else if !tokenValid then ServerError
    else if files == [] then NoFiles
    else
      var valid := ValidFiles(files);
      if |valid| == 0 then NoValidImages
      else if |valid| > MaxFiles then TooManyImages
      else
        var urls := UploadAll(valid, host);
        if urls.None? then UploadFailed else Uploaded(urls.value, |urls.value|)
  }

  /** Invalid files are dropped silently: adding them to a batch changes
      nothing about the answer. */
  lemma {:induction false} InvalidFilesIgnored(files: seq<File>, junk: seq<File>)
    requires forall f :: f in junk ==> !IsValidFile(f)
    ensures ValidFiles(files + junk) == ValidFiles(files)
    decreases |files|
  {
    if files == [] {
      JunkHasNoValidFiles(junk);
      assert files + junk == junk;
    } else {
      InvalidFilesIgnored(files[1..], junk);
      assert (files + junk)[1..] == files[1..] + junk;
    }
  }

  lemma {:induction false} JunkHasNoValidFiles(junk: seq<File>)
    requires forall f :: f in junk ==> !IsValidFile(f)
    ensures ValidFiles(junk) == []
  {
    if junk != [] {
      assert junk[0] in junk;
      JunkHasNoValidFiles(junk[1..]);
    }
  }

  /** Filtering twice is filtering once. */
  lemma {:induction false} ValidFilesIdempotent(files: seq<File>)
    ensures ValidFiles(ValidFiles(files)) == ValidFiles(files)
  {
    if files != [] {
      ValidFilesIdempotent(files[1..]);
    }
  }

  /** A batch of at most ten files can never be refused as too many. */
  lemma SmallBatchNotTooMany(token: Option<string>, tokenValid: bool, files: seq<File>,
                             host: File -> Option<string>)
    requires |files| <= MaxFiles
    ensures HandleUpload(token, tokenValid, files, host) != TooManyImages
  {
  }
}
