/** The add-listing form's state: the form record, the selected files and
    their preview URLs. The two lists grow and shrink together and never
    hold more than ten files. Object URLs come from a function parameter;
    alerts are returned instead of shown. */
module AddListing {
  import opened Util
  import Upload

  /** The scalar fields of the form, set through `handleInputChange`. */
  datatype Field =
    | Title | Description | Price | Bedrooms | Bathrooms | SquareFootage
    | PropertyType | ListingType | Address | City | State | ZipCode
    | YearBuilt | LotSize | ParkingSpaces

  /** What an input hands to `handleInputChange`. */
  datatype FieldValue = TextValue(text: string) | NumberValue(n: nat) | Undefined

  const MaxPhotos: nat := 10

  /** The three sample images submitted when no photo was chosen. */
  const FallbackImages: seq<string> := [
    "https://images.unsplash.com/photo-1564013799919-ab600027ffc6",
    "https://images.unsplash.com/photo-1505843513577-22bb7d21e455",
    "https://images.unsplash.com/photo-1484154218962-a197022b5858"
  ]

  /** Why a selection was refused. */
  datatype Alert = ImageSelectionAlert | MaxPhotosAlert

  /** `files.filter(file => file.type.startsWith('image/'))`: no size check here. */
  function ImageFiles(files: seq<Upload.File>): (r: seq<Upload.File>)
    ensures |r| <= |files|
    ensures forall f :: f in r <==> f in files && Upload.IsImage(f)
    ensures IsSubsequence(r, files)
  {
    if files == [] then []
    else if Upload.IsImage(files[0]) then [files[0]] + ImageFiles(files[1..])
    else
      var rest := ImageFiles(files[1..]);
      assert rest != [] ==> rest[0] != files[0];
      rest
  }

  /** The filter keeps every image as often as it was submitted and
      drops every other file. */
  lemma {:induction false} ImageFilesCounts(files: seq<Upload.File>, f: Upload.File)
    ensures multiset(ImageFiles(files))[f] == if Upload.IsImage(f) then multiset(files)[f] else 0
  {
    if files != [] {
      assert files == [files[0]] + files[1..];
      ImageFilesCounts(files[1..], f);
      if Upload.IsImage(files[0]) {
        assert ImageFiles(files) == [files[0]] + ImageFiles(files[1..]);
      }
    }
  }

  /** One preview URL per file, in order. */
  function Previews(files: seq<Upload.File>, objectUrl: Upload.File -> string): (r: seq<string>)
    ensures |r| == |files| && forall i :: 0 <= i < |files| ==> r[i] == objectUrl(files[i])
  {
    seq(|files|, i requires 0 <= i < |files| => objectUrl(files[i]))
  }

  /** `prev.filter((_, i) => i !== index)`: an index outside the list removes nothing. */
  function RemoveAt<T>(xs: seq<T>, index: int): (r: seq<T>)
    ensures 0 <= index < |xs| ==> |r| == |xs| - 1
    ensures 0 <= index < |xs| ==> forall i :: 0 <= i < index ==> r[i] == xs[i]
    ensures 0 <= index < |xs| ==> forall i :: index <= i < |r| ==> r[i] == xs[i + 1]
    ensures !(0 <= index < |xs|) ==> r == xs
  {
    if 0 <= index < |xs| then xs[..index] + xs[index + 1..] else xs
  }

  /** The images the form submits: the uploaded URLs, or the three samples
      when no file was chosen; `None` when the upload fails. */
  function SubmissionImages(files: seq<Upload.File>, uploaded: Option<seq<string>>): (r: Option<seq<string>>)
    ensures files == [] ==> r == Some(FallbackImages) && |r.value| == 3
    ensures files != [] ==> r == uploaded
  {
    if files == [] then Some(FallbackImages) else uploaded
  }

  class ListingForm {
    var fields: map<Field, FieldValue>
    var features: seq<string>
    var uploadedFiles: seq<Upload.File>
    var previewUrls: seq<string>

    /** One preview per file, at most ten files, every one an image. */
    ghost predicate Valid()
      reads this
    {
      && |uploadedFiles| == |previewUrls|
      && |uploadedFiles| <= MaxPhotos
      && forall f :: f in uploadedFiles ==> Upload.IsImage(f)
    }

    /** The form's initial state. */
    constructor ()
      ensures Valid()
      ensures uploadedFiles == [] && previewUrls == [] && features == []
      ensures fields == map[Title := TextValue(""), Description := TextValue(""), Price := NumberValue(0),
                            Bedrooms := NumberValue(1), Bathrooms := NumberValue(1),
                            SquareFootage := NumberValue(0), PropertyType := TextValue("HOUSE"),
                            ListingType := TextValue("SALE"), Address := TextValue(""), City := TextValue(""),
                            State := TextValue(""), ZipCode := TextValue("")]
    {
      fields := map[Title := TextValue(""), Description := TextValue(""), Price := NumberValue(0),
                    Bedrooms := NumberValue(1), Bathrooms := NumberValue(1),
                    SquareFootage := NumberValue(0), PropertyType := TextValue("HOUSE"),
                    ListingType := TextValue("SALE"), Address := TextValue(""), City := TextValue(""),
                    State := TextValue(""), ZipCode := TextValue("")];
      features := [];
      uploadedFiles := [];
      previewUrls := [];
    }

    /** `handleInputChange(field, value)`: that field, and only it, changes. */
    method HandleInputChange(field: Field, value: FieldValue)
      modifies this
      ensures fields == old(fields)[field := value]
      ensures features == old(features) && uploadedFiles == old(uploadedFiles) && previewUrls == old(previewUrls)
    {
      fields := fields[field := value];
    }

    /** `handleFeatureToggle`: remove the feature when present, else append it. */
    method HandleFeatureToggle(feature: string)
      modifies this
      ensures features == Toggle(old(features), feature)
      ensures fields == old(fields) && uploadedFiles == old(uploadedFiles) && previewUrls == old(previewUrls)
    {
      features := Toggle(features, feature);
    }

    /** `handleFileSelect`: keep the images; refuse a selection with none, or
        one that would bring the total above ten; otherwise append the files
        and, one by one, a preview URL for each. */
    method HandleFileSelect(files: seq<Upload.File>, objectUrl: Upload.File -> string)
      returns (alert: Option<Alert>)
      requires Valid()
      modifies this
      ensures Valid()
      ensures fields == old(fields) && features == old(features)
      ensures alert == Some(ImageSelectionAlert) <==> ImageFiles(files) == []
      ensures alert == Some(MaxPhotosAlert) <==>
                ImageFiles(files) != [] && |old(uploadedFiles)| + |ImageFiles(files)| > MaxPhotos
      ensures alert.Some? ==> uploadedFiles == old(uploadedFiles) && previewUrls == old(previewUrls)
      ensures alert.None? ==> uploadedFiles == old(uploadedFiles) + ImageFiles(files)
      ensures alert.None? ==> previewUrls == old(previewUrls) + Previews(ImageFiles(files), objectUrl)
    {
      var newFiles := ImageFiles(files);
      if |newFiles| == 0 {
        return Some(ImageSelectionAlert);
      }
      if |uploadedFiles| + |newFiles| > MaxPhotos {
        return Some(MaxPhotosAlert);
      }
      uploadedFiles := uploadedFiles + newFiles;
      var i := 0;
      while i < |newFiles|
        invariant 0 <= i <= |newFiles|
        invariant previewUrls == old(previewUrls) + Previews(newFiles[..i], objectUrl)
        invariant uploadedFiles == old(uploadedFiles) + newFiles
        invariant fields == old(fields) && features == old(features)
      {
        previewUrls := previewUrls + [objectUrl(newFiles[i])];
        i := i + 1;
      }
      assert newFiles[..i] == newFiles;
      alert := None;
    }

    /** `handleFileRemove(index)`: drop that position from both lists. */
    method HandleFileRemove(index: int)
      requires Valid()
      modifies this
      ensures Valid()
      ensures uploadedFiles == RemoveAt(old(uploadedFiles), index)
      ensures previewUrls == RemoveAt(old(previewUrls), index)
      ensures fields == old(fields) && features == old(features)
    {
      uploadedFiles := RemoveAt(uploadedFiles, index);
      previewUrls := RemoveAt(previewUrls, index);
      assert forall f :: f in uploadedFiles ==> f in old(uploadedFiles) by {
        forall f | f in uploadedFiles ensures f in old(uploadedFiles) {
          var i :| 0 <= i < |uploadedFiles| && uploadedFiles[i] == f;
          if 0 <= index < |old(uploadedFiles)| && i >= index {
            assert old(uploadedFiles)[i + 1] == f;
          } else {
            assert old(uploadedFiles)[i] == f;
          }
        }
      }
    }
  }

  /** Whatever files the form holds, the upload route never refuses them as
      too many. */
  lemma FormBatchNotTooMany(form: ListingForm, token: Option<string>, tokenValid: bool,
                            host: Upload.File -> Option<string>)
    requires form.Valid()
    ensures Upload.HandleUpload(token, tokenValid, form.uploadedFiles, host) != Upload.TooManyImages
  {
    Upload.SmallBatchNotTooMany(token, tokenValid, form.uploadedFiles, host);
  }
}
