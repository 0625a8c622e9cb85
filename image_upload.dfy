/** The bounded image list of src/components/ui/image-upload.tsx: files are
    accepted by MIME type and size, appended, cut to `maxImages`, and removed
    by index; every change is reported to `onImagesChange`. */
module ImageUpload {
  import opened Wrappers
  import opened Js

  /** The fields of a browser `File` the component looks at. */
  datatype File = File(name: string, mimeType: string, size: nat)

  const MaxFileSize: nat := 5 * 1024 * 1024
  const DefaultMaxImages: int := 4

  predicate Accepted(f: File) {
    StartsWith(f.mimeType, "image/") && f.size <= MaxFileSize
  }

  /** `Array.from(files).filter(...)`: the accepted files, in input order. */
  function AcceptFiles(files: seq<File>): (r: seq<File>)
    ensures |r| <= |files|
    ensures forall k :: 0 <= k < |r| ==> Accepted(r[k])
    ensures forall f :: f in files && Accepted(f) ==> f in r
    ensures forall f :: f in r ==> f in files
  {
    if files == [] then []
    else (if Accepted(files[0]) then [files[0]] else []) + AcceptFiles(files[1..])
  }

  /** Every file in `files` is accepted (so `AcceptFiles` keeps them all). */
  lemma {:induction false} AcceptFilesKeepsAccepted(files: seq<File>)
    requires forall k :: 0 <= k < |files| ==> Accepted(files[k])
    ensures AcceptFiles(files) == files
  {
    if files != [] {
      AcceptFilesKeepsAccepted(files[1..]);
    }
  }

  /** The filter keeps a single file exactly when it is accepted. */
  lemma AcceptFilesSingle(f: File)
    ensures AcceptFiles([f]) == if Accepted(f) then [f] else []
  {
    assert [f][1..] == [];
  }

  /** The filter works piecewise: the accepted files of `a + b` are those of
      `a` followed by those of `b`, so input order is kept and nothing is
      merged or dropped beyond the rejected files. */
  lemma {:induction false} AcceptFilesAppend(a: seq<File>, b: seq<File>)
    ensures AcceptFiles(a + b) == AcceptFiles(a) + AcceptFiles(b)
    decreases |a|
  {
    if a == [] {
      assert a + b == b;
    } else {
      assert (a + b)[0] == a[0];
      assert (a + b)[1..] == a[1..] + b;
      AcceptFilesAppend(a[1..], b);
    }
  }

  /** Overflow cuts the combined list to exactly its first `maxImages`
      files: new files fill the free places in order, the rest are dropped. */
  lemma MergeOverflow(images: seq<File>, newFiles: seq<File>, maxImages: int)
    requires 0 <= maxImages < |images + newFiles|
    ensures Merge(images, newFiles, maxImages) == (images + newFiles)[..maxImages]
  {
  }

  /** `[...images, ...newFiles].slice(0, maxImages)`: the first `maxImages`
      of the old and new files (a negative cap drops that many from the end,
      as `slice` does). */
  function Merge(images: seq<File>, newFiles: seq<File>, maxImages: int): (r: seq<File>)
    ensures |r| <= |images + newFiles| && r == (images + newFiles)[..|r|]
    ensures maxImages >= 0 ==>
              |r| == if |images + newFiles| <= maxImages then |images + newFiles| else maxImages
    ensures maxImages < 0 ==>
              |r| == if |images + newFiles| + maxImages >= 0 then |images + newFiles| + maxImages else 0
    ensures maxImages >= 0 ==> |r| <= maxImages
    ensures |images| <= maxImages ==> |images| <= |r| && images == r[..|images|]
    ensures |images + newFiles| <= maxImages ==> r == images + newFiles
  {
    SliceTo(images + newFiles, maxImages)
  }

  /** `images.filter((_, i) => i !== index)`. */
  function RemoveAt(images: seq<File>, index: int): (r: seq<File>)
    ensures 0 <= index < |images| ==> |r| == |images| - 1
    ensures !(0 <= index < |images|) ==> r == images
  {
    if 0 <= index < |images| then images[..index] + images[index + 1..] else images
  }

  /** Removal deletes exactly the element at `index`: the elements before it
      keep their positions and the ones after it move down by one. */
  lemma RemoveAtShifts(images: seq<File>, index: int)
    requires 0 <= index < |images|
    ensures forall k :: 0 <= k < index ==> RemoveAt(images, index)[k] == images[k]
    ensures forall k :: index <= k < |images| - 1 ==> RemoveAt(images, index)[k] == images[k + 1]
    ensures multiset(RemoveAt(images, index)) + multiset{images[index]} == multiset(images)
  {
    var r := RemoveAt(images, index);
    assert images == images[..index] + [images[index]] + images[index + 1..];
  }

  class ImageUploader {
    const maxImages: int
    var images: seq<File>
    var isDragging: bool

    ghost predicate Valid()
      reads this
    {
      maxImages >= 0 ==> |images| <= maxImages
    }

    /** `maxImages` defaults to 4 when the prop is absent. */
    constructor (maxImagesProp: Option<int>)
      ensures Valid()
      ensures maxImages == maxImagesProp.GetOr(DefaultMaxImages)
      ensures images == [] && !isDragging
    {
      maxImages := maxImagesProp.GetOr(DefaultMaxImages);
      images := [];
      isDragging := false;
    }

    /** `handleFileSelect`; `files` is `None` for a `null` file list. Returns
        the list handed to `onImagesChange`, if it is called. */
    method HandleFileSelect(files: Option<seq<File>>) returns (notified: Option<seq<File>>)
      requires Valid()
      modifies this`images
      ensures Valid()
      ensures files.None? ==> images == old(images) && notified.None?
      ensures files.Some? ==> images == Merge(old(images), AcceptFiles(files.value), maxImages)
                              && notified == Some(images)
    {
      if files.None? {
        return None;
      }
      var newFiles := AcceptFiles(files.value);
      images := Merge(images, newFiles, maxImages);
      notified := Some(images);
    }

    /** `removeImage`. */
    method RemoveImage(index: int) returns (notified: seq<File>)
      requires Valid()
      modifies this`images
      ensures Valid()
      ensures images == RemoveAt(old(images), index) && notified == images
    {
      images := RemoveAt(images, index);
      notified := images;
    }

    /** `handleDrop`: stops dragging, then selects the dropped files. */
    method HandleDrop(files: Option<seq<File>>) returns (notified: Option<seq<File>>)
      requires Valid()
      modifies this`images, this`isDragging
      ensures Valid() && !isDragging
      ensures files.None? ==> images == old(images) && notified.None?
      ensures files.Some? ==> images == Merge(old(images), AcceptFiles(files.value), maxImages)
                              && notified == Some(images)
    {
      isDragging := false;
      notified := HandleFileSelect(files);
    }

    method HandleDragOver()
      modifies this`isDragging
      ensures isDragging
    {
      isDragging := true;
    }

    method HandleDragLeave()
      modifies this`isDragging
      ensures !isDragging
    {
      isDragging := false;
    }
  }
}
