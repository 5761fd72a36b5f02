/** The review form: up to five images with one preview URL each, and the
    rating and comment rules. */
module ReviewForm {
  import opened Common
  import opened Types

  const MaxImages := 5

  /** `a.slice(0, end)` as JavaScript defines it: a negative end counts back
      from the length, and an end past the length stops at the length. */
  function SliceTo<T>(a: seq<T>, end: int): (r: seq<T>)
    ensures end >= 0 ==> |r| == Min(end, |a|)
    ensures end < 0 ==> |r| == if |a| + end >= 0 then |a| + end else 0
    ensures r == a[..|r|]
  {
    if end >= 0 then a[..Min(end, |a|)]
    else if |a| + end >= 0 then a[..|a| + end]
    else []
  }

  /** `files.map(file => URL.createObjectURL(file))`; the browser's URL
      factory is the parameter `urlOf`. */
  function Previews(files: seq<FileRef>, urlOf: FileRef -> string): (r: seq<string>)
    ensures |r| == |files|
    ensures forall i :: 0 <= i < |files| ==> r[i] == urlOf(files[i])
  {
    if files == [] then [] else [urlOf(files[0])] + Previews(files[1..], urlOf)
  }

  /** `a.splice(index, 1)` as JavaScript defines it: a negative index counts
      back from the end, and an index at or past the end removes nothing. */
  function SpliceOne<T>(a: seq<T>, index: int): (r: seq<T>)
    ensures 0 <= index < |a| ==> r == a[..index] + a[index + 1..]
    ensures index >= |a| ==> r == a
    ensures -|a| <= index < 0 ==> r == a[..|a| + index] + a[|a| + index + 1..]
    ensures index < -|a| && a != [] ==> r == a[1..]
  {
    var start := if index < 0 then (if |a| + index >= 0 then |a| + index else 0) else index;
    if start < |a| then a[..start] + a[start + 1..] else a
  }

  /** Removing one position shortens a non-empty list by one, so two lists of
      equal length stay equal in length. */
  lemma SpliceOneLength<T>(a: seq<T>, index: int)
    ensures |SpliceOne(a, index)| == if a == [] || index >= |a| then |a| else |a| - 1
  {
  }

  /** The messages the schema reports: for the rating, then for the comment. */
  function ReviewErrors(rating: int, comment: string): (errors: seq<string>)
    ensures errors == [] <==> rating >= 1 && |comment| >= 10
    ensures "Please select a rating" in errors <==> rating < 1
    ensures "Please share your experience" in errors <==> comment == ""
    ensures "Please write more about your experience" in errors <==> 0 < |comment| < 10
  {
    (if rating < 1 then ["Please select a rating"] else [])
    + (if comment == "" then ["Please share your experience"]
       else if |comment| < 10 then ["Please write more about your experience"]
       else [])
  }

  class Form {
    var selectedImages: seq<FileRef>
    var imagePreviews: seq<string>

    /** One preview per image, and never more than five. */
    predicate Valid()
      reads this
    {
      |selectedImages| == |imagePreviews| <= MaxImages
    }

    constructor()
      ensures Valid() && selectedImages == [] && imagePreviews == []
    {
      selectedImages := [];
      imagePreviews := [];
    }

    /** The upload control is rendered while fewer than five previews exist. */
    function UploadShown(): (shown: bool)
      reads this
      ensures Valid() ==> (shown <==> |selectedImages| < MaxImages)
    {
      |imagePreviews| < MaxImages
    }

    /** `handleImageUpload`: no file list changes nothing; otherwise the
        first `5 - count` files are taken, each with a new preview. */
    method HandleImageUpload(files: Option<seq<FileRef>>, urlOf: FileRef -> string)
      requires Valid()
      modifies this
      ensures Valid()
      ensures files.None? ==> selectedImages == old(selectedImages) && imagePreviews == old(imagePreviews)
      ensures files.Some? ==>
        var accepted := SliceTo(files.value, MaxImages - |old(selectedImages)|);
        selectedImages == old(selectedImages) + accepted
        && imagePreviews == old(imagePreviews) + Previews(accepted, urlOf)
      ensures files.Some? ==>
        |selectedImages| == |old(selectedImages)| + Min(|files.value|, MaxImages - |old(selectedImages)|)
    {
      if files.None? {
        return;
      }
      var newImages := SliceTo(files.value, MaxImages - |selectedImages|);
      selectedImages := selectedImages + newImages;
      imagePreviews := imagePreviews + Previews(newImages, urlOf);
    }

    /** `removeImage`: the same position leaves both lists. */
    method RemoveImage(index: int)
      requires Valid()
      modifies this
      ensures Valid()
      ensures selectedImages == SpliceOne(old(selectedImages), index)
      ensures imagePreviews == SpliceOne(old(imagePreviews), index)
      ensures 0 <= index < |old(selectedImages)| ==>
        |selectedImages| == |old(selectedImages)| - 1
        && selectedImages == old(selectedImages)[..index] + old(selectedImages)[index + 1..]
    {
      SpliceOneLength(selectedImages, index);
      SpliceOneLength(imagePreviews, index);
      selectedImages := SpliceOne(selectedImages, index);
      imagePreviews := SpliceOne(imagePreviews, index);
    }
  }

  /** A full form accepts no further image. */
  lemma FullFormAcceptsNothing(files: seq<FileRef>, count: nat)
    requires count == MaxImages
    ensures SliceTo(files, MaxImages - count) == []
  {
  }
}
