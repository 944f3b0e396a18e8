/** The photo list of a draft report: what the camera callback, the photo-library
    callback and the remove button do to the ordered list of image URIs. Both
    report screens run exactly these expressions on their `selectedImages`. */
module ImageList {
  import opened Common

  /** No more than five photos may be attached to a report. */
  const MaxImages: nat := 5

  /** One picked image; `uri` is `None` when the picker leaves it undefined. */
  datatype Asset = Asset(uri: Option<string>)

  /** A camera or photo-library response. `assets` is `None` when the response
      carries no asset list at all. */
  datatype PickerResponse = PickerResponse(
    didCancel: bool,
    errorCode: Option<string>,
    assets: Option<seq<Asset>>)

  /** `response.errorCode` is truthy: present and not the empty string. */
  predicate HasError(r: PickerResponse) {
    r.errorCode.Some? && r.errorCode.value != ""
  }

  /** The callback gets past its early returns and reads the assets: the user did
      not cancel, there is no error code and at least one asset came back. */
  predicate Delivered(r: PickerResponse) {
    !r.didCancel && !HasError(r) && r.assets.Some? && |r.assets.value| > 0
  }

  /** `assets.map(a => a.uri).filter(uri => uri !== undefined)`. An empty URI
      string is kept: only `undefined` is dropped. */
  function DefinedUris(assets: seq<Asset>): seq<string> {
    if assets == [] then []
    else (if assets[0].uri.Some? then [assets[0].uri.value] else []) + DefinedUris(assets[1..])
  }

  /** `s.slice(0, n)`. */
  function Take(s: seq<string>, n: nat): (r: seq<string>)
    ensures |r| == if |s| <= n then |s| else n
    ensures r == s[..|r|]
  {
    if |s| <= n then s else s[..n]
  }

  /** The camera callback: the first asset's URI is appended when it is truthy and
      fewer than five photos are held; otherwise the list is left alone. */
  function AfterCamera(images: seq<string>, r: PickerResponse): seq<string> {
    if Delivered(r) then
      match r.assets.value[0].uri
      case Some(u) => if u != "" && |images| < MaxImages then images + [u] else images
      case None => images
    else images
  }

  /** The photo-library callback: the defined URIs are appended and the whole list
      is cut back to its first five entries. */
  function AfterGallery(images: seq<string>, r: PickerResponse): seq<string> {
    if Delivered(r) then Take(images + DefinedUris(r.assets.value), MaxImages) else images
  }

  /** The `selectionLimit` handed to the photo-library picker. */
  function SelectionLimit(images: seq<string>): int {
    MaxImages - |images|
  }

  /** `images.filter((_, i) => i !== index)`, walking the indices from the last. */
  function RemoveIndex(images: seq<string>, index: int): seq<string> {
    if images == [] then []
    else
      var last := |images| - 1;
      RemoveIndex(images[..last], index) + (if last != index then [images[last]] else [])
  }

  /** The URI of the first asset when the camera callback reads one. */
  function CameraUri(r: PickerResponse): Option<string>
    requires Delivered(r)
  {
    r.assets.value[0].uri
  }

  /** A camera result either leaves the list as it was or appends exactly one
      non-empty URI at the end, and it appends one exactly when the response
      delivered a truthy URI and there was room below the cap. */
  lemma CameraAppendsAtMostOne(images: seq<string>, r: PickerResponse)
    ensures var after := AfterCamera(images, r);
      after == images ||
      (|after| == |images| + 1 && after[..|images|] == images && after[|images|] != "")
    ensures AfterCamera(images, r) != images <==>
      Delivered(r) && CameraUri(r).Some? && CameraUri(r).value != "" && |images| < MaxImages
    ensures Delivered(r) && CameraUri(r).Some? && CameraUri(r).value != "" && |images| < MaxImages ==>
      AfterCamera(images, r) == images + [CameraUri(r).value]
  {
    if Delivered(r) && CameraUri(r).Some? && CameraUri(r).value != "" && |images| < MaxImages {
      assert |AfterCamera(images, r)| == |images| + 1;
    }
  }

  /** A cancelled or failed camera or library response changes nothing. */
  lemma UndeliveredChangesNothing(images: seq<string>, r: PickerResponse)
    requires r.didCancel || HasError(r)
    ensures AfterCamera(images, r) == images && AfterGallery(images, r) == images
  {
  }

  /** `DefinedUris` keeps exactly the URIs that are defined and no others. */
  lemma {:induction false} DefinedUrisExactly(assets: seq<Asset>)
    ensures |DefinedUris(assets)| <= |assets|
    ensures forall u :: u in DefinedUris(assets) <==> exists k :: 0 <= k < |assets| && assets[k].uri == Some(u)
    ensures (forall k :: 0 <= k < |assets| ==> assets[k].uri.Some?) ==> |DefinedUris(assets)| == |assets|
  {
    if assets != [] {
      DefinedUrisExactly(assets[1..]);
      forall u ensures u in DefinedUris(assets) <==> exists k :: 0 <= k < |assets| && assets[k].uri == Some(u) {
        if u in DefinedUris(assets[1..]) {
          var k :| 0 <= k < |assets[1..]| && assets[1..][k].uri == Some(u);
          assert assets[k + 1].uri == Some(u);
        }
        if k :| 0 <= k < |assets| && assets[k].uri == Some(u) {
          if k > 0 { assert assets[1..][k - 1].uri == Some(u); }
        }
      }
    }
  }

  /** `DefinedUris` works asset by asset: a single asset contributes its URI when it
      has one and nothing otherwise, and the URIs of a concatenation are those of
      the first part followed by those of the second, so their order is the
      assets' order. */
  lemma {:induction false} DefinedUrisInOrder(a: seq<Asset>, b: seq<Asset>)
    ensures forall x :: DefinedUris([x]) == if x.uri.Some? then [x.uri.value] else []
    ensures DefinedUris(a + b) == DefinedUris(a) + DefinedUris(b)
    decreases |a|
  {
    forall x ensures DefinedUris([x]) == if x.uri.Some? then [x.uri.value] else [] {
      assert [x][1..] == [];
    }
    if a == [] {
      assert a + b == b;
    } else {
      assert (a + b)[1..] == a[1..] + b;
      DefinedUrisInOrder(a[1..], b);
    }
  }

  /** A photo-library result keeps the photos already held in their places, adds
      the new URIs after them in order, and is exactly as long as the old and new
      photos together, cut at five. */
  lemma GalleryKeepsOrderAndCap(images: seq<string>, r: PickerResponse)
    requires Delivered(r)
    ensures var after := AfterGallery(images, r);
      var total := |images| + |DefinedUris(r.assets.value)|;
      |after| == (if total <= MaxImages then total else MaxImages) &&
      after == (images + DefinedUris(r.assets.value))[..|after|] &&
      (|images| <= MaxImages ==> after[..|images|] == images)
  {
    var all := images + DefinedUris(r.assets.value);
    var after := AfterGallery(images, r);
    if |images| <= MaxImages {
      assert |after| >= |images|;
      assert after[..|images|] == all[..|images|] == images;
    }
  }

  /** Whenever the old and new URIs fit in five, the cut drops nothing: the list
      grows by exactly the picked URIs. */
  lemma GalleryFitDropsNothing(images: seq<string>, r: PickerResponse)
    requires Delivered(r)
    requires |images| + |DefinedUris(r.assets.value)| <= MaxImages
    ensures AfterGallery(images, r) == images + DefinedUris(r.assets.value)
  {
  }

  /** In particular when the picker honours `selectionLimit`, whatever URIs it
      leaves undefined. */
  lemma GalleryWithinLimitDropsNothing(images: seq<string>, r: PickerResponse)
    requires Delivered(r)
    requires |r.assets.value| <= SelectionLimit(images)
    ensures AfterGallery(images, r) == images + DefinedUris(r.assets.value)
  {
    DefinedUrisExactly(r.assets.value);
    GalleryFitDropsNothing(images, r);
  }

  /** When the picker ignores `selectionLimit` the list still holds at most five:
      the surplus URIs are the ones dropped, never the photos already held. */
  lemma GalleryBeyondLimitTruncates(images: seq<string>, r: PickerResponse)
    requires Delivered(r) && |images| <= MaxImages
    requires |images| + |DefinedUris(r.assets.value)| > MaxImages
    ensures |AfterGallery(images, r)| == MaxImages
    ensures AfterGallery(images, r)[..|images|] == images
  {
    GalleryKeepsOrderAndCap(images, r);
  }

  /** `removeImage(index)` deletes exactly the element at `index` and keeps the
      others in order; an index outside the list leaves it unchanged. */
  lemma {:induction false} RemoveIndexDeletesOne(images: seq<string>, index: int)
    ensures RemoveIndex(images, index) ==
      if 0 <= index < |images| then images[..index] + images[index + 1..] else images
  {
    if images != [] {
      var last := |images| - 1;
      var p := images[..last];
      RemoveIndexDeletesOne(p, index);
      if 0 <= index < last {
        assert p[..index] + p[index + 1..] + [images[last]] == images[..index] + images[index + 1..];
      } else if index == last {
        assert images[..index] + images[index + 1..] == p;
      } else {
        assert p + [images[last]] == images;
      }
    }
  }

  /** Removing an element shifts the later photos down by one and leaves the
      earlier ones where they were. */
  lemma RemoveIndexShifts(images: seq<string>, index: int)
    requires 0 <= index < |images|
    ensures |RemoveIndex(images, index)| == |images| - 1
    ensures forall k :: 0 <= k < index ==> RemoveIndex(images, index)[k] == images[k]
    ensures forall k :: index <= k < |images| - 1 ==> RemoveIndex(images, index)[k] == images[k + 1]
  {
    RemoveIndexDeletesOne(images, index);
  }

  /** No photo operation takes a list of at most five above five. */
  lemma OperationsKeepCap(images: seq<string>, r: PickerResponse, index: int)
    requires |images| <= MaxImages
    ensures |AfterCamera(images, r)| <= MaxImages
    ensures |AfterGallery(images, r)| <= MaxImages
    ensures |RemoveIndex(images, index)| <= MaxImages
  {
    RemoveIndexDeletesOne(images, index);
  }
}
