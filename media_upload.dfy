/** What the two product dialogs share: the file previews, the media entry
    an upload yields (its type decided by the MIME prefix) and the image
    urls derived from media (src/components/artisans/AddProductDialog.js,
    src/components/artisans/EditProductDialog.js). The media host is an
    upload function that may fail. */
module MediaUpload {
  import opened Seqs
  import opened Text
  import opened Catalog

  /** A chosen file: its name, MIME type and the object URL the browser
      made for it. */
  datatype SelectedFile = SelectedFile(name: string, mimeType: string, objectUrl: string)

  /** A preview tile: `{ url, type }`. */
  datatype Preview = Preview(url: string, mimeType: string)

  function PreviewOf(f: SelectedFile): Preview {
    Preview(f.objectUrl, f.mimeType)
  }

  /** One preview per file, in file order. */
  function Previews(files: seq<SelectedFile>): (r: seq<Preview>)
    ensures |r| == |files|
    ensures forall k :: 0 <= k < |files| ==> r[k] == PreviewOf(files[k])
  {
    seq(|files|, k requires 0 <= k < |files| => PreviewOf(files[k]))
  }

  /** `previews` and `files` are in lockstep: same length, entry `k`
      showing file `k`. */
  predicate InStep(files: seq<SelectedFile>, previews: seq<Preview>) {
    |previews| == |files| && forall k :: 0 <= k < |files| ==> previews[k] == PreviewOf(files[k])
  }

  /** Removing the same index from both lists keeps them in lockstep. */
  lemma RemoveKeepsStep(files: seq<SelectedFile>, previews: seq<Preview>, i: int)
    requires InStep(files, previews)
    ensures InStep(RemoveAt(files, i), RemoveAt(previews, i))
  {
    if 0 <= i < |files| {
      var f, p := RemoveAt(files, i), RemoveAt(previews, i);
      forall k | 0 <= k < |f| ensures p[k] == PreviewOf(f[k]) {
        if k < i {
          assert f[k] == files[k] && p[k] == previews[k];
        } else {
          assert f[k] == files[k + 1] && p[k] == previews[k + 1];
        }
      }
    }
  }

  /** The upload's resource type: video exactly when the MIME type starts
      with "video", image otherwise. */
  function ResourceType(mimeType: string): (k: MediaKind)
    ensures k == Video <==> StartsWith(mimeType, "video")
    ensures k == Image <==> !StartsWith(mimeType, "video")
  {
    if StartsWith(mimeType, "video") then Video else Image
  }

  /** Every file uploaded; `upload` answers the hosted url, or None when
      the upload fails, and one failure fails them all. */
  function UploadAll(files: seq<SelectedFile>, upload: SelectedFile -> Option<string>): (r: Option<seq<Media>>)
    ensures r.Some? <==> forall k :: 0 <= k < |files| ==> upload(files[k]).Some?
    ensures r.Some? ==> |r.value| == |files|
    ensures r.Some? ==> forall k :: 0 <= k < |files| ==>
      r.value[k] == Media(upload(files[k]).value, ResourceType(files[k].mimeType))
  {
    if files == [] then Some([])
    else
      var rest := UploadAll(files[1..], upload);
      assert forall k :: 0 < k < |files| ==> files[1..][k - 1] == files[k];
      if upload(files[0]).None? || rest.None? then None
      else Some([Media(upload(files[0]).value, ResourceType(files[0].mimeType))] + rest.value)
  }

  function IsImage(): Media -> bool {
    (m: Media) => m.kind == Image
  }

  function Urls(media: seq<Media>): (r: seq<string>)
    ensures |r| == |media|
    ensures forall k :: 0 <= k < |media| ==> r[k] == media[k].url
  {
    seq(|media|, k requires 0 <= k < |media| => media[k].url)
  }

  /** `media.filter(m => m.type === 'image').map(m => m.url)`. */
  function ImageUrls(media: seq<Media>): seq<string> {
    Urls(Filter(media, IsImage()))
  }

  /** The image urls are the urls of the image entries: a video's url is
      listed only if an image shares it. */
  lemma ImageUrlsMembers(media: seq<Media>)
    ensures |ImageUrls(media)| <= |media|
    ensures forall u :: u in ImageUrls(media) <==> Media(u, Image) in media
  {
    var images := Filter(media, IsImage());
    forall u ensures u in ImageUrls(media) <==> Media(u, Image) in media {
      if u in ImageUrls(media) {
        var k :| 0 <= k < |images| && ImageUrls(media)[k] == u;
        assert images[k] in images;
        assert images[k] == Media(u, Image);
      }
      if Media(u, Image) in media {
        assert Media(u, Image) in images;
        var k :| 0 <= k < |images| && images[k] == Media(u, Image);
        assert ImageUrls(media)[k] == u;
      }
    }
  }

  /** Image urls of two lists in a row are those of each, in a row. */
  lemma ImageUrlsConcat(a: seq<Media>, b: seq<Media>)
    ensures ImageUrls(a + b) == ImageUrls(a) + ImageUrls(b)
  {
    FilterConcat(a, b, IsImage());
  }

  /** Uploads of video files add no image url. */
  lemma {:induction false} VideosAddNoImages(files: seq<SelectedFile>, upload: SelectedFile -> Option<string>)
    requires forall k :: 0 <= k < |files| ==> StartsWith(files[k].mimeType, "video")
    requires UploadAll(files, upload).Some?
    ensures ImageUrls(UploadAll(files, upload).value) == []
  {
    var media := UploadAll(files, upload).value;
    FilterNone(media, IsImage());
  }
}
