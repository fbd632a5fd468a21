/**
 * `getImageSrc` of the receipt viewer: a stored image is shown as a data
 * URL, adding the PNG base64 prefix when the stored text is not one yet.
 */
module ImageViewer {
  import opened Text

  const DataImagePrefix := "data:image/"
  const PngBase64Prefix := "data:image/png;base64,"

  /** `getImageSrc`: a data URL as it is, anything else behind the PNG prefix. */
  function ImageSrc(imageBase64: string): (r: string)
    ensures StartsWith(r, DataImagePrefix)
    ensures StartsWith(imageBase64, DataImagePrefix) ==> r == imageBase64
    ensures !StartsWith(imageBase64, DataImagePrefix) ==> r == PngBase64Prefix + imageBase64 && |r| == |imageBase64| + 22
  {
    if StartsWith(imageBase64, DataImagePrefix) then imageBase64
    else
      assert (PngBase64Prefix + imageBase64)[..|DataImagePrefix|] == DataImagePrefix;
      PngBase64Prefix + imageBase64
  }

  /* ---------------------------------- properties ---------------------------------- */

  /** Applying it to its own result changes nothing. */
  lemma ImageSrcIdempotent(imageBase64: string)
    ensures ImageSrc(ImageSrc(imageBase64)) == ImageSrc(imageBase64)
  {
  }

  /** The stored text can be read back from the source: it is the source, or what follows the prefix. */
  lemma ImageSrcKeepsData(imageBase64: string)
    ensures var r := ImageSrc(imageBase64);
      r == imageBase64 || (StartsWith(r, PngBase64Prefix) && r[|PngBase64Prefix|..] == imageBase64)
  {
    var r := ImageSrc(imageBase64);
    if r != imageBase64 {
      assert r[..|PngBase64Prefix|] == PngBase64Prefix;
    }
  }
}
