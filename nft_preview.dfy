/** The image URL of the `NftPreview` component: a preview image whose
    `=s250` size suffix is rewritten to the displayed width, with fallbacks. */
module NftPreview {
  import opened Js
  import opened NftTypes

  const IMG_FALLBACK_URL := "https://i.ibb.co/q7DP0Dz/no-image.png"

  /** The width, in pixels, the preview is displayed at. */
  const PREVIEW_WIDTH := 275

  /** The size suffix the API puts on preview URLs. */
  const SIZE_SUFFIX := "=s250"

  /** `resize(imgUrl, width)`: `None` (JavaScript `null`) for a falsy URL,
      otherwise the URL with its first `=s250` replaced by `=s<width>`. */
  function Resize(imgUrl: Option<string>, width: int): (r: Option<string>)
    ensures r.None? <==> !Truthy(imgUrl)
    ensures r.Some? ==> Truthy(r)
    ensures r.Some? && !Includes(imgUrl.value, SIZE_SUFFIX) ==> r.value == imgUrl.value
    ensures r.Some? ==> forall i :: FirstOccurrence(imgUrl.value, SIZE_SUFFIX, i) ==>
              r.value == imgUrl.value[..i] + "=s" + IntToString(width) + imgUrl.value[i + |SIZE_SUFFIX|..]
  {
    if !Truthy(imgUrl) then None
    else Some(ReplaceFirst(imgUrl.value, SIZE_SUFFIX, "=s" + IntToString(width)))
  }

  /** The `imgUrl` the component renders:
      `resize(nft.image_preview_url, 275) || nft.image_url || IMG_FALLBACK_URL`. */
  function PreviewImageUrl(nft: Nft): (r: string)
    ensures r != ""
    ensures Truthy(nft.imagePreviewUrl) ==> Some(r) == Resize(nft.imagePreviewUrl, PREVIEW_WIDTH)
    ensures !Truthy(nft.imagePreviewUrl) && Truthy(nft.imageUrl) ==> r == nft.imageUrl.value
    ensures !Truthy(nft.imagePreviewUrl) && !Truthy(nft.imageUrl) ==> r == IMG_FALLBACK_URL
  {
    OrElse(Or(Resize(nft.imagePreviewUrl, PREVIEW_WIDTH), nft.imageUrl), IMG_FALLBACK_URL)
  }

  /** Everything after the rewritten suffix is left as it was, including any
      later `=s250`. */
  lemma ResizeKeepsRest(imgUrl: string, width: int, i: nat)
    requires FirstOccurrence(imgUrl, SIZE_SUFFIX, i)
    ensures var r := Resize(Some(imgUrl), width).value;
            var k := i + 2 + |IntToString(width)|;
            r[..i] == imgUrl[..i] && r[i..k] == "=s" + IntToString(width) && r[k..] == imgUrl[i + 5..]
  {
  }
}
