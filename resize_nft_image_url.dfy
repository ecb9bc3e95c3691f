/** `getResizedNftImageUrlWithFallback`: pick the URL to show for an NFT,
    asking Google's image service for a given width when the image is hosted there. */
module ResizeNftImageUrl {
  import opened Js
  import opened NftTypes

  const FALLBACK_URL := "https://i.ibb.co/q7DP0Dz/no-image.png"

  /** Width used when the caller passes none. */
  const DEFAULT_WIDTH := 288

  /** Marker of a Google-hosted image URL. */
  const GOOGLE_HOST := "googleusercontent"

  /** `image_url?.includes('googleusercontent')` is truthy. */
  predicate IsGoogleHosted(imageUrl: Option<string>)
  {
    imageUrl.Some? && Includes(imageUrl.value, GOOGLE_HOST)
  }

  /** The candidates of the fallback chain, in the order they are tried. */
  function Candidates(nft: Nft): seq<Option<string>>
  {
    [nft.imageOriginalUrl, nft.imageUrl, nft.assetContract.contractImageUrl]
  }

  /** The width argument after JavaScript's default-parameter rule. */
  function EffectiveWidth(width: Option<int>): int
  {
    if width.Some? then width.value else DEFAULT_WIDTH
  }

  /** The URL shown for `nft`; `width` is `None` when the caller omits it. */
  function GetResizedNftImageUrlWithFallback(nft: Nft, width: Option<int>): (r: string)
    ensures r != ""
    ensures IsGoogleHosted(nft.imageUrl) ==>
              r == nft.imageUrl.value + "=s" + IntToString(EffectiveWidth(width))
    ensures !IsGoogleHosted(nft.imageUrl) ==>
              r == OrElse(FirstTruthy(Candidates(nft)), FALLBACK_URL)
  {
    if IsGoogleHosted(nft.imageUrl) then
      nft.imageUrl.value + "=s" + IntToString(EffectiveWidth(width))
    else
      OrChainIsFirstTruthy(nft.imageOriginalUrl, nft.imageUrl, nft.assetContract.contractImageUrl);
      OrElse(Or(Or(nft.imageOriginalUrl, nft.imageUrl), nft.assetContract.contractImageUrl), FALLBACK_URL)
  }

  /** Omitting the width is the same as asking for 288. */
  lemma DefaultWidthIs288(nft: Nft)
    ensures GetResizedNftImageUrlWithFallback(nft, None) == GetResizedNftImageUrlWithFallback(nft, Some(288))
  {
  }

  /** A Google-hosted `image_url` decides the result alone: the other fields do not matter. */
  lemma GoogleHostedIgnoresOtherFields(a: Nft, b: Nft, width: Option<int>)
    requires a.imageUrl == b.imageUrl && IsGoogleHosted(a.imageUrl)
    ensures GetResizedNftImageUrlWithFallback(a, width) == GetResizedNftImageUrlWithFallback(b, width)
  {
  }

  /** On a Google-hosted image, different widths ask for different URLs. */
  lemma GoogleHostedWidthIsDistinguishable(nft: Nft, w1: int, w2: int)
    requires IsGoogleHosted(nft.imageUrl)
    requires GetResizedNftImageUrlWithFallback(nft, Some(w1)) == GetResizedNftImageUrlWithFallback(nft, Some(w2))
    ensures w1 == w2
  {
    var prefix := nft.imageUrl.value + "=s";
    var s1, s2 := IntToString(w1), IntToString(w2);
    assert (prefix + s1)[|prefix|..] == s1;
    assert (prefix + s2)[|prefix|..] == s2;
    IntToStringInjective(w1, w2);
  }

  /** Outside Google hosting no new string is made: the result is one of the
      three candidate fields, the first truthy one, or else the placeholder. */
  lemma ResultIsFirstTruthyCandidateOrFallback(nft: Nft, width: Option<int>)
    requires !IsGoogleHosted(nft.imageUrl)
    ensures var r := GetResizedNftImageUrlWithFallback(nft, width);
            (exists i :: 0 <= i < 3 && Candidates(nft)[i] == Some(r) &&
                         (forall j :: 0 <= j < i ==> !Truthy(Candidates(nft)[j])))
            || (r == FALLBACK_URL && forall i :: 0 <= i < 3 ==> !Truthy(Candidates(nft)[i]))
  {
  }

  /** The placeholder is chosen when no candidate field holds a non-empty URL. */
  lemma FallbackWhenNoUsableUrl(nft: Nft, width: Option<int>)
    requires !Truthy(nft.imageOriginalUrl) && !Truthy(nft.imageUrl) && !Truthy(nft.assetContract.contractImageUrl)
    ensures GetResizedNftImageUrlWithFallback(nft, width) == FALLBACK_URL
  {
  }
}
