/** The NFT record as the REST API delivers it; only the fields the image-URL
    logic reads are kept. Every URL field may be `null`, absent or empty. */
module NftTypes {
  import opened Js

  /** The `asset_contract` object of an NFT. */
  datatype AssetContract = AssetContract(contractImageUrl: Option<string>)

  /** An NFT: `image_url`, `image_original_url`, `image_preview_url` and
      `asset_contract.contract_image_url` become the camel-case fields below. */
  datatype Nft = Nft(
    id: string,
    name: string,
    imageUrl: Option<string>,
    imageOriginalUrl: Option<string>,
    imagePreviewUrl: Option<string>,
    assetContract: AssetContract)
}
