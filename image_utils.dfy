/** Building product-image URLs from the paths the server stores. */
module ImageUtils {
  import opened Common
  import opened Text

  /** The build's environment switch; the shipped value selects the
      development server. */
  const UseProduction: bool := false

  const AwsServerIp: string := "13.233.45.67"
  const ServerPort: string := "3501"

  const DevImageBaseUrl: string := "http://10.0.2.2:3501/uploads/product/"
  const ProdImageBaseUrl: string := "http://" + AwsServerIp + ":" + ServerPort + "/uploads/product/"

  /** One literal in the app; written as a scheme and a rest here because the
      verifier only reads the characters of short literals. */
  const PlaceholderUrl: string := "https://" + "via.placeholder.com/300x300/CCCCCC/969696?text=No+Image"

  /** `AppConfig.getImageBaseUrl()`: the image root of the selected
      environment; an `http` URL ending in `/uploads/product/`. */
  function ImageBaseUrl(): (base: string)
    ensures base == if UseProduction then ProdImageBaseUrl else DevImageBaseUrl
    ensures IsPrefix("http://", base)
    ensures |base| >= 17 && base[|base| - 17..] == "/uploads/product/"
  {
    if UseProduction then ProdImageBaseUrl else DevImageBaseUrl
  }

  /** `getProductImageUrl`: the stored relative path appended to the image
      root, with no separator added or removed. */
  function ProductImageUrl(src: string): (url: string)
    ensures IsPrefix(ImageBaseUrl(), url)
    ensures url[|ImageBaseUrl()|..] == src
  {
    ImageBaseUrl() + src
  }

  /** Different paths give different URLs, and the path can be read back. */
  lemma ProductImageUrlInjective(a: string, b: string)
    requires ProductImageUrl(a) == ProductImageUrl(b)
    ensures a == b
  {
  }

  /** `getSafeProductImageUrl`: null for a null or empty path, otherwise the
      full URL. */
  function SafeProductImageUrl(src: Option<string>): (url: Option<string>)
    ensures url.None? <==> IsNullOrEmpty(src)
    ensures url.Some? ==> url.value == ProductImageUrl(src.value)
  {
    if IsNullOrEmpty(src) then None else Some(ProductImageUrl(src.value))
  }

  /** A safe URL always names something below the image root, never the root
      itself. */
  lemma SafeUrlBelowRoot(src: Option<string>)
    requires SafeProductImageUrl(src).Some?
    ensures |SafeProductImageUrl(src).value| > |ImageBaseUrl()|
  {
  }

  /** `getPlaceholderImageUrl`: an external `https` URL, never one under the
      app's own image root, so it is never taken for a product image. */
  function PlaceholderImageUrl(): (url: string)
    ensures IsPrefix("https://", url)
    ensures !IsPrefix(ImageBaseUrl(), url)
  {
    assert PlaceholderUrl[..8] == "https://";
    assert ImageBaseUrl()[4] == ':' && PlaceholderUrl[4] == 's';
    PlaceholderUrl
  }
}
