/** Upload validation and gateway URL construction of the storage service
    (src/services/ipfs.ts).

    The storage client, the browser's FileReader and Image decoders are
    foreign: a file's decodability and pixel size are modelled as part of the
    file (`Content`), and the client's `add` call is an input of type
    `Result<string>` carrying the content path it returned or the message it
    threw.
 */
module Ipfs {
  import opened Wrappers

  /** Largest accepted upload, in bytes (inclusive). */
  const MaxFileBytes: nat := 100 * 1024

  /** Largest accepted width and height, in pixels (inclusive). */
  const MaxDimension: nat := 512

  /** Every content path is published under this gateway prefix. */
  const GatewayPrefix: string := "https://ipfs.infura.io/ipfs/"

  const SizeError: string := "File size exceeds 100 KB"
  const ReadError: string := "Failed to read file"
  const LoadError: string := "Failed to load image for size check"
  const DimensionError: string := "Image dimensions exceed 512×512"

  /** What decoding the bytes of a file yields. */
  datatype Content =
    | Unreadable                          // the FileReader fails
    | NotAnImage                          // the bytes do not decode as an image
    | Picture(width: nat, height: nat)    // a decoded image of this size

  /** A browser `File` chosen by the user, as far as the application looks at it. */
  datatype ImageFile = ImageFile(name: string, size: nat, content: Content)

  /** The acceptance rule of an upload, stated independently of the order of
      the checks: small enough, decodable, and within bounds on both sides. */
  predicate Uploadable(file: ImageFile) {
    && file.size <= MaxFileBytes
    && file.content.Picture?
    && file.content.width <= MaxDimension
    && file.content.height <= MaxDimension
  }

  /** The URL under which the gateway serves a content path. */
  function GatewayUrl(path: string): (url: string)
    ensures |url| == |GatewayPrefix| + |path|
    ensures url[..|GatewayPrefix|] == GatewayPrefix
    ensures url[|GatewayPrefix|..] == path
  {
    GatewayPrefix + path
  }

  /** The content path a gateway URL names, if it is a gateway URL at all. */
  function PathOf(url: string): (path: Option<string>)
    ensures path.Some? <==> |url| >= |GatewayPrefix| && url[..|GatewayPrefix|] == GatewayPrefix
  {
    if |url| >= |GatewayPrefix| && url[..|GatewayPrefix|] == GatewayPrefix
    then Some(url[|GatewayPrefix|..])
    else None
  }

  /** A gateway URL gives back the path it was built from. */
  lemma GatewayUrlRoundTrip(path: string)
    ensures PathOf(GatewayUrl(path)) == Some(path)
  {
  }

  /** Every URL that names a path is the gateway URL of that path. */
  lemma PathOfRoundTrip(url: string)
    ensures PathOf(url).Some? ==> GatewayUrl(PathOf(url).value) == url
  {
    if PathOf(url).Some? {
      assert url == url[..|GatewayPrefix|] + url[|GatewayPrefix|..];
    }
  }

  /** Different content paths are published under different URLs. */
  lemma GatewayUrlInjective(p: string, q: string)
    ensures GatewayUrl(p) == GatewayUrl(q) ==> p == q
  {
    GatewayUrlRoundTrip(p);
    GatewayUrlRoundTrip(q);
  }

  /** The checks `uploadFile` makes before anything is sent: the size first,
      then reading and decoding the file, then the dimensions. `None` means
      the file passes. */
  function ValidationError(file: ImageFile): (e: Option<string>)
    ensures file.size > MaxFileBytes ==> e == Some(SizeError)
    ensures e == Some(DimensionError) <==>
              file.size <= MaxFileBytes && file.content.Picture?
              && (file.content.width > MaxDimension || file.content.height > MaxDimension)
    ensures e.None? <==> Uploadable(file)
    ensures file.size <= MaxFileBytes && file.content.Unreadable? ==> e == Some(ReadError)
    ensures file.size <= MaxFileBytes && file.content.NotAnImage? ==> e == Some(LoadError)
  {
    if file.size > MaxFileBytes then Some(SizeError)
    else match file.content
      case Unreadable => Some(ReadError)
      case NotAnImage => Some(LoadError)
      case Picture(width, height) =>
        if width > MaxDimension || height > MaxDimension then Some(DimensionError)
        else None
  }

  /** `uploadFile`: validate, then add the file to storage and return its
      gateway URL. `added` is what the storage client's `add` returned. */
  function UploadFile(file: ImageFile, added: Result<string>): (r: Result<string>)
    ensures r.Ok? <==> Uploadable(file) && added.Ok?
    ensures r.Ok? ==> PathOf(r.value) == Some(added.value)
    ensures !Uploadable(file) ==> r == Err(ValidationError(file).value)
    ensures Uploadable(file) && added.Err? ==> r == Err(added.message)
  {
    match ValidationError(file)
    case Some(message) => Err(message)
    case None =>
      match added
      case Err(message) => Err(message)
      case Ok(path) => Ok(GatewayUrl(path))
  }

  /** `uploadJSON`: no validation at all; the URL of whatever the client
      stored. The serialised document itself does not affect the result. */
  function UploadJson(added: Result<string>): (r: Result<string>)
    ensures r.Ok? <==> added.Ok?
    ensures r.Ok? ==> PathOf(r.value) == Some(added.value)
    ensures r.Err? ==> r.message == added.message
  {
    match added
    case Err(message) => Err(message)
    case Ok(path) => Ok(GatewayUrl(path))
  }

  /** The size limit is inclusive: exactly 100 KiB passes the size check, one
      byte more does not, whatever the picture. */
  lemma SizeLimitInclusive(content: Content, name: string)
    ensures ValidationError(ImageFile(name, 102400, content)) != Some(SizeError)
    ensures ValidationError(ImageFile(name, 102401, content)) == Some(SizeError)
  {
  }

  /** The dimension limit is inclusive on both sides. */
  lemma DimensionLimitInclusive(name: string, size: nat)
    requires size <= MaxFileBytes
    ensures Uploadable(ImageFile(name, size, Picture(512, 512)))
    ensures ValidationError(ImageFile(name, size, Picture(513, 512))) == Some(DimensionError)
    ensures ValidationError(ImageFile(name, size, Picture(512, 513))) == Some(DimensionError)
  {
  }

  /** The size check comes first: an oversized file reports the size error
      even when its dimensions are out of bounds too, and the storage client's
      outcome never matters for a rejected file. */
  lemma SizeCheckedBeforeDimensions(file: ImageFile, added: Result<string>)
    requires file.size > MaxFileBytes
    requires file.content.Picture? && file.content.width > MaxDimension
    ensures UploadFile(file, added) == Err(SizeError)
  {
  }
}
