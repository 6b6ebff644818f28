/**
 * The pure parts of resolving an S3 access context for a URL, shared by S3URLUtil and
 * S3URLHandler: bucket and key, proxy configuration, region fallback, the client they make up,
 * and the list() and getURLInfo() arithmetic over the answers of S3.
 */
module S3Context {
  import opened Wrappers
  import opened Faults
  import opened JavaStrings
  import opened Strings
  import opened Optionals
  import opened Providers
  import opened Regions

  /** How AmazonS3URI takes a URL: it is not a valid URI (URISyntaxException), it names an S3
      bucket and key (and perhaps a region), or AmazonS3URI rejects it (IllegalArgumentException). */
  datatype S3UriParse =
    | NotAUri
    | S3Uri(bucket: string, key: string, region: Option<string>)
    | NotAnS3Endpoint

  /** A URL as the core sees it: its text, host and path, and how AmazonS3URI would parse it. */
  datatype Url = Url(text: string, host: string, path: string, s3Uri: S3UriParse)

  datatype BucketAndKey = BucketAndKey(bucket: string, key: string)

  /** The bucket and key of a URL that is not parsed as an S3 URI: the host, and the path
      without one leading "/". */
  function HostBucketAndKey(url: Url): (r: BucketAndKey)
    ensures r.bucket == url.host
    ensures StartsWith(url.path, "/") ==> "/" + r.key == url.path
    ensures !StartsWith(url.path, "/") ==> r.key == url.path
  {
    BucketAndKey(url.host, StripPrefix(url.path, "/"))
  }

  /** S3URLUtil.getBucketAndKey: strict parsing is switched off there (its getAmazonS3URI(URL) is
      always empty), so every URL takes the host-and-path fallback. */
  function UtilBucketAndKey(url: Url): (r: BucketAndKey)
    ensures r.bucket == url.host
    ensures StartsWith(url.path, "/") ==> "/" + r.key == url.path
    ensures !StartsWith(url.path, "/") ==> r.key == url.path
  {
    HostBucketAndKey(url)
  }

  /** S3URLHandler.getBucketAndKey: AmazonS3URI's bucket and key when it parses the URL, the
      host-and-path fallback when the URL is not a valid URI, and AmazonS3URI's
      IllegalArgumentException, which nothing catches, otherwise. */
  function HandlerBucketAndKey(url: Url): (r: Outcome<BucketAndKey>)
    ensures url.s3Uri.S3Uri? ==> r == Ok(BucketAndKey(url.s3Uri.bucket, url.s3Uri.key))
    ensures url.s3Uri.NotAUri? ==> r == Ok(HostBucketAndKey(url))
    ensures url.s3Uri.NotAnS3Endpoint? ==> r == Err(InvalidS3Uri)
  {
    match url.s3Uri
    case S3Uri(bucket, key, _) => Ok(BucketAndKey(bucket, key))
    case NotAUri => Ok(HostBucketAndKey(url))
    case NotAnS3Endpoint => Err(InvalidS3Uri)
  }

  // ---- proxy ----

  const ProxyHostProperty := "https.proxyHost"
  const ProxyPortProperty := "https.proxyPort"

  /** The proxy part of a ClientConfiguration; both absent is the default configuration. */
  datatype ProxyConfig = ProxyConfig(host: Option<string>, port: Option<int>)

  const DefaultProxy := ProxyConfig(None, None)

  /** getProxyConfiguration: host and port are set together when both properties are present; a port
      that Integer.parseInt rejects throws NumberFormatException even when no host is set. */
  function GetProxyConfiguration(sysProps: map<string, string>): (r: Outcome<ProxyConfig>)
    ensures r.Err? <==> ProxyPortProperty in sysProps && ParseInt(sysProps[ProxyPortProperty]).None?
    ensures r.Err? ==> r.error == NumberFormat
    ensures r.Ok? && (ProxyHostProperty !in sysProps || ProxyPortProperty !in sysProps) ==> r.value == DefaultProxy
    ensures r.Ok? && ProxyHostProperty in sysProps && ProxyPortProperty in sysProps ==>
              && r.value.host == Some(sysProps[ProxyHostProperty])
              && r.value.port == ParseInt(sysProps[ProxyPortProperty])
  {
    var host := if ProxyHostProperty in sysProps then Some(sysProps[ProxyHostProperty]) else None;
    if ProxyPortProperty in sysProps && ParseInt(sysProps[ProxyPortProperty]).None? then
      Err(NumberFormat)
    else
      var port := if ProxyPortProperty in sysProps then ParseInt(sysProps[ProxyPortProperty]) else None;
      if host.Some? && port.Some? then Ok(ProxyConfig(host, port)) else Ok(DefaultProxy)
  }

  // ---- the outside world of S3 ----

  /** An AmazonS3Client: the credentials and proxy it was built with and the region set on it. */
  datatype Client = Client(credentials: AwsCredentials, proxy: ProxyConfig, region: Option<string>)

  datatype ClientBucketKey = ClientBucketKey(client: Client, bucketKey: BucketAndKey)

  datatype ObjectMetadata = ObjectMetadata(contentLength: int, lastModified: int)

  /** An ObjectListing: the truncation flag, the common prefixes and the keys of the object summaries. */
  datatype ObjectListing = ObjectListing(truncated: bool, commonPrefixes: seq<string>, summaryKeys: seq<string>)

  /** The content stream of an S3Object, identified by what was fetched. */
  datatype ObjectContent = ObjectContent(bucket: string, key: string, data: seq<int>)

  /**
   * What the code asks of the network and the SDK: the names of Regions.values(), the names
   * RegionUtils.getRegion resolves, the canonical host name DNS gives each host (absent:
   * UnknownHostException), the bucket location each identity may read (absent: the call throws or
   * answers null), and the answers of getObjectMetadata, listObjects (delimiter "/") and getObject,
   * the last indexed by the attempt that makes the call.
   */
  datatype Aws = Aws(
    regionNames: seq<string>,
    knownRegions: set<string>,
    canonicalHost: map<string, string>,
    bucketLocation: map<(AwsCredentials, string), string>,
    getObjectMetadata: (Client, string, string) -> Outcome<ObjectMetadata>,
    listObjects: (Client, string, string) -> Outcome<ObjectListing>,
    getObject: (Client, string, string, nat) -> Outcome<ObjectContent>)

  // ---- region fallback ----

  /** The host whose canonical name getRegionNameFromDNS inspects. */
  function BucketHost(bucket: string): (r: string)
    ensures |r| == |bucket| + 17 && r[..|bucket|] == bucket && EndsWith(r, ".s3.amazonaws.com")
  {
    bucket + ".s3.amazonaws.com"
  }

  /** getRegionNameFromURL: AmazonS3URI's region, then the region matcher over the URL text. */
  function RegionNameFromUrl(aws: Aws, url: Url, uriRegion: Option<string>): (r: Option<string>)
    ensures r == uriRegion
  {
    FirstPresent([uriRegion, FindFirstInRegionMatcher(MakeRegionMatcher(aws.regionNames), url.text)])
  }

  /** getRegionNameFromDNS: the matcher over the canonical name of the bucket's host; an unknown
      host is rethrown. */
  function RegionNameFromDns(aws: Aws, bucket: string): (r: Outcome<Option<string>>)
    ensures r.Err? <==> BucketHost(bucket) !in aws.canonicalHost
    ensures r.Err? ==> r.error == UnknownHost
    ensures r.Ok? ==> r.value.None?
  {
    var host := BucketHost(bucket);
    if host in aws.canonicalHost then
      Ok(FindFirstInRegionMatcher(MakeRegionMatcher(aws.regionNames), aws.canonicalHost[host]))
    else
      Err(UnknownHost)
  }

  /** getRegionNameFromService: getBucketLocation with the client's credentials; any failure is empty. */
  function RegionNameFromService(aws: Aws, client: Client, bucket: string): (r: Option<string>)
    ensures r.Some? <==> (client.credentials, bucket) in aws.bucketLocation
    ensures r.Some? ==> r.value == aws.bucketLocation[(client.credentials, bucket)]
  {
    if (client.credentials, bucket) in aws.bucketLocation then Some(aws.bucketLocation[(client.credentials, bucket)]) else None
  }

  /** The region name of getRegion: URL, then DNS, then service, each consulted only when the ones
      before it gave nothing; a DNS failure aborts the whole lookup. When DNS answers, this is
      Optionals.first over the three answers. */
  function GetRegionName(aws: Aws, url: Url, uriRegion: Option<string>, bucket: string, client: Client): (r: Outcome<Option<string>>)
    ensures r.Err? <==> RegionNameFromUrl(aws, url, uriRegion).None? && RegionNameFromDns(aws, bucket).Err?
    ensures r.Err? ==> r.error == UnknownHost
    ensures RegionNameFromUrl(aws, url, uriRegion).Some? ==> r == Ok(RegionNameFromUrl(aws, url, uriRegion))
    ensures RegionNameFromUrl(aws, url, uriRegion).None? && RegionNameFromDns(aws, bucket).Ok? ==>
              r == Ok(if RegionNameFromDns(aws, bucket).value.Some? then RegionNameFromDns(aws, bucket).value
                      else RegionNameFromService(aws, client, bucket))
  {
    var fromUrl := RegionNameFromUrl(aws, url, uriRegion);
    if fromUrl.Some? then
      Ok(fromUrl)
    else
      var fromDns :- RegionNameFromDns(aws, bucket);
      if fromDns.Some? then Ok(fromDns) else Ok(RegionNameFromService(aws, client, bucket))
  }

  /** When DNS answers, the fallback is Optionals.first over the three answers in order. */
  lemma GetRegionNameIsFirstPresent(aws: Aws, url: Url, uriRegion: Option<string>, bucket: string, client: Client)
    requires RegionNameFromDns(aws, bucket).Ok?
    ensures GetRegionName(aws, url, uriRegion, bucket, client) ==
              Ok(FirstPresent([RegionNameFromUrl(aws, url, uriRegion),
                               RegionNameFromDns(aws, bucket).value,
                               RegionNameFromService(aws, client, bucket)]))
  {
    FirstPresentOfThree(RegionNameFromUrl(aws, url, uriRegion), RegionNameFromDns(aws, bucket).value,
                        RegionNameFromService(aws, client, bucket));
  }

  /** getRegion: the region name, kept only when RegionUtils knows it. */
  function GetRegion(aws: Aws, url: Url, uriRegion: Option<string>, bucket: string, client: Client): (r: Outcome<Option<string>>)
    ensures r.Err? <==> GetRegionName(aws, url, uriRegion, bucket, client).Err?
    ensures r.Ok? ==> (r.value.Some? <==> GetRegionName(aws, url, uriRegion, bucket, client).value.Some?
                                          && GetRegionName(aws, url, uriRegion, bucket, client).value.value in aws.knownRegions)
    ensures r.Ok? && r.value.Some? ==> r.value == GetRegionName(aws, url, uriRegion, bucket, client).value
  {
    var name :- GetRegionName(aws, url, uriRegion, bucket, client);
    if name.Some? && name.value in aws.knownRegions then Ok(name) else Ok(None)
  }

  /** The fallback as the code runs it: with no region from AmazonS3URI the matcher never finds one,
      so the region is whatever getBucketLocation answers, provided the bucket's host resolves. */
  lemma RegionFallbackAsWritten(aws: Aws, url: Url, bucket: string, client: Client)
    ensures GetRegionName(aws, url, None, bucket, client) ==
              if BucketHost(bucket) in aws.canonicalHost then Ok(RegionNameFromService(aws, client, bucket))
              else Err(UnknownHost)
  {
  }

  /** The region AmazonS3URI reports for the handler's URL (the URL is known to parse by then). */
  function HandlerUriRegion(url: Url): (r: Option<string>)
    ensures url.s3Uri.S3Uri? ==> r == url.s3Uri.region
    ensures !url.s3Uri.S3Uri? ==> r.None?
  {
    if url.s3Uri.S3Uri? then url.s3Uri.region else None
  }

  /** getClientBucketAndKey once the bucket and its credentials are known: build the client with the
      proxy configuration, then set the region on it when one is found. */
  function ClientFor(sysProps: map<string, string>, aws: Aws, url: Url, uriRegion: Option<string>,
                     bk: BucketAndKey, credentials: AwsCredentials): (r: Outcome<ClientBucketKey>)
    ensures r.Ok? <==> GetProxyConfiguration(sysProps).Ok? &&
                       GetRegion(aws, url, uriRegion, bk.bucket, Client(credentials, GetProxyConfiguration(sysProps).value, None)).Ok?
    ensures r.Ok? ==> && r.value.bucketKey == bk
                      && r.value.client.credentials == credentials
                      && r.value.client.proxy == GetProxyConfiguration(sysProps).value
                      && r.value.client.region ==
                           GetRegion(aws, url, uriRegion, bk.bucket, Client(credentials, r.value.client.proxy, None)).value
  {
    var proxy :- GetProxyConfiguration(sysProps);
    var client := Client(credentials, proxy, None);
    var region :- GetRegion(aws, url, uriRegion, bk.bucket, client);
    Ok(ClientBucketKey(client.(region := region), bk))
  }

  /** getClientBucketAndKey once the credentials step has answered: its failure propagates, and
      nothing else is built or looked up after it. */
  function ContextWith(sysProps: map<string, string>, aws: Aws, url: Url, uriRegion: Option<string>,
                       bk: BucketAndKey, credentials: Outcome<AwsCredentials>): (r: Outcome<ClientBucketKey>)
    ensures credentials.Err? ==> r == Err(credentials.error)
    ensures credentials.Ok? ==> r == ClientFor(sysProps, aws, url, uriRegion, bk, credentials.value)
  {
    var c :- credentials;
    ClientFor(sysProps, aws, url, uriRegion, bk, c)
  }

  // ---- getURLInfo ----

  /** An URLInfo: whether the resource is reachable, its length and its last-modified time. */
  datatype UrlInfo = UrlInfo(available: bool, contentLength: int, lastModified: int)

  /** URLHandler.UNAVAILABLE */
  const Unavailable := UrlInfo(false, 0, 0)

  /** getURLInfo once the context is built or has failed: an AmazonS3Exception with status 404 is
      UNAVAILABLE, any other failure propagates, and metadata gives a reachable resource. */
  function UrlInfoOf(metadata: Outcome<ObjectMetadata>): (r: Outcome<UrlInfo>)
    ensures metadata.Ok? ==> r == Ok(UrlInfo(true, metadata.value.contentLength, metadata.value.lastModified))
    ensures metadata == Err(S3Error(404)) ==> r == Ok(Unavailable)
    ensures metadata.Err? && metadata.error != S3Error(404) ==> r == Err(metadata.error)
    ensures r.Ok? ==> (r.value.available <==> metadata.Ok?)
  {
    match metadata
    case Ok(m) => Ok(UrlInfo(true, m.contentLength, m.lastModified))
    case Err(S3Error(404)) => Ok(Unavailable)
    case Err(e) => Err(e)
  }

  // ---- list ----

  /** stripSuffix(s, "/") + "/", which list() computes both for the listing prefix (from the key)
      and for the base of every listed URL (from the URL text): s ending in exactly one more "/"
      than it had, unless it already ended in one. */
  function WithTrailingSlash(s: string): (r: string)
    ensures EndsWith(r, "/")
    ensures EndsWith(s, "/") ==> r == s
    ensures !EndsWith(s, "/") ==> r == s + "/"
  {
    StripSuffix(s, "/") + "/"
  }

  /** The URL list() returns for one listed key or common prefix. */
  function ListedUrl(urlText: string, prefix: string, entry: string): (r: string)
    ensures StartsWith(entry, prefix) ==> WithTrailingSlash(urlText) + entry[|prefix|..] == r
    ensures !StartsWith(entry, prefix) ==> r == WithTrailingSlash(urlText) + entry
  {
    WithTrailingSlash(urlText) + StripPrefix(entry, prefix)
  }

  /** list() once the listing is in hand: a truncated listing is refused; otherwise one URL per
      common prefix, then one per object summary, in the listing's order. */
  function ListedUrls(urlText: string, prefix: string, listing: ObjectListing): (r: Outcome<seq<string>>)
    ensures r.Err? <==> listing.truncated
    ensures r.Err? ==> r.error == TruncatedListing
    ensures r.Ok? ==> var entries := listing.commonPrefixes + listing.summaryKeys;
                      && |r.value| == |entries|
                      && forall i | 0 <= i < |entries| :: r.value[i] == ListedUrl(urlText, prefix, entries[i])
  {
    if listing.truncated then
      Err(TruncatedListing)
    else
      var entries := listing.commonPrefixes + listing.summaryKeys;
      Ok(seq(|entries|, i requires 0 <= i < |entries| => ListedUrl(urlText, prefix, entries[i])))
  }

  /** A listed URL gives back its key: the URL is the listed directory's URL with one trailing "/",
      followed by the key relative to the prefix. */
  lemma ListedUrlRecoversKey(urlText: string, prefix: string, entry: string)
    requires StartsWith(entry, prefix)
    ensures var u := ListedUrl(urlText, prefix, entry);
            var base := WithTrailingSlash(urlText);
            && base <= u
            && prefix + u[|base|..] == entry
  {
    var u := ListedUrl(urlText, prefix, entry);
    var base := WithTrailingSlash(urlText);
    assert u[|base|..] == entry[|prefix|..];
  }

  /** Every URL list() returns names a key under the listed prefix: the prefix followed by the
      part of the URL after the listed URL with its trailing "/". */
  lemma ListedUrlsRecoverKeys(urlText: string, prefix: string, listing: ObjectListing)
    requires !listing.truncated
    ensures var entries := listing.commonPrefixes + listing.summaryKeys;
            var urls := ListedUrls(urlText, prefix, listing).value;
            var base := WithTrailingSlash(urlText);
            forall i | 0 <= i < |urls| && StartsWith(entries[i], prefix) ::
              base <= urls[i] && prefix + urls[i][|base|..] == entries[i]
  {
    var entries := listing.commonPrefixes + listing.summaryKeys;
    forall i | 0 <= i < |entries| && StartsWith(entries[i], prefix) {
      ListedUrlRecoversKey(urlText, prefix, entries[i]);
    }
  }
}
