/**
 * S3URLHandler: the older copy of the access-context code, with its own fixed chain and cache,
 * and the getURLInfo and list operations built on it.
 */
module S3UrlHandler {
  import opened Wrappers
  import opened Faults
  import opened Strings
  import opened JavaStrings
  import opened Providers
  import opened Chains
  import opened S3Context
  import opened S3UrlUtil

  /** getClientBucketAndKey with a cache that agrees with the chain: AmazonS3URI's bucket and key
      (or the host-and-path fallback), the older chain's credentials, then proxy and region, the
      region starting from the one AmazonS3URI reports. */
  function HandlerContext(w: World, aws: Aws, url: Url): (r: Outcome<ClientBucketKey>)
    ensures url.s3Uri.NotAnS3Endpoint? ==> r == Err(InvalidS3Uri)
    ensures HandlerBucketAndKey(url).Ok? && LegacyComputeCredentials(w, HandlerBucketAndKey(url).value.bucket).Err? ==>
              r == Err(ChainExhausted)
    ensures HandlerBucketAndKey(url).Ok? && LegacyComputeCredentials(w, HandlerBucketAndKey(url).value.bucket).Ok? ==>
              var bucket := HandlerBucketAndKey(url).value.bucket;
              (r.Ok? <==> GetProxyConfiguration(w.sysProps).Ok? &&
                          GetRegion(aws, url, HandlerUriRegion(url), bucket,
                                    Client(LegacyComputeCredentials(w, bucket).value,
                                           GetProxyConfiguration(w.sysProps).value, None)).Ok?)
    ensures r.Ok? ==> && HandlerBucketAndKey(url) == Ok(r.value.bucketKey)
                      && LegacyComputeCredentials(w, r.value.bucketKey.bucket) == Ok(r.value.client.credentials)
                      && GetProxyConfiguration(w.sysProps) == Ok(r.value.client.proxy)
                      && GetRegion(aws, url, HandlerUriRegion(url), r.value.bucketKey.bucket,
                                   Client(r.value.client.credentials, r.value.client.proxy, None))
                           == Ok(r.value.client.region)
    ensures r.Err? ==> r.error in {InvalidS3Uri, ChainExhausted, NumberFormat, UnknownHost}
  {
    var bk :- HandlerBucketAndKey(url);
    ContextWith(w.sysProps, aws, url, HandlerUriRegion(url), bk, LegacyComputeCredentials(w, bk.bucket))
  }

  /** getClientBucketAndKey over a given cache: a URL AmazonS3URI rejects fails first, then the
      credentials come from the cache when the bucket is there; it is the older chain's context
      when the bucket is absent, whatever else the cache holds, and whenever the cache agrees. */
  function HandlerContextFrom(w: World, aws: Aws, url: Url, cache: map<string, AwsCredentials>): (r: Outcome<ClientBucketKey>)
    ensures Agrees(cache, b => LegacyComputeCredentials(w, b)) ==> r == HandlerContext(w, aws, url)
    ensures HandlerBucketAndKey(url).Err? ==> r == Err(HandlerBucketAndKey(url).error)
    ensures HandlerBucketAndKey(url).Ok? && HandlerBucketAndKey(url).value.bucket in cache ==>
              var bk := HandlerBucketAndKey(url).value;
              r == ClientFor(w.sysProps, aws, url, HandlerUriRegion(url), bk, cache[bk.bucket])
    ensures HandlerBucketAndKey(url).Ok? && HandlerBucketAndKey(url).value.bucket !in cache ==>
              r == HandlerContext(w, aws, url)
  {
    var bk :- HandlerBucketAndKey(url);
    var answer := b => LegacyComputeCredentials(w, b);
    CachedAgrees(cache, answer, bk.bucket);
    ContextWith(w.sysProps, aws, url, HandlerUriRegion(url), bk, CachedOr(cache, bk.bucket, answer(bk.bucket)))
  }

  /** The cache getClientBucketAndKey leaves: unchanged for a URL AmazonS3URI rejects, otherwise
      the bucket's chain answer is added when the bucket was absent and the chain succeeded. */
  function HandlerCacheFrom(w: World, url: Url, cache: map<string, AwsCredentials>): (r: map<string, AwsCredentials>)
    ensures Extends(cache, r)
    ensures HandlerBucketAndKey(url).Err? ==> r == cache
    ensures HandlerBucketAndKey(url).Ok? ==>
              var b := HandlerBucketAndKey(url).value.bucket;
              r == CacheAfter(cache, b, LegacyComputeCredentials(w, b))
    ensures Agrees(cache, b => LegacyComputeCredentials(w, b)) ==> Agrees(r, b => LegacyComputeCredentials(w, b))
  {
    if HandlerBucketAndKey(url).Err? then cache
    else
      var bucket := HandlerBucketAndKey(url).value.bucket;
      var answer := b => LegacyComputeCredentials(w, b);
      var computed := LegacyComputeCredentials(w, bucket);
      CachedAgrees(cache, answer, bucket);
      assert answer(bucket) == computed;
      CacheAfter(cache, bucket, computed)
  }

  /** getURLInfo once the context is built or has failed: the object's metadata read with it. A
      404 from S3 is UNAVAILABLE; a failure to build the context is never a 404 and propagates. */
  function UrlInfoIn(aws: Aws, context: Outcome<ClientBucketKey>): (r: Outcome<UrlInfo>)
    ensures context.Err? ==> r == UrlInfoOf(Err(context.error))
    ensures context.Err? && !context.error.S3Error? ==> r == Err(context.error)
    ensures context.Ok? ==>
              var c := context.value;
              r == UrlInfoOf(aws.getObjectMetadata(c.client, c.bucketKey.bucket, c.bucketKey.key))
  {
    match context
    case Err(e) => UrlInfoOf(Err(e))
    case Ok(c) => UrlInfoOf(aws.getObjectMetadata(c.client, c.bucketKey.bucket, c.bucketKey.key))
  }

  /** getURLInfo with a cache that agrees with the chain. */
  function HandlerUrlInfo(w: World, aws: Aws, url: Url): (r: Outcome<UrlInfo>)
    ensures HandlerContext(w, aws, url).Err? ==> r == Err(HandlerContext(w, aws, url).error)
    ensures HandlerContext(w, aws, url).Ok? ==>
              var c := HandlerContext(w, aws, url).value;
              r == UrlInfoOf(aws.getObjectMetadata(c.client, c.bucketKey.bucket, c.bucketKey.key))
  {
    UrlInfoIn(aws, HandlerContext(w, aws, url))
  }

  /** list once the context is built or has failed: list the keys under the key-as-directory
      prefix and turn each common prefix, then each object key, into a URL below the listed one. */
  function ListIn(aws: Aws, url: Url, context: Outcome<ClientBucketKey>): (r: Outcome<seq<string>>)
    ensures context.Err? ==> r == Err(context.error)
    ensures context.Ok? ==>
              var c := context.value;
              var prefix := WithTrailingSlash(c.bucketKey.key);
              var listing := aws.listObjects(c.client, c.bucketKey.bucket, prefix);
              && (listing.Err? ==> r == Err(listing.error))
              && (listing.Ok? ==> r == ListedUrls(url.text, prefix, listing.value))
  {
    var c :- context;
    var prefix := WithTrailingSlash(c.bucketKey.key);
    var listing :- aws.listObjects(c.client, c.bucketKey.bucket, prefix);
    ListedUrls(url.text, prefix, listing)
  }

  /** list with a cache that agrees with the chain. */
  function HandlerList(w: World, aws: Aws, url: Url): (r: Outcome<seq<string>>)
    ensures HandlerContext(w, aws, url).Err? ==> r == Err(HandlerContext(w, aws, url).error)
    ensures HandlerContext(w, aws, url).Ok? ==>
              var c := HandlerContext(w, aws, url).value;
              var prefix := WithTrailingSlash(c.bucketKey.key);
              var listing := aws.listObjects(c.client, c.bucketKey.bucket, prefix);
              && (listing.Err? ==> r == Err(listing.error))
              && (listing.Ok? ==> r == ListedUrls(url.text, prefix, listing.value))
  {
    ListIn(aws, url, HandlerContext(w, aws, url))
  }

  /** A 404 on the metadata call makes getURLInfo answer UNAVAILABLE rather than fail. */
  lemma NotFoundIsUnavailable(w: World, aws: Aws, url: Url)
    requires HandlerContext(w, aws, url).Ok?
    requires var c := HandlerContext(w, aws, url).value;
             aws.getObjectMetadata(c.client, c.bucketKey.bucket, c.bucketKey.key) == Err(S3Error(404))
    ensures HandlerUrlInfo(w, aws, url) == Ok(Unavailable)
  {
  }

  class S3UrlHandler {
    /** credentialsCache: the credentials resolved so far, by bucket. */
    var credentialsCache: map<string, AwsCredentials>

    constructor ()
      ensures credentialsCache == map[]
    {
      credentialsCache := map[];
    }

    /** Every cached entry is what its bucket's older chain resolves to. */
    ghost predicate CacheAgrees(w: World)
      reads this
    {
      Agrees(credentialsCache, b => LegacyComputeCredentials(w, b))
    }

    /** getCredentials: computeIfAbsent over the older chain; a failure propagates and stores nothing. */
    method GetCredentials(w: World, bucket: string) returns (r: Outcome<AwsCredentials>)
      modifies this
      ensures bucket in old(credentialsCache) ==> r == Ok(old(credentialsCache)[bucket]) && credentialsCache == old(credentialsCache)
      ensures bucket !in old(credentialsCache) ==> r == LegacyComputeCredentials(w, bucket)
      ensures bucket !in old(credentialsCache) && r.Ok? ==> credentialsCache == old(credentialsCache)[bucket := r.value]
      ensures r.Err? ==> credentialsCache == old(credentialsCache)
      ensures Extends(old(credentialsCache), credentialsCache)
      ensures old(CacheAgrees(w)) ==> CacheAgrees(w) && r == LegacyComputeCredentials(w, bucket)
    {
      if bucket in credentialsCache {
        r := Ok(credentialsCache[bucket]);
      } else {
        ghost var answer := b => LegacyComputeCredentials(w, b);
        r := LegacyComputeCredentials(w, bucket);
        if r.Ok? {
          if CacheAgrees(w) {
            AgreesStore(credentialsCache, answer, bucket, r.value);
          }
          ExtendsByNewKey(credentialsCache, bucket, r.value);
          credentialsCache := credentialsCache[bucket := r.value];
        }
      }
    }

    /** getClientBucketAndKey: a URL AmazonS3URI rejects fails before the cache is consulted. */
    method GetClientBucketAndKey(w: World, aws: Aws, url: Url) returns (r: Outcome<ClientBucketKey>)
      modifies this
      ensures r == HandlerContextFrom(w, aws, url, old(credentialsCache))
      ensures credentialsCache == HandlerCacheFrom(w, url, old(credentialsCache))
      ensures old(CacheAgrees(w)) ==> CacheAgrees(w) && r == HandlerContext(w, aws, url)
    {
      var bk := HandlerBucketAndKey(url);
      if bk.Err? {
        return Err(bk.error);
      }
      var credentials := GetCredentials(w, bk.value.bucket);
      if credentials.Err? {
        return Err(credentials.error);
      }
      r := ClientFor(w.sysProps, aws, url, HandlerUriRegion(url), bk.value, credentials.value);
    }

    /** getURLInfo */
    method GetUrlInfo(w: World, aws: Aws, url: Url) returns (r: Outcome<UrlInfo>)
      modifies this
      ensures r == UrlInfoIn(aws, HandlerContextFrom(w, aws, url, old(credentialsCache)))
      ensures credentialsCache == HandlerCacheFrom(w, url, old(credentialsCache))
      ensures old(CacheAgrees(w)) ==> CacheAgrees(w) && r == HandlerUrlInfo(w, aws, url)
    {
      var cbk := GetClientBucketAndKey(w, aws, url);
      if cbk.Err? {
        return UrlInfoOf(Err(cbk.error));
      }
      var c := cbk.value;
      r := UrlInfoOf(aws.getObjectMetadata(c.client, c.bucketKey.bucket, c.bucketKey.key));
    }

    /** list */
    method List(w: World, aws: Aws, url: Url) returns (r: Outcome<seq<string>>)
      modifies this
      ensures r == ListIn(aws, url, HandlerContextFrom(w, aws, url, old(credentialsCache)))
      ensures credentialsCache == HandlerCacheFrom(w, url, old(credentialsCache))
      ensures old(CacheAgrees(w)) ==> CacheAgrees(w) && r == HandlerList(w, aws, url)
    {
      var cbk := GetClientBucketAndKey(w, aws, url);
      if cbk.Err? {
        return Err(cbk.error);
      }
      var c := cbk.value;
      var prefix := WithTrailingSlash(c.bucketKey.key);
      var listing := aws.listObjects(c.client, c.bucketKey.bucket, prefix);
      if listing.Err? {
        return Err(listing.error);
      }
      r := ListedUrls(url.text, prefix, listing.value);
    }
  }
}
