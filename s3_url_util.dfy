/** S3URLUtil: the per-bucket credentials cache and the access context it builds for a URL. */
module S3UrlUtil {
  import opened Wrappers
  import opened Faults
  import opened Providers
  import opened Chains
  import opened S3Context

  /** getClientBucketAndKey with a cache that agrees with the chain: the bucket is the URL's host,
      the credentials are the chain's, then the client is configured and its region looked up. */
  function UtilContext(w: World, aws: Aws, fileName: string, url: Url): (r: Outcome<ClientBucketKey>)
    ensures ComputeCredentials(w, fileName, url.host).Err? ==> r == Err(ChainExhausted)
    ensures ComputeCredentials(w, fileName, url.host).Ok? ==>
              (r.Ok? <==> GetProxyConfiguration(w.sysProps).Ok? &&
                          GetRegion(aws, url, None, url.host,
                                    Client(ComputeCredentials(w, fileName, url.host).value,
                                           GetProxyConfiguration(w.sysProps).value, None)).Ok?)
    ensures r.Ok? ==> && r.value.bucketKey == UtilBucketAndKey(url)
                      && r.value.bucketKey.bucket == url.host
                      && ComputeCredentials(w, fileName, url.host) == Ok(r.value.client.credentials)
                      && GetProxyConfiguration(w.sysProps) == Ok(r.value.client.proxy)
                      && GetRegion(aws, url, None, url.host, Client(r.value.client.credentials, r.value.client.proxy, None))
                           == Ok(r.value.client.region)
                      && (r.value.client.region.Some? ==> r.value.client.region.value in aws.knownRegions)
    ensures r.Err? ==> r.error in {ChainExhausted, NumberFormat, UnknownHost}
  {
    var bk := UtilBucketAndKey(url);
    ContextWith(w.sysProps, aws, url, None, bk, ComputeCredentials(w, fileName, bk.bucket))
  }

  /** Every entry of cache is what answer gives for its key. */
  ghost predicate Agrees(cache: map<string, AwsCredentials>, answer: string -> Outcome<AwsCredentials>) {
    forall b | b in cache :: answer(b) == Ok(cache[b])
  }

  /** Every entry of before is still in after, unchanged. */
  ghost predicate Extends(before: map<string, AwsCredentials>, after: map<string, AwsCredentials>) {
    forall b | b in before :: b in after && after[b] == before[b]
  }

  /** Adding a new key extends a cache. */
  lemma ExtendsByNewKey(cache: map<string, AwsCredentials>, k: string, v: AwsCredentials)
    requires k !in cache
    ensures Extends(cache, cache[k := v])
  {
  }

  /** Storing answer's own value for a key keeps a cache in agreement. */
  lemma AgreesStore(cache: map<string, AwsCredentials>, answer: string -> Outcome<AwsCredentials>, k: string, v: AwsCredentials)
    requires Agrees(cache, answer) && answer(k) == Ok(v)
    ensures Agrees(cache[k := v], answer)
  {
  }

  /** What credentialsCache.computeIfAbsent(bucket, ...) answers: the cached entry, else what the
      computation gives. When the cache agrees with the computation, that is the computation's answer. */
  function CachedOr(cache: map<string, AwsCredentials>, bucket: string, computed: Outcome<AwsCredentials>): (r: Outcome<AwsCredentials>)
    ensures bucket in cache ==> r == Ok(cache[bucket])
    ensures bucket !in cache ==> r == computed
  {
    if bucket in cache then Ok(cache[bucket]) else computed
  }

  /** The cache after computeIfAbsent: a new entry only for an absent bucket whose computation
      succeeded, and every old entry kept. */
  function CacheAfter(cache: map<string, AwsCredentials>, bucket: string, computed: Outcome<AwsCredentials>): (r: map<string, AwsCredentials>)
    ensures Extends(cache, r)
    ensures bucket !in cache && computed.Ok? ==> r == cache[bucket := computed.value]
    ensures bucket in cache || computed.Err? ==> r == cache
  {
    if bucket !in cache && computed.Ok? then cache[bucket := computed.value] else cache
  }

  /** computeIfAbsent keeps a cache that agrees with the computation in agreement, and then
      answers what the computation answers. */
  lemma CachedAgrees(cache: map<string, AwsCredentials>, answer: string -> Outcome<AwsCredentials>, bucket: string)
    ensures Agrees(cache, answer) ==> CachedOr(cache, bucket, answer(bucket)) == answer(bucket)
    ensures Agrees(cache, answer) ==> Agrees(CacheAfter(cache, bucket, answer(bucket)), answer)
  {
    if Agrees(cache, answer) && bucket !in cache && answer(bucket).Ok? {
      AgreesStore(cache, answer, bucket, answer(bucket).value);
    }
  }

  /** getClientBucketAndKey over a given cache: the credentials come from the cache when the
      bucket is there; it is the chain's context when the bucket is absent, whatever else the
      cache holds, and whenever the cache agrees with the chain. */
  function UtilContextFrom(w: World, aws: Aws, fileName: string, url: Url, cache: map<string, AwsCredentials>): (r: Outcome<ClientBucketKey>)
    ensures Agrees(cache, b => ComputeCredentials(w, fileName, b)) ==> r == UtilContext(w, aws, fileName, url)
    ensures url.host in cache ==> r == ClientFor(w.sysProps, aws, url, None, UtilBucketAndKey(url), cache[url.host])
    ensures url.host !in cache ==> r == UtilContext(w, aws, fileName, url)
  {
    var bk := UtilBucketAndKey(url);
    var answer := b => ComputeCredentials(w, fileName, b);
    CachedAgrees(cache, answer, bk.bucket);
    ContextWith(w.sysProps, aws, url, None, bk, CachedOr(cache, bk.bucket, answer(bk.bucket)))
  }

  /** The cache getClientBucketAndKey leaves: the URL host's chain answer is added when the host
      was absent and the chain succeeded. */
  function UtilCacheFrom(w: World, fileName: string, url: Url, cache: map<string, AwsCredentials>): (r: map<string, AwsCredentials>)
    ensures Extends(cache, r)
    ensures url.host !in cache && ComputeCredentials(w, fileName, url.host).Ok? ==>
              r == cache[url.host := ComputeCredentials(w, fileName, url.host).value]
    ensures url.host in cache || ComputeCredentials(w, fileName, url.host).Err? ==> r == cache
    ensures Agrees(cache, b => ComputeCredentials(w, fileName, b)) ==> Agrees(r, b => ComputeCredentials(w, fileName, b))
  {
    var answer := b => ComputeCredentials(w, fileName, b);
    CachedAgrees(cache, answer, url.host);
    CacheAfter(cache, url.host, answer(url.host))
  }

  class S3UrlUtil {
    /** credentialsCache: the credentials resolved so far, by bucket. */
    var credentialsCache: map<string, AwsCredentials>
    const credentialFileName: string

    /** S3URLUtil(): the default credential file name. */
    constructor Default()
      ensures credentialFileName == DefaultCredentialFileName
      ensures credentialsCache == map[]
    {
      credentialFileName := DefaultCredentialFileName;
      credentialsCache := map[];
    }

    /** S3URLUtil(credentialFileName) */
    constructor (credentialFileName: string)
      ensures this.credentialFileName == credentialFileName
      ensures credentialsCache == map[]
    {
      this.credentialFileName := credentialFileName;
      credentialsCache := map[];
    }

    /** Every cached entry is what its bucket's chain resolves to. */
    ghost predicate CacheAgrees(w: World)
      reads this
    {
      Agrees(credentialsCache, b => ComputeCredentials(w, credentialFileName, b))
    }

    /** getCredentials: credentialsCache.computeIfAbsent(bucket, computeCredentials). A cached bucket
        is answered from the cache without evaluating the chain; otherwise the chain's answer is
        stored under that bucket alone; a failure is rethrown and nothing is stored. */
    method GetCredentials(w: World, bucket: string) returns (r: Outcome<AwsCredentials>)
      modifies this
      ensures bucket in old(credentialsCache) ==> r == Ok(old(credentialsCache)[bucket]) && credentialsCache == old(credentialsCache)
      ensures bucket !in old(credentialsCache) ==> r == ComputeCredentials(w, credentialFileName, bucket)
      ensures bucket !in old(credentialsCache) && r.Ok? ==> credentialsCache == old(credentialsCache)[bucket := r.value]
      ensures r.Err? ==> credentialsCache == old(credentialsCache)
      ensures Extends(old(credentialsCache), credentialsCache)
      ensures old(CacheAgrees(w)) ==> CacheAgrees(w) && r == ComputeCredentials(w, credentialFileName, bucket)
    {
      if bucket in credentialsCache {
        r := Ok(credentialsCache[bucket]);
      } else {
        ghost var answer := b => ComputeCredentials(w, credentialFileName, b);
        r := ComputeCredentials(w, credentialFileName, bucket);
        if r.Ok? {
          if CacheAgrees(w) {
            AgreesStore(credentialsCache, answer, bucket, r.value);
          }
          ExtendsByNewKey(credentialsCache, bucket, r.value);
          credentialsCache := credentialsCache[bucket := r.value];
        }
      }
    }

    /** getClientBucketAndKey: bucket and key, credentials through the cache, then the proxy
        configuration and the region. Only the credentials step touches the cache, so it is filled
        even when a later step fails. */
    method GetClientBucketAndKey(w: World, aws: Aws, url: Url) returns (r: Outcome<ClientBucketKey>)
      modifies this
      ensures r == UtilContextFrom(w, aws, credentialFileName, url, old(credentialsCache))
      ensures credentialsCache == UtilCacheFrom(w, credentialFileName, url, old(credentialsCache))
      ensures old(CacheAgrees(w)) ==> CacheAgrees(w) && r == UtilContext(w, aws, credentialFileName, url)
    {
      var bk := UtilBucketAndKey(url);
      var credentials := GetCredentials(w, bk.bucket);
      if credentials.Err? {
        return Err(credentials.error);
      }
      r := ClientFor(w.sysProps, aws, url, None, bk, credentials.value);
    }
  }
}
