/** S3URLConnection: reading an object, with one rebuild of the access context after an S3 failure. */
module S3UrlConnection {
  import opened Wrappers
  import opened Faults
  import opened Providers
  import opened Chains
  import opened S3Context
  import opened S3UrlUtil

  /** The failures that make getInputStream rebuild its context: AmazonS3Exception. */
  predicate Retried(f: Fault): (b: bool)
    ensures b <==> f.S3Error?
    ensures b ==> f !in {ChainExhausted, NumberFormat, UnknownHost, InvalidS3Uri}
  {
    f.S3Error?
  }

  /** What getInputStream answers once its first context is built (or has failed). */
  ghost predicate RetryAnswers(aws: Aws, first: Outcome<ClientBucketKey>, freshContext: Outcome<ClientBucketKey>,
                               r: Outcome<ObjectContent>, attempts: nat, rebuilt: bool)
  {
    && (first.Err? ==> r == Err(first.error) && attempts == 0 && !rebuilt)
    && (first.Ok? ==>
          var c := first.value;
          var o := aws.getObject(c.client, c.bucketKey.bucket, c.bucketKey.key, 0);
          && (!(o.Err? && Retried(o.error)) ==> r == o && attempts == 1 && !rebuilt)
          && (o.Err? && Retried(o.error) ==> rebuilt)
          && (o.Err? && Retried(o.error) && freshContext.Err? ==>
                r == Err(freshContext.error) && attempts == 1)
          && (o.Err? && Retried(o.error) && freshContext.Ok? ==>
                var f := freshContext.value;
                attempts == 2 && r == aws.getObject(f.client, f.bucketKey.bucket, f.bucketKey.key, 1)))
  }

  /** The body of getInputStream after the first context: getObject, and on AmazonS3Exception
      one more getObject with the fresh context. */
  method ReadWithRetry(aws: Aws, first: Outcome<ClientBucketKey>, freshContext: Outcome<ClientBucketKey>)
    returns (r: Outcome<ObjectContent>, attempts: nat, rebuilt: bool)
    ensures attempts <= 2 && (attempts == 2 ==> rebuilt)
    ensures RetryAnswers(aws, first, freshContext, r, attempts, rebuilt)
  {
    attempts, rebuilt := 0, false;
    if first.Err? {
      return Err(first.error), attempts, rebuilt;
    }
    var c := first.value;
    r := aws.getObject(c.client, c.bucketKey.bucket, c.bucketKey.key, attempts);
    attempts := attempts + 1;
    if r.Err? && Retried(r.error) {
      rebuilt := true;
      if freshContext.Err? {
        return Err(freshContext.error), attempts, rebuilt;
      }
      c := freshContext.value;
      r := aws.getObject(c.client, c.bucketKey.bucket, c.bucketKey.key, attempts);
      attempts := attempts + 1;
    }
  }

  class S3UrlConnection {
    const url: Url
    const util: S3UrlUtil

    constructor (url: Url)
      ensures this.url == url && fresh(util)
      ensures util.credentialFileName == DefaultCredentialFileName && util.credentialsCache == map[]
    {
      this.url := url;
      util := new S3UrlUtil.Default();
    }

    /**
     * getInputStream. The first context comes from getClientBucketAndKey; if the first getObject
     * throws AmazonS3Exception, a fresh context (freshContext: the result of
     * getNewClientBucketAndKey) is taken once and getObject is tried once more with it. Anything
     * else, including a failure to build the first context, is not retried. attempts counts the
     * getObject calls and rebuilt says whether a fresh context was asked for.
     */
    method GetInputStream(w: World, aws: Aws, freshContext: Outcome<ClientBucketKey>)
      returns (r: Outcome<ObjectContent>, attempts: nat, rebuilt: bool)
      modifies util
      ensures util.credentialsCache == UtilCacheFrom(w, util.credentialFileName, url, old(util.credentialsCache))
      ensures old(util.CacheAgrees(w)) ==> util.CacheAgrees(w)
      ensures attempts <= 2 && (attempts == 2 ==> rebuilt)
      ensures RetryAnswers(aws, UtilContextFrom(w, aws, util.credentialFileName, url, old(util.credentialsCache)),
                           freshContext, r, attempts, rebuilt)
    {
      var clientBucketKey := util.GetClientBucketAndKey(w, aws, url);
      r, attempts, rebuilt := ReadWithRetry(aws, clientBucketKey, freshContext);
    }

    /** connect() does nothing. */
    method Connect()
      ensures util.credentialsCache == old(util.credentialsCache)
    {
    }
  }
}
