# Ivy S3 plugin: credential and access-context resolution

This project models the part of the Ivy S3 plugin that decides how an `s3://bucket/key` URL is
reached:

- which AWS credentials are used for a bucket;
- where those credentials come from;
- how they are cached;
- how the bucket, key, proxy and region of the S3 client are derived;
- how `list()` and `getURLInfo()` turn the answers of S3 into URLs and availability;
- how `S3URLConnection` retries a failed read once.

Dafny verifies the model and the properties stated about it.

The outside world is passed in as values, so every operation is a function of its inputs:

- `Providers.World` holds the process environment, the system properties, the properties files
  that can be read (keyed by base directory and file name), what each AWS SDK credentials
  provider would answer, and what STS answers to an assume-role request.
- `S3Context.Aws` holds the region names the SDK knows, DNS canonical names, bucket locations, and
  the answers of `getObjectMetadata`, `listObjects` and `getObject`.

Files and modules:

| file | module | what it holds |
|---|---|---|
| `wrappers.dfy` | `Wrappers`, `Faults` | `Option`, `Result`, and one constructor per exception the core throws or catches |
| `java_strings.dfy` | `JavaStrings` | `String.trim`, `startsWith`/`endsWith` and `Integer.parseInt`, as the core relies on them |
| `strings.dfy` | `Strings` | `Strings.stripPrefix` / `stripSuffix` |
| `optionals.dfy` | `Optionals` | both `Optionals.first` overloads and the first-present function that specifies them |
| `env_names.dfy` | `Credentials` | `Credentials.toEnvironmentVariableName` |
| `providers.dfy` | `Providers` | every credentials provider, the role-based providers, and the first-success chain |
| `chains.dfy` | `Chains` | the chains that `S3URLUtil` and `S3URLHandler` build, and the `CredentialsTest` scenario |
| `regions.dfy` | `Regions` | the region-name alternation, the matcher as written, and the intended matcher |
| `s3_context.dfy` | `S3Context` | bucket and key, proxy, the region fallback, the client, the `getURLInfo` outcome, the `list()` arithmetic |
| `s3_url_util.dfy` | `S3UrlUtil` | the `S3URLUtil` class with its per-bucket credentials cache |
| `s3_url_connection.dfy` | `S3UrlConnection` | the `S3URLConnection` class and its retry-once read |
| `s3_url_handler.dfy` | `S3UrlHandler` | the `S3URLHandler` class: its own cache, `getURLInfo` and `list` |

The two caches are classes whose `credentialsCache` map field is updated in place, as
`computeIfAbsent` does. Every method that reads through a cache states its answer and the new
cache for whatever the cache held before (`S3UrlUtil.UtilContextFrom`, `S3UrlUtil.UtilCacheFrom`
and their `S3UrlHandler` counterparts), including a cache holding stale credentials. Each cache
also keeps an invariant (`CacheAgrees`): every cached entry is what its bucket's chain resolves
to. Under that invariant, each such method answers exactly what the pure specification function
over the world answers.

Where the code and its evident intent differ, the model follows the code:

- **The region matcher never matches.** `findFirstInRegionMatcher` calls `Matcher.group(1)` without
  `find()` (`S3URLUtil.java:109`, `S3URLHandler.java:363`). The `IllegalStateException` is caught,
  so it always answers empty, and this is what the model's region fallback uses
  (`Regions.FindFirstInRegionMatcher`, `S3Context.RegionFallbackAsWritten`). A separately named
  matcher with `find()` (`Regions.FindRegionName`) is proved to return the leftmost, longest region
  name. `Regions.MatcherAsWrittenMissesRegion` states the difference.
- **Two copies of the normaliser.** The single-file providers call `Strings.toEnvironmentVariableName`,
  which `Strings.java` does not define. The one normaliser, in `Credentials.java:39-41`, is used for
  every environment lookup.
- **The normaliser does not split camel case.** `toEnvironmentVariableName("aws.accessKeyId")` is
  `"AWS_ACCESSKEYID"`, not `"AWS_ACCESS_KEY_ID"` (`Credentials.CamelCaseNameExample`).
- **Two base directories for role files.**
  - `RoleBasedPropertiesFileCredentialsProvider.java:31` reads role files from `Constants.DotSbtDir`.
  - The copy in `Credentials.java:213` reads them from `DotIvyDir`.
  - The model follows the single-file class (`Providers.RoleFileDir`).
  - The basic chain's credential files are always under `DotIvyDir` (`S3URLUtil.java:211`).
- **Strict URI parsing is off in `S3URLUtil`.** `getAmazonS3URI(URL)` always answers empty there
  (`S3URLUtil.java:115-122`), so the bucket is always the URL's host.
- **`S3URLHandler` does not catch a rejected URI.** Its `getAmazonS3URI` catches only
  `URISyntaxException`. An `IllegalArgumentException` from `AmazonS3URI` therefore propagates out of
  `getBucketAndKey` (`S3Context.HandlerBucketAndKey`, fault `InvalidS3Uri`).
- **Undefined retry method.** `S3URLConnection.getInputStream` calls `getNewClientBucketAndKey`,
  which `S3URLUtil` does not define. The model takes its outcome as the `freshContext` parameter.
- **The proxy port can throw without a host.** `getProxyConfiguration` parses `https.proxyPort`
  before it checks whether a host is set. A malformed port therefore throws
  `NumberFormatException` even when `https.proxyHost` is absent.

## Model

| member | source | states |
|---|---|---|
| Strings.StripSuffix | src/main/java/co/actioniq/ivy/s3/Strings.java:19-25 | when str ends with suffix, result + suffix == str; otherwise str unchanged; the result is always a prefix of str |
| Strings.StripPrefix | src/main/java/co/actioniq/ivy/s3/Strings.java:27-33 | when str starts with prefix, prefix + result == str; otherwise str unchanged; the result is always a suffix of str, no longer than it |
| Strings.StripPrefixRoundTrip | src/main/java/co/actioniq/ivy/s3/Strings.java:27-33 | stripPrefix(prefix + s, prefix) == s |
| Strings.StripSuffixRoundTrip | src/main/java/co/actioniq/ivy/s3/Strings.java:19-25 | stripSuffix(s + suffix, suffix) == s |
| Strings.StripPrefixRemovesOnce | src/main/java/co/actioniq/ivy/s3/Strings.java:19-33 | only one occurrence is removed: "//a" loses one leading "/", "a//" one trailing "/" |
| Optionals.FirstPresent | src/main/java/co/actioniq/ivy/s3/Optionals.java:20-28 | empty exactly when every alternative is empty (so also for none); a present result is one of the alternatives |
| Optionals.FirstPresentIndex | src/main/java/co/actioniq/ivy/s3/Optionals.java:20-28 | the position of the first present alternative: all before it are empty, and it is present when in range |
| Optionals.FirstPresentAt | src/main/java/co/actioniq/ivy/s3/Optionals.java:20-28 | the result is exactly the alternative at the first present position, unaltered, or empty when there is none |
| Optionals.FirstPresentAppend | src/main/java/co/actioniq/ivy/s3/Optionals.java:20-28 | later alternatives decide the result only when every earlier one is empty |
| Optionals.FirstPresentOfThree | src/main/java/co/actioniq/ivy/s3/S3URLUtil.java:69-75 | first(a, b, c) is a if present, else b if present, else c |
| Optionals.Supplied | src/main/java/co/actioniq/ivy/s3/Optionals.java:9-18 | the values the suppliers yield, one per supplier, in order |
| Optionals.FirstSupplied | src/main/java/co/actioniq/ivy/s3/Optionals.java:9-18 | first(Supplier...) returns the first present supplied value; suppliers are called in order, and none after the first present one is called (the count of calls is stated exactly) |
| Optionals.First | src/main/java/co/actioniq/ivy/s3/Optionals.java:20-28 | first(Optional...) returns the first present value, or empty |
| JavaStrings.Trim | src/main/java/co/actioniq/ivy/s3/Credentials.java:82-89 | the lookups' trim(): the result is a slice of the input with only characters <= ' ' removed at the ends, and none left at either end |
| JavaStrings.TrimUnchanged | src/main/java/co/actioniq/ivy/s3/Credentials.java:82-89 | a value with nothing to trim at its ends is returned as it is |
| JavaStrings.ParseInt | src/main/java/co/actioniq/ivy/s3/S3URLUtil.java:156-165 | Integer.parseInt of the proxy port: a parsed value is within int range and the text starts with a digit or a sign |
| JavaStrings.ParseIntRoundTrip | src/main/java/co/actioniq/ivy/s3/S3URLUtil.java:156-165 | every int written in decimal parses back to itself: non-negative ones up to Integer.MAX_VALUE, and with "-" every negative one down to Integer.MIN_VALUE ("-2147483648") |
| Credentials.ToEnvironmentVariableName | src/main/java/co/actioniq/ivy/s3/Credentials.java:39-41 | the result contains only A-Z, 0-9 and '_' and is no longer than the input |
| Credentials.EnvChar | src/main/java/co/actioniq/ivy/s3/Credentials.java:39-41 | per character: '-' and '.' become '_', a lower-case letter its capital, [A-Z0-9_] stays, anything else is dropped |
| Credentials.UpperCase | src/main/java/co/actioniq/ivy/s3/Credentials.java:39-41 | the upper-casing pass keeps the length; Credentials.UpperCaseByChar gives each character |
| Credentials.UpperCaseByChar | src/main/java/co/actioniq/ivy/s3/Credentials.java:39-41 | the upper-casing pass maps each character on its own, in place |
| Credentials.Replace | src/main/java/co/actioniq/ivy/s3/Credentials.java:39-41 | a replace pass keeps the length; Credentials.ReplaceByChar gives each character |
| Credentials.ReplaceByChar | src/main/java/co/actioniq/ivy/s3/Credentials.java:39-41 | replace(from, to) changes exactly the characters equal to from, each into to |
| Credentials.KeepEnvChars | src/main/java/co/actioniq/ivy/s3/Credentials.java:39-41 | the removing pass leaves only A-Z, 0-9 and '_' and never lengthens the string |
| Credentials.KeepEnvCharsUnchanged | src/main/java/co/actioniq/ivy/s3/Credentials.java:39-41 | the removing pass keeps a string already made of A-Z, 0-9 and '_' whole |
| Credentials.ToEnvironmentVariableNameChar | src/main/java/co/actioniq/ivy/s3/Credentials.java:39-41 | the three passes (upper-case, replace, remove) act on one character as EnvChar says |
| Credentials.ToEnvironmentVariableNameAppend | src/main/java/co/actioniq/ivy/s3/Credentials.java:39-41 | normalising a concatenation concatenates the normalised pieces |
| Credentials.ToEnvironmentVariableNameByChar | src/main/java/co/actioniq/ivy/s3/Credentials.java:39-41 | the normaliser maps every character on its own and keeps the survivors in their original order |
| Credentials.EnvNameUnchanged | src/main/java/co/actioniq/ivy/s3/Credentials.java:39-41 | a name already made of [A-Z0-9_] is returned unchanged |
| Credentials.ToEnvironmentVariableNameIdempotent | src/main/java/co/actioniq/ivy/s3/Credentials.java:39-41 | normalising twice is normalising once |
| Credentials.BucketSuffixExample | src/main/java/co/actioniq/ivy/s3/Credentials.java:39-41 | ".my-bucket" normalises to "_MY_BUCKET" |
| Credentials.BucketSpecificNameExample | src/main/java/co/actioniq/ivy/s3/Credentials.java:82-89 | "AWS_ACCESS_KEY_ID.my-bucket" normalises to "AWS_ACCESS_KEY_ID_MY_BUCKET" |
| Credentials.DashedNameExample | src/main/java/co/actioniq/ivy/s3/Credentials.java:39-41 | "AWS-ACCESS-KEY-ID" normalises to "AWS_ACCESS_KEY_ID" |
| Credentials.CamelCaseNameExample | src/main/java/co/actioniq/ivy/s3/Credentials.java:39-41 | "aws.accessKeyId" normalises to "AWS_ACCESSKEYID", which differs from "AWS_ACCESS_KEY_ID" |
| Credentials.DroppedCharsExample | src/main/java/co/actioniq/ivy/s3/Credentials.java:39-41 | "my bucket!" normalises to "MYBUCKET": characters outside the kept set disappear |
| Providers.FirstDefined | src/main/java/co/actioniq/ivy/s3/Credentials.java:82-89 | empty exactly when no candidate key is defined; otherwise the value of the first defined candidate |
| Providers.FirstDefinedTrimmed | src/main/java/co/actioniq/ivy/s3/Credentials.java:134-136 | NoSuchElementException exactly when no candidate is defined; otherwise the first defined candidate's value, trimmed |
| Providers.TwoCandidateLookup | src/main/java/co/actioniq/ivy/s3/Credentials.java:82-89 | with two candidates, the first wins when defined, then the second, each trimmed; otherwise NoSuchElementException |
| Providers.OneCandidateLookup | src/main/java/co/actioniq/ivy/s3/RoleBasedSystemPropertiesCredentialsProvider.java:22-24 | with one candidate, its trimmed value when it is defined, NoSuchElementException otherwise |
| Providers.EnvLookupOfEnvName | src/main/java/co/actioniq/ivy/s3/RoleBasedEnvironmentVariableCredentialsProvider.java:22-29 | a single name that normalisation leaves alone is looked up in the environment as it is, trimmed, NoSuchElementException when absent |
| Providers.RoleArnEnvVarUnchanged | src/main/java/co/actioniq/ivy/s3/RoleBasedEnvironmentVariableCredentialsProvider.java:14-16 | "AWS_ROLE_ARN" normalises to itself |
| Providers.EnvNames | src/main/java/co/actioniq/ivy/s3/BucketSpecificEnvironmentVariableCredentialsProvider.java:21-28 | each candidate is normalised before the environment is consulted |
| Providers.EnvLookup | src/main/java/co/actioniq/ivy/s3/BucketSpecificEnvironmentVariableCredentialsProvider.java:21-28 | the environment lookup fails exactly when no normalised candidate is an environment variable |
| Providers.PropertyLookup | src/main/java/co/actioniq/ivy/s3/BucketSpecificSystemPropertiesCredentialsProvider.java:21-23 | the property lookup uses candidates verbatim and fails exactly when none is a system property |
| Providers.BucketSpecificCredentials | src/main/java/co/actioniq/ivy/s3/BucketSpecificCredentialsProvider.java:14-18 | credentials exactly when both keys are found, pairing exactly the two looked-up values; a failed access-key lookup is the provider's failure |
| Providers.BucketSpecificEnvironmentVariableLookupOrder | src/main/java/co/actioniq/ivy/s3/BucketSpecificCredentialsProvider.java:14-18 | for the environment provider, "<KEY>.<bucket>" is preferred to "<bucket>.<KEY>" (both normalised) for each key; values are trimmed; both keys are needed |
| Providers.BucketSpecificSystemPropertiesLookupOrder | src/main/java/co/actioniq/ivy/s3/BucketSpecificSystemPropertiesCredentialsProvider.java:13-23 | for the system-property provider, "aws.accessKeyId.<bucket>" is preferred to "<bucket>.aws.accessKeyId", and likewise for the secret key; values are trimmed; both keys are needed |
| Providers.PropertiesFileCredentials | src/main/java/co/actioniq/ivy/s3/S3URLUtil.java:210-213 | a credential properties file gives exactly its accessKey and secretKey; a missing file or key makes the provider fail |
| Providers.BasicCredentialsOf | src/main/java/co/actioniq/ivy/s3/Credentials.java:45-136 | bucket-specific and file providers make basic credentials only; an SDK provider answers what it holds or fails; a file provider succeeds exactly when the file has both keys; the system-property provider succeeds exactly when each key is found under one of its two spellings; a bucket-specific failure is NoSuchElementException |
| Providers.ResolveBasicChain | src/main/java/co/actioniq/ivy/s3/S3URLUtil.java:177-190 | the basic chain's only failure is AmazonClientException, when no provider succeeds |
| Providers.ResolveBasicChainFirstSuccess | src/main/java/co/actioniq/ivy/s3/S3URLUtil.java:177-190 | the basic chain succeeds exactly when some provider does, and then answers what the first successful provider answers, every earlier one having failed |
| Providers.ResolveBasicChainSkipsFailing | src/main/java/co/actioniq/ivy/s3/S3URLUtil.java:177-190 | providers that all fail can be removed from a chain without changing its answer |
| Providers.RoleArnKeyNames | src/main/java/co/actioniq/ivy/s3/Credentials.java:93-242 | exactly the candidate names of each role provider: "AWS_ROLE_ARN", "aws.roleArn" or "roleArn" alone for the global and file providers, and "<name>.<bucket>" then "<bucket>.<name>" for the bucket-specific ones |
| Providers.GetRoleArn | src/main/java/co/actioniq/ivy/s3/Credentials.java:172-242 | the environment provider answers AWS_ROLE_ARN trimmed, the system-property provider aws.roleArn trimmed, the file provider the file's roleArn trimmed, each NoSuchElementException when the key is absent; a role file that cannot be read in the sbt directory fails with the wrapped IOException |
| Providers.BucketSpecificEnvironmentRoleArnLookupOrder | src/main/java/co/actioniq/ivy/s3/Credentials.java:101-117 | the bucket-specific environment role ARN: "AWS_ROLE_ARN.<bucket>" before "<bucket>.AWS_ROLE_ARN", both normalised; trimmed; NoSuchElementException when neither is set |
| Providers.BucketSpecificSystemPropertiesRoleArnLookupOrder | src/main/java/co/actioniq/ivy/s3/Credentials.java:101-117 | the bucket-specific system-property role ARN: "aws.roleArn.<bucket>" before "<bucket>.aws.roleArn", verbatim; trimmed; NoSuchElementException when neither is set |
| Providers.AssumeRole | src/main/java/co/actioniq/ivy/s3/RoleBasedCredentialsProvider.java:25-37 | STS is called with the identity the upstream chain resolves to; the call succeeds exactly when that identity exists and STS answers for it and the ARN |
| Providers.RoleCredentials | src/main/java/co/actioniq/ivy/s3/RoleBasedCredentialsProvider.java:25-37 | a failed ARN lookup is the provider's failure; otherwise session credentials copying exactly the assumed role's key id, secret and token, and failure when assuming fails |
| Providers.RoleArnFailureShortCircuits | src/main/java/co/actioniq/ivy/s3/RoleBasedCredentialsProvider.java:25-37 | when the ARN lookup fails, neither the upstream chain nor STS affects the result |
| Providers.RoleCredentialsAreAssumed | src/main/java/co/actioniq/ivy/s3/RoleBasedCredentialsProvider.java:25-37 | role-based credentials are always session credentials copied from some STS answer, never the upstream identity itself |
| Providers.RoleCredentialsNeedUpstream | src/main/java/co/actioniq/ivy/s3/RoleBasedCredentialsProvider.java:25-37 | every role provider fails when its upstream chain does |
| Providers.GetCredentials | src/main/java/co/actioniq/ivy/s3/Credentials.java:141-165 | a basic provider answers as itself; a role-based provider answers session credentials only, and only when its upstream chain has an identity and its ARN is found; a failed ARN lookup is its failure |
| Providers.ResolveChain | src/main/java/co/actioniq/ivy/s3/S3URLUtil.java:202-207 | the full chain's only failure is AmazonClientException |
| Providers.ResolveChainFirstSuccess | src/main/java/co/actioniq/ivy/s3/S3URLUtil.java:202-207 | the chain succeeds exactly when some provider does, and answers the first successful provider's credentials, every earlier provider having failed |
| Providers.ResolveChainAppend | src/main/java/co/actioniq/ivy/s3/S3URLUtil.java:202-207 | a chain built from two parts consults the second only when the first finds nothing |
| Providers.AsProviders | src/main/java/co/actioniq/ivy/s3/S3URLUtil.java:204 | the basic providers enter the full chain unchanged and in order |
| Providers.ResolveChainOfBasic | src/main/java/co/actioniq/ivy/s3/S3URLUtil.java:202-207 | the basic providers resolve alike inside the full chain and as the upstream chain |
| Chains.CredentialFile | src/main/java/co/actioniq/ivy/s3/S3URLUtil.java:210-213 | credential files of the basic chain are resolved under the Ivy directory |
| Chains.BasicProviders | src/main/java/co/actioniq/ivy/s3/S3URLUtil.java:177-188 | ten basic providers: the two bucket-specific ones first, the files ".<name>_<bucket>", ".<bucket>_<name>" at 2 and 3, the SDK environment and system-property providers at 4 and 5, ".<name>" at 6, all under the Ivy directory, the bucket's profile before the default one, the instance profile last |
| Chains.RoleSources | src/main/java/co/actioniq/ivy/s3/S3URLUtil.java:192-200 | seven role sources, the i-th reading the role ARN where the i-th basic provider reads its keys |
| Chains.LegacyBasicProviders | src/main/java/co/actioniq/ivy/s3/S3URLHandler.java:157-166 | eight basic providers: the two bucket-specific ones first, the files ".s3credentials_<bucket>", ".<bucket>_s3credentials" at 2 and 3, the SDK environment and system-property providers at 4 and 5, ".s3credentials" at 6, all under the Ivy directory, no profile provider, the instance profile last |
| Chains.LegacyRoleSources | src/main/java/co/actioniq/ivy/s3/S3URLHandler.java:170-178 | seven role sources, the i-th reading the role ARN where the i-th basic provider of the older chain reads its keys |
| Chains.RoleProviders | src/main/java/co/actioniq/ivy/s3/S3URLUtil.java:192-200 | every role provider is built on the same basic chain, one per ARN source, in order |
| Chains.ProviderChain | src/main/java/co/actioniq/ivy/s3/S3URLUtil.java:202-207 | the role providers, each on the basic chain and in the order of their sources, followed by every basic provider in order |
| Chains.MakeCredentialsProviderChain | src/main/java/co/actioniq/ivy/s3/S3URLUtil.java:176-208 | 17 providers: at i < 7 the role provider for RoleSources[i] on the BasicProviders chain, at 7 <= i < 17 the basic provider BasicProviders[i - 7] |
| Chains.ProviderChainResolution | src/main/java/co/actioniq/ivy/s3/S3URLUtil.java:176-208 | the chain answers the first role that can be assumed, else the basic chain; it fails exactly when the basic chain does |
| Chains.ComputeCredentials | src/main/java/co/actioniq/ivy/s3/S3URLUtil.java:167-174 | computeCredentials rethrows AmazonClientException when no provider succeeds |
| Chains.ComputeCredentialsResolution | src/main/java/co/actioniq/ivy/s3/S3URLUtil.java:167-174 | computeCredentials for a file name and bucket: the first role that can be assumed, else the basic chain; failure exactly when the basic chain finds nothing |
| Chains.LegacyCredentialsProviderChain | src/main/java/co/actioniq/ivy/s3/S3URLHandler.java:156-186 | 15 providers: at i < 7 the role provider for LegacyRoleSources[i] on the LegacyBasicProviders chain, at 7 <= i < 15 the basic provider LegacyBasicProviders[i - 7] |
| Chains.LegacyComputeCredentials | src/main/java/co/actioniq/ivy/s3/S3URLHandler.java:196-203 | the older computeCredentials rethrows AmazonClientException when nothing is found |
| Chains.LegacyComputeCredentialsResolution | src/main/java/co/actioniq/ivy/s3/S3URLHandler.java:196-203 | the older chain answers the first role that can be assumed, else its basic chain, and fails exactly when its basic chain does |
| Chains.LegacyChainIsDefaultWithoutProfiles | src/main/java/co/actioniq/ivy/s3/S3URLHandler.java:156-186 | the older basic chain is the current one for "s3credentials" without the two profile providers; the role sources are the same |
| Chains.RoleProvidersAgree | src/main/java/co/actioniq/ivy/s3/S3URLHandler.java:170-178 | role providers over two upstream chains that resolve alike resolve alike |
| Chains.BasicChainWithoutProfiles | src/main/java/co/actioniq/ivy/s3/S3URLUtil.java:177-188 | when neither profile has credentials, the two profile providers at positions 7 and 8 can be taken out of the basic chain without changing its answer |
| Chains.LegacyBasicChainAgrees | src/main/java/co/actioniq/ivy/s3/S3URLHandler.java:157-166 | without profile credentials, the older basic chain resolves as the current one for "s3credentials" |
| Chains.SdkSourcesBeforeGenericFile | src/main/java/co/actioniq/ivy/s3/S3URLUtil.java:177-188 | when the bucket-specific lookups and the two bucket-named files find nothing, the SDK's environment credentials, else its system-property credentials, are the chain's answer, ahead of the generic ".<name>" file whatever it holds |
| Chains.LegacyAgreesWithoutProfiles | src/main/java/co/actioniq/ivy/s3/S3URLHandler.java:156-186 | without profile credentials, S3URLHandler and S3URLUtil() resolve every bucket to the same credentials |
| Chains.RoleArnAbsent | src/main/test/co/actioniq/ivy/s3/CredentialsTest.java:40-54 | with an empty environment and empty system properties and no role file, no role ARN is found |
| Chains.EarlierBasicProvidersFail | src/main/test/co/actioniq/ivy/s3/CredentialsTest.java:40-54 | with only the generic credential file present, the six basic providers before it fail |
| Chains.BasicChainReadsGenericFile | src/main/test/co/actioniq/ivy/s3/CredentialsTest.java:40-54 | the basic chain then answers the generic file's accessKey and secretKey |
| Chains.RoleProvidersFail | src/main/test/co/actioniq/ivy/s3/CredentialsTest.java:40-54 | every role provider of the chain then fails |
| Chains.GenericCredentialFileResolves | src/main/test/co/actioniq/ivy/s3/CredentialsTest.java:40-54 | with nothing but ".<name>" present, computeCredentials answers exactly that file's keys |
| Chains.CredentialsTestChain | src/main/test/co/actioniq/ivy/s3/CredentialsTest.java:40-54 | the test's file ".23498sddflskdfjcsxlf1234" with accessKey=abcde, secretKey=fghij resolves to exactly those values for bucket "foosdfsdflkj", in a world with no other environment variable, system property or SDK credentials (the test clears only the generic keys) |
| Regions.InsertByLength | src/main/java/co/actioniq/ivy/s3/S3URLUtil.java:59-66 | inserting into a list sorted longest first keeps it sorted and adds one element |
| Regions.InsertByLengthPermutation | src/main/java/co/actioniq/ivy/s3/S3URLUtil.java:59-66 | insertion adds the name and loses nothing |
| Regions.InsertByLengthStable | src/main/java/co/actioniq/ivy/s3/S3URLUtil.java:59-66 | insertion keeps names of equal length in their order, the new one after those already present |
| Regions.SortByLengthDesc | src/main/java/co/actioniq/ivy/s3/S3URLUtil.java:59-66 | the region names sorted by non-increasing length, as many as there were |
| Regions.SortByLengthDescPermutation | src/main/java/co/actioniq/ivy/s3/S3URLUtil.java:59-66 | the sort is a permutation of the region names |
| Regions.SortByLengthDescStable | src/main/java/co/actioniq/ivy/s3/S3URLUtil.java:59-66 | the sort is stable: names of equal length keep the order Regions.values() gives them |
| Regions.MakeRegionMatcher | src/main/java/co/actioniq/ivy/s3/S3URLUtil.java:59-66 | the alternation lists exactly the region names, longest first |
| Regions.Group1 | src/main/java/co/actioniq/ivy/s3/S3URLUtil.java:107-113 | Matcher.group(1) answers only after a successful match and throws IllegalStateException otherwise |
| Regions.FindFirstInRegionMatcher | src/main/java/co/actioniq/ivy/s3/S3URLUtil.java:107-113 | as written, the matcher never throws and always answers empty |
| Regions.FindFromSpec | src/main/java/co/actioniq/ivy/s3/S3URLUtil.java:107-113 | find() then group(1): nothing when no alternative occurs from the start position on; otherwise the first alternative occurring at the leftmost position where any occurs |
| Regions.MatchAt | src/main/java/co/actioniq/ivy/s3/S3URLUtil.java:107-113 | at one position: nothing exactly when no alternative occurs there, otherwise the first alternative that does |
| Regions.FindFrom | src/main/java/co/actioniq/ivy/s3/S3URLUtil.java:107-113 | find() then group(1) from a position: whatever it finds is one of the alternatives; Regions.FindFromSpec says which |
| Regions.FindRegionName | src/main/java/co/actioniq/ivy/s3/S3URLUtil.java:107-113 | the intended matcher over a whole string: whatever it finds is one of the alternatives; Regions.FindRegionNameSpec says which |
| Regions.FindRegionNameSpec | src/main/java/co/actioniq/ivy/s3/S3URLUtil.java:107-113 | over alternatives sorted longest first, the intended matcher finds the leftmost occurrence and the longest name there |
| Regions.RegionMatchIsLeftmostLongest | src/main/java/co/actioniq/ivy/s3/S3URLUtil.java:59-113 | over makeRegionMatcher's alternation, the intended matcher answers empty exactly when no region name occurs, and otherwise a region name at the leftmost position where any occurs, with no longer one there |
| Regions.MatcherAsWrittenMissesRegion | src/main/java/co/actioniq/ivy/s3/S3URLUtil.java:107-113 | wherever a region name occurs, the intended matcher finds one and the matcher as written does not |
| S3Context.HostBucketAndKey | src/main/java/co/actioniq/ivy/s3/S3URLUtil.java:124-130 | the fallback bucket is the host and the key the path without one leading "/" |
| S3Context.UtilBucketAndKey | src/main/java/co/actioniq/ivy/s3/S3URLUtil.java:115-130 | S3URLUtil's bucket is always the host and its key the path without one leading "/" |
| S3Context.HandlerBucketAndKey | src/main/java/co/actioniq/ivy/s3/S3URLHandler.java:379-411 | S3URLHandler takes AmazonS3URI's bucket and key, falls back to host and path when the URL is not a URI, and propagates AmazonS3URI's rejection |
| S3Context.GetProxyConfiguration | src/main/java/co/actioniq/ivy/s3/S3URLUtil.java:156-165 | proxy host and port are set together only when both properties are present; otherwise the default; an unparsable port throws NumberFormatException |
| S3Context.BucketHost | src/main/java/co/actioniq/ivy/s3/S3URLUtil.java:84-95 | the host looked up in DNS is exactly the bucket followed by ".s3.amazonaws.com", nothing in between |
| S3Context.RegionNameFromUrl | src/main/java/co/actioniq/ivy/s3/S3URLUtil.java:77-82 | the region from the URL is AmazonS3URI's region, as the matcher adds nothing |
| S3Context.RegionNameFromDns | src/main/java/co/actioniq/ivy/s3/S3URLUtil.java:84-95 | an unknown host is rethrown; a known host gives no region, as the matcher finds none |
| S3Context.RegionNameFromService | src/main/java/co/actioniq/ivy/s3/S3URLUtil.java:98-105 | the bucket location the client's credentials may read, and empty on any failure |
| S3Context.GetRegionName | src/main/java/co/actioniq/ivy/s3/S3URLUtil.java:69-75 | URL, then DNS, then service, each consulted only when the earlier ones gave nothing; an unknown host aborts the lookup, and only when the URL gave nothing |
| S3Context.GetRegionNameIsFirstPresent | src/main/java/co/actioniq/ivy/s3/S3URLUtil.java:69-75 | when DNS answers, the region name is Optionals.first over the three answers |
| S3Context.GetRegion | src/main/java/co/actioniq/ivy/s3/S3URLUtil.java:69-75 | a region is set only when the name found is one RegionUtils knows; a DNS failure propagates |
| S3Context.RegionFallbackAsWritten | src/main/java/co/actioniq/ivy/s3/S3URLUtil.java:69-113 | without a region from AmazonS3URI, the region is whatever getBucketLocation answers, provided the bucket's host resolves |
| S3Context.HandlerUriRegion | src/main/java/co/actioniq/ivy/s3/S3URLHandler.java:341-346 | AmazonS3URI's region when it parsed the URL, and none otherwise |
| S3Context.ClientFor | src/main/java/co/actioniq/ivy/s3/S3URLUtil.java:51-57 | the client carries the bucket's credentials, the proxy configuration and the region found; a proxy or DNS failure fails the context |
| S3Context.ContextWith | src/main/java/co/actioniq/ivy/s3/S3URLUtil.java:51-57 | a failed credentials step is the context's failure and nothing after it is looked up; otherwise the client for those credentials |
| S3Context.UrlInfoOf | src/main/java/co/actioniq/ivy/s3/S3URLHandler.java:225-243 | 404 gives UNAVAILABLE, any other failure propagates, and metadata gives a reachable resource with its length and last-modified time |
| S3Context.WithTrailingSlash | src/main/java/co/actioniq/ivy/s3/S3URLHandler.java:263-276 | the listing prefix and the base of every listed URL always end in "/": the string itself if it already does, else the string + "/" |
| S3Context.ListedUrl | src/main/java/co/actioniq/ivy/s3/S3URLHandler.java:273-281 | each URL is the listed URL with its "/" followed by the entry relative to the prefix |
| S3Context.ListedUrls | src/main/java/co/actioniq/ivy/s3/S3URLHandler.java:269-281 | a truncated listing is refused; otherwise one URL per common prefix, then one per object key, in order |
| S3Context.ListedUrlRecoversKey | src/main/java/co/actioniq/ivy/s3/S3URLHandler.java:273-281 | the prefix followed by the part of a listed URL after the directory URL is the listed key again |
| S3Context.ListedUrlsRecoverKeys | src/main/java/co/actioniq/ivy/s3/S3URLHandler.java:273-281 | every URL list() returns gives back its listed key in that way |
| S3UrlUtil.UtilContext | src/main/java/co/actioniq/ivy/s3/S3URLUtil.java:51-57 | the context's bucket is the URL's host, its credentials the chain's, its proxy getProxyConfiguration's and its region getRegion's for that client; it succeeds exactly when credentials, proxy and region all do; failures are only no credentials, a bad proxy port or an unknown host |
| S3UrlUtil.CachedOr | src/main/java/co/actioniq/ivy/s3/S3URLUtil.java:150-154 | computeIfAbsent answers the cached entry when there is one, else the computation's answer |
| S3UrlUtil.CacheAfter | src/main/java/co/actioniq/ivy/s3/S3URLUtil.java:150-154 | computeIfAbsent adds an entry only for an absent key whose computation succeeded and keeps every old entry |
| S3UrlUtil.CachedAgrees | src/main/java/co/actioniq/ivy/s3/S3URLUtil.java:150-154 | over a cache that agrees with the computation, computeIfAbsent answers what the computation answers and the cache keeps agreeing |
| S3UrlUtil.UtilContextFrom | src/main/java/co/actioniq/ivy/s3/S3URLUtil.java:51-57 | the context over any cache: a cached host's credentials are used as they are, stale or not; a host absent from the cache gets UtilContext, the chain run afresh, whatever the other entries hold; over an agreeing cache it is UtilContext |
| S3UrlUtil.UtilCacheFrom | src/main/java/co/actioniq/ivy/s3/S3URLUtil.java:51-57 | the cache getClientBucketAndKey leaves: the host's chain answer added when the host was absent and the chain succeeded, otherwise unchanged; agreement is kept |
| S3UrlUtil.S3UrlUtil.Default | src/main/java/co/actioniq/ivy/s3/S3URLUtil.java:43-45 | the default credential file name is "s3credentials", with an empty cache |
| S3UrlUtil.S3UrlUtil.constructor | src/main/java/co/actioniq/ivy/s3/S3URLUtil.java:47-49 | the credential file name given, with an empty cache |
| S3UrlUtil.S3UrlUtil.GetCredentials | src/main/java/co/actioniq/ivy/s3/S3URLUtil.java:150-154 | a cached bucket is answered from the cache without evaluating the chain; otherwise the chain's answer is stored under that bucket alone; a failure is rethrown and stores nothing; the cache keeps agreeing with the chain |
| S3UrlUtil.S3UrlUtil.GetClientBucketAndKey | src/main/java/co/actioniq/ivy/s3/S3URLUtil.java:51-57 | answers UtilContextFrom over the cache it starts with and leaves UtilCacheFrom of it; with an agreeing cache the answer is exactly UtilContext and the cache keeps agreeing |
| S3UrlConnection.S3UrlConnection.constructor | src/main/java/co/actioniq/ivy/s3/S3URLConnection.java:14-16 | a connection owns a new S3URLUtil with the default file name and an empty cache |
| S3UrlConnection.Retried | src/main/java/co/actioniq/ivy/s3/S3URLConnection.java:24 | only AmazonS3Exception is retried, never a failure to find credentials, a bad proxy port or an unknown host |
| S3UrlConnection.ReadWithRetry | src/main/java/co/actioniq/ivy/s3/S3URLConnection.java:20-28 | the first read uses the first context; only an AmazonS3Exception leads to the fresh context and exactly one more read; a context failure is not retried; at most two reads |
| S3UrlConnection.S3UrlConnection.GetInputStream | src/main/java/co/actioniq/ivy/s3/S3URLConnection.java:19-29 | the cache after is UtilCacheFrom of the cache before; the first read uses UtilContextFrom over the cache before; only an AmazonS3Exception leads to a fresh context and exactly one more read; no third read; a context failure is not retried; a first success builds no fresh context |
| S3UrlConnection.S3UrlConnection.Connect | src/main/java/co/actioniq/ivy/s3/S3URLConnection.java:31-34 | connect() changes nothing |
| S3UrlHandler.HandlerContext | src/main/java/co/actioniq/ivy/s3/S3URLHandler.java:216-222 | a rejected URI fails first; no credentials from the older chain fails; otherwise the context holds the parsed bucket and key, the older chain's credentials, getProxyConfiguration's proxy and getRegion's region starting from AmazonS3URI's, and succeeds exactly when proxy and region do |
| S3UrlHandler.HandlerContextFrom | src/main/java/co/actioniq/ivy/s3/S3URLHandler.java:216-222 | the context over any cache: a rejected URI fails first; a cached bucket's credentials are used as they are; a bucket absent from the cache gets HandlerContext, the older chain run afresh, whatever the other entries hold; over an agreeing cache it is HandlerContext |
| S3UrlHandler.HandlerCacheFrom | src/main/java/co/actioniq/ivy/s3/S3URLHandler.java:216-222 | the cache getClientBucketAndKey leaves: unchanged for a rejected URI, otherwise the bucket's older-chain answer added when absent and successful; agreement is kept |
| S3UrlHandler.UrlInfoIn | src/main/java/co/actioniq/ivy/s3/S3URLHandler.java:225-243 | getURLInfo over a built or failed context: the metadata answer through the 404 rule; a context failure other than an S3 error propagates |
| S3UrlHandler.ListIn | src/main/java/co/actioniq/ivy/s3/S3URLHandler.java:256-282 | list over a built or failed context: a context or listing failure propagates; otherwise the URLs of the listing under the key's directory prefix |
| S3UrlHandler.HandlerUrlInfo | src/main/java/co/actioniq/ivy/s3/S3URLHandler.java:225-243 | a context failure propagates; otherwise the metadata answer mapped through the 404 rule |
| S3UrlHandler.HandlerList | src/main/java/co/actioniq/ivy/s3/S3URLHandler.java:256-282 | a context or listing failure propagates; otherwise the URLs of the listing under the key's directory prefix |
| S3UrlHandler.NotFoundIsUnavailable | src/main/java/co/actioniq/ivy/s3/S3URLHandler.java:225-243 | a 404 on the metadata call makes getURLInfo answer UNAVAILABLE |
| S3UrlHandler.S3UrlHandler.constructor | src/main/java/co/actioniq/ivy/s3/S3URLHandler.java:188 | a handler starts with an empty cache |
| S3UrlHandler.S3UrlHandler.GetCredentials | src/main/java/co/actioniq/ivy/s3/S3URLHandler.java:190-194 | computeIfAbsent over the older chain: a cached bucket skips the chain, a new answer is stored under that bucket alone, a failure propagates and stores nothing |
| S3UrlHandler.S3UrlHandler.GetClientBucketAndKey | src/main/java/co/actioniq/ivy/s3/S3URLHandler.java:216-222 | answers HandlerContextFrom over the cache it starts with and leaves HandlerCacheFrom of it; with an agreeing cache exactly HandlerContext, and the cache keeps agreeing |
| S3UrlHandler.S3UrlHandler.GetUrlInfo | src/main/java/co/actioniq/ivy/s3/S3URLHandler.java:225-243 | answers UrlInfoIn over HandlerContextFrom of the cache it starts with and leaves HandlerCacheFrom of it; with an agreeing cache exactly HandlerUrlInfo |
| S3UrlHandler.S3UrlHandler.List | src/main/java/co/actioniq/ivy/s3/S3URLHandler.java:256-282 | answers ListIn over HandlerContextFrom of the cache it starts with and leaves HandlerCacheFrom of it; with an agreeing cache exactly HandlerList |

## Left out

- Ivy and JVM registration (`initHandlers`, `initDispatcher`, `initStreamHandler`), the resolvers and
  `S3URLRepository`: these are one-time side effects on the host's plugin registry and do no resolution.
- Logging (`Message.debug`, `Message.error`) and `ClientBucketKey`'s logging pass-through: output only.
- `openStream`, `download`, `upload`, `setRequestMethod` and progress listeners: streaming and file I/O.
- `toURL`: the `MalformedURLException` it can raise inside `list` is not modelled; listed URLs are strings.
- The AWS SDK's own logic is represented by oracles in `World` and `Aws`, which the model does not
  look into:
  - the environment, system-property, profile and instance-profile providers;
  - STS `assumeRole`;
  - DNS;
  - `getBucketLocation`;
  - `getObjectMetadata`, `listObjects` and `getObject`;
  - `Regions.values()` and `RegionUtils`.
- `AmazonS3URI`'s own parsing is an input (`S3Context.Url.s3Uri`), not a model of its rules.
- The SDK's `PropertiesFileCredentialsProvider` is modelled only as far as it reads `accessKey` and
  `secretKey` from the file; its trimming and validation rules are not.
- `AWSCredentialsProviderChain`'s reuse of the last provider that succeeded, and every `refresh()`:
  each resolution is modelled as a fresh first-success search, and `refresh()` does nothing in the core.
- The role session name (`System.currentTimeMillis()`): a clock, and it does not influence which
  credentials are chosen.
- Concurrency of `ConcurrentHashMap.computeIfAbsent`: the cache methods are modelled sequentially.
- `JavaStrings.ParseInt` accepts ASCII digits only; Java's `Integer.parseInt` also accepts other
  Unicode decimal digits.
- Credentials.ToEnvironmentVariableName: assumes a default locale whose upper-casing of ASCII
  letters is the ASCII one, and upper-cases ASCII letters only. Java's `toUpperCase()` follows the
  default locale: under a Turkish or Azeri locale `i` becomes `İ`, which the removing pass then
  drops ("my-bucket-id" would become "MY_BUCKET_D"); that and the upper-casing of non-ASCII
  characters are not modelled.
- The regular expression's text: the matcher is modelled by its alternatives and the order in which
  they are tried, not by `Pattern` syntax or escaping.
- `getNewClientBucketAndKey` is not defined in `S3URLUtil`, so its outcome is the `freshContext`
  parameter of `GetInputStream`, and any effect it would have on the cache is not modelled.
