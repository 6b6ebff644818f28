/**
 * The credential providers of Credentials.java and of the single-file provider classes:
 * bucket-specific environment variables and system properties, properties files, the AWS SDK's
 * own providers, and the role-based providers that look up a role ARN and assume it through STS.
 * Each provider is a value; GetCredentials is its single getCredentials().
 */
module Providers {
  import opened Wrappers
  import opened Faults
  import opened JavaStrings
  import opened Optionals
  import Credentials

  /** BasicAWSCredentials and BasicSessionCredentials. */
  datatype AwsCredentials =
    | BasicCredentials(accessKeyId: string, secretKey: string)
    | SessionCredentials(accessKeyId: string, secretKey: string, sessionToken: string)

  /** The credentials part of an STS AssumeRoleResult. */
  datatype AssumedRole = AssumedRole(accessKeyId: string, secretAccessKey: string, sessionToken: string)

  /** The two base directories credential files are resolved against. */
  datatype BaseDir = DotIvyDir | DotSbtDir

  datatype FilePath = FilePath(dir: BaseDir, name: string)

  /** The AWS SDK providers whose lookups this model does not see into. */
  datatype SdkProvider =
    | EnvironmentVariables             // EnvironmentVariableCredentialsProvider
    | SystemProperties                 // SystemPropertiesCredentialsProvider
    | Profile(profile: Option<string>) // ProfileCredentialsProvider(name) or the default profile
    | InstanceProfile                  // InstanceProfileCredentialsProvider

  /**
   * What the providers read, fixed for the duration of one resolution: the environment
   * (System.getenv), the system properties (System.getProperty), the properties files that
   * can be opened and loaded, what each SDK provider would answer (absent: it throws), and
   * what STS answers to an assume-role request from an identity for a role ARN (absent: it throws).
   */
  datatype World = World(
    env: map<string, string>,
    sysProps: map<string, string>,
    files: map<FilePath, map<string, string>>,
    sdk: map<SdkProvider, AwsCredentials>,
    sts: map<(AwsCredentials, string), AssumedRole>)

  // SDKGlobalConfiguration's key names and the role ARN key names.
  const AccessKeyEnvVar := "AWS_ACCESS_KEY_ID"
  const SecretKeyEnvVar := "AWS_SECRET_KEY"
  const AccessKeySystemProperty := "aws.accessKeyId"
  const SecretKeySystemProperty := "aws.secretKey"
  const RoleArnEnvVar := "AWS_ROLE_ARN"
  const RoleArnSystemProperty := "aws.roleArn"
  const RoleArnFileKey := "roleArn"
  const AccessKeyFileKey := "accessKey"
  const SecretKeyFileKey := "secretKey"

  /** The directory role files are read from (Constants.DotSbtDir in the single-file class). */
  const RoleFileDir: BaseDir := DotSbtDir

  // ---- first defined candidate ----

  /** The value each candidate key has in m, if any. */
  function Lookups(m: map<string, string>, keys: seq<string>): (r: seq<Option<string>>)
    ensures |r| == |keys|
    ensures forall i | 0 <= i < |keys| :: r[i] == if keys[i] in m then Some(m[keys[i]]) else None
  {
    seq(|keys|, i requires 0 <= i < |keys| => if keys[i] in m then Some(m[keys[i]]) else None)
  }

  /** keys[k] is defined in m and no earlier candidate is. */
  ghost predicate FirstDefinedAt(m: map<string, string>, keys: seq<string>, k: int) {
    0 <= k < |keys| && keys[k] in m && forall j | 0 <= j < k :: keys[j] !in m
  }

  /** The value of the first candidate key defined in m (stream().map(get).filter(nonNull).findFirst()). */
  function FirstDefined(m: map<string, string>, keys: seq<string>): (r: Option<string>)
    ensures r.None? <==> forall i | 0 <= i < |keys| :: keys[i] !in m
    ensures r.Some? ==> exists k :: FirstDefinedAt(m, keys, k) && r.value == m[keys[k]]
  {
    var opts := Lookups(m, keys);
    FirstPresentAt(opts);
    var k := FirstPresentIndex(opts);
    assert k < |keys| ==> FirstDefinedAt(m, keys, k);
    FirstPresent(opts)
  }

  /** The lookup every provider uses: the first defined candidate, trimmed; NoSuchElementException
      from Optional.get() when none is defined. */
  function FirstDefinedTrimmed(m: map<string, string>, keys: seq<string>): (r: Outcome<string>)
    ensures r.Err? <==> forall i | 0 <= i < |keys| :: keys[i] !in m
    ensures r.Err? ==> r.error == NoSuchElement
    ensures r.Ok? ==> exists k :: FirstDefinedAt(m, keys, k) && r.value == Trim(m[keys[k]])
  {
    match FirstDefined(m, keys)
    case Some(v) => Ok(Trim(v))
    case None => Err(NoSuchElement)
  }

  /** The candidate names as environment variable names. */
  function EnvNames(names: seq<string>): (r: seq<string>)
    ensures |r| == |names|
    ensures forall i | 0 <= i < |names| :: r[i] == Credentials.ToEnvironmentVariableName(names[i])
  {
    seq(|names|, i requires 0 <= i < |names| => Credentials.ToEnvironmentVariableName(names[i]))
  }

  /** getProp / getRoleArn of the environment-variable providers: each candidate is normalised first. */
  function EnvLookup(env: map<string, string>, names: seq<string>): (r: Outcome<string>)
    ensures r.Err? <==> forall i | 0 <= i < |names| :: Credentials.ToEnvironmentVariableName(names[i]) !in env
  {
    FirstDefinedTrimmed(env, EnvNames(names))
  }

  /** getProp / getRoleArn of the system-property providers: candidates are used verbatim. */
  function PropertyLookup(props: map<string, string>, names: seq<string>): (r: Outcome<string>)
    ensures r.Err? <==> forall i | 0 <= i < |names| :: names[i] !in props
  {
    FirstDefinedTrimmed(props, names)
  }

  /** The two bucket-specific spellings of a key name: "<name>.<bucket>", then "<bucket>.<name>". */
  function BucketSpecificNames(name: string, bucket: string): seq<string> {
    [name + "." + bucket, bucket + "." + name]
  }

  // ---- basic providers ----

  datatype BasicProvider =
    | BucketSpecificEnvironmentVariable(bucket: string)   // BucketSpecificEnvironmentVariableCredentialsProvider
    | BucketSpecificSystemProperties(bucket: string)      // BucketSpecificSystemPropertiesCredentialsProvider
    | PropertiesFile(path: FilePath)                      // the SDK's PropertiesFileCredentialsProvider
    | Sdk(source: SdkProvider)

  /** BucketSpecificCredentialsProvider.getCredentials once both keys have been looked up:
      the access key first, and a failure of either lookup is the provider's failure. */
  function BucketSpecificCredentials(accessKey: Outcome<string>, secretKey: Outcome<string>): (r: Outcome<AwsCredentials>)
    ensures r.Ok? <==> accessKey.Ok? && secretKey.Ok?
    ensures r.Ok? ==> r.value == BasicCredentials(accessKey.value, secretKey.value)
    ensures accessKey.Err? ==> r == Err(accessKey.error)
  {
    var ak :- accessKey;
    var sk :- secretKey;
    Ok(BasicCredentials(ak, sk))
  }

  /** A properties file holding accessKey and secretKey gives exactly those two values. */
  function PropertiesFileCredentials(files: map<FilePath, map<string, string>>, path: FilePath): (r: Outcome<AwsCredentials>)
    ensures r.Ok? <==> path in files && AccessKeyFileKey in files[path] && SecretKeyFileKey in files[path]
    ensures r.Ok? ==> r.value == BasicCredentials(files[path][AccessKeyFileKey], files[path][SecretKeyFileKey])
  {
    if path in files && AccessKeyFileKey in files[path] && SecretKeyFileKey in files[path] then
      Ok(BasicCredentials(files[path][AccessKeyFileKey], files[path][SecretKeyFileKey]))
    else
      Err(ProviderFailed)
  }

  /** getCredentials() of a basic provider. The bucket-specific and file providers only ever
      make basic credentials; a bucket-specific provider fails when a key is missing. */
  function BasicCredentialsOf(w: World, p: BasicProvider): (r: Outcome<AwsCredentials>)
    ensures !p.Sdk? && r.Ok? ==> r.value.BasicCredentials?
    ensures p.Sdk? ==> (r.Ok? <==> p.source in w.sdk) && (r.Ok? ==> r.value == w.sdk[p.source])
    ensures p.PropertiesFile? ==>
              (r.Ok? <==> p.path in w.files && AccessKeyFileKey in w.files[p.path] && SecretKeyFileKey in w.files[p.path])
    ensures p.BucketSpecificSystemProperties? ==>
              (r.Ok? <==> && (AccessKeySystemProperty + "." + p.bucket in w.sysProps ||
                              p.bucket + "." + AccessKeySystemProperty in w.sysProps)
                          && (SecretKeySystemProperty + "." + p.bucket in w.sysProps ||
                              p.bucket + "." + SecretKeySystemProperty in w.sysProps))
    ensures (p.BucketSpecificEnvironmentVariable? || p.BucketSpecificSystemProperties?) && r.Err? ==> r.error == NoSuchElement
  {
    match p
    case BucketSpecificEnvironmentVariable(bucket) =>
      BucketSpecificCredentials(EnvLookup(w.env, BucketSpecificNames(AccessKeyEnvVar, bucket)),
                                EnvLookup(w.env, BucketSpecificNames(SecretKeyEnvVar, bucket)))
    case BucketSpecificSystemProperties(bucket) =>
      TwoCandidateLookup(w.sysProps, AccessKeySystemProperty + "." + bucket, bucket + "." + AccessKeySystemProperty);
      TwoCandidateLookup(w.sysProps, SecretKeySystemProperty + "." + bucket, bucket + "." + SecretKeySystemProperty);
      BucketSpecificCredentials(PropertyLookup(w.sysProps, BucketSpecificNames(AccessKeySystemProperty, bucket)),
                                PropertyLookup(w.sysProps, BucketSpecificNames(SecretKeySystemProperty, bucket)))
    case PropertiesFile(path) => PropertiesFileCredentials(w.files, path)
    case Sdk(source) => if source in w.sdk then Ok(w.sdk[source]) else Err(ProviderFailed)
  }

  function BasicSuccesses(w: World, ps: seq<BasicProvider>): (r: seq<Option<AwsCredentials>>)
    ensures |r| == |ps|
    ensures forall i | 0 <= i < |ps| :: r[i] == BasicCredentialsOf(w, ps[i]).ToOption()
  {
    seq(|ps|, i requires 0 <= i < |ps| => BasicCredentialsOf(w, ps[i]).ToOption())
  }

  /** AWSCredentialsProviderChain.getCredentials over basic providers: the first provider that
      succeeds, or AmazonClientException when none does. */
  function ResolveBasicChain(w: World, ps: seq<BasicProvider>): (r: Outcome<AwsCredentials>)
    ensures r.Err? ==> r.error == ChainExhausted
  {
    match FirstPresent(BasicSuccesses(w, ps))
    case Some(c) => Ok(c)
    case None => Err(ChainExhausted)
  }

  /** The basic chain succeeds exactly when one of its providers does, and then answers what the
      first successful provider answers. */
  lemma ResolveBasicChainFirstSuccess(w: World, ps: seq<BasicProvider>)
    ensures var r := ResolveBasicChain(w, ps);
            && (r.Ok? <==> exists i | 0 <= i < |ps| :: BasicCredentialsOf(w, ps[i]).Ok?)
            && (r.Ok? ==> exists k | 0 <= k < |ps| ::
                  && BasicCredentialsOf(w, ps[k]) == r
                  && forall j | 0 <= j < k :: BasicCredentialsOf(w, ps[j]).Err?)
  {
    var s := BasicSuccesses(w, ps);
    var r := ResolveBasicChain(w, ps);
    FirstPresentAt(s);
    var k := FirstPresentIndex(s);
    if k < |ps| {
      assert s[k] == BasicCredentialsOf(w, ps[k]).ToOption();
      assert BasicCredentialsOf(w, ps[k]) == r;
      forall j | 0 <= j < k
        ensures BasicCredentialsOf(w, ps[j]).Err?
      {
        assert s[j].None?;
      }
    } else {
      forall i | 0 <= i < |ps|
        ensures BasicCredentialsOf(w, ps[i]).Err?
      {
        assert s[i].None?;
      }
    }
  }

  lemma BasicSuccessesAppend(w: World, a: seq<BasicProvider>, b: seq<BasicProvider>)
    ensures BasicSuccesses(w, a + b) == BasicSuccesses(w, a) + BasicSuccesses(w, b)
  {
    var sa, sb, sab := BasicSuccesses(w, a), BasicSuccesses(w, b), BasicSuccesses(w, a + b);
    forall i | 0 <= i < |sab|
      ensures sab[i] == (sa + sb)[i]
    {
      if i < |a| {
        assert (a + b)[i] == a[i];
      } else {
        assert (a + b)[i] == b[i - |a|];
      }
    }
  }

  /** Providers that all fail can be taken out of a basic chain without changing what it resolves to. */
  lemma ResolveBasicChainSkipsFailing(w: World, head: seq<BasicProvider>, mid: seq<BasicProvider>, tail: seq<BasicProvider>)
    requires forall i | 0 <= i < |mid| :: BasicCredentialsOf(w, mid[i]).Err?
    ensures ResolveBasicChain(w, head + mid + tail) == ResolveBasicChain(w, head + tail)
  {
    var sh, sm, st := BasicSuccesses(w, head), BasicSuccesses(w, mid), BasicSuccesses(w, tail);
    BasicSuccessesAppend(w, head + mid, tail);
    BasicSuccessesAppend(w, head, mid);
    BasicSuccessesAppend(w, head, tail);
    FirstPresentAt(sm);
    FirstPresentAppend(sh + sm, st);
    FirstPresentAppend(sh, sm);
    FirstPresentAppend(sh, st);
  }

  // ---- role-based providers ----

  /** Where a role-based provider finds the ARN of the role to assume. */
  datatype RoleArnSource =
    | EnvironmentVariableRole                          // RoleBasedEnvironmentVariableCredentialsProvider
    | BucketSpecificEnvironmentVariableRole(bucket: string)
    | SystemPropertiesRole                             // RoleBasedSystemPropertiesCredentialsProvider
    | BucketSpecificSystemPropertiesRole(bucket: string)
    | PropertiesFileRole(fileName: string)             // RoleBasedPropertiesFileCredentialsProvider

  /** RoleArnKeyNames() of each role-based provider. */
  function RoleArnKeyNames(s: RoleArnSource): (r: seq<string>)
    ensures s.EnvironmentVariableRole? ==> r == [RoleArnEnvVar]
    ensures s.BucketSpecificEnvironmentVariableRole? ==> r == [RoleArnEnvVar + "." + s.bucket, s.bucket + "." + RoleArnEnvVar]
    ensures s.SystemPropertiesRole? ==> r == [RoleArnSystemProperty]
    ensures s.BucketSpecificSystemPropertiesRole? ==> r == [RoleArnSystemProperty + "." + s.bucket, s.bucket + "." + RoleArnSystemProperty]
    ensures s.PropertiesFileRole? ==> r == [RoleArnFileKey]
  {
    match s
    case EnvironmentVariableRole => [RoleArnEnvVar]
    case BucketSpecificEnvironmentVariableRole(bucket) => BucketSpecificNames(RoleArnEnvVar, bucket)
    case SystemPropertiesRole => [RoleArnSystemProperty]
    case BucketSpecificSystemPropertiesRole(bucket) => BucketSpecificNames(RoleArnSystemProperty, bucket)
    case PropertiesFileRole(_) => [RoleArnFileKey]
  }

  /** With one candidate, its trimmed value when it is defined. */
  lemma OneCandidateLookup(m: map<string, string>, key: string)
    ensures FirstDefinedTrimmed(m, [key]) == if key in m then Ok(Trim(m[key])) else Err(NoSuchElement)
  {
    var r := FirstDefinedTrimmed(m, [key]);
    if r.Ok? {
      var k :| FirstDefinedAt(m, [key], k) && r.value == Trim(m[[key][k]]);
      assert k == 0;
    }
  }

  /** "AWS_ROLE_ARN" is already an environment variable name, so normalising leaves it as it is. */
  lemma RoleArnEnvVarUnchanged(name: string)
    requires name == RoleArnEnvVar
    ensures Credentials.ToEnvironmentVariableName(name) == name
  {
    assert Credentials.IsEnvName(RoleArnEnvVar);
    Credentials.EnvNameUnchanged(name);
  }

  /** A name normalisation leaves alone is looked up in the environment as it is. */
  lemma EnvLookupOfEnvName(env: map<string, string>, name: string)
    requires Credentials.ToEnvironmentVariableName(name) == name
    ensures EnvLookup(env, [name]) == if name in env then Ok(Trim(env[name])) else Err(NoSuchElement)
  {
    var names := EnvNames([name]);
    assert names[0] == name;
    assert names == [name];
    OneCandidateLookup(env, name);
  }

  /** getRoleArn(RoleArnKeyNames()) of each role-based provider. The file variant fails with the
      wrapped IOException when the file cannot be read. */
  function GetRoleArn(w: World, s: RoleArnSource): (r: Outcome<string>)
    ensures s.EnvironmentVariableRole? ==>
              r == if RoleArnEnvVar in w.env then Ok(Trim(w.env[RoleArnEnvVar])) else Err(NoSuchElement)
    ensures s.SystemPropertiesRole? ==>
              r == if RoleArnSystemProperty in w.sysProps then Ok(Trim(w.sysProps[RoleArnSystemProperty])) else Err(NoSuchElement)
    ensures s.PropertiesFileRole? && FilePath(RoleFileDir, s.fileName) in w.files ==>
              var m := w.files[FilePath(RoleFileDir, s.fileName)];
              r == if RoleArnFileKey in m then Ok(Trim(m[RoleArnFileKey])) else Err(NoSuchElement)
    ensures s.PropertiesFileRole? && FilePath(RoleFileDir, s.fileName) !in w.files ==> r == Err(FileUnreadable)
  {
    match s
    case EnvironmentVariableRole =>
      RoleArnEnvVarUnchanged(RoleArnEnvVar);
      EnvLookupOfEnvName(w.env, RoleArnEnvVar);
      EnvLookup(w.env, RoleArnKeyNames(s))
    case BucketSpecificEnvironmentVariableRole(_) => EnvLookup(w.env, RoleArnKeyNames(s))
    case SystemPropertiesRole =>
      OneCandidateLookup(w.sysProps, RoleArnSystemProperty);
      PropertyLookup(w.sysProps, RoleArnKeyNames(s))
    case BucketSpecificSystemPropertiesRole(_) => PropertyLookup(w.sysProps, RoleArnKeyNames(s))
    case PropertiesFileRole(fileName) =>
      var path := FilePath(RoleFileDir, fileName);
      if path in w.files then
        OneCandidateLookup(w.files[path], RoleArnFileKey);
        FirstDefinedTrimmed(w.files[path], RoleArnKeyNames(s))
      else Err(FileUnreadable)
  }

  /** The STS assumeRole call, made with the identity the upstream chain resolves to. */
  function AssumeRole(w: World, upstream: seq<BasicProvider>, roleArn: string): (r: Outcome<AssumedRole>)
    ensures r.Ok? <==> ResolveBasicChain(w, upstream).Ok? && (ResolveBasicChain(w, upstream).value, roleArn) in w.sts
    ensures r.Ok? ==> r.value == w.sts[(ResolveBasicChain(w, upstream).value, roleArn)]
  {
    var identity :- ResolveBasicChain(w, upstream);
    if (identity, roleArn) in w.sts then Ok(w.sts[(identity, roleArn)]) else Err(AssumeRoleFailed)
  }

  /** RoleBasedCredentialsProvider.getCredentials: look up the ARN, assume the role, and return
      session credentials copied from the assume-role result. */
  function RoleCredentials(w: World, upstream: seq<BasicProvider>, s: RoleArnSource): (r: Outcome<AwsCredentials>)
    ensures GetRoleArn(w, s).Err? ==> r == Err(GetRoleArn(w, s).error)
    ensures r.Ok? <==> GetRoleArn(w, s).Ok? && AssumeRole(w, upstream, GetRoleArn(w, s).value).Ok?
    ensures r.Ok? ==> var a := AssumeRole(w, upstream, GetRoleArn(w, s).value).value;
                      r.value == SessionCredentials(a.accessKeyId, a.secretAccessKey, a.sessionToken)
  {
    var roleArn :- GetRoleArn(w, s);
    var assumed :- AssumeRole(w, upstream, roleArn);
    Ok(SessionCredentials(assumed.accessKeyId, assumed.secretAccessKey, assumed.sessionToken))
  }

  // ---- every provider and the full chain ----

  datatype Provider =
    | Basic(basic: BasicProvider)
    | RoleBased(upstream: seq<BasicProvider>, role: RoleArnSource)

  /** AWSCredentialsProvider.getCredentials: a basic provider answers as itself; a role-based one
      answers session credentials, and only when its upstream chain has an identity and its role
      ARN is found. */
  function GetCredentials(w: World, p: Provider): (r: Outcome<AwsCredentials>)
    ensures p.Basic? ==> r == BasicCredentialsOf(w, p.basic)
    ensures p.RoleBased? && r.Ok? ==>
              && r.value.SessionCredentials?
              && ResolveBasicChain(w, p.upstream).Ok?
              && GetRoleArn(w, p.role).Ok?
    ensures p.RoleBased? && GetRoleArn(w, p.role).Err? ==> r == Err(GetRoleArn(w, p.role).error)
  {
    match p
    case Basic(b) => BasicCredentialsOf(w, b)
    case RoleBased(upstream, role) => RoleCredentials(w, upstream, role)
  }

  function Successes(w: World, ps: seq<Provider>): (r: seq<Option<AwsCredentials>>)
    ensures |r| == |ps|
    ensures forall i | 0 <= i < |ps| :: r[i] == GetCredentials(w, ps[i]).ToOption()
  {
    seq(|ps|, i requires 0 <= i < |ps| => GetCredentials(w, ps[i]).ToOption())
  }

  /** AWSCredentialsProviderChain.getCredentials: the first provider that succeeds, or
      AmazonClientException when none does. */
  function ResolveChain(w: World, ps: seq<Provider>): (r: Outcome<AwsCredentials>)
    ensures r.Err? ==> r.error == ChainExhausted
  {
    match FirstPresent(Successes(w, ps))
    case Some(c) => Ok(c)
    case None => Err(ChainExhausted)
  }

  /** The chain succeeds exactly when one of its providers does, and then answers what the first
      successful provider answers: no later provider is consulted. */
  lemma ResolveChainFirstSuccess(w: World, ps: seq<Provider>)
    ensures var r := ResolveChain(w, ps);
            && (r.Ok? <==> exists i | 0 <= i < |ps| :: GetCredentials(w, ps[i]).Ok?)
            && (r.Ok? ==> exists k | 0 <= k < |ps| ::
                  && GetCredentials(w, ps[k]) == r
                  && forall j | 0 <= j < k :: GetCredentials(w, ps[j]).Err?)
  {
    var s := Successes(w, ps);
    var r := ResolveChain(w, ps);
    FirstPresentAt(s);
    var k := FirstPresentIndex(s);
    if k < |ps| {
      assert s[k] == GetCredentials(w, ps[k]).ToOption();
      assert GetCredentials(w, ps[k]) == r;
      forall j | 0 <= j < k
        ensures GetCredentials(w, ps[j]).Err?
      {
        assert s[j].None?;
      }
    } else {
      forall i | 0 <= i < |ps|
        ensures GetCredentials(w, ps[i]).Err?
      {
        assert s[i].None?;
      }
    }
  }

  /** A chain split in two: the second part is consulted only when every provider of the first fails. */
  lemma ResolveChainAppend(w: World, a: seq<Provider>, b: seq<Provider>)
    ensures ResolveChain(w, a + b) == if ResolveChain(w, a).Ok? then ResolveChain(w, a) else ResolveChain(w, b)
  {
    var sa, sb, sab := Successes(w, a), Successes(w, b), Successes(w, a + b);
    forall i | 0 <= i < |sab|
      ensures sab[i] == (sa + sb)[i]
    {
      if i < |a| {
        assert (a + b)[i] == a[i];
      } else {
        assert (a + b)[i] == b[i - |a|];
      }
    }
    assert sab == sa + sb;
    FirstPresentAppend(sa, sb);
  }
  /** With two candidates, the first one defined wins and its value is trimmed. */
  lemma TwoCandidateLookup(m: map<string, string>, first: string, second: string)
    ensures FirstDefinedTrimmed(m, [first, second]) ==
              if first in m then Ok(Trim(m[first]))
              else if second in m then Ok(Trim(m[second]))
              else Err(NoSuchElement)
  {
    var keys := [first, second];
    var r := FirstDefinedTrimmed(m, keys);
    assert keys[0] == first && keys[1] == second;
    if r.Ok? {
      var k :| FirstDefinedAt(m, keys, k) && r.value == Trim(m[keys[k]]);
      if first in m {
        assert k == 0;
      } else {
        assert k == 1;
      }
    }
  }

  /** The bucket-specific environment provider: "<KEY>.<bucket>" (normalised) is preferred to
      "<bucket>.<KEY>" for each key, values are trimmed, and both keys must be found. */
  lemma BucketSpecificEnvironmentVariableLookupOrder(w: World, bucket: string)
    ensures var ak1 := Credentials.ToEnvironmentVariableName(AccessKeyEnvVar + "." + bucket);
            var ak2 := Credentials.ToEnvironmentVariableName(bucket + "." + AccessKeyEnvVar);
            var sk1 := Credentials.ToEnvironmentVariableName(SecretKeyEnvVar + "." + bucket);
            var sk2 := Credentials.ToEnvironmentVariableName(bucket + "." + SecretKeyEnvVar);
            var r := BasicCredentialsOf(w, BucketSpecificEnvironmentVariable(bucket));
            && (r.Ok? <==> (ak1 in w.env || ak2 in w.env) && (sk1 in w.env || sk2 in w.env))
            && (r.Ok? ==> r.value == BasicCredentials(Trim(if ak1 in w.env then w.env[ak1] else w.env[ak2]),
                                                      Trim(if sk1 in w.env then w.env[sk1] else w.env[sk2])))
  {
    var ak := BucketSpecificNames(AccessKeyEnvVar, bucket);
    var sk := BucketSpecificNames(SecretKeyEnvVar, bucket);
    assert EnvNames(ak) == [Credentials.ToEnvironmentVariableName(ak[0]), Credentials.ToEnvironmentVariableName(ak[1])];
    assert EnvNames(sk) == [Credentials.ToEnvironmentVariableName(sk[0]), Credentials.ToEnvironmentVariableName(sk[1])];
    TwoCandidateLookup(w.env, Credentials.ToEnvironmentVariableName(ak[0]), Credentials.ToEnvironmentVariableName(ak[1]));
    TwoCandidateLookup(w.env, Credentials.ToEnvironmentVariableName(sk[0]), Credentials.ToEnvironmentVariableName(sk[1]));
  }

  /** The bucket-specific system-property provider: "<key>.<bucket>" is preferred to
      "<bucket>.<key>" for each key, values are trimmed, and both keys must be found. */
  lemma BucketSpecificSystemPropertiesLookupOrder(w: World, bucket: string)
    ensures var ak1, ak2 := AccessKeySystemProperty + "." + bucket, bucket + "." + AccessKeySystemProperty;
            var sk1, sk2 := SecretKeySystemProperty + "." + bucket, bucket + "." + SecretKeySystemProperty;
            var r := BasicCredentialsOf(w, BucketSpecificSystemProperties(bucket));
            && (r.Ok? <==> (ak1 in w.sysProps || ak2 in w.sysProps) && (sk1 in w.sysProps || sk2 in w.sysProps))
            && (r.Ok? ==> r.value == BasicCredentials(Trim(if ak1 in w.sysProps then w.sysProps[ak1] else w.sysProps[ak2]),
                                                      Trim(if sk1 in w.sysProps then w.sysProps[sk1] else w.sysProps[sk2])))
  {
    var ak1, ak2 := AccessKeySystemProperty + "." + bucket, bucket + "." + AccessKeySystemProperty;
    var sk1, sk2 := SecretKeySystemProperty + "." + bucket, bucket + "." + SecretKeySystemProperty;
    var ak := PropertyLookup(w.sysProps, BucketSpecificNames(AccessKeySystemProperty, bucket));
    var sk := PropertyLookup(w.sysProps, BucketSpecificNames(SecretKeySystemProperty, bucket));
    assert BucketSpecificNames(AccessKeySystemProperty, bucket) == [ak1, ak2];
    assert BucketSpecificNames(SecretKeySystemProperty, bucket) == [sk1, sk2];
    TwoCandidateLookup(w.sysProps, ak1, ak2);
    TwoCandidateLookup(w.sysProps, sk1, sk2);
    assert BasicCredentialsOf(w, BucketSpecificSystemProperties(bucket)) == BucketSpecificCredentials(ak, sk);
  }

  /** The role ARN of a bucket-specific role provider: "<KEY>.<bucket>" before "<bucket>.<KEY>". */
  lemma BucketSpecificEnvironmentRoleArnLookupOrder(w: World, bucket: string)
    ensures var e1 := Credentials.ToEnvironmentVariableName(RoleArnEnvVar + "." + bucket);
            var e2 := Credentials.ToEnvironmentVariableName(bucket + "." + RoleArnEnvVar);
            GetRoleArn(w, BucketSpecificEnvironmentVariableRole(bucket)) ==
              if e1 in w.env then Ok(Trim(w.env[e1])) else if e2 in w.env then Ok(Trim(w.env[e2])) else Err(NoSuchElement)
  {
    var e1 := Credentials.ToEnvironmentVariableName(RoleArnEnvVar + "." + bucket);
    var e2 := Credentials.ToEnvironmentVariableName(bucket + "." + RoleArnEnvVar);
    var s := BucketSpecificEnvironmentVariableRole(bucket);
    assert EnvNames(RoleArnKeyNames(s)) == [e1, e2];
    assert GetRoleArn(w, s) == FirstDefinedTrimmed(w.env, [e1, e2]);
    TwoCandidateLookup(w.env, e1, e2);
  }

  /** The same order for the bucket-specific system-property role provider, with verbatim names. */
  lemma BucketSpecificSystemPropertiesRoleArnLookupOrder(w: World, bucket: string)
    ensures var p1, p2 := RoleArnSystemProperty + "." + bucket, bucket + "." + RoleArnSystemProperty;
            GetRoleArn(w, BucketSpecificSystemPropertiesRole(bucket)) ==
              if p1 in w.sysProps then Ok(Trim(w.sysProps[p1])) else if p2 in w.sysProps then Ok(Trim(w.sysProps[p2])) else Err(NoSuchElement)
  {
    var s := BucketSpecificSystemPropertiesRole(bucket);
    var names := RoleArnKeyNames(s);
    assert GetRoleArn(w, s) == PropertyLookup(w.sysProps, names);
    TwoCandidateLookup(w.sysProps, names[0], names[1]);
  }

  /** A role-based provider whose ARN lookup fails never consults its upstream chain or STS:
      whatever those would answer, the lookup's error is the provider's error. */
  lemma RoleArnFailureShortCircuits(w: World, w2: World, upstream: seq<BasicProvider>, upstream2: seq<BasicProvider>, s: RoleArnSource)
    requires GetRoleArn(w, s).Err?
    requires w2.env == w.env && w2.sysProps == w.sysProps && w2.files == w.files
    ensures RoleCredentials(w, upstream, s) == RoleCredentials(w2, upstream2, s) == Err(GetRoleArn(w, s).error)
  {
    assert GetRoleArn(w2, s) == GetRoleArn(w, s);
  }

  /** A role-based provider never falls back to its upstream identity: it answers session
      credentials obtained from STS or fails. */
  lemma RoleCredentialsAreAssumed(w: World, upstream: seq<BasicProvider>, s: RoleArnSource)
    ensures var r := RoleCredentials(w, upstream, s);
            r.Ok? ==> exists call | call in w.sts ::
                        r.value == SessionCredentials(w.sts[call].accessKeyId, w.sts[call].secretAccessKey, w.sts[call].sessionToken)
  {
    var r := RoleCredentials(w, upstream, s);
    if r.Ok? {
      var call := (ResolveBasicChain(w, upstream).value, GetRoleArn(w, s).value);
      assert call in w.sts && AssumeRole(w, upstream, call.1).value == w.sts[call];
    }
  }

  /** Basic providers placed in a chain of providers. */
  function AsProviders(ps: seq<BasicProvider>): (r: seq<Provider>)
    ensures |r| == |ps|
    ensures forall i | 0 <= i < |ps| :: r[i] == Basic(ps[i])
  {
    seq(|ps|, i requires 0 <= i < |ps| => Basic(ps[i]))
  }

  /** A chain of basic providers resolves the same whether or not it sits inside a larger chain. */
  lemma ResolveChainOfBasic(w: World, ps: seq<BasicProvider>)
    ensures ResolveChain(w, AsProviders(ps)) == ResolveBasicChain(w, ps)
  {
    assert Successes(w, AsProviders(ps)) == BasicSuccesses(w, ps);
  }

  /** Every role-based provider fails when its upstream chain does. */
  lemma RoleCredentialsNeedUpstream(w: World, upstream: seq<BasicProvider>, s: RoleArnSource)
    requires ResolveBasicChain(w, upstream).Err?
    ensures RoleCredentials(w, upstream, s).Err?
  {
  }
}
