/**
 * The credentials provider chains: the one S3URLUtil builds for a bucket and a credential file
 * name, and the older fixed one S3URLHandler builds. Both put seven role-based providers first,
 * each assuming a role with the identity of the basic chain, followed by the basic providers.
 */
module Chains {
  import opened Wrappers
  import opened Faults
  import opened Providers
  import opened Optionals

  /** The credential file name S3URLUtil uses unless it is given another. */
  const DefaultCredentialFileName := "s3credentials"

  /** The properties files of the basic chain, resolved against the Ivy directory. */
  function CredentialFile(name: string): (r: FilePath)
    ensures r.dir == DotIvyDir && r.name == name
  {
    FilePath(DotIvyDir, name)
  }

  /** The basic providers of S3URLUtil.makeCredentialsProviderChain, in order: the two
      bucket-specific lookups first, the two bucket-named files, the SDK's environment and
      system-property providers before the generic file, every properties file under the Ivy
      directory, the bucket's profile before the default one, and the instance profile last. */
  function BasicProviders(fileName: string, bucket: string): (r: seq<BasicProvider>)
    ensures |r| == 10
    ensures r[..2] == [BucketSpecificEnvironmentVariable(bucket), BucketSpecificSystemProperties(bucket)]
    ensures forall i | 0 <= i < |r| :: r[i].PropertiesFile? ==> r[i].path.dir == DotIvyDir
    ensures r[2].PropertiesFile? && r[2].path.name == "." + fileName + "_" + bucket && r[3].PropertiesFile? && r[3].path.name == "." + bucket + "_" + fileName
    ensures r[4] == Sdk(EnvironmentVariables) && r[5] == Sdk(SystemProperties)
    ensures r[6].PropertiesFile? && r[6].path.name == "." + fileName
    ensures r[7] == Sdk(Profile(Some(bucket))) && r[8] == Sdk(Profile(None))
    ensures r[|r| - 1] == Sdk(InstanceProfile)
  {
    [ BucketSpecificEnvironmentVariable(bucket),
      BucketSpecificSystemProperties(bucket),
      PropertiesFile(CredentialFile("." + fileName + "_" + bucket)),
      PropertiesFile(CredentialFile("." + bucket + "_" + fileName)),
      Sdk(EnvironmentVariables),
      Sdk(SystemProperties),
      PropertiesFile(CredentialFile("." + fileName)),
      Sdk(Profile(Some(bucket))),
      Sdk(Profile(None)),
      Sdk(InstanceProfile) ]
  }

  /** A role source that reads the role ARN where a basic provider reads its keys: the same
      bucket-specific names, the same global names, or a properties file of the same name
      (role files are resolved against the sbt directory, key files against the Ivy one). */
  ghost predicate MirrorsBasic(s: RoleArnSource, p: BasicProvider) {
    match s
    case EnvironmentVariableRole => p == Sdk(EnvironmentVariables)
    case BucketSpecificEnvironmentVariableRole(bucket) => p == BucketSpecificEnvironmentVariable(bucket)
    case SystemPropertiesRole => p == Sdk(SystemProperties)
    case BucketSpecificSystemPropertiesRole(bucket) => p == BucketSpecificSystemProperties(bucket)
    case PropertiesFileRole(name) => p.PropertiesFile? && p.path.name == name
  }

  /** Where the role-based providers of the chain look for the role ARN, in order: the
      first seven basic providers' places, one by one. */
  function RoleSources(fileName: string, bucket: string): (r: seq<RoleArnSource>)
    ensures |r| == 7
    ensures forall i | 0 <= i < |r| :: MirrorsBasic(r[i], BasicProviders(fileName, bucket)[i])
  {
    [ BucketSpecificEnvironmentVariableRole(bucket),
      BucketSpecificSystemPropertiesRole(bucket),
      PropertiesFileRole("." + fileName + "_" + bucket),
      PropertiesFileRole("." + bucket + "_" + fileName),
      EnvironmentVariableRole,
      SystemPropertiesRole,
      PropertiesFileRole("." + fileName) ]
  }

  /** Role-based providers sharing one upstream chain. */
  function RoleProviders(upstream: seq<BasicProvider>, sources: seq<RoleArnSource>): (r: seq<Provider>)
    ensures |r| == |sources|
    ensures forall i | 0 <= i < |sources| :: r[i] == RoleBased(upstream, sources[i])
  {
    seq(|sources|, i requires 0 <= i < |sources| => RoleBased(upstream, sources[i]))
  }

  /** The role providers followed by the basic providers. */
  function ProviderChain(basic: seq<BasicProvider>, sources: seq<RoleArnSource>): (r: seq<Provider>)
    ensures |r| == |sources| + |basic|
    ensures forall i | 0 <= i < |sources| :: r[i] == RoleBased(basic, sources[i])
    ensures forall i | |sources| <= i < |r| :: r[i] == Basic(basic[i - |sources|])
  {
    RoleProviders(basic, sources) + AsProviders(basic)
  }

  /** S3URLUtil.makeCredentialsProviderChain(bucket) for the util's credential file name. */
  function MakeCredentialsProviderChain(fileName: string, bucket: string): (r: seq<Provider>)
    ensures |r| == 17
    ensures forall i | 0 <= i < 7 :: r[i] == RoleBased(BasicProviders(fileName, bucket), RoleSources(fileName, bucket)[i])
    ensures forall i | 7 <= i < 17 :: r[i] == Basic(BasicProviders(fileName, bucket)[i - 7])
  {
    ProviderChain(BasicProviders(fileName, bucket), RoleSources(fileName, bucket))
  }

  /** How a chain resolves: the first role-based provider that succeeds, otherwise the
      basic chain; and the whole chain fails exactly when the basic chain does, because every
      role-based provider needs the basic chain's identity to assume its role. */
  lemma ProviderChainResolution(w: World, basic: seq<BasicProvider>, sources: seq<RoleArnSource>)
    ensures var roles := ResolveChain(w, RoleProviders(basic, sources));
            ResolveChain(w, ProviderChain(basic, sources)) ==
              if roles.Ok? then roles else ResolveBasicChain(w, basic)
    ensures ResolveChain(w, ProviderChain(basic, sources)).Err? <==> ResolveBasicChain(w, basic).Err?
  {
    var roles := RoleProviders(basic, sources);
    ResolveChainAppend(w, roles, AsProviders(basic));
    ResolveChainOfBasic(w, basic);
    if ResolveBasicChain(w, basic).Err? {
      forall i | 0 <= i < |roles|
        ensures GetCredentials(w, roles[i]).Err?
      {
        RoleCredentialsNeedUpstream(w, basic, sources[i]);
      }
      ResolveChainFirstSuccess(w, roles);
    }
  }

  /** S3URLUtil.computeCredentials: resolve the bucket's chain; AmazonClientException when no
      provider succeeds. */
  function ComputeCredentials(w: World, fileName: string, bucket: string): (r: Outcome<AwsCredentials>)
    ensures r.Err? ==> r.error == ChainExhausted
  {
    ResolveChain(w, MakeCredentialsProviderChain(fileName, bucket))
  }

  /** computeCredentials answers the first role that can be assumed, else the basic chain's
      credentials, and fails exactly when the basic chain finds no credentials. */
  lemma ComputeCredentialsResolution(w: World, fileName: string, bucket: string)
    ensures var basic := BasicProviders(fileName, bucket);
            var roles := ResolveChain(w, RoleProviders(basic, RoleSources(fileName, bucket)));
            && ComputeCredentials(w, fileName, bucket) == (if roles.Ok? then roles else ResolveBasicChain(w, basic))
            && (ComputeCredentials(w, fileName, bucket).Err? <==> ResolveBasicChain(w, basic).Err?)
  {
    ProviderChainResolution(w, BasicProviders(fileName, bucket), RoleSources(fileName, bucket));
  }

  // ---- the older chain of S3URLHandler ----

  /** The basic providers of S3URLHandler.makeCredentialsProviderChain: fixed file names, no profiles. */
  function LegacyBasicProviders(bucket: string): (r: seq<BasicProvider>)
    ensures |r| == 8
    ensures r[..2] == [BucketSpecificEnvironmentVariable(bucket), BucketSpecificSystemProperties(bucket)]
    ensures forall i | 0 <= i < |r| :: r[i].PropertiesFile? ==> r[i].path.dir == DotIvyDir
    ensures r[2].PropertiesFile? && r[2].path.name == ".s3credentials_" + bucket && r[3].PropertiesFile? && r[3].path.name == "." + bucket + "_s3credentials"
    ensures r[4] == Sdk(EnvironmentVariables) && r[5] == Sdk(SystemProperties)
    ensures r[6].PropertiesFile? && r[6].path.name == ".s3credentials"
    ensures forall i | 0 <= i < |r| :: !(r[i].Sdk? && r[i].source.Profile?)
    ensures r[|r| - 1] == Sdk(InstanceProfile)
  {
    [ BucketSpecificEnvironmentVariable(bucket),
      BucketSpecificSystemProperties(bucket),
      PropertiesFile(CredentialFile(".s3credentials_" + bucket)),
      PropertiesFile(CredentialFile("." + bucket + "_s3credentials")),
      Sdk(EnvironmentVariables),
      Sdk(SystemProperties),
      PropertiesFile(CredentialFile(".s3credentials")),
      Sdk(InstanceProfile) ]
  }

  /** The role sources of the older chain: its first seven basic providers' places. */
  function LegacyRoleSources(bucket: string): (r: seq<RoleArnSource>)
    ensures |r| == 7
    ensures forall i | 0 <= i < |r| :: MirrorsBasic(r[i], LegacyBasicProviders(bucket)[i])
  {
    [ BucketSpecificEnvironmentVariableRole(bucket),
      BucketSpecificSystemPropertiesRole(bucket),
      PropertiesFileRole(".s3credentials_" + bucket),
      PropertiesFileRole("." + bucket + "_s3credentials"),
      EnvironmentVariableRole,
      SystemPropertiesRole,
      PropertiesFileRole(".s3credentials") ]
  }

  /** S3URLHandler.makeCredentialsProviderChain(bucket). */
  function LegacyCredentialsProviderChain(bucket: string): (r: seq<Provider>)
    ensures |r| == 15
    ensures forall i | 0 <= i < 7 :: r[i] == RoleBased(LegacyBasicProviders(bucket), LegacyRoleSources(bucket)[i])
    ensures forall i | 7 <= i < 15 :: r[i] == Basic(LegacyBasicProviders(bucket)[i - 7])
  {
    ProviderChain(LegacyBasicProviders(bucket), LegacyRoleSources(bucket))
  }

  /** S3URLHandler.computeCredentials. */
  function LegacyComputeCredentials(w: World, bucket: string): (r: Outcome<AwsCredentials>)
    ensures r.Err? ==> r.error == ChainExhausted
  {
    ResolveChain(w, LegacyCredentialsProviderChain(bucket))
  }

  /** The older computeCredentials: the first role that can be assumed, else the basic chain; it
      fails exactly when its basic chain does. */
  lemma LegacyComputeCredentialsResolution(w: World, bucket: string)
    ensures var basic := LegacyBasicProviders(bucket);
            var roles := ResolveChain(w, RoleProviders(basic, LegacyRoleSources(bucket)));
            && LegacyComputeCredentials(w, bucket) == (if roles.Ok? then roles else ResolveBasicChain(w, basic))
            && (LegacyComputeCredentials(w, bucket).Err? <==> ResolveBasicChain(w, basic).Err?)
  {
    ProviderChainResolution(w, LegacyBasicProviders(bucket), LegacyRoleSources(bucket));
  }

  /** The older chain is the current one for the default file name without the two profile providers. */
  lemma LegacyChainIsDefaultWithoutProfiles(bucket: string)
    ensures var current := BasicProviders(DefaultCredentialFileName, bucket);
            LegacyBasicProviders(bucket) == current[..7] + current[9..]
    ensures LegacyRoleSources(bucket) == RoleSources(DefaultCredentialFileName, bucket)
  {
    assert "." + DefaultCredentialFileName + "_" + bucket == ".s3credentials_" + bucket;
    assert "." + bucket + "_" + DefaultCredentialFileName == "." + bucket + "_s3credentials";
    assert "." + DefaultCredentialFileName == ".s3credentials";
  }
  /** Role-based providers resolve alike over two upstream chains that resolve alike. */
  lemma RoleProvidersAgree(w: World, up1: seq<BasicProvider>, up2: seq<BasicProvider>, sources: seq<RoleArnSource>)
    requires ResolveBasicChain(w, up1) == ResolveBasicChain(w, up2)
    ensures ResolveChain(w, RoleProviders(up1, sources)) == ResolveChain(w, RoleProviders(up2, sources))
  {
    assert Successes(w, RoleProviders(up1, sources)) == Successes(w, RoleProviders(up2, sources));
  }

  /** Without a profile for the bucket or a default profile, the two profile providers at
      positions 7 and 8 can be taken out of a basic chain. */
  lemma BasicChainWithoutProfiles(w: World, current: seq<BasicProvider>, bucket: string)
    requires |current| == 10 && current[7] == Sdk(Profile(Some(bucket))) && current[8] == Sdk(Profile(None))
    requires Profile(Some(bucket)) !in w.sdk && Profile(None) !in w.sdk
    ensures ResolveBasicChain(w, current) == ResolveBasicChain(w, current[..7] + current[9..])
  {
    var head, profiles, tail := current[..7], current[7..9], current[9..];
    assert current == head + profiles + tail;
    forall i | 0 <= i < |profiles|
      ensures BasicCredentialsOf(w, profiles[i]).Err?
    {
      assert profiles[i].Sdk? && profiles[i].source !in w.sdk;
    }
    ResolveBasicChainSkipsFailing(w, head, profiles, tail);
  }

  /** Without a profile for the bucket or a default profile, the older basic chain resolves as the
      current one does for the default file name. */
  lemma LegacyBasicChainAgrees(w: World, bucket: string)
    requires Profile(Some(bucket)) !in w.sdk && Profile(None) !in w.sdk
    ensures ResolveBasicChain(w, LegacyBasicProviders(bucket)) ==
            ResolveBasicChain(w, BasicProviders(DefaultCredentialFileName, bucket))
  {
    LegacyChainIsDefaultWithoutProfiles(bucket);
    BasicChainWithoutProfiles(w, BasicProviders(DefaultCredentialFileName, bucket), bucket);
  }

  /** Without a profile for the bucket or a default profile, the older chain of S3URLHandler
      resolves to exactly what the current chain resolves to for the default file name. */
  lemma LegacyAgreesWithoutProfiles(w: World, bucket: string)
    requires Profile(Some(bucket)) !in w.sdk && Profile(None) !in w.sdk
    ensures LegacyComputeCredentials(w, bucket) == ComputeCredentials(w, DefaultCredentialFileName, bucket)
  {
    var current := BasicProviders(DefaultCredentialFileName, bucket);
    var legacy := LegacyBasicProviders(bucket);
    var sources := RoleSources(DefaultCredentialFileName, bucket);
    LegacyChainIsDefaultWithoutProfiles(bucket);
    LegacyBasicChainAgrees(w, bucket);
    RoleProvidersAgree(w, legacy, current, sources);
    ProviderChainResolution(w, legacy, sources);
    ProviderChainResolution(w, current, sources);
  }

  /** The SDK's environment and system-property credentials come before the generic credential
      file: once the bucket-specific lookups and the two bucket-named files find nothing, the
      basic chain answers them, whatever the generic file holds. */
  lemma SdkSourcesBeforeGenericFile(w: World, fileName: string, bucket: string)
    requires forall j | 0 <= j < 4 :: BasicCredentialsOf(w, BasicProviders(fileName, bucket)[j]).Err?
    ensures EnvironmentVariables in w.sdk ==>
              ResolveBasicChain(w, BasicProviders(fileName, bucket)) == Ok(w.sdk[EnvironmentVariables])
    ensures EnvironmentVariables !in w.sdk && SystemProperties in w.sdk ==>
              ResolveBasicChain(w, BasicProviders(fileName, bucket)) == Ok(w.sdk[SystemProperties])
  {
    var basic := BasicProviders(fileName, bucket);
    ResolveBasicChainFirstSuccess(w, basic);
    if EnvironmentVariables in w.sdk || SystemProperties in w.sdk {
      var at := if EnvironmentVariables in w.sdk then 4 else 5;
      assert BasicCredentialsOf(w, basic[at]).Ok?;
      var k :| 0 <= k < |basic| && BasicCredentialsOf(w, basic[k]) == ResolveBasicChain(w, basic)
               && forall j | 0 <= j < k :: BasicCredentialsOf(w, basic[j]).Err?;
      assert k == at;
    }
  }

  /** No role ARN is found in an empty environment and empty system properties when no role
      file exists in the sbt directory. */
  lemma RoleArnAbsent(w: World, s: RoleArnSource)
    requires w.env == map[] && w.sysProps == map[]
    requires forall p | p in w.files :: p.dir == DotIvyDir
    ensures GetRoleArn(w, s).Err?
  {
    if s.PropertiesFileRole? {
      assert FilePath(RoleFileDir, s.fileName) !in w.files;
    }
  }

  /** The basic providers before the generic credential file find nothing when the environment,
      the system properties and the SDK's sources are empty and only that file exists. */
  lemma EarlierBasicProvidersFail(w: World, fileName: string, bucket: string, j: int)
    requires w.env == map[] && w.sysProps == map[] && w.sdk == map[]
    requires w.files.Keys == {CredentialFile("." + fileName)}
    requires 0 <= j < 6
    ensures BasicCredentialsOf(w, BasicProviders(fileName, bucket)[j]).Err?
  {
    var p := BasicProviders(fileName, bucket)[j];
    if j == 2 {
      assert |"." + fileName + "_" + bucket| != |"." + fileName|;
      assert p.path !in w.files;
    } else if j == 3 {
      assert |"." + bucket + "_" + fileName| != |"." + fileName|;
      assert p.path !in w.files;
    }
  }

  /** In that world the basic chain answers the generic credential file's keys. */
  lemma BasicChainReadsGenericFile(w: World, fileName: string, bucket: string, props: map<string, string>)
    requires w.env == map[] && w.sysProps == map[] && w.sdk == map[]
    requires w.files == map[CredentialFile("." + fileName) := props]
    requires AccessKeyFileKey in props && SecretKeyFileKey in props
    ensures ResolveBasicChain(w, BasicProviders(fileName, bucket)) ==
              Ok(BasicCredentials(props[AccessKeyFileKey], props[SecretKeyFileKey]))
  {
    var basic := BasicProviders(fileName, bucket);
    forall j | 0 <= j < 6
      ensures BasicCredentialsOf(w, basic[j]).Err?
    {
      EarlierBasicProvidersFail(w, fileName, bucket, j);
    }
    var path := CredentialFile("." + fileName);
    assert basic[6] == PropertiesFile(path);
    var expected := BasicCredentials(props[AccessKeyFileKey], props[SecretKeyFileKey]);
    assert w.files[path] == props;
    assert BasicCredentialsOf(w, basic[6]) == Ok(expected);
    ResolveBasicChainFirstSuccess(w, basic);
    var r := ResolveBasicChain(w, basic);
    var k :| 0 <= k < |basic| && BasicCredentialsOf(w, basic[k]) == r
             && forall j | 0 <= j < k :: BasicCredentialsOf(w, basic[j]).Err?;
    assert k == 6;
    assert r == Ok(expected);
  }

  /** In that world every role-based provider of the chain fails. */
  lemma RoleProvidersFail(w: World, fileName: string, bucket: string)
    requires w.env == map[] && w.sysProps == map[]
    requires forall p | p in w.files :: p.dir == DotIvyDir
    ensures ResolveChain(w, RoleProviders(BasicProviders(fileName, bucket), RoleSources(fileName, bucket))).Err?
  {
    var sources := RoleSources(fileName, bucket);
    var roles := RoleProviders(BasicProviders(fileName, bucket), sources);
    forall i | 0 <= i < |roles|
      ensures GetCredentials(w, roles[i]).Err?
    {
      RoleArnAbsent(w, sources[i]);
    }
    ResolveChainFirstSuccess(w, roles);
  }

  /** With nothing in the environment, the system properties or the SDK's own sources, and only the
      generic credential file "." + fileName in the Ivy directory, the chain answers that file's keys:
      every role-based provider and every earlier basic provider fails. */
  lemma GenericCredentialFileResolves(w: World, fileName: string, bucket: string, props: map<string, string>)
    requires w.env == map[] && w.sysProps == map[] && w.sdk == map[]
    requires w.files == map[CredentialFile("." + fileName) := props]
    requires AccessKeyFileKey in props && SecretKeyFileKey in props
    ensures ComputeCredentials(w, fileName, bucket) ==
              Ok(BasicCredentials(props[AccessKeyFileKey], props[SecretKeyFileKey]))
  {
    RoleProvidersFail(w, fileName, bucket);
    BasicChainReadsGenericFile(w, fileName, bucket, props);
    ProviderChainResolution(w, BasicProviders(fileName, bucket), RoleSources(fileName, bucket));
  }

  /** CredentialsTest.testChain: credential file name "23498sddflskdfjcsxlf1234", bucket
      "foosdfsdflkj", the file ".23498sddflskdfjcsxlf1234" holding accessKey=abcde and secretKey=fghij.
      The test itself clears only the generic access and secret key settings; the lemma assumes
      more, an empty environment, empty system properties and SDK sources that all fail, which is
      what the test silently relies on: a bucket-specific key, other credentials the SDK's
      environment or system-property providers accept, or a role ARN on the machine would be
      found before the file. */
  lemma CredentialsTestChain(w: World, name: string, bucket: string)
    requires name == "23498sddflskdfjcsxlf1234" && bucket == "foosdfsdflkj"
    requires w.env == map[] && w.sysProps == map[] && w.sdk == map[]
    requires w.files == map[CredentialFile("." + name) := map[AccessKeyFileKey := "abcde", SecretKeyFileKey := "fghij"]]
    ensures ComputeCredentials(w, name, bucket) == Ok(BasicCredentials("abcde", "fghij"))
  {
    GenericCredentialFileResolves(w, name, bucket, map[AccessKeyFileKey := "abcde", SecretKeyFileKey := "fghij"]);
  }
}
