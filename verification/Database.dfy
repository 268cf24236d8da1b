/** The desired spec of a DBInstance and how the provisioning parameters of an
    RDSInstance determine it (setDBInstanceSpec, setCredentials). */
module Database {
  import opened Wrappers
  import opened Store
  import Credential
  import Text

  /** ackv1alpha1.SecretKeyReference */
  datatype SecretRef = SecretRef(secret: Key, key: string)

  /** Engine, identifier and class are required by the CRD; empty stands for unset. */
  datatype Spec = Spec(
    engine: string,
    identifier: string,
    instanceClass: string,
    engineVersion: Option<string>,
    storageType: Option<string>,
    allocatedStorage: Option<int>,
    iops: Option<int>,
    maxAllocatedStorage: Option<int>,
    subnetGroup: Option<string>,
    publiclyAccessible: Option<bool>,
    securityGroups: Option<seq<string>>,
    licenseModel: Option<string>,
    masterUsername: Option<string>,
    masterUserPassword: Option<SecretRef>,
    dbName: Option<string>,
    availabilityZone: Option<string>)

  const EMPTY: Spec :=
    Spec("", "", "", None, None, None, None, None, None, None, None, None, None, None, None, None)

  /** The provisioning parameters the controller knows; it ignores any other. */
  datatype Param =
    | Engine | EngineVersion | DBInstanceIdentifier | DBInstanceClass | StorageType | AllocatedStorage | IOPS
    | MaxAllocatedStorage | DBSubnetGroupName | PubliclyAccessible | VPCSecurityGroupIDs | LicenseModel

  function ParamName(p: Param): string {
    match p
    case Engine => "Engine"
    case EngineVersion => "EngineVersion"
    case DBInstanceIdentifier => "DBInstanceIdentifier"
    case DBInstanceClass => "DBInstanceClass"
    case StorageType => "StorageType"
    case AllocatedStorage => "AllocatedStorage"
    case IOPS => "IOPS"
    case MaxAllocatedStorage => "MaxAllocatedStorage"
    case DBSubnetGroupName => "DBSubnetGroupName"
    case PubliclyAccessible => "PubliclyAccessible"
    case VPCSecurityGroupIDs => "VPCSecurityGroupIDs"
    case LicenseModel => "LicenseModel"
  }

  type Params = map<Param, string>

  function PasswordEntry(): string { "password" }
  function CredentialsSuffix(): string { "-credentials" }

  /** Where the master password of the DBInstance named `name` is kept. */
  function CredentialKey(ns: string, name: string): Key {
    Key(ns, name + CredentialsSuffix())
  }

  lemma CredentialKeyInjective(j: Key, k: Key)
    requires CredentialKey(j.ns, j.name) == CredentialKey(k.ns, k.name)
    ensures j == k
  {
    Text.SuffixInjective(j.name, k.name, CredentialsSuffix());
  }

  /** An optional string parameter: present overrides, absent leaves alone. */
  function OptString(params: Params, p: Param, current: Option<string>): Option<string> {
    if p in params then Some(params[p]) else current
  }

  /** An optional parsed parameter: unparsable is None, absent leaves alone. */
  function OptParsed<T>(params: Params, p: Param, parse: string -> Option<T>, current: Option<T>): Option<Option<T>> {
    if p !in params then Some(current)
    else if parse(params[p]).Some? then Some(parse(params[p])) else None
  }

  function Missing(p: Param): Error { Invalid("required parameter " + ParamName(p) + " is missing") }
  function BadValue(p: Param): Error { Invalid("value of parameter " + ParamName(p) + " is invalid") }

  const INTEGER: string -> Option<int> := s => Text.ParseInt(s)
  const BOOLEAN: string -> Option<bool> := s => Text.ParseBool(s)

  /** What names the database: the parameters setDBInstanceSpec checks first. */
  function FromNames(params: Params, spec: Spec): Result<Spec> {
    if Engine !in params then Err(Missing(Engine))
    else if DBInstanceIdentifier !in params then Err(Missing(DBInstanceIdentifier))
    else if DBInstanceClass !in params then Err(Missing(DBInstanceClass))
    else
      Ok(spec.(
        engine := params[Engine],
        identifier := params[DBInstanceIdentifier],
        instanceClass := params[DBInstanceClass],
        engineVersion := OptString(params, EngineVersion, spec.engineVersion),
        storageType := OptString(params, StorageType, spec.storageType)))
  }

  /** What sizes and places it: the ones it checks then. */
  function FromSizes(params: Params, spec: Spec): Result<Spec> {
    if AllocatedStorage !in params then Err(Missing(AllocatedStorage))
    else
      var storage := OptParsed(params, AllocatedStorage, INTEGER, spec.allocatedStorage);
      var iops := OptParsed(params, IOPS, INTEGER, spec.iops);
      var max := OptParsed(params, MaxAllocatedStorage, INTEGER, spec.maxAllocatedStorage);
      var public := OptParsed(params, PubliclyAccessible, BOOLEAN, spec.publiclyAccessible);
      if storage.None? then Err(BadValue(AllocatedStorage))
      else if iops.None? then Err(BadValue(IOPS))
      else if max.None? then Err(BadValue(MaxAllocatedStorage))
      else if public.None? then Err(BadValue(PubliclyAccessible))
      else
        Ok(spec.(
          allocatedStorage := storage.value,
          iops := iops.value,
          maxAllocatedStorage := max.value,
          subnetGroup := OptString(params, DBSubnetGroupName, spec.subnetGroup),
          publiclyAccessible := public.value,
          securityGroups := if VPCSecurityGroupIDs in params then Some(Text.Split(params[VPCSecurityGroupIDs], ','))
                            else spec.securityGroups,
          licenseModel := OptString(params, LicenseModel, spec.licenseModel)))
  }

  /** Everything setDBInstanceSpec takes from the parameters, in the order it
      checks them. No credential has been touched yet. */
  function FromParams(params: Params, spec: Spec): Result<Spec> {
    match FromNames(params, spec)
    case Err(e) => Err(e)
    case Ok(named) => FromSizes(params, named)
  }

  /** The effect of setCredentials on the spec once the secret is in place. */
  function WithCredentials(spec: Spec, secret: Key): Spec {
    spec.(
      masterUsername := if spec.masterUsername.None? then Some(Credential.GenerateUsername(spec.engine))
        else spec.masterUsername,
      masterUserPassword := Some(SecretRef(secret, PasswordEntry())))
  }

  /** The whole of setDBInstanceSpec on the spec. */
  function Build(params: Params, region: string, secret: Key, spec: Spec): Result<Spec> {
    match FromParams(params, spec)
    case Err(e) => Err(e)
    case Ok(s) =>
      var s := WithCredentials(s, secret);
      Ok(s.(dbName := Credential.GenerateDBName(s.engine), availabilityZone := Some(region)))
  }

  /** The parameters are acceptable: the four required ones are there, every number
      that is there writes an integer of 64 bits, and the flag says true or false. */
  ghost predicate Acceptable(params: Params) {
    && Engine in params && DBInstanceIdentifier in params && DBInstanceClass in params
    && AllocatedStorage in params
    && (forall n <- [AllocatedStorage, IOPS, MaxAllocatedStorage] :: n in params ==> Text.IsInt64(params[n]))
    && (PubliclyAccessible in params ==>
          Text.IsTrue(params[PubliclyAccessible]) || Text.IsFalse(params[PubliclyAccessible]))
  }

  /** All or nothing: building succeeds exactly on acceptable parameters, and
      whether it does never depends on what the spec held before. */
  lemma BuildIffAcceptable(params: Params, region: string, secret: Key, spec: Spec)
    ensures Build(params, region, secret, spec).Ok? <==> Acceptable(params)
    ensures FromParams(params, spec).Ok? <==> Acceptable(params)
  {
    hide Text.ParseInt, Text.ParseBool, Text.IsInt64, Text.IsTrue, Text.IsFalse;
    var numbers := [AllocatedStorage, IOPS, MaxAllocatedStorage];
    assert numbers[0] in numbers && numbers[1] in numbers && numbers[2] in numbers;
    forall n <- numbers | n in params ensures Text.ParseInt(params[n]).Some? <==> Text.IsInt64(params[n]) {
      Text.ParsesInt64(params[n]);
    }
    if PubliclyAccessible in params { Text.ParseBoolIff(params[PubliclyAccessible]); }
  }

  /** What is wrong with a parameter, if anything is. */
  ghost function Fault(params: Params, p: Param): Option<Error> {
    if p !in params then
      if p in {Engine, DBInstanceIdentifier, DBInstanceClass, AllocatedStorage}
      then Some(Invalid("required parameter " + ParamName(p) + " is missing"))
      else None
    else if || (p in {AllocatedStorage, IOPS, MaxAllocatedStorage} && !Text.IsInt64(params[p]))
            || (p == PubliclyAccessible && !Text.IsTrue(params[p]) && !Text.IsFalse(params[p]))
    then Some(Invalid("value of parameter " + ParamName(p) + " is invalid"))
    else None
  }

  /** The first thing that is wrong, in the order of the checks. */
  ghost function FirstFault(params: Params): Option<Error> {
    if Fault(params, Engine).Some? then Fault(params, Engine)
    else if Fault(params, DBInstanceIdentifier).Some? then Fault(params, DBInstanceIdentifier)
    else if Fault(params, DBInstanceClass).Some? then Fault(params, DBInstanceClass)
    else if Fault(params, AllocatedStorage).Some? then Fault(params, AllocatedStorage)
    else if Fault(params, IOPS).Some? then Fault(params, IOPS)
    else if Fault(params, MaxAllocatedStorage).Some? then Fault(params, MaxAllocatedStorage)
    else Fault(params, PubliclyAccessible)
  }

  lemma FaultIs(params: Params, p: Param)
    ensures Fault(params, p).Some? ==> Fault(params, p).value == if p in params then BadValue(p) else Missing(p)
    ensures p in {Engine, DBInstanceIdentifier, DBInstanceClass} ==> (Fault(params, p).None? <==> p in params)
    ensures p in {AllocatedStorage, IOPS, MaxAllocatedStorage} && p in params ==>
              (Fault(params, p).None? <==> Text.ParseInt(params[p]).Some?)
    ensures p in {IOPS, MaxAllocatedStorage, PubliclyAccessible} && p !in params ==> Fault(params, p).None?
    ensures p == AllocatedStorage && p !in params ==> Fault(params, p).Some?
    ensures p == PubliclyAccessible && p in params ==> (Fault(params, p).None? <==> Text.ParseBool(params[p]).Some?)
  {
    hide Text.ParseInt, Text.ParseBool, Text.IsInt64, Text.IsTrue, Text.IsFalse, ParamName;
    if p in params {
      Text.ParsesInt64(params[p]);
      Text.ParseBoolIff(params[p]);
    }
  }

  /** Parameters are rejected exactly for what is wrong with them, the first thing first. */
  lemma RejectedForFirstFault(params: Params, region: string, secret: Key, spec: Spec)
    ensures Acceptable(params) <==> FirstFault(params).None?
    ensures !Acceptable(params) ==> Build(params, region, secret, spec) == Err(FirstFault(params).value)
  {
    hide Text.ParseInt, Text.ParseBool, Acceptable, Fault, Missing, BadValue, WithCredentials;
    BuildIffAcceptable(params, region, secret, spec);
    FaultIs(params, Engine);
    FaultIs(params, DBInstanceIdentifier);
    FaultIs(params, DBInstanceClass);
    FaultIs(params, AllocatedStorage);
    FaultIs(params, IOPS);
    FaultIs(params, MaxAllocatedStorage);
    FaultIs(params, PubliclyAccessible);
  }

  /** Applying the same parameters again changes nothing, so a second pass
      compares equal and writes nothing. */
  lemma BuildIdempotent(params: Params, region: string, secret: Key, spec: Spec)
    requires Build(params, region, secret, spec).Ok?
    ensures var once := Build(params, region, secret, spec).value;
            Build(params, region, secret, once) == Ok(once)
  {
  }

  /** The field holds the integer that the parameter writes. */
  ghost predicate IsNumber(param: string, field: Option<int>) {
    field.Some? && Text.Denotes(param, field.value)
  }

  /** The field holds what the flag says. */
  predicate IsFlag(param: string, field: Option<bool>) {
    field.Some? && if field.value then Text.IsTrue(param) else Text.IsFalse(param)
  }

  /** Every parameter that is given is what the spec then says, and the security
      groups joined with commas are the parameter itself. */
  ghost predicate Honours(params: Params, region: string, secret: Key, before: Spec, s: Spec)
    requires Acceptable(params)
  {
    && s.engine == params[Engine] && s.identifier == params[DBInstanceIdentifier]
    && s.instanceClass == params[DBInstanceClass]
    && IsNumber(params[AllocatedStorage], s.allocatedStorage)
    && (EngineVersion in params ==> s.engineVersion == Some(params[EngineVersion]))
    && (StorageType in params ==> s.storageType == Some(params[StorageType]))
    && (IOPS in params ==> IsNumber(params[IOPS], s.iops))
    && (MaxAllocatedStorage in params ==> IsNumber(params[MaxAllocatedStorage], s.maxAllocatedStorage))
    && (DBSubnetGroupName in params ==> s.subnetGroup == Some(params[DBSubnetGroupName]))
    && (PubliclyAccessible in params ==> IsFlag(params[PubliclyAccessible], s.publiclyAccessible))
    && (LicenseModel in params ==> s.licenseModel == Some(params[LicenseModel]))
    && s.dbName == Credential.GenerateDBName(params[Engine]) && s.availabilityZone == Some(region)
    && (VPCSecurityGroupIDs in params ==>
          && s.securityGroups.Some?
          && Text.Join(s.securityGroups.value, ',') == params[VPCSecurityGroupIDs]
          && forall g <- s.securityGroups.value :: ',' !in g)
    && s.masterUserPassword == Some(SecretRef(secret, "password"))
    && s.masterUsername == if before.masterUsername.Some? then before.masterUsername
                           else Some(Credential.GenerateUsername(params[Engine]))
  }

  lemma BuildHonours(params: Params, region: string, secret: Key, spec: Spec)
    requires Acceptable(params)
    ensures var s := Build(params, region, secret, spec); s.Ok? && Honours(params, region, secret, spec, s.value)
  {
    hide Text.ParseInt, Text.ParseBool, Text.Denotes, Text.IsTrue, Text.IsFalse;
    BuildIffAcceptable(params, region, secret, spec);
    forall n <- [AllocatedStorage, IOPS, MaxAllocatedStorage] | n in params && Text.ParseInt(params[n]).Some?
      ensures IsNumber(params[n], Text.ParseInt(params[n]))
    {
      Text.ParseIntIff(params[n], Text.ParseInt(params[n]).value);
    }
    if PubliclyAccessible in params { Text.ParseBoolIff(params[PubliclyAccessible]); }
    if VPCSecurityGroupIDs in params {
      Text.JoinSplit(params[VPCSecurityGroupIDs], ',');
      Text.SplitHasNoSeparator(params[VPCSecurityGroupIDs], ',');
    }
  }

  /** Optional parameters that are absent leave their fields alone. */
  lemma BuildLeavesAbsentAlone(params: Params, region: string, secret: Key, spec: Spec)
    requires Acceptable(params)
    ensures var s := Build(params, region, secret, spec);
      && s.Ok?
      && (EngineVersion !in params ==> s.value.engineVersion == spec.engineVersion)
      && (StorageType !in params ==> s.value.storageType == spec.storageType)
      && (IOPS !in params ==> s.value.iops == spec.iops)
      && (MaxAllocatedStorage !in params ==> s.value.maxAllocatedStorage == spec.maxAllocatedStorage)
      && (DBSubnetGroupName !in params ==> s.value.subnetGroup == spec.subnetGroup)
      && (PubliclyAccessible !in params ==> s.value.publiclyAccessible == spec.publiclyAccessible)
      && (VPCSecurityGroupIDs !in params ==> s.value.securityGroups == spec.securityGroups)
      && (LicenseModel !in params ==> s.value.licenseModel == spec.licenseModel)
  {
    BuildIffAcceptable(params, region, secret, spec);
  }
}
