/** The leaves of a DBInstance status and the names they are reported under, and
    that the names tell them apart. */
module Names {
  /** The scalar leaves of a DBInstance status, parents included in the name;
      those under pendingModifiedValues are fields of their own. */
  datatype Scalar =
    | AckResourceMetadataArn | AckResourceMetadataOwnerAccountID | AckResourceMetadataRegion
    | ActivityStreamEngineNativeAuditFieldsIncluded | ActivityStreamKinesisStreamName
    | ActivityStreamKMSKeyID | ActivityStreamMode | ActivityStreamStatus | AutomaticRestartTime
    | AutomationMode | AwsBackupRecoveryPointARN | CaCertificateIdentifier | CustomerOwnedIPEnabled
    | DbInstanceStatus | DbSubnetGroupDbSubnetGroupARN | DbSubnetGroupDbSubnetGroupDescription
    | DbSubnetGroupDbSubnetGroupName | DbSubnetGroupSubnetGroupStatus | DbSubnetGroupVpcID | DbInstancePort
    | DbiResourceID | EndpointAddress | EndpointHostedZoneID | EndpointPort | EnhancedMonitoringResourceARN
    | IamDatabaseAuthenticationEnabled | InstanceCreateTime | LatestRestorableTime | ListenerEndpointAddress
    | ListenerEndpointHostedZoneID | ListenerEndpointPort | PerformanceInsightsEnabled
    | ReadReplicaSourceDBInstanceIdentifier | ReplicaMode | ResumeFullAutomationModeTime
    | SecondaryAvailabilityZone | PendingModified(field: PendingField)

  datatype PendingField =
    | NewAllocatedStorage | NewAutomationMode | NewBackupRetentionPeriod | NewCaCertificateIdentifier
    | NewDbInstanceClass | NewDbInstanceIdentifier | NewDbSubnetGroupName | NewEngineVersion
    | NewIamDatabaseAuthenticationEnabled | NewIops | NewLicenseModel | NewMasterUserPassword | NewMultiAZ
    | NewPort | NewResumeFullAutomationModeTime | NewStorageType

  /** The lists of a DBInstance status. */
  datatype List =
    | AssociatedRolesList | DbInstanceAutomatedBackupsReplicationsList | DbParameterGroupsList
    | DbSubnetGroupSubnetsList | DomainMembershipsList | EnabledCloudwatchLogsExportsList
    | OptionGroupMembershipsList | LogTypesToDisableList | LogTypesToEnableList
    | ProcessorFeatureList | ReadReplicaDBClusterIdentifiersList | ReadReplicaDBInstanceIdentifiersList
    | StatusInfosList | TagListList | VpcSecurityGroupsList

  /** Every leaf an element of one of the lists can have. */
  datatype Leaf =
    | AssociatedRolesFeatureName | AssociatedRolesRoleARN | AssociatedRolesStatus
    | DbInstanceAutomatedBackupsReplicationsDbInstanceAutomatedBackupsARN
    | DbParameterGroupsDbParameterGroupName | DbParameterGroupsParameterApplyStatus
    | DbSubnetGroupSubnetsSubnetAvailabilityZoneName | DbSubnetGroupSubnetsSubnetIdentifier
    | DbSubnetGroupSubnetsSubnetOutpostArn
    | DbSubnetGroupSubnetsSubnetStatus | DomainMembershipsDomain | DomainMembershipsFQDN
    | DomainMembershipsIamRoleName | DomainMembershipsStatus | EnabledCloudwatchLogsExportsItem
    | OptionGroupMembershipsOptionGroupName | OptionGroupMembershipsStatus | LogTypesToDisableItem
    | LogTypesToEnableItem | ProcessorFeatureName | ProcessorFeatureValue
    | ReadReplicaDBClusterIdentifiersItem | ReadReplicaDBInstanceIdentifiersItem | StatusInfosMessage
    | StatusInfosNormal | StatusInfosStatus | StatusInfosStatusType
    | TagListKey | TagListValue | VpcSecurityGroupsStatus
    | VpcSecurityGroupsVpcSecurityGroupID

  function Pending(f: string): string { "pendingModifiedValues." + f }
  function LogsExports(f: string): string { "pendingCloudwatchLogsExports." + f }

  function FieldName(x: PendingField): string {
    match x
    case NewAllocatedStorage => "allocatedStorage"
    case NewAutomationMode => "automationMode"
    case NewBackupRetentionPeriod => "backupRetentionPeriod"
    case NewCaCertificateIdentifier => "caCertificateIdentifier"
    case NewDbInstanceClass => "dbInstanceClass"
    case NewDbInstanceIdentifier => "dbInstanceIdentifier"
    case NewDbSubnetGroupName => "dbSubnetGroupName"
    case NewEngineVersion => "engineVersion"
    case NewIamDatabaseAuthenticationEnabled => "iamDatabaseAuthenticationEnabled"
    case NewIops => "iops"
    case NewLicenseModel => "licenseModel"
    case NewMasterUserPassword => "masterUserPassword"
    case NewMultiAZ => "multiAZ"
    case NewPort => "port"
    case NewResumeFullAutomationModeTime => "resumeFullAutomationModeTime"
    case NewStorageType => "storageType"
  }

  function ScalarName(x: Scalar): string {
    match x
    case AckResourceMetadataArn => "ackResourceMetadata.arn"
    case AckResourceMetadataOwnerAccountID => "ackResourceMetadata.ownerAccountID"
    case AckResourceMetadataRegion => "ackResourceMetadata.region"
    case ActivityStreamEngineNativeAuditFieldsIncluded => "activityStreamEngineNative" + "AuditFieldsIncluded"
    case ActivityStreamKinesisStreamName => "activityStreamKinesisStreamName"
    case ActivityStreamKMSKeyID => "activityStreamKMSKeyID"
    case ActivityStreamMode => "activityStreamMode"
    case ActivityStreamStatus => "activityStreamStatus"
    case AutomaticRestartTime => "automaticRestartTime"
    case AutomationMode => "automationMode"
    case AwsBackupRecoveryPointARN => "awsBackupRecoveryPointARN"
    case CaCertificateIdentifier => "caCertificateIdentifier"
    case CustomerOwnedIPEnabled => "customerOwnedIPEnabled"
    case DbInstanceStatus => "dbInstanceStatus"
    case DbSubnetGroupDbSubnetGroupARN => "dbSubnetGroup.dbSubnetGroupARN"
    case DbSubnetGroupDbSubnetGroupDescription => "dbSubnetGroup.dbSubnetGroupDescription"
    case DbSubnetGroupDbSubnetGroupName => "dbSubnetGroup.dbSubnetGroupName"
    case DbSubnetGroupSubnetGroupStatus => "dbSubnetGroup.subnetGroupStatus"
    case DbSubnetGroupVpcID => "dbSubnetGroup.vpcID"
    case DbInstancePort => "dbInstancePort"
    case DbiResourceID => "dbiResourceID"
    case EndpointAddress => "endpoint.address"
    case EndpointHostedZoneID => "endpoint.hostedZoneID"
    case EndpointPort => "endpoint.port"
    case EnhancedMonitoringResourceARN => "enhancedMonitoringResourceARN"
    case IamDatabaseAuthenticationEnabled => "iamDatabaseAuthenticationEnabled"
    case InstanceCreateTime => "instanceCreateTime"
    case LatestRestorableTime => "latestRestorableTime"
    case ListenerEndpointAddress => "listenerEndpoint.address"
    case ListenerEndpointHostedZoneID => "listenerEndpoint.hostedZoneID"
    case ListenerEndpointPort => "listenerEndpoint.port"
    case PerformanceInsightsEnabled => "performanceInsightsEnabled"
    case ReadReplicaSourceDBInstanceIdentifier => "readReplicaSourceDBInstanceIdentifier"
    case ReplicaMode => "replicaMode"
    case ResumeFullAutomationModeTime => "resumeFullAutomationModeTime"
    case SecondaryAvailabilityZone => "secondaryAvailabilityZone"
    case PendingModified(f) => Pending(FieldName(f))
  }

  function ListName(x: List): string {
    match x
    case AssociatedRolesList => "associatedRoles"
    case DbInstanceAutomatedBackupsReplicationsList => "dbInstanceAutomatedBackupsReplications"
    case DbParameterGroupsList => "dbParameterGroups"
    case DbSubnetGroupSubnetsList => "dbSubnetGroup.subnets"
    case DomainMembershipsList => "domainMemberships"
    case EnabledCloudwatchLogsExportsList => "enabledCloudwatchLogsExports"
    case OptionGroupMembershipsList => "optionGroupMemberships"
    case LogTypesToDisableList => Pending(LogsExports("logTypesToDisable"))
    case LogTypesToEnableList => Pending(LogsExports("logTypesToEnable"))
    case ProcessorFeatureList => Pending("ProcessorFeature")
    case ReadReplicaDBClusterIdentifiersList => "readReplicaDBClusterIdentifiers"
    case ReadReplicaDBInstanceIdentifiersList => "readReplicaDBInstanceIdentifiers"
    case StatusInfosList => "statusInfos"
    case TagListList => "tagList"
    case VpcSecurityGroupsList => "vpcSecurityGroups"
  }

  function ListOf(f: Leaf): List {
    match f
    case AssociatedRolesFeatureName => AssociatedRolesList
    case AssociatedRolesRoleARN => AssociatedRolesList
    case AssociatedRolesStatus => AssociatedRolesList
    case DbInstanceAutomatedBackupsReplicationsDbInstanceAutomatedBackupsARN =>
      DbInstanceAutomatedBackupsReplicationsList
    case DbParameterGroupsDbParameterGroupName => DbParameterGroupsList
    case DbParameterGroupsParameterApplyStatus => DbParameterGroupsList
    case DbSubnetGroupSubnetsSubnetAvailabilityZoneName => DbSubnetGroupSubnetsList
    case DbSubnetGroupSubnetsSubnetIdentifier => DbSubnetGroupSubnetsList
    case DbSubnetGroupSubnetsSubnetOutpostArn => DbSubnetGroupSubnetsList
    case DbSubnetGroupSubnetsSubnetStatus => DbSubnetGroupSubnetsList
    case DomainMembershipsDomain => DomainMembershipsList
    case DomainMembershipsFQDN => DomainMembershipsList
    case DomainMembershipsIamRoleName => DomainMembershipsList
    case DomainMembershipsStatus => DomainMembershipsList
    case EnabledCloudwatchLogsExportsItem => EnabledCloudwatchLogsExportsList
    case OptionGroupMembershipsOptionGroupName => OptionGroupMembershipsList
    case OptionGroupMembershipsStatus => OptionGroupMembershipsList
    case LogTypesToDisableItem => LogTypesToDisableList
    case LogTypesToEnableItem => LogTypesToEnableList
    case ProcessorFeatureName => ProcessorFeatureList
    case ProcessorFeatureValue => ProcessorFeatureList
    case ReadReplicaDBClusterIdentifiersItem => ReadReplicaDBClusterIdentifiersList
    case ReadReplicaDBInstanceIdentifiersItem => ReadReplicaDBInstanceIdentifiersList
    case StatusInfosMessage => StatusInfosList
    case StatusInfosNormal => StatusInfosList
    case StatusInfosStatus => StatusInfosList
    case StatusInfosStatusType => StatusInfosList
    case TagListKey => TagListList
    case TagListValue => TagListList
    case VpcSecurityGroupsStatus => VpcSecurityGroupsList
    case VpcSecurityGroupsVpcSecurityGroupID => VpcSecurityGroupsList
  }

  function LeafName(f: Leaf): string {
    match f
    case AssociatedRolesFeatureName => ".featureName"
    case AssociatedRolesRoleARN => ".roleARN"
    case AssociatedRolesStatus => ".status"
    case DbInstanceAutomatedBackupsReplicationsDbInstanceAutomatedBackupsARN => ".dbInstanceAutomatedBackupsARN"
    case DbParameterGroupsDbParameterGroupName => ".dbParameterGroupName"
    case DbParameterGroupsParameterApplyStatus => ".parameterApplyStatus"
    case DbSubnetGroupSubnetsSubnetAvailabilityZoneName => ".subnetAvailabilityZone.name"
    case DbSubnetGroupSubnetsSubnetIdentifier => ".subnetIdentifier"
    case DbSubnetGroupSubnetsSubnetOutpostArn => ".subnetOutpost.arn"
    case DbSubnetGroupSubnetsSubnetStatus => ".subnetStatus"
    case DomainMembershipsDomain => ".domain"
    case DomainMembershipsFQDN => ".fQDN"
    case DomainMembershipsIamRoleName => ".iamRoleName"
    case DomainMembershipsStatus => ".status"
    case EnabledCloudwatchLogsExportsItem => ""
    case OptionGroupMembershipsOptionGroupName => ".optionGroupName"
    case OptionGroupMembershipsStatus => ".status"
    case LogTypesToDisableItem => ""
    case LogTypesToEnableItem => ""
    case ProcessorFeatureName => ".name"
    case ProcessorFeatureValue => ".value"
    case ReadReplicaDBClusterIdentifiersItem => ""
    case ReadReplicaDBInstanceIdentifiersItem => ""
    case StatusInfosMessage => ".message"
    case StatusInfosNormal => ".normal"
    case StatusInfosStatus => ".status"
    case StatusInfosStatusType => ".statusType"
    case TagListKey => ".key"
    case TagListValue => ".value"
    case VpcSecurityGroupsStatus => ".status"
    case VpcSecurityGroupsVpcSecurityGroupID => ".vpcSecurityGroupID"
  }

  // ------------------------------------------------- that the names differ

  /** What tells the names apart: length, first and fourth-last character. */
  datatype Mark = Mark(length: nat, first: char, fourthLast: char)

  /** A name is as its mark says, and has no bracket. */
  ghost predicate Fits(name: string, m: Mark) {
    |name| == m.length >= 4 && name[0] == m.first && name[m.length - 4] == m.fourthLast && '[' !in name
  }

  lemma PendingFits(f: string, m: Mark)
    requires Fits(f, m)
    ensures Fits(Pending(f), Mark(22 + m.length, 'p', m.fourthLast))
  {
  }

  lemma LogsExportsFit(f: string, m: Mark)
    requires Fits(f, m)
    ensures Fits(LogsExports(f), Mark(29 + m.length, 'p', m.fourthLast))
  {
  }

  function FieldMark(x: PendingField): Mark {
    match x
    case NewAllocatedStorage => Mark(16, 'a', 'r') case NewAutomationMode => Mark(14, 'a', 'M')
    case NewBackupRetentionPeriod => Mark(21, 'b', 'r') case NewCaCertificateIdentifier => Mark(23, 'c', 'f')
    case NewDbInstanceClass => Mark(15, 'd', 'l') case NewDbInstanceIdentifier => Mark(20, 'd', 'f')
    case NewDbSubnetGroupName => Mark(17, 'd', 'N') case NewEngineVersion => Mark(13, 'e', 's')
    case NewIamDatabaseAuthenticationEnabled => Mark(32, 'i', 'b') case NewIops => Mark(4, 'i', 'i')
    case NewLicenseModel => Mark(12, 'l', 'o') case NewMasterUserPassword => Mark(18, 'm', 'w')
    case NewMultiAZ => Mark(7, 'm', 't') case NewPort => Mark(4, 'p', 'p')
    case NewResumeFullAutomationModeTime => Mark(28, 'r', 'T') case NewStorageType => Mark(11, 's', 'T')
  }

  function ScalarMark(x: Scalar): Mark {
    match x
    case AckResourceMetadataArn => Mark(23, 'a', '.') case AckResourceMetadataOwnerAccountID => Mark(34, 'a', 'n')
    case AckResourceMetadataRegion => Mark(26, 'a', 'g')
    case ActivityStreamEngineNativeAuditFieldsIncluded => Mark(45, 'a', 'u')
    case ActivityStreamKinesisStreamName => Mark(31, 'a', 'N') case ActivityStreamKMSKeyID => Mark(22, 'a', 'e')
    case ActivityStreamMode => Mark(18, 'a', 'M') case ActivityStreamStatus => Mark(20, 'a', 'a')
    case AutomaticRestartTime => Mark(20, 'a', 'T') case AutomationMode => Mark(14, 'a', 'M')
    case AwsBackupRecoveryPointARN => Mark(25, 'a', 't') case CaCertificateIdentifier => Mark(23, 'c', 'f')
    case CustomerOwnedIPEnabled => Mark(22, 'c', 'b') case DbInstanceStatus => Mark(16, 'd', 'a')
    case DbSubnetGroupDbSubnetGroupARN => Mark(30, 'd', 'p')
    case DbSubnetGroupDbSubnetGroupDescription => Mark(38, 'd', 't')
    case DbSubnetGroupDbSubnetGroupName => Mark(31, 'd', 'N')
    case DbSubnetGroupSubnetGroupStatus => Mark(31, 'd', 'a') case DbSubnetGroupVpcID => Mark(19, 'd', 'p')
    case DbInstancePort => Mark(14, 'd', 'P') case DbiResourceID => Mark(13, 'd', 'c')
    case EndpointAddress => Mark(16, 'e', 'r') case EndpointHostedZoneID => Mark(21, 'e', 'n')
    case EndpointPort => Mark(13, 'e', 'p') case EnhancedMonitoringResourceARN => Mark(29, 'e', 'e')
    case IamDatabaseAuthenticationEnabled => Mark(32, 'i', 'b') case InstanceCreateTime => Mark(18, 'i', 'T')
    case LatestRestorableTime => Mark(20, 'l', 'T') case ListenerEndpointAddress => Mark(24, 'l', 'r')
    case ListenerEndpointHostedZoneID => Mark(29, 'l', 'n') case ListenerEndpointPort => Mark(21, 'l', 'p')
    case PerformanceInsightsEnabled => Mark(26, 'p', 'b')
    case ReadReplicaSourceDBInstanceIdentifier => Mark(37, 'r', 'f') case ReplicaMode => Mark(11, 'r', 'M')
    case ResumeFullAutomationModeTime => Mark(28, 'r', 'T') case SecondaryAvailabilityZone => Mark(25, 's', 'Z')
    case PendingModified(f) => Mark(22 + FieldMark(f).length, 'p', FieldMark(f).fourthLast)
  }

  function ListMark(x: List): Mark {
    match x
    case AssociatedRolesList => Mark(15, 'a', 'o')
    case DbInstanceAutomatedBackupsReplicationsList => Mark(38, 'd', 'i')
    case DbParameterGroupsList => Mark(17, 'd', 'o') case DbSubnetGroupSubnetsList => Mark(21, 'd', 'n')
    case DomainMembershipsList => Mark(17, 'd', 'h') case EnabledCloudwatchLogsExportsList => Mark(28, 'e', 'o')
    case OptionGroupMembershipsList => Mark(22, 'o', 'h')
    case LogTypesToDisableList => Mark(68, 'p', 'a')
    case LogTypesToEnableList => Mark(67, 'p', 'a')
    case ProcessorFeatureList => Mark(38, 'p', 't')
    case ReadReplicaDBClusterIdentifiersList => Mark(31, 'r', 'i')
    case ReadReplicaDBInstanceIdentifiersList => Mark(32, 'r', 'i') case StatusInfosList => Mark(11, 's', 'n')
    case TagListList => Mark(7, 't', 'L') case VpcSecurityGroupsList => Mark(17, 'v', 'o')
  }

  ghost predicate FieldFits(f: PendingField) { Fits(FieldName(f), FieldMark(f)) }
  ghost predicate ScalarFits(s: Scalar) { Fits(ScalarName(s), ScalarMark(s)) }
  ghost predicate ListFits(l: List) { Fits(ListName(l), ListMark(l)) }

  lemma FieldsFit0()
    ensures FieldFits(NewAllocatedStorage) && FieldFits(NewAutomationMode)
    ensures FieldFits(NewBackupRetentionPeriod) && FieldFits(NewCaCertificateIdentifier)
  {}

  lemma FieldsFit1()
    ensures FieldFits(NewDbInstanceClass) && FieldFits(NewDbInstanceIdentifier)
    ensures FieldFits(NewDbSubnetGroupName) && FieldFits(NewEngineVersion)
  {}

  lemma FieldsFit2()
    ensures FieldFits(NewIamDatabaseAuthenticationEnabled) && FieldFits(NewIops)
    ensures FieldFits(NewLicenseModel)
  {}

  lemma FieldsFit3()
    ensures FieldFits(NewMasterUserPassword) && FieldFits(NewMultiAZ)
    ensures FieldFits(NewPort)
  {}

  lemma FieldsFit4()
    ensures FieldFits(NewResumeFullAutomationModeTime) && FieldFits(NewStorageType)
  {}

  lemma FieldsFit(x: PendingField)
    ensures FieldFits(x)
  {
    match x
    case NewAllocatedStorage | NewAutomationMode | NewBackupRetentionPeriod | NewCaCertificateIdentifier =>
      FieldsFit0();
    case NewDbInstanceClass | NewDbInstanceIdentifier | NewDbSubnetGroupName | NewEngineVersion =>
      FieldsFit1();
    case NewIamDatabaseAuthenticationEnabled | NewIops | NewLicenseModel =>
      FieldsFit2();
    case NewMasterUserPassword | NewMultiAZ | NewPort =>
      FieldsFit3();
    case NewResumeFullAutomationModeTime | NewStorageType =>
      FieldsFit4();
  }

  lemma ScalarsFit0()
    ensures ScalarFits(AckResourceMetadataArn) && ScalarFits(AckResourceMetadataOwnerAccountID)
    ensures ScalarFits(AckResourceMetadataRegion)
  {}

  lemma ScalarsFit1()
    ensures ScalarFits(ActivityStreamEngineNativeAuditFieldsIncluded)
  {}

  lemma ScalarsFit2()
    ensures ScalarFits(ActivityStreamKinesisStreamName) && ScalarFits(ActivityStreamKMSKeyID)
  {}

  lemma ScalarsFit3()
    ensures ScalarFits(ActivityStreamMode) && ScalarFits(ActivityStreamStatus)
    ensures ScalarFits(AutomaticRestartTime)
  {}

  lemma ScalarsFit4()
    ensures ScalarFits(AutomationMode) && ScalarFits(AwsBackupRecoveryPointARN)
  {}

  lemma ScalarsFit5()
    ensures ScalarFits(CaCertificateIdentifier) && ScalarFits(CustomerOwnedIPEnabled)
  {}

  lemma ScalarsFit6()
    ensures ScalarFits(DbInstanceStatus) && ScalarFits(DbSubnetGroupDbSubnetGroupARN)
  {}

  lemma ScalarsFit7()
    ensures ScalarFits(DbSubnetGroupDbSubnetGroupDescription)
  {}

  lemma ScalarsFit8()
    ensures ScalarFits(DbSubnetGroupDbSubnetGroupName)
  {}

  lemma ScalarsFit9()
    ensures ScalarFits(DbSubnetGroupSubnetGroupStatus) && ScalarFits(DbSubnetGroupVpcID)
  {}

  lemma ScalarsFit10()
    ensures ScalarFits(DbInstancePort) && ScalarFits(DbiResourceID)
    ensures ScalarFits(EndpointAddress)
  {}

  lemma ScalarsFit11()
    ensures ScalarFits(EndpointHostedZoneID) && ScalarFits(EndpointPort)
  {}

  lemma ScalarsFit12()
    ensures ScalarFits(EnhancedMonitoringResourceARN)
  {}

  lemma ScalarsFit13()
    ensures ScalarFits(IamDatabaseAuthenticationEnabled)
  {}

  lemma ScalarsFit14()
    ensures ScalarFits(InstanceCreateTime) && ScalarFits(LatestRestorableTime)
  {}

  lemma ScalarsFit15()
    ensures ScalarFits(ListenerEndpointAddress)
  {}

  lemma ScalarsFit16()
    ensures ScalarFits(ListenerEndpointHostedZoneID)
  {}

  lemma ScalarsFit17()
    ensures ScalarFits(ListenerEndpointPort)
  {}

  lemma ScalarsFit18()
    ensures ScalarFits(PerformanceInsightsEnabled)
  {}

  lemma ScalarsFit19()
    ensures ScalarFits(ReadReplicaSourceDBInstanceIdentifier)
  {}

  lemma ScalarsFit20()
    ensures ScalarFits(ReplicaMode)
  {}

  lemma ScalarsFit21()
    ensures ScalarFits(ResumeFullAutomationModeTime)
  {}

  lemma ScalarsFit22()
    ensures ScalarFits(SecondaryAvailabilityZone)
  {}

  lemma ScalarsFit(x: Scalar)
    ensures ScalarFits(x)
  {
    match x
    case AckResourceMetadataArn | AckResourceMetadataOwnerAccountID | AckResourceMetadataRegion =>
      ScalarsFit0();
    case ActivityStreamEngineNativeAuditFieldsIncluded =>
      ScalarsFit1();
    case ActivityStreamKinesisStreamName | ActivityStreamKMSKeyID =>
      ScalarsFit2();
    case ActivityStreamMode | ActivityStreamStatus | AutomaticRestartTime =>
      ScalarsFit3();
    case AutomationMode | AwsBackupRecoveryPointARN =>
      ScalarsFit4();
    case CaCertificateIdentifier | CustomerOwnedIPEnabled =>
      ScalarsFit5();
    case DbInstanceStatus | DbSubnetGroupDbSubnetGroupARN =>
      ScalarsFit6();
    case DbSubnetGroupDbSubnetGroupDescription =>
      ScalarsFit7();
    case DbSubnetGroupDbSubnetGroupName =>
      ScalarsFit8();
    case DbSubnetGroupSubnetGroupStatus | DbSubnetGroupVpcID =>
      ScalarsFit9();
    case DbInstancePort | DbiResourceID | EndpointAddress =>
      ScalarsFit10();
    case EndpointHostedZoneID | EndpointPort =>
      ScalarsFit11();
    case EnhancedMonitoringResourceARN =>
      ScalarsFit12();
    case IamDatabaseAuthenticationEnabled =>
      ScalarsFit13();
    case InstanceCreateTime | LatestRestorableTime =>
      ScalarsFit14();
    case ListenerEndpointAddress =>
      ScalarsFit15();
    case ListenerEndpointHostedZoneID =>
      ScalarsFit16();
    case ListenerEndpointPort =>
      ScalarsFit17();
    case PerformanceInsightsEnabled =>
      ScalarsFit18();
    case ReadReplicaSourceDBInstanceIdentifier =>
      ScalarsFit19();
    case ReplicaMode =>
      ScalarsFit20();
    case ResumeFullAutomationModeTime =>
      ScalarsFit21();
    case SecondaryAvailabilityZone =>
      ScalarsFit22();
    case PendingModified(f) =>
      FieldsFit(f);
      PendingFits(FieldName(f), FieldMark(f));
  }

  lemma ListsFit0()
    ensures ListFits(AssociatedRolesList) && ListFits(DbInstanceAutomatedBackupsReplicationsList)
    ensures ListFits(DbParameterGroupsList)
  {}

  lemma ListsFit1()
    ensures ListFits(DbSubnetGroupSubnetsList) && ListFits(DomainMembershipsList)
    ensures ListFits(EnabledCloudwatchLogsExportsList)
  {}

  lemma ListsFit2()
    ensures ListFits(OptionGroupMembershipsList) && ListFits(LogTypesToDisableList)
  {
    LogsExportsFit("logTypesToDisable", Mark(17, 'l', 'a'));
    PendingFits(LogsExports("logTypesToDisable"), Mark(46, 'p', 'a'));
  }

  lemma ListsFit3()
    ensures ListFits(LogTypesToEnableList)
  {
    LogsExportsFit("logTypesToEnable", Mark(16, 'l', 'a'));
    PendingFits(LogsExports("logTypesToEnable"), Mark(45, 'p', 'a'));
  }

  lemma ListsFit4()
    ensures ListFits(ProcessorFeatureList)
  {
    PendingFits("ProcessorFeature", Mark(16, 'P', 't'));
  }

  lemma ListsFit5()
    ensures ListFits(ReadReplicaDBClusterIdentifiersList)
  {}

  lemma ListsFit6()
    ensures ListFits(ReadReplicaDBInstanceIdentifiersList) && ListFits(StatusInfosList)
    ensures ListFits(TagListList)
  {}

  lemma ListsFit7()
    ensures ListFits(VpcSecurityGroupsList)
  {}

  lemma ListsFit(x: List)
    ensures ListFits(x)
  {
    match x
    case AssociatedRolesList | DbInstanceAutomatedBackupsReplicationsList | DbParameterGroupsList =>
      ListsFit0();
    case DbSubnetGroupSubnetsList | DomainMembershipsList | EnabledCloudwatchLogsExportsList =>
      ListsFit1();
    case OptionGroupMembershipsList | LogTypesToDisableList =>
      ListsFit2();
    case LogTypesToEnableList =>
      ListsFit3();
    case ProcessorFeatureList =>
      ListsFit4();
    case ReadReplicaDBClusterIdentifiersList =>
      ListsFit5();
    case ReadReplicaDBInstanceIdentifiersList | StatusInfosList | TagListList =>
      ListsFit6();
    case VpcSecurityGroupsList =>
      ListsFit7();
  }

  lemma FieldMarksDiffer(f: PendingField, g: PendingField)
    requires FieldMark(f).length == FieldMark(g).length && FieldMark(f).fourthLast == FieldMark(g).fourthLast
    ensures f == g
  {
  }

  lemma PendingIsNotTop(f: PendingField, t: Scalar)
    requires !t.PendingModified?
    ensures ScalarMark(PendingModified(f)) != ScalarMark(t)
  {
  }

  lemma EarlyMarksDiffer(s: Scalar, t: Scalar)
    requires !s.PendingModified? && !t.PendingModified? && ScalarMark(s) == ScalarMark(t)
    requires ScalarMark(s).first == 'a'
    ensures s == t
  {
  }

  lemma MiddleMarksDiffer(s: Scalar, t: Scalar)
    requires !s.PendingModified? && !t.PendingModified? && ScalarMark(s) == ScalarMark(t)
    requires 'a' < ScalarMark(s).first <= 'd'
    ensures s == t
  {
  }

  lemma LateMarksDiffer(s: Scalar, t: Scalar)
    requires !s.PendingModified? && !t.PendingModified? && ScalarMark(s) == ScalarMark(t)
    requires ScalarMark(s).first < 'a' || 'd' < ScalarMark(s).first
    ensures s == t
  {
  }

  lemma TopMarksDiffer(s: Scalar, t: Scalar)
    requires !s.PendingModified? && !t.PendingModified? && ScalarMark(s) == ScalarMark(t)
    ensures s == t
  {
    hide ScalarMark;
    if ScalarMark(s).first == 'a' {
      EarlyMarksDiffer(s, t);
    } else if 'a' < ScalarMark(s).first <= 'd' {
      MiddleMarksDiffer(s, t);
    } else {
      LateMarksDiffer(s, t);
    }
  }

  lemma ScalarMarksDiffer(s: Scalar, t: Scalar)
    requires ScalarMark(s) == ScalarMark(t)
    ensures s == t
  {
    if s.PendingModified? {
      if t.PendingModified? { FieldMarksDiffer(s.field, t.field); } else { PendingIsNotTop(s.field, t); }
    } else {
      if t.PendingModified? { PendingIsNotTop(t.field, s); } else { TopMarksDiffer(s, t); }
    }
  }

  lemma ListMarksDiffer(l: List, k: List)
    requires ListMark(l) == ListMark(k)
    ensures l == k
  {
  }

  /** Scalar keys are pairwise distinct and have no bracket. */
  lemma ScalarNamesDiffer(s: Scalar, t: Scalar)
    ensures '[' !in ScalarName(s)
    ensures ScalarName(s) == ScalarName(t) ==> s == t
  {
    ScalarsFit(s);
    ScalarsFit(t);
    if ScalarName(s) == ScalarName(t) { ScalarMarksDiffer(s, t); }
  }

  /** List prefixes are pairwise distinct and have no bracket. */
  lemma ListNamesDiffer(l: List, k: List)
    ensures '[' !in ListName(l)
    ensures ListName(l) == ListName(k) ==> l == k
  {
    ListsFit(l);
    ListsFit(k);
    if ListName(l) == ListName(k) { ListMarksDiffer(l, k); }
  }

  /** The leaves of one list's elements have distinct names. */
  lemma LeafNamesDiffer(f: Leaf, g: Leaf)
    requires ListOf(f) == ListOf(g) && LeafName(f) == LeafName(g)
    ensures f == g
  {
  }
}
