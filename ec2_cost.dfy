// Cost submissions of the wastage service (services/wastage/cost/ec2_instance.go):
// the value map sent to the pricing service for an EC2 instance, the
// without-license operation table, and the status check of the reply.
// The HTTP call and the reply's cost computation are parameters; prices
// are reals.

module Ec2InstanceCost {
  import opened Common

  datatype Placement = Placement(tenancy: string, availabilityZone: string, hashedHostId: string)

  datatype EC2Volume = EC2Volume(
    hashedVolumeId: string,
    volumeType: string,
    availabilityZone: Option<string>,
    size: Option<int>,
    iops: Option<int>,
    throughput: Option<real>)

  datatype EC2Instance = EC2Instance(
    hashedInstanceId: string,
    instanceType: string,
    placement: Option<Placement>,
    ebsOptimized: bool,
    monitoring: Option<string>,
    instanceLifecycle: string,
    platform: string,
    usageOperation: string)

  datatype BlockDevice = BlockDevice(deviceName: string, volumeType: string, volumeSize: int, iops: int)

  /** A value of the submission's value map. */
  datatype Val =
    | VStr(s: string)
    | VBool(b: bool)
    | VDevices(devices: seq<BlockDevice>)
    | VEmptyList
    | VUsage(operatingSystem: string, operation: string, monthlyHrs: string)
    | VInt(i: int)
    | VOptReal(r: Option<real>)

  /** types.InstanceLifecycleTypeSpot */
  const SpotLifecycle: string := "spot"

  /** The usage operation without a license, per licensed operation. */
  const LicenseToNoLicense: map<string, string> := map[
    // Red Hat
    "RunInstances:00g0" := "RunInstances:00g0",
    "RunInstances:0010" := "RunInstances:00g0",
    "RunInstances:1010" := "RunInstances:00g0",
    "RunInstances:1014" := "RunInstances:00g0",
    "RunInstances:1110" := "RunInstances:00g0",
    "RunInstances:0014" := "RunInstances:00g0",
    "RunInstances:0210" := "RunInstances:00g0",
    "RunInstances:0110" := "RunInstances:00g0",
    // Windows
    "RunInstances:0002" := "RunInstances:0800",
    "RunInstances:0800" := "RunInstances:0800",
    "RunInstances:0102" := "RunInstances:0800",
    "RunInstances:0006" := "RunInstances:0800",
    "RunInstances:0202" := "RunInstances:0800",
    // Linux/UNIX
    "RunInstances" := "RunInstances",
    "RunInstances:0004" := "RunInstances",
    "RunInstances:0200" := "RunInstances",
    "RunInstances:000g" := "RunInstances",
    "RunInstances:0g00" := "RunInstances",
    "RunInstances:0100" := "RunInstances"]

  /** The three operations the table maps onto. */
  const NoLicenseOperations: set<string> := {"RunInstances:00g0", "RunInstances:0800", "RunInstances"}

  /** mapLicenseToNoLicense[op]: a missing operation reads as "". */
  function WithoutLicense(op: string): (r: string)
    ensures op !in LicenseToNoLicense ==> r == ""
    ensures op in LicenseToNoLicense ==> r in NoLicenseOperations
    // the table is idempotent: every operation it produces maps to itself
    ensures op in LicenseToNoLicense ==> r in LicenseToNoLicense && LicenseToNoLicense[r] == r
  {
    if op in LicenseToNoLicense then LicenseToNoLicense[op] else ""
  }

  /** The instance priced without its license. */
  function UnlicensedInstance(instance: EC2Instance): (r: EC2Instance)
    ensures r.usageOperation == WithoutLicense(instance.usageOperation)
    ensures r.(usageOperation := instance.usageOperation) == instance
  {
    instance.(usageOperation := WithoutLicense(instance.usageOperation))
  }

  /** The operating system sent for an instance: its platform, "Linux" when empty. */
  function OperatingSystem(instance: EC2Instance): (os: string)
    ensures instance.platform == "" ==> os == "Linux"
    ensures instance.platform != "" ==> os == instance.platform
  {
    if instance.platform != "" then instance.platform else "Linux"
  }

  /** The block-device loop: `None` is the panic on a volume without size or IOPS. */
  method BlockDevices(volumes: seq<EC2Volume>) returns (r: Option<seq<BlockDevice>>)
    ensures r.None? <==> exists i :: 0 <= i < |volumes| && (volumes[i].size.None? || volumes[i].iops.None?)
    ensures r.Some? ==> |r.value| == |volumes|
    ensures r.Some? ==> forall i :: 0 <= i < |volumes| ==> (
      r.value[i] == BlockDevice(volumes[i].hashedVolumeId, volumes[i].volumeType, volumes[i].size.value, volumes[i].iops.value))
  {
    var devices: seq<BlockDevice> := [];
    var i := 0;
    while i < |volumes|
      invariant 0 <= i <= |volumes| && |devices| == i
      invariant forall k :: 0 <= k < i ==> volumes[k].size.Some? && volumes[k].iops.Some?
      invariant forall k :: 0 <= k < i ==> (
        devices[k] == BlockDevice(volumes[k].hashedVolumeId, volumes[k].volumeType, volumes[k].size.value, volumes[k].iops.value))
    {
      var v := volumes[i];
      if v.size.None? || v.iops.None? {
        return None;
      }
      devices := devices + [BlockDevice(v.hashedVolumeId, v.volumeType, v.size.value, v.iops.value)];
      i := i + 1;
    }
    r := Some(devices);
  }

  /** The value map of GetEC2InstanceCost, filled step by step; `None` is a panic. */
  method ValuesMap(instance: EC2Instance, volumes: seq<EC2Volume>) returns (r: Option<map<string, Val>>)
    ensures r.None? <==> exists i :: 0 <= i < |volumes| && (volumes[i].size.None? || volumes[i].iops.None?)
    ensures r.Some? ==> var m := r.value;
      && m.Keys == {"instance_type", "ebs_optimized", "spot_price", "pennywise_usage", "launch_template", "ebs_block_device"}
                   + (if instance.placement.Some? then {"tenancy", "availability_zone", "host_id"} else {})
                   + (if instance.monitoring.Some? then {"monitoring"} else {})
      && m["instance_type"] == VStr(instance.instanceType)
      && m["ebs_optimized"] == VBool(instance.ebsOptimized)
      && (instance.placement.Some? ==>
            && m["tenancy"] == VStr(instance.placement.value.tenancy)
            && m["availability_zone"] == VStr(instance.placement.value.availabilityZone)
            && m["host_id"] == VStr(instance.placement.value.hashedHostId))
      && (instance.monitoring.Some? ==>
            m["monitoring"] == VBool(!(instance.monitoring.value == "disabled" || instance.monitoring.value == "disabling")))
      && m["spot_price"] == VStr(if instance.instanceLifecycle == SpotLifecycle then "Spot" else "")
      && m["pennywise_usage"] == VUsage(OperatingSystem(instance), instance.usageOperation, "730")
      && m["launch_template"] == VEmptyList
      && m["ebs_block_device"].VDevices? && |m["ebs_block_device"].devices| == |volumes|
    // one block device per volume, in volume order, with the volume's ID, type, size and IOPS
    ensures r.Some? ==> forall i :: 0 <= i < |volumes| ==>
      r.value["ebs_block_device"].devices[i]
        == BlockDevice(volumes[i].hashedVolumeId, volumes[i].volumeType, volumes[i].size.value, volumes[i].iops.value)
  {
    var values: map<string, Val> := map[];
    values := values["instance_type" := VStr(instance.instanceType)];
    if instance.placement.Some? {
      values := values["tenancy" := VStr(instance.placement.value.tenancy)];
      values := values["availability_zone" := VStr(instance.placement.value.availabilityZone)];
      values := values["host_id" := VStr(instance.placement.value.hashedHostId)];
    }
    values := values["ebs_optimized" := VBool(instance.ebsOptimized)];
    if instance.monitoring.Some? {
      if instance.monitoring.value == "disabled" || instance.monitoring.value == "disabling" {
        values := values["monitoring" := VBool(false)];
      } else {
        values := values["monitoring" := VBool(true)];
      }
    }
    var devices := BlockDevices(volumes);
    if devices.None? {
      return None;
    }
    values := values["ebs_block_device" := VDevices(devices.value)];
    values := values["launch_template" := VEmptyList];
    if instance.instanceLifecycle == SpotLifecycle {
      values := values["spot_price" := VStr("Spot")];
    } else {
      values := values["spot_price" := VStr("")];
    }
    var os := "Linux";
    if instance.platform != "" {
      os := instance.platform;
    }
    values := values["pennywise_usage" := VUsage(os, instance.usageOperation, "730")];
    r := Some(values);
  }

  /**
   * The value map of GetEBSVolumeCost; `None` is the panic on a volume
   * without availability zone, size or IOPS. The throughput is sent as is.
   */
  function EBSValuesMap(volume: EC2Volume): (r: Option<map<string, Val>>)
    ensures r.None? <==> volume.availabilityZone.None? || volume.size.None? || volume.iops.None?
    ensures r.Some? ==> r.value.Keys == {"availability_zone", "type", "size", "iops", "throughput"}
    ensures r.Some? ==> r.value["availability_zone"] == VStr(volume.availabilityZone.value)
    ensures r.Some? ==> r.value["type"] == VStr(volume.volumeType)
    ensures r.Some? ==> r.value["size"] == VInt(volume.size.value) && r.value["iops"] == VInt(volume.iops.value)
    ensures r.Some? ==> r.value["throughput"] == VOptReal(volume.throughput)
  {
    if volume.availabilityZone.None? || volume.size.None? || volume.iops.None? then None
    else Some(map[
      "availability_zone" := VStr(volume.availabilityZone.value),
      "type" := VStr(volume.volumeType),
      "size" := VInt(volume.size.value),
      "iops" := VInt(volume.iops.value),
      "throughput" := VOptReal(volume.throughput)])
  }

  /**
   * The reply check of GetEC2InstanceCost and GetEBSVolumeCost: a request
   * error, then a status other than 200, then the cost computation error.
   */
  function SubmissionCost(requestError: Option<string>, statusCode: nat, cost: Result<real>): (r: Result<real>)
    ensures requestError.Some? ==> r == Err(requestError.value)
    ensures requestError.None? && statusCode != 200 ==>
      r == Err("failed to get pennywise cost, status code = " + NatToString(statusCode))
    ensures r.Ok? <==> requestError.None? && statusCode == 200 && cost.Ok?
    ensures r.Ok? ==> r.value == cost.value
  {
    if requestError.Some? then Err(requestError.value)
    else if statusCode != 200 then Err("failed to get pennywise cost, status code = " + NatToString(statusCode))
    else cost
  }

  /**
   * EstimateLicensePrice: the cost with the instance's operation minus the
   * cost with its unlicensed operation; `costOf` prices one instance.
   */
  function EstimateLicensePrice(instance: EC2Instance, costOf: EC2Instance -> Result<real>): (r: Result<real>)
    ensures costOf(instance).Err? ==> r == costOf(instance)
    ensures r.Ok? ==> costOf(instance).Ok? && costOf(UnlicensedInstance(instance)).Ok?
    ensures r.Ok? ==> r.value == costOf(instance).value - costOf(UnlicensedInstance(instance)).value
  {
    var withLicense :- costOf(instance);
    var withoutLicense :- costOf(UnlicensedInstance(instance));
    Ok(withLicense - withoutLicense)
  }

  /** An instance already on an unlicensed operation has no license price. */
  lemma UnlicensedInstanceHasNoLicensePrice(instance: EC2Instance, costOf: EC2Instance -> Result<real>)
    requires instance.usageOperation in NoLicenseOperations
    requires costOf(instance).Ok?
    ensures EstimateLicensePrice(instance, costOf) == Ok(0.0)
  {
    assert UnlicensedInstance(instance) == instance;
  }
}
