/** The NAT gateway reconciliation helpers of `pkg/clients/ec2/natgateway.go`:
    the not-found classifier, the drift predicate, the observation mapper and
    the late-initialiser. */
module NatGateway {
  import opened Aws
  import opened Clients
  import Ec2
  import V1beta1
  import V1alpha1
  import Vpc

  // ---------------------------------------------------------------------
  // Not-found classifier

  /** `IsNatGatewayNotFoundErr`: it tests the VPC's not-found code, not a
      NAT-gateway-specific one. `None` is a nil error. */
  function IsNatGatewayNotFoundErr(err: Option<Error>): bool {
    match err
    case Some(AwsError(code, _)) => code == Vpc.VpcIdNotFound
    case _ => false
  }

  /** The NAT gateway classifier is the VPC classifier: "not found" exactly
      for AWS errors with code `InvalidVpcID.NotFound`. An AWS error with a
      NAT-gateway-specific code is therefore not classified as "not found". */
  lemma NotFoundClassification(err: Option<Error>)
    ensures IsNatGatewayNotFoundErr(err) == Vpc.IsVPCNotFoundErr(err)
    ensures IsNatGatewayNotFoundErr(err) <==> err.Some? && err.value.AwsError? && err.value.code == "InvalidVpcID.NotFound"
    ensures err.Some? && err.value.AwsError? && err.value.code == "InvalidNatGatewayID.NotFound" ==> !IsNatGatewayNotFoundErr(err)
  {
  }

  // ---------------------------------------------------------------------
  // Drift predicate

  /** `IsNatGatewayUpToDate`: only the tags are updatable. */
  function IsNatGatewayUpToDate(spec: V1alpha1.NatGatewayParams, ng: Ec2.NatGateway, compareTags: V1beta1.TagComparator): bool {
    compareTags(spec.tags, ng.tags)
  }

  /** The verdict depends on the desired and observed tags alone: the
      allocation ID, the subnet ID, its reference and its selector, and every
      observed field but the tags, never affect it. */
  lemma UpToDateDependsOnlyOnTags(
    spec: V1alpha1.NatGatewayParams, spec': V1alpha1.NatGatewayParams,
    ng: Ec2.NatGateway, ng': Ec2.NatGateway, compareTags: V1beta1.TagComparator)
    requires spec'.tags == spec.tags && ng'.tags == ng.tags
    ensures IsNatGatewayUpToDate(spec', ng', compareTags) == IsNatGatewayUpToDate(spec, ng, compareTags)
  {
  }

  // ---------------------------------------------------------------------
  // Observation mapper

  function NatGatewayAddressOf(addr: Ec2.NatGatewayAddress): V1alpha1.NatGatewayAddress {
    V1alpha1.NatGatewayAddress(
      StringValue(addr.allocationId), StringValue(addr.networkInterfaceId),
      StringValue(addr.privateIp), StringValue(addr.publicIp))
  }

  function MetaTimeOf(t: Option<Instant>): Option<V1alpha1.MetaTime> {
    match t
    case Some(instant) => Some(V1alpha1.MetaTime(instant))
    case None => None
  }

  /** The observation of `ng`, as a value: pointers read through
      `StringValue`, the state copied verbatim, the address list projected
      element by element (and never nil), the two times wrapped when set. */
  function NatGatewayObservationOf(ng: Ec2.NatGateway): V1alpha1.NatGatewayObservation {
    var addrs := ng.natGatewayAddresses;
    V1alpha1.NatGatewayObservation(
      MetaTimeOf(ng.createTime),
      MetaTimeOf(ng.deleteTime),
      StringValue(ng.failureCode),
      StringValue(ng.failureMessage),
      Some(seq(|addrs|, i requires 0 <= i < |addrs| => NatGatewayAddressOf(addrs[i]))),
      StringValue(ng.natGatewayId),
      ng.state,
      StringValue(ng.subnetId),
      StringValue(ng.vpcId))
  }

  /** `GenerateNatGatewayObservation`: preallocates the address list with the
      input's length, sets the times that are present, then fills the list
      index by index. */
  method GenerateNatGatewayObservation(ng: Ec2.NatGateway) returns (o: V1alpha1.NatGatewayObservation)
    ensures o == NatGatewayObservationOf(ng)
    ensures o.failureCode == StringValue(ng.failureCode) && o.failureMessage == StringValue(ng.failureMessage)
    ensures o.natGatewayId == StringValue(ng.natGatewayId) && o.subnetId == StringValue(ng.subnetId)
    ensures o.vpcId == StringValue(ng.vpcId) && o.state == ng.state
    ensures o.createTime.Some? <==> ng.createTime.Some?
    ensures o.createTime.Some? ==> o.createTime.value.time == ng.createTime.value
    ensures o.deleteTime.Some? <==> ng.deleteTime.Some?
    ensures o.deleteTime.Some? ==> o.deleteTime.value.time == ng.deleteTime.value
    ensures o.natGatewayAddresses.Some? && |o.natGatewayAddresses.value| == |ng.natGatewayAddresses|
    ensures forall i :: 0 <= i < |ng.natGatewayAddresses| ==>
      o.natGatewayAddresses.value[i] == NatGatewayAddressOf(ng.natGatewayAddresses[i])
  {
    var addrs := ng.natGatewayAddresses;
    var out := new V1alpha1.NatGatewayAddress[|addrs|];
    o := V1alpha1.NatGatewayObservation(
      None, None, StringValue(ng.failureCode), StringValue(ng.failureMessage), None,
      StringValue(ng.natGatewayId), ng.state, StringValue(ng.subnetId), StringValue(ng.vpcId));

    if ng.createTime.Some? {
      o := o.(createTime := Some(V1alpha1.MetaTime(ng.createTime.value)));
    }
    if ng.deleteTime.Some? {
      o := o.(deleteTime := Some(V1alpha1.MetaTime(ng.deleteTime.value)));
    }

    for i := 0 to |addrs|
      invariant forall k :: 0 <= k < i ==> out[k] == NatGatewayAddressOf(addrs[k])
    {
      var addr := addrs[i];
      out[i] := V1alpha1.NatGatewayAddress(
        StringValue(addr.allocationId), StringValue(addr.networkInterfaceId),
        StringValue(addr.privateIp), StringValue(addr.publicIp));
    }
    assert out[..] == seq(|addrs|, i requires 0 <= i < |addrs| => NatGatewayAddressOf(addrs[i]));
    o := o.(natGatewayAddresses := Some(out[..]));
  }

  /** An SDK snapshot whose every pointer is set, built from an observation;
      the tags, which the observation does not keep, are left empty. */
  function NatGatewaySnapshotOf(o: V1alpha1.NatGatewayObservation): Ec2.NatGateway {
    var addrs := if o.natGatewayAddresses.Some? then o.natGatewayAddresses.value else [];
    Ec2.NatGateway(
      if o.createTime.Some? then Some(o.createTime.value.time) else None,
      if o.deleteTime.Some? then Some(o.deleteTime.value.time) else None,
      Some(o.failureCode),
      Some(o.failureMessage),
      seq(|addrs|, i requires 0 <= i < |addrs| =>
        Ec2.NatGatewayAddress(Some(addrs[i].allocationId), Some(addrs[i].networkInterfaceId),
          Some(addrs[i].privateIp), Some(addrs[i].publicIp))),
      Some(o.natGatewayId),
      o.state,
      Some(o.subnetId),
      [],
      Some(o.vpcId))
  }

  /** Every observation with a non-nil address list is the observation of
      the snapshot `NatGatewaySnapshotOf(o)`; one with a nil list is the
      observation of no snapshot, as the mapper's list is never nil. */
  lemma {:induction false} NatGatewayObservationRoundTrip(o: V1alpha1.NatGatewayObservation)
    requires o.natGatewayAddresses.Some?
    ensures NatGatewayObservationOf(NatGatewaySnapshotOf(o)) == o
  {
    var o' := NatGatewayObservationOf(NatGatewaySnapshotOf(o));
    var addrs := o.natGatewayAddresses.value;
    var got := o'.natGatewayAddresses.value;
    assert forall i | 0 <= i < |addrs| :: got[i] == addrs[i];
    assert got == addrs;
  }

  // ---------------------------------------------------------------------
  // Late-initialiser

  /** `LateInitializeNatGateway` on values: only `SubnetID` may change, and
      only from unset to the observed subnet. */
  function LateInitNatGateway(p: V1alpha1.NatGatewayParams, ng: Option<Ec2.NatGateway>): (r: V1alpha1.NatGatewayParams)
    ensures ng.None? ==> r == p
    ensures r == p.(subnetId := r.subnetId)
    ensures p.subnetId.Some? ==> r.subnetId == p.subnetId
    ensures ng.Some? && p.subnetId.None? ==> r.subnetId == ng.value.subnetId
  {
    if ng.None? then p
    else p.(subnetId := LateInitializeStringPtr(p.subnetId, ng.value.subnetId))
  }

  /** `LateInitializeNatGateway`, assigning `SubnetID` through the pointer
      to the parameters record; no other field is written. */
  method LateInitializeNatGateway(p: V1alpha1.NatGatewayParameters, ng: Option<Ec2.NatGateway>)
    modifies p`subnetId
    ensures p.View() == LateInitNatGateway(old(p.View()), ng)
  {
    if ng.None? {
      return;
    }
    p.subnetId := LateInitializeStringPtr(p.subnetId, ng.value.subnetId);
  }

  /** Applying the late-initialiser twice gives the result of applying it
      once. */
  lemma LateInitNatGatewayIdempotent(p: V1alpha1.NatGatewayParams, ng: Option<Ec2.NatGateway>)
    ensures LateInitNatGateway(LateInitNatGateway(p, ng), ng) == LateInitNatGateway(p, ng)
  {
  }

  /** Late-initialisation never changes the drift verdict: it leaves the
      tags, the only updatable field, alone. */
  lemma LateInitPreservesUpToDate(
    p: V1alpha1.NatGatewayParams, ng: Ec2.NatGateway, compareTags: V1beta1.TagComparator)
    ensures IsNatGatewayUpToDate(LateInitNatGateway(p, Some(ng)), ng, compareTags) == IsNatGatewayUpToDate(p, ng, compareTags)
  {
  }

  /** After late-initialisation from a gateway, an unset desired subnet
      reads as the subnet the observation reports. */
  lemma LateInitSubnetMatchesObservation(p: V1alpha1.NatGatewayParams, ng: Ec2.NatGateway)
    requires p.subnetId.None?
    ensures StringValue(LateInitNatGateway(p, Some(ng)).subnetId) == NatGatewayObservationOf(ng).subnetId
  {
  }
}
