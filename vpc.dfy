/** The VPC reconciliation helpers of `pkg/clients/ec2/vpc.go`: the not-found
    classifier, the drift predicate, the observation mapper and the
    late-initialiser. */
module Vpc {
  import opened Aws
  import opened Clients
  import Ec2
  import V1beta1

  /** The code EC2 returns when the given VPC ID is not valid. */
  const VpcIdNotFound: string := "InvalidVpcID.NotFound"

  // ---------------------------------------------------------------------
  // Not-found classifier

  /** `IsVPCNotFoundErr`; `None` is a nil error. */
  function IsVPCNotFoundErr(err: Option<Error>): bool {
    match err
    case Some(AwsError(code, _)) => code == VpcIdNotFound
    case _ => false
  }

  /** The classifier says "not found" for exactly the AWS errors whose code is
      `InvalidVpcID.NotFound`, whatever their message; a nil error, a non-AWS
      error and an AWS error with any other code are not "not found". */
  lemma NotFoundClassification(err: Option<Error>)
    ensures IsVPCNotFoundErr(err) <==> err.Some? && err.value.AwsError? && err.value.code == VpcIdNotFound
    ensures err.None? ==> !IsVPCNotFoundErr(err)
    ensures err.Some? && err.value.OtherError? ==> !IsVPCNotFoundErr(err)
  {
  }

  // ---------------------------------------------------------------------
  // Drift predicate

  /** The updatable fields that the drift predicate compares, with an unset
      pointer read as its zero value. */
  datatype UpdatableFields = UpdatableFields(instanceTenancy: string, enableDnsHostNames: bool, enableDnsSupport: bool)

  function DesiredFields(spec: V1beta1.VpcParams): UpdatableFields {
    UpdatableFields(StringValue(spec.instanceTenancy), BoolValue(spec.enableDnsHostNames), BoolValue(spec.enableDnsSupport))
  }

  function ObservedFields(vpc: Ec2.Vpc, attributes: Ec2.DescribeVpcAttributeOutput): UpdatableFields
    requires attributes.enableDnsHostnames.Some? && attributes.enableDnsSupport.Some?
  {
    UpdatableFields(
      vpc.instanceTenancy,
      BoolValue(attributes.enableDnsHostnames.value.value),
      BoolValue(attributes.enableDnsSupport.value.value))
  }

  /** The inputs on which `IsVpcUpToDate` returns instead of dereferencing
      a nil attribute record: the hostnames record is read only once the
      tenancy matches, and the support record only once the hostnames flag
      matches as well (the `||` stops at the first mismatch). */
  predicate DriftCheckReadsOnlyPresentRecords(spec: V1beta1.VpcParams, vpc: Ec2.Vpc, attributes: Ec2.DescribeVpcAttributeOutput) {
    StringValue(spec.instanceTenancy) == vpc.instanceTenancy ==>
      attributes.enableDnsHostnames.Some?
      && (BoolValue(spec.enableDnsHostNames) == BoolValue(attributes.enableDnsHostnames.value.value) ==>
            attributes.enableDnsSupport.Some?)
  }

  /** `IsVpcUpToDate`: true when there is no updatable difference between the
      desired and the observed VPC. The Go code dereferences the attribute
      records without a nil check, so a record it reaches must be present. */
  function IsVpcUpToDate(
    spec: V1beta1.VpcParams, vpc: Ec2.Vpc, attributes: Ec2.DescribeVpcAttributeOutput,
    compareTags: V1beta1.TagComparator): (r: bool)
    requires DriftCheckReadsOnlyPresentRecords(spec, vpc, attributes)
    ensures StringValue(spec.instanceTenancy) != vpc.instanceTenancy ==> !r
    ensures (attributes.enableDnsHostnames.Some?
             && BoolValue(spec.enableDnsHostNames) != BoolValue(attributes.enableDnsHostnames.value.value)) ==> !r
    ensures r ==> attributes.enableDnsHostnames.Some? && attributes.enableDnsSupport.Some?
    ensures attributes.enableDnsHostnames.Some? && attributes.enableDnsSupport.Some? ==>
      (r <==> DesiredFields(spec) == ObservedFields(vpc, attributes) && compareTags(spec.tags, vpc.tags))
  {
    if StringValue(spec.instanceTenancy) != vpc.instanceTenancy then
      false
    else if BoolValue(spec.enableDnsHostNames) != BoolValue(attributes.enableDnsHostnames.value.value)
         || BoolValue(spec.enableDnsSupport) != BoolValue(attributes.enableDnsSupport.value.value) then
      false
    else
      compareTags(spec.tags, vpc.tags)
  }

  /** Each of the three field checks on its own reports drift, whether or
      not the records it never reaches are present, and once all three pass
      the verdict is the tag comparison's. */
  lemma DriftCases(
    spec: V1beta1.VpcParams, vpc: Ec2.Vpc, attributes: Ec2.DescribeVpcAttributeOutput,
    compareTags: V1beta1.TagComparator)
    requires DriftCheckReadsOnlyPresentRecords(spec, vpc, attributes)
    ensures StringValue(spec.instanceTenancy) != vpc.instanceTenancy ==> !IsVpcUpToDate(spec, vpc, attributes, compareTags)
    ensures attributes.enableDnsHostnames.Some?
      && BoolValue(spec.enableDnsHostNames) != BoolValue(attributes.enableDnsHostnames.value.value)
      ==> !IsVpcUpToDate(spec, vpc, attributes, compareTags)
    ensures attributes.enableDnsSupport.Some?
      && BoolValue(spec.enableDnsSupport) != BoolValue(attributes.enableDnsSupport.value.value)
      ==> !IsVpcUpToDate(spec, vpc, attributes, compareTags)
    ensures attributes.enableDnsHostnames.Some? && attributes.enableDnsSupport.Some?
      && DesiredFields(spec) == ObservedFields(vpc, attributes)
      ==> IsVpcUpToDate(spec, vpc, attributes, compareTags) == compareTags(spec.tags, vpc.tags)
  {
  }

  /** The drift predicate does not look at the desired CIDR block, nor at any
      observed field other than tenancy, tags and the two DNS attributes. */
  lemma UpToDateIgnoresOtherFields(
    spec: V1beta1.VpcParams, cidrBlock: string, vpc: Ec2.Vpc, vpc': Ec2.Vpc,
    attributes: Ec2.DescribeVpcAttributeOutput, compareTags: V1beta1.TagComparator)
    requires DriftCheckReadsOnlyPresentRecords(spec, vpc, attributes)
    requires vpc'.instanceTenancy == vpc.instanceTenancy && vpc'.tags == vpc.tags
    ensures DriftCheckReadsOnlyPresentRecords(spec.(cidrBlock := cidrBlock), vpc', attributes)
    ensures IsVpcUpToDate(spec.(cidrBlock := cidrBlock), vpc', attributes, compareTags)
         == IsVpcUpToDate(spec, vpc, attributes, compareTags)
  {
  }

  // ---------------------------------------------------------------------
  // Observation mapper

  function CidrBlockStateOf(s: Ec2.VpcCidrBlockState): V1beta1.VpcCidrBlockState {
    V1beta1.VpcCidrBlockState(s.state, StringValue(s.statusMessage))
  }

  function CidrBlockAssociationOf(v: Ec2.VpcCidrBlockAssociation): V1beta1.VpcCidrBlockAssociation {
    V1beta1.VpcCidrBlockAssociation(StringValue(v.associationId), StringValue(v.cidrBlock), CidrBlockStateOf(v.cidrBlockState))
  }

  function Ipv6CidrBlockAssociationOf(v: Ec2.VpcIpv6CidrBlockAssociation): V1beta1.VpcIpv6CidrBlockAssociation {
    V1beta1.VpcIpv6CidrBlockAssociation(
      StringValue(v.associationId), StringValue(v.ipv6CidrBlock), StringValue(v.ipv6Pool),
      StringValue(v.networkBorderGroup), CidrBlockStateOf(v.ipv6CidrBlockState))
  }

  /** The observation of `vpc`, as a value: scalar pointers read through
      `StringValue`/`BoolValue`, each non-empty association list projected
      element by element, an empty one left nil. */
  function VpcObservationOf(vpc: Ec2.Vpc): V1beta1.VpcObservation {
    var cidrs := vpc.cidrBlockAssociationSet;
    var ipv6 := vpc.ipv6CidrBlockAssociationSet;
    V1beta1.VpcObservation(
      BoolValue(vpc.isDefault),
      StringValue(vpc.dhcpOptionsId),
      StringValue(vpc.ownerId),
      vpc.state,
      if |cidrs| > 0 then Some(seq(|cidrs|, i requires 0 <= i < |cidrs| => CidrBlockAssociationOf(cidrs[i]))) else None,
      if |ipv6| > 0 then Some(seq(|ipv6|, i requires 0 <= i < |ipv6| => Ipv6CidrBlockAssociationOf(ipv6[i]))) else None)
  }

  /** `GenerateVpcObservation`: allocates each output list with the input's
      length and fills it index by index. */
  method GenerateVpcObservation(vpc: Ec2.Vpc) returns (o: V1beta1.VpcObservation)
    ensures o == VpcObservationOf(vpc)
    ensures o.isDefault == BoolValue(vpc.isDefault) && o.vpcState == vpc.state
    ensures o.dhcpOptionsId == StringValue(vpc.dhcpOptionsId) && o.ownerId == StringValue(vpc.ownerId)
    ensures o.cidrBlockAssociationSet.None? <==> |vpc.cidrBlockAssociationSet| == 0
    ensures o.cidrBlockAssociationSet.Some? ==>
      |o.cidrBlockAssociationSet.value| == |vpc.cidrBlockAssociationSet|
      && forall i :: 0 <= i < |vpc.cidrBlockAssociationSet| ==>
           o.cidrBlockAssociationSet.value[i] == CidrBlockAssociationOf(vpc.cidrBlockAssociationSet[i])
    ensures o.ipv6CidrBlockAssociationSet.None? <==> |vpc.ipv6CidrBlockAssociationSet| == 0
    ensures o.ipv6CidrBlockAssociationSet.Some? ==>
      |o.ipv6CidrBlockAssociationSet.value| == |vpc.ipv6CidrBlockAssociationSet|
      && forall i :: 0 <= i < |vpc.ipv6CidrBlockAssociationSet| ==>
           o.ipv6CidrBlockAssociationSet.value[i] == Ipv6CidrBlockAssociationOf(vpc.ipv6CidrBlockAssociationSet[i])
  {
    o := V1beta1.VpcObservation(
      BoolValue(vpc.isDefault), StringValue(vpc.dhcpOptionsId), StringValue(vpc.ownerId), vpc.state, None, None);

    var cidrs := vpc.cidrBlockAssociationSet;
    if |cidrs| > 0 {
      var out := new V1beta1.VpcCidrBlockAssociation[|cidrs|];
      for i := 0 to |cidrs|
        invariant forall k :: 0 <= k < i ==> out[k] == CidrBlockAssociationOf(cidrs[k])
      {
        var v := cidrs[i];
        out[i] := V1beta1.VpcCidrBlockAssociation(StringValue(v.associationId), StringValue(v.cidrBlock), out[i].cidrBlockState);
        out[i] := out[i].(cidrBlockState := V1beta1.VpcCidrBlockState(v.cidrBlockState.state, StringValue(v.cidrBlockState.statusMessage)));
      }
      assert out[..] == seq(|cidrs|, i requires 0 <= i < |cidrs| => CidrBlockAssociationOf(cidrs[i]));
      o := o.(cidrBlockAssociationSet := Some(out[..]));
    }

    var ipv6 := vpc.ipv6CidrBlockAssociationSet;
    if |ipv6| > 0 {
      var out := new V1beta1.VpcIpv6CidrBlockAssociation[|ipv6|];
      for i := 0 to |ipv6|
        invariant forall k :: 0 <= k < i ==> out[k] == Ipv6CidrBlockAssociationOf(ipv6[k])
      {
        var v := ipv6[i];
        out[i] := V1beta1.VpcIpv6CidrBlockAssociation(
          StringValue(v.associationId), StringValue(v.ipv6CidrBlock), StringValue(v.ipv6Pool),
          StringValue(v.networkBorderGroup), out[i].ipv6CidrBlockState);
        out[i] := out[i].(ipv6CidrBlockState := V1beta1.VpcCidrBlockState(v.ipv6CidrBlockState.state, StringValue(v.ipv6CidrBlockState.statusMessage)));
      }
      assert out[..] == seq(|ipv6|, i requires 0 <= i < |ipv6| => Ipv6CidrBlockAssociationOf(ipv6[i]));
      o := o.(ipv6CidrBlockAssociationSet := Some(out[..]));
    }
  }

  /** An SDK snapshot whose every pointer is set, built from an observation;
      the fields the observation does not keep are left zero. */
  function VpcSnapshotOf(o: V1beta1.VpcObservation): Ec2.Vpc {
    var cidrs := if o.cidrBlockAssociationSet.Some? then o.cidrBlockAssociationSet.value else [];
    var ipv6 := if o.ipv6CidrBlockAssociationSet.Some? then o.ipv6CidrBlockAssociationSet.value else [];
    Ec2.Vpc(
      None,
      seq(|cidrs|, i requires 0 <= i < |cidrs| =>
        Ec2.VpcCidrBlockAssociation(Some(cidrs[i].associationId), Some(cidrs[i].cidrBlock),
          Ec2.VpcCidrBlockState(cidrs[i].cidrBlockState.state, Some(cidrs[i].cidrBlockState.statusMessage)))),
      Some(o.dhcpOptionsId),
      "",
      seq(|ipv6|, i requires 0 <= i < |ipv6| =>
        Ec2.VpcIpv6CidrBlockAssociation(Some(ipv6[i].associationId), Some(ipv6[i].ipv6CidrBlock),
          Ec2.VpcCidrBlockState(ipv6[i].ipv6CidrBlockState.state, Some(ipv6[i].ipv6CidrBlockState.statusMessage)),
          Some(ipv6[i].ipv6Pool), Some(ipv6[i].networkBorderGroup))),
      Some(o.isDefault),
      Some(o.ownerId),
      o.vpcState,
      [],
      None)
  }

  /** Every observation whose lists are nil or non-empty is the observation
      of the snapshot `VpcSnapshotOf(o)`; by `NoEmptyObservedLists`, one
      holding an empty, non-nil list is the observation of no snapshot. */
  lemma {:induction false} VpcObservationRoundTrip(o: V1beta1.VpcObservation)
    requires o.cidrBlockAssociationSet != Some([])
    requires o.ipv6CidrBlockAssociationSet != Some([])
    ensures VpcObservationOf(VpcSnapshotOf(o)) == o
  {
    var o' := VpcObservationOf(VpcSnapshotOf(o));
    if o.cidrBlockAssociationSet.Some? {
      var cidrs := o.cidrBlockAssociationSet.value;
      assert |cidrs| > 0;
      var got := o'.cidrBlockAssociationSet.value;
      assert forall i | 0 <= i < |cidrs| :: got[i] == cidrs[i];
      assert got == cidrs;
    }
    if o.ipv6CidrBlockAssociationSet.Some? {
      var ipv6 := o.ipv6CidrBlockAssociationSet.value;
      assert |ipv6| > 0;
      var got := o'.ipv6CidrBlockAssociationSet.value;
      assert forall i | 0 <= i < |ipv6| :: got[i] == ipv6[i];
      assert got == ipv6;
    }
  }

  /** No snapshot is observed with an empty, non-nil association list. */
  lemma NoEmptyObservedLists(vpc: Ec2.Vpc)
    ensures VpcObservationOf(vpc).cidrBlockAssociationSet != Some([])
    ensures VpcObservationOf(vpc).ipv6CidrBlockAssociationSet != Some([])
  {
  }

  // ---------------------------------------------------------------------
  // Late-initialiser

  /** The parameters after a late-initialisation call, and how the call ended. */
  datatype LateInit = LateInit(params: V1beta1.VpcParams, exit: Exit)

  /** `q` keeps every field that is already set in `p`. */
  ghost predicate KeepsSetFields(p: V1beta1.VpcParams, q: V1beta1.VpcParams) {
    && (p.cidrBlock != "" ==> q.cidrBlock == p.cidrBlock)
    && (p.instanceTenancy.Some? ==> q.instanceTenancy == p.instanceTenancy)
    && (p.enableDnsHostNames.Some? ==> q.enableDnsHostNames == p.enableDnsHostNames)
    && (p.enableDnsSupport.Some? ==> q.enableDnsSupport == p.enableDnsSupport)
    && q.tags == p.tags
  }

  /** `LateInitializeVPC` as written, on values. `v` and `attributes` are the
      two pointers the Go code receives. The late-initialisation of
      `EnableDNSSupport` is guarded by the presence of the *hostnames*
      attribute record, so a present hostnames record with a nil support
      record dereferences nil; so does a nil `attributes` with a non-nil
      `v`. A panic leaves the updates made before it in place. */
  function LateInitVpc(p: V1beta1.VpcParams, v: Option<Ec2.Vpc>, attributes: Option<Ec2.DescribeVpcAttributeOutput>): (r: LateInit)
    ensures v.None? ==> r == LateInit(p, Returned)
    ensures KeepsSetFields(p, r.params)
    ensures v.Some? ==> r.params.instanceTenancy.Some?
    ensures v.Some? && p.cidrBlock == "" ==> r.params.cidrBlock == StringValue(v.value.cidrBlock)
    ensures v.Some? && p.instanceTenancy.None? ==> r.params.instanceTenancy == Some(v.value.instanceTenancy)
    ensures r.exit == NilDereference <==>
      v.Some? && (attributes.None? || (attributes.value.enableDnsHostnames.Some? && attributes.value.enableDnsSupport.None?))
    ensures attributes.None? || attributes.value.enableDnsHostnames.None? ==>
      r.params.enableDnsHostNames == p.enableDnsHostNames && r.params.enableDnsSupport == p.enableDnsSupport
    ensures v.Some? && attributes.Some? && attributes.value.enableDnsHostnames.Some? && p.enableDnsHostNames.None? ==>
      r.params.enableDnsHostNames == attributes.value.enableDnsHostnames.value.value
    ensures r.exit == Returned && v.Some? && attributes.value.enableDnsHostnames.Some? && p.enableDnsSupport.None? ==>
      r.params.enableDnsSupport == attributes.value.enableDnsSupport.value.value
    ensures r.exit == NilDereference ==> r.params.enableDnsSupport == p.enableDnsSupport
  {
    if v.None? then LateInit(p, Returned)
    else
      var p := p.(cidrBlock := LateInitializeString(p.cidrBlock, v.value.cidrBlock));
      var p := p.(instanceTenancy := LateInitializeStringPtr(p.instanceTenancy, String(v.value.instanceTenancy)));
      if attributes.None? then LateInit(p, NilDereference)
      else
        var a := attributes.value;
        var p := if a.enableDnsHostnames.Some?
          then p.(enableDnsHostNames := LateInitializeBoolPtr(p.enableDnsHostNames, a.enableDnsHostnames.value.value))
          else p;
        if a.enableDnsHostnames.None? then LateInit(p, Returned)
        else if a.enableDnsSupport.None? then LateInit(p, NilDereference)
        else LateInit(p.(enableDnsSupport := LateInitializeBoolPtr(p.enableDnsSupport, a.enableDnsSupport.value.value)), Returned)
  }

  /** `LateInitializeVPC`, updating the parameters record in place step by
      step; `exit` says whether the Go code would have panicked, and the
      record then holds the updates made before the panic. */
  method LateInitializeVPC(p: V1beta1.VpcParameters, v: Option<Ec2.Vpc>, attributes: Option<Ec2.DescribeVpcAttributeOutput>)
    returns (exit: Exit)
    modifies p`cidrBlock, p`instanceTenancy, p`enableDnsHostNames, p`enableDnsSupport
    ensures LateInit(p.View(), exit) == LateInitVpc(old(p.View()), v, attributes)
  {
    if v.None? {
      return Returned;
    }
    p.cidrBlock := LateInitializeString(p.cidrBlock, v.value.cidrBlock);
    p.instanceTenancy := LateInitializeStringPtr(p.instanceTenancy, String(v.value.instanceTenancy));
    if attributes.None? {
      return NilDereference;
    }
    if attributes.value.enableDnsHostnames.Some? {
      p.enableDnsHostNames := LateInitializeBoolPtr(p.enableDnsHostNames, attributes.value.enableDnsHostnames.value.value);
    }
    if attributes.value.enableDnsHostnames.Some? {
      if attributes.value.enableDnsSupport.None? {
        return NilDereference;
      }
      p.enableDnsSupport := LateInitializeBoolPtr(p.enableDnsSupport, attributes.value.enableDnsSupport.value.value);
    }
    return Returned;
  }

  /** Running the late-initialiser on its own result changes nothing and ends
      the same way. */
  lemma LateInitVpcIdempotent(p: V1beta1.VpcParams, v: Option<Ec2.Vpc>, attributes: Option<Ec2.DescribeVpcAttributeOutput>)
    ensures LateInitVpc(LateInitVpc(p, v, attributes).params, v, attributes) == LateInitVpc(p, v, attributes)
  {
  }

  /** `LateInitializeVPC` with the guard of its last step testing the support
      attribute record it reads, which is what the code evidently intends.
      A nil `attributes` with a non-nil `v` still dereferences nil, as the
      Go code does not check that pointer either. */
  function LateInitVpcCorrected(p: V1beta1.VpcParams, v: Option<Ec2.Vpc>, attributes: Option<Ec2.DescribeVpcAttributeOutput>): (r: LateInit)
    ensures v.None? ==> r == LateInit(p, Returned)
    ensures KeepsSetFields(p, r.params)
    ensures v.Some? ==> r.params.instanceTenancy.Some?
    ensures v.Some? && p.cidrBlock == "" ==> r.params.cidrBlock == StringValue(v.value.cidrBlock)
    ensures v.Some? && p.instanceTenancy.None? ==> r.params.instanceTenancy == Some(v.value.instanceTenancy)
    ensures r.exit == NilDereference <==> v.Some? && attributes.None?
    ensures attributes.None? ==>
      r.params.enableDnsHostNames == p.enableDnsHostNames && r.params.enableDnsSupport == p.enableDnsSupport
    ensures attributes.Some? && attributes.value.enableDnsHostnames.None? ==> r.params.enableDnsHostNames == p.enableDnsHostNames
    ensures attributes.Some? && attributes.value.enableDnsSupport.None? ==> r.params.enableDnsSupport == p.enableDnsSupport
    ensures v.Some? && attributes.Some? && attributes.value.enableDnsHostnames.Some? && p.enableDnsHostNames.None? ==>
      r.params.enableDnsHostNames == attributes.value.enableDnsHostnames.value.value
    ensures v.Some? && attributes.Some? && attributes.value.enableDnsSupport.Some? && p.enableDnsSupport.None? ==>
      r.params.enableDnsSupport == attributes.value.enableDnsSupport.value.value
  {
    if v.None? then LateInit(p, Returned)
    else
      var p := p.(cidrBlock := LateInitializeString(p.cidrBlock, v.value.cidrBlock));
      var p := p.(instanceTenancy := LateInitializeStringPtr(p.instanceTenancy, String(v.value.instanceTenancy)));
      if attributes.None? then LateInit(p, NilDereference)
      else
        var a := attributes.value;
        var p := if a.enableDnsHostnames.Some?
          then p.(enableDnsHostNames := LateInitializeBoolPtr(p.enableDnsHostNames, a.enableDnsHostnames.value.value))
          else p;
        var p := if a.enableDnsSupport.Some?
          then p.(enableDnsSupport := LateInitializeBoolPtr(p.enableDnsSupport, a.enableDnsSupport.value.value))
          else p;
        LateInit(p, Returned)
  }

  /** The corrected late-initialiser is idempotent too. */
  lemma LateInitVpcCorrectedIdempotent(p: V1beta1.VpcParams, v: Option<Ec2.Vpc>, attributes: Option<Ec2.DescribeVpcAttributeOutput>)
    ensures LateInitVpcCorrected(LateInitVpcCorrected(p, v, attributes).params, v, attributes) == LateInitVpcCorrected(p, v, attributes)
  {
  }

  /** The code as written and the corrected code agree whenever the two
      attribute records are both present or both absent. */
  lemma LateInitVpcAgreesWhenAttributesPaired(p: V1beta1.VpcParams, v: Option<Ec2.Vpc>, attributes: Option<Ec2.DescribeVpcAttributeOutput>)
    requires attributes.Some? ==> (attributes.value.enableDnsHostnames.Some? <==> attributes.value.enableDnsSupport.Some?)
    ensures LateInitVpc(p, v, attributes) == LateInitVpcCorrected(p, v, attributes)
  {
  }

  /** Two inputs on which the code as written misbehaves: a hostnames
      record without a support record panics, and a support record without a
      hostnames record is never used to fill an unset `EnableDNSSupport`. */
  lemma SupportGuardCounterexamples()
    ensures
      var v := Some(Ec2.Vpc(None, [], None, "default", [], None, None, "available", [], None));
      var p := V1beta1.VpcParams("", None, None, None, []);
      var hostnamesOnly := Some(Ec2.DescribeVpcAttributeOutput(Some(Ec2.AttributeBooleanValue(Some(true))), None, None));
      var supportOnly := Some(Ec2.DescribeVpcAttributeOutput(None, Some(Ec2.AttributeBooleanValue(Some(true))), None));
      && LateInitVpc(p, v, hostnamesOnly).exit == NilDereference
      && LateInitVpcCorrected(p, v, hostnamesOnly).exit == Returned
      && LateInitVpc(p, v, supportOnly).params.enableDnsSupport == None
      && LateInitVpcCorrected(p, v, supportOnly).params.enableDnsSupport == Some(true)
  {
  }

  /** After the late-initialiser as written has run against the observed
      VPC and both its attribute records, every updatable field the user left
      unset agrees with the observation, so drift can only come from fields
      the user set and from tags. With both records present the corrected
      late-initialiser gives the same record
      (`LateInitVpcAgreesWhenAttributesPaired`). */
  lemma LateInitLeavesNoDriftInUnsetFields(
    p: V1beta1.VpcParams, vpc: Ec2.Vpc, attributes: Ec2.DescribeVpcAttributeOutput)
    requires attributes.enableDnsHostnames.Some? && attributes.enableDnsSupport.Some?
    ensures
      var q := LateInitVpc(p, Some(vpc), Some(attributes)).params;
      && (p.instanceTenancy.None? ==> DesiredFields(q).instanceTenancy == ObservedFields(vpc, attributes).instanceTenancy)
      && (p.enableDnsHostNames.None? ==> DesiredFields(q).enableDnsHostNames == ObservedFields(vpc, attributes).enableDnsHostNames)
      && (p.enableDnsSupport.None? ==> DesiredFields(q).enableDnsSupport == ObservedFields(vpc, attributes).enableDnsSupport)
      && q.tags == p.tags
  {
  }

  /** In particular a desired state that sets none of the updatable fields
      is, after late-initialisation, up to date exactly when its tags are. */
  lemma LateInitOfUnsetSpecIsUpToDate(
    p: V1beta1.VpcParams, vpc: Ec2.Vpc, attributes: Ec2.DescribeVpcAttributeOutput,
    compareTags: V1beta1.TagComparator)
    requires attributes.enableDnsHostnames.Some? && attributes.enableDnsSupport.Some?
    requires p.instanceTenancy.None? && p.enableDnsHostNames.None? && p.enableDnsSupport.None?
    ensures IsVpcUpToDate(LateInitVpc(p, Some(vpc), Some(attributes)).params, vpc, attributes, compareTags)
         == compareTags(p.tags, vpc.tags)
  {
  }
}
