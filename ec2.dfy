/** The EC2 SDK records (package `service/ec2` of aws-sdk-go-v2) read by the
    VPC and NAT gateway helpers. Every optional SDK field is an `Option`;
    enum-typed fields (`Tenancy`, `VpcState`, `NatGatewayState`, the CIDR
    block state code) are plain strings, as they are in the SDK. */
module Ec2 {
  import opened Aws

  datatype Tag = Tag(key: Option<string>, value: Option<string>)

  /** `ec2.VpcCidrBlockState`; the association records point to it, and the
      helpers dereference that pointer without a nil check, so it is taken as
      always present. */
  datatype VpcCidrBlockState = VpcCidrBlockState(state: string, statusMessage: Option<string>)

  datatype VpcCidrBlockAssociation = VpcCidrBlockAssociation(
    associationId: Option<string>,
    cidrBlock: Option<string>,
    cidrBlockState: VpcCidrBlockState)

  datatype VpcIpv6CidrBlockAssociation = VpcIpv6CidrBlockAssociation(
    associationId: Option<string>,
    ipv6CidrBlock: Option<string>,
    ipv6CidrBlockState: VpcCidrBlockState,
    ipv6Pool: Option<string>,
    networkBorderGroup: Option<string>)

  datatype Vpc = Vpc(
    cidrBlock: Option<string>,
    cidrBlockAssociationSet: seq<VpcCidrBlockAssociation>,
    dhcpOptionsId: Option<string>,
    instanceTenancy: string,
    ipv6CidrBlockAssociationSet: seq<VpcIpv6CidrBlockAssociation>,
    isDefault: Option<bool>,
    ownerId: Option<string>,
    state: string,
    tags: seq<Tag>,
    vpcId: Option<string>)

  /** `ec2.AttributeBooleanValue`: a record holding an optional bool. */
  datatype AttributeBooleanValue = AttributeBooleanValue(value: Option<bool>)

  datatype DescribeVpcAttributeOutput = DescribeVpcAttributeOutput(
    enableDnsHostnames: Option<AttributeBooleanValue>,
    enableDnsSupport: Option<AttributeBooleanValue>,
    vpcId: Option<string>)

  datatype NatGatewayAddress = NatGatewayAddress(
    allocationId: Option<string>,
    networkInterfaceId: Option<string>,
    privateIp: Option<string>,
    publicIp: Option<string>)

  datatype NatGateway = NatGateway(
    createTime: Option<Instant>,
    deleteTime: Option<Instant>,
    failureCode: Option<string>,
    failureMessage: Option<string>,
    natGatewayAddresses: seq<NatGatewayAddress>,
    natGatewayId: Option<string>,
    state: string,
    subnetId: Option<string>,
    tags: seq<Tag>,
    vpcId: Option<string>)
}
