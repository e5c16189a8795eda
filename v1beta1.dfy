/** The parts of the `ec2/v1beta1` API types that the VPC and NAT gateway
    helpers use: tags, the VPC parameters (desired state) and the VPC
    observation (observed state). */
module V1beta1 {
  import opened Aws
  import Ec2

  datatype Tag = Tag(key: string, value: string)

  /** `v1beta1.CompareTags`, whose definition is not part of this model: the
      drift predicates take it as a parameter, so nothing is assumed about it. */
  type TagComparator = (seq<Tag>, seq<Ec2.Tag>) -> bool

  /** The value of a `VPCParameters` record (the fields the helpers touch). */
  datatype VpcParams = VpcParams(
    cidrBlock: string,
    enableDnsSupport: Option<bool>,
    enableDnsHostNames: Option<bool>,
    instanceTenancy: Option<string>,
    tags: seq<Tag>)

  /** A `VPCParameters` record that late-initialisation updates in place
      through a pointer. */
  class VpcParameters {
    var cidrBlock: string
    var enableDnsSupport: Option<bool>
    var enableDnsHostNames: Option<bool>
    var instanceTenancy: Option<string>
    var tags: seq<Tag>

    /** The record's current value. */
    function View(): VpcParams
      reads this
    {
      VpcParams(cidrBlock, enableDnsSupport, enableDnsHostNames, instanceTenancy, tags)
    }
  }

  datatype VpcCidrBlockState = VpcCidrBlockState(state: string, statusMessage: string)

  datatype VpcCidrBlockAssociation = VpcCidrBlockAssociation(
    associationId: string,
    cidrBlock: string,
    cidrBlockState: VpcCidrBlockState)

  datatype VpcIpv6CidrBlockAssociation = VpcIpv6CidrBlockAssociation(
    associationId: string,
    ipv6CidrBlock: string,
    ipv6Pool: string,
    networkBorderGroup: string,
    ipv6CidrBlockState: VpcCidrBlockState)

  /** `VPCObservation`. The two association lists are Go slices, which may be
      nil (`None`) as well as empty. */
  datatype VpcObservation = VpcObservation(
    isDefault: bool,
    dhcpOptionsId: string,
    ownerId: string,
    vpcState: string,
    cidrBlockAssociationSet: Option<seq<VpcCidrBlockAssociation>>,
    ipv6CidrBlockAssociationSet: Option<seq<VpcIpv6CidrBlockAssociation>>)
}
