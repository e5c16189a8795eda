/** The `ec2/v1alpha1` NAT gateway API types, with the crossplane-runtime
    reference and selector records they embed. */
module V1alpha1 {
  import opened Aws
  import V1beta1

  /** `NatGatewayState` is a string type; the known states are the constants
      below, but a conversion from the SDK's state string accepts any value. */
  type NatGatewayState = string

  const NatGatewayStatePending: NatGatewayState := "pending"
  const NatGatewayStateFailed: NatGatewayState := "failed"
  const NatGatewayStateAvailable: NatGatewayState := "available"
  const NatGatewayStateDeleting: NatGatewayState := "deleting"
  const NatGatewayStateDeleted: NatGatewayState := "deleted"

  /** A crossplane-runtime `Reference`: the name of another managed resource. */
  datatype Reference = Reference(name: string)

  /** A crossplane-runtime `Selector`: label matchers over managed resources. */
  datatype Selector = Selector(matchLabels: map<string, string>, matchControllerRef: Option<bool>)

  /** The value of a `NatGatewayParameters` record. */
  datatype NatGatewayParams = NatGatewayParams(
    allocationId: Option<string>,
    subnetId: Option<string>,
    subnetIdRef: Option<Reference>,
    subnetIdSelector: Option<Selector>,
    tags: seq<V1beta1.Tag>)

  /** A `NatGatewayParameters` record that late-initialisation updates in
      place through a pointer. */
  class NatGatewayParameters {
    var allocationId: Option<string>
    var subnetId: Option<string>
    var subnetIdRef: Option<Reference>
    var subnetIdSelector: Option<Selector>
    var tags: seq<V1beta1.Tag>

    /** The record's current value. */
    function View(): NatGatewayParams
      reads this
    {
      NatGatewayParams(allocationId, subnetId, subnetIdRef, subnetIdSelector, tags)
    }
  }

  datatype NatGatewayAddress = NatGatewayAddress(
    allocationId: string,
    networkInterfaceId: string,
    privateIp: string,
    publicIp: string)

  /** A `metav1.Time`: a wrapper around the SDK's time value. */
  datatype MetaTime = MetaTime(time: Instant)

  /** `NatGatewayObservation`. The address list is a Go slice, which may be
      nil (`None`) as well as empty. */
  datatype NatGatewayObservation = NatGatewayObservation(
    createTime: Option<MetaTime>,
    deleteTime: Option<MetaTime>,
    failureCode: string,
    failureMessage: string,
    natGatewayAddresses: Option<seq<NatGatewayAddress>>,
    natGatewayId: string,
    state: NatGatewayState,
    subnetId: string,
    vpcId: string)
}
