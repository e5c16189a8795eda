# EC2 VPC and NAT gateway reconciliation helpers

A Dafny model of the per-resource helpers that the crossplane AWS provider
uses to reconcile two EC2 resource kinds, VPCs and NAT gateways. For each
kind there are four routines:

- a **not-found classifier**, which tells whether an error means that the
  external resource does not exist;
- a **drift predicate**, which compares the desired updatable fields with
  the observed ones;
- an **observation mapper**, which projects an SDK snapshot made of optional
  pointers into a plain observation record;
- a **late-initialiser**, which fills the desired-state fields the user left
  unset with observed values, in place.

Modules follow the program: `Aws` (pointers as `Option`, `aws.StringValue`
and `aws.BoolValue`, errors, and the `Exit` of a call that may panic on a nil
pointer), `Ec2` (the SDK records), `Clients` (the `awsclients`
late-initialisation helpers), `V1beta1` and `V1alpha1` (the API types), and
`Vpc` (`pkg/clients/ec2/vpc.go`) and `NatGateway`
(`pkg/clients/ec2/natgateway.go`). The late-initialisers update a
parameters record through a pointer, so the records are classes
(`V1beta1.VpcParameters`, `V1alpha1.NatGatewayParameters`). Each method
updating one is proved equal to a function on the record's value
(`LateInitVpc`, `LateInitNatGateway`). The observation mappers allocate a
slice and fill it index by index, so they are methods with loops. Each is
proved equal to a function (`VpcObservationOf`, `NatGatewayObservationOf`),
and the lemmas are stated about that function.

Assumptions about code that is not part of this model:

- `awsclients.LateInitializeString` keeps a non-empty value and otherwise
  takes the observed one, with nil read as "".
- `LateInitializeStringPtr` and `LateInitializeBoolPtr` keep a non-nil value
  and otherwise take the observed pointer.
- `v1beta1.CompareTags` is a parameter of the drift predicates
  (`V1beta1.TagComparator`), so nothing is assumed about it.

## Model

| member | source | states |
|---|---|---|
| `Vpc.IsVPCNotFoundErr` | pkg/clients/ec2/vpc.go:34-42 | the classifier itself; its contract is carried by `Vpc.NotFoundClassification` |
| `Vpc.NotFoundClassification` | pkg/clients/ec2/vpc.go:34-42 | `IsVPCNotFoundErr` holds exactly for an AWS error whose code is `InvalidVpcID.NotFound`; a nil error, a non-AWS error or any other code gives false |
| `Vpc.IsVpcUpToDate` | pkg/clients/ec2/vpc.go:46-57 | a tenancy mismatch gives false whatever the attribute records, a DNS-hostnames mismatch gives false whatever the support record; with both records present, up to date iff the desired (tenancy, DNS hostnames, DNS support), each unset value read as ""/false, equals the observed triple and the tag comparison holds; a true verdict implies both records were present |
| `Vpc.DriftCases` | pkg/clients/ec2/vpc.go:47-56 | a tenancy mismatch (with or without attribute records), a DNS-hostnames mismatch or a DNS-support mismatch each alone makes the VPC out of date; when all three match the verdict is `CompareTags` |
| `Vpc.UpToDateIgnoresOtherFields` | pkg/clients/ec2/vpc.go:46-57 | the desired CIDR block and every observed field except tenancy and tags never change the verdict |
| `Vpc.VpcObservationOf` | pkg/clients/ec2/vpc.go:61-100 | the observation as a value, which `Vpc.GenerateVpcObservation` is proved to compute; its properties are carried by that method's contract, `Vpc.VpcObservationRoundTrip` and `Vpc.NoEmptyObservedLists` |
| `Vpc.GenerateVpcObservation` | pkg/clients/ec2/vpc.go:61-100 | nil `IsDefault` becomes false, nil `DhcpOptionsId`/`OwnerId` become "", the state is copied; each non-empty association list gives a list of the same length whose element i projects input element i; an empty list gives nil |
| `Vpc.VpcObservationRoundTrip` | pkg/clients/ec2/vpc.go:61-100 | every observation whose association lists are nil or non-empty is the observation of the snapshot `VpcSnapshotOf(o)` built from it |
| `Vpc.NoEmptyObservedLists` | pkg/clients/ec2/vpc.go:69-97 | the mapper never produces an empty, non-nil association list |
| `Vpc.LateInitVpc` | pkg/clients/ec2/vpc.go:104-117 | nil VPC: nothing changes; otherwise a set CIDR block, tenancy or DNS flag is never overwritten, tags are untouched, tenancy is always set afterwards; an unset CIDR block and tenancy take the observed values, unset DNS flags take the observed attribute values only when the hostnames record is present; a nil `attributes`, or a hostnames record without a support record, panics after the earlier updates and leaves `EnableDNSSupport` unchanged |
| `Vpc.LateInitializeVPC` | pkg/clients/ec2/vpc.go:104-117 | the in-place update writes only CIDR block, tenancy and the two DNS flags, and leaves the record and the exit equal to `LateInitVpc` of the old record |
| `Vpc.LateInitVpcIdempotent` | pkg/clients/ec2/vpc.go:104-117 | running the late-initialiser on its own result changes nothing and ends the same way |
| `Vpc.SupportGuardCounterexamples` | pkg/clients/ec2/vpc.go:114-116 | as written: a hostnames record with no support record panics, and a support record with no hostnames record never fills an unset `EnableDNSSupport` |
| `Vpc.LateInitVpcCorrected` | pkg/clients/ec2/vpc.go:104-117 | with the guard testing the support record: the same never-overwrite and fill rules, each DNS flag filled whenever its own record is present, both DNS flags unchanged for a nil `attributes`, and a panic only for a nil `attributes` |
| `Vpc.LateInitVpcCorrectedIdempotent` | pkg/clients/ec2/vpc.go:104-117 | the corrected late-initialiser is idempotent |
| `Vpc.LateInitVpcAgreesWhenAttributesPaired` | pkg/clients/ec2/vpc.go:111-116 | as written and corrected agree whenever the two attribute records are both present or both absent |
| `Vpc.LateInitLeavesNoDriftInUnsetFields` | pkg/clients/ec2/vpc.go:104-117 | after the late-initialiser as written runs with both attribute records present, every updatable field the user left unset agrees with the observed VPC and the tags are kept |
| `Vpc.LateInitOfUnsetSpecIsUpToDate` | pkg/clients/ec2/vpc.go:46-57 | with both attribute records present, a desired state setting no updatable field is, after the late-initialiser as written, up to date exactly when its tags compare equal |
| `NatGateway.IsNatGatewayNotFoundErr` | pkg/clients/ec2/natgateway.go:35-42 | the classifier itself; its contract is carried by `NatGateway.NotFoundClassification` |
| `NatGateway.NotFoundClassification` | pkg/clients/ec2/natgateway.go:35-42 | `IsNatGatewayNotFoundErr` equals `IsVPCNotFoundErr`: true exactly for code `InvalidVpcID.NotFound`, false for any other code, `InvalidNatGatewayID.NotFound` included |
| `NatGateway.IsNatGatewayUpToDate` | pkg/clients/ec2/natgateway.go:46-48 | the drift predicate itself; its contract is carried by `NatGateway.UpToDateDependsOnlyOnTags` and `NatGateway.LateInitPreservesUpToDate` |
| `NatGateway.UpToDateDependsOnlyOnTags` | pkg/clients/ec2/natgateway.go:46-48 | the verdict depends on desired and observed tags only: allocation ID, subnet ID, subnet reference and selector never affect it |
| `NatGateway.NatGatewayObservationOf` | pkg/clients/ec2/natgateway.go:52-80 | the observation as a value, which `NatGateway.GenerateNatGatewayObservation` is proved to compute; its properties are carried by that method's contract and `NatGateway.NatGatewayObservationRoundTrip` |
| `NatGateway.GenerateNatGatewayObservation` | pkg/clients/ec2/natgateway.go:52-80 | failure code and message, gateway, subnet and VPC IDs read nil as ""; state copied verbatim; create/delete time set iff set in the snapshot, with the same instant; the address list is never nil, has the input's length, and element i holds input address i's four fields |
| `NatGateway.NatGatewayObservationRoundTrip` | pkg/clients/ec2/natgateway.go:52-80 | every observation with a non-nil address list is the observation of a snapshot built from it |
| `NatGateway.LateInitNatGateway` | pkg/clients/ec2/natgateway.go:84-89 | nil gateway: nothing changes; otherwise only `SubnetID` may change, a set one is kept, an unset one becomes the observed subnet |
| `NatGateway.LateInitializeNatGateway` | pkg/clients/ec2/natgateway.go:84-89 | the in-place update writes only `SubnetID`, and leaves the record equal to `LateInitNatGateway` of the old record |
| `NatGateway.LateInitNatGatewayIdempotent` | pkg/clients/ec2/natgateway.go:84-89 | applying the late-initialiser twice equals applying it once |
| `NatGateway.LateInitPreservesUpToDate` | pkg/clients/ec2/natgateway.go:46-48 | late-initialisation never changes the drift verdict |
| `NatGateway.LateInitSubnetMatchesObservation` | pkg/clients/ec2/natgateway.go:84-89 | after late-initialising an unset subnet, the desired subnet reads as the observation's `SubnetID` |

## Findings

| source | as written | input that shows it | evidently intended | confidence | as-written member | corrected member |
|---|---|---|---|---|---|---|
| pkg/clients/ec2/vpc.go:114-116 | the late-initialisation of `EnableDNSSupport` is guarded by `attributes.EnableDnsHostnames != nil` but reads `attributes.EnableDnsSupport.Value` | attributes with `EnableDnsHostnames` set and `EnableDnsSupport` nil: nil dereference. Attributes with only `EnableDnsSupport` set (value true) and `EnableDNSSupport` unset: the field stays unset | guard on `attributes.EnableDnsSupport != nil` | high; not executed | `Vpc.SupportGuardCounterexamples` | `Vpc.LateInitVpcCorrected` |

The imperative `Vpc.LateInitializeVPC` keeps the code as written.
`Vpc.LateInitVpcAgreesWhenAttributesPaired` shows that the two versions agree
whenever both attribute records are present or both are absent.

## Left out

- `NewVPCClient`, `NewNatGatewayClient` and the `VPCClient`/`NatGatewayClient` interfaces: SDK construction, credentials and network request builders, with no logic of their own.
- `v1beta1.CompareTags`: its definition is not part of this model. The drift predicates take it as a parameter.
- `awsclients.LateInitializeString`, `LateInitializeStringPtr` and `LateInitializeBoolPtr`: their definitions are not part of this model. The `Clients` module gives each the contract stated above, which is an assumption.
- `Vpc.IsVpcUpToDate`: requires every DNS attribute record that the Go code reaches to be present: the hostnames record once the tenancy matches, and the support record once the hostnames flag matches too. The Go code dereferences them without a nil check, and that panic is not modelled.
- `Vpc.GenerateVpcObservation`: the CIDR block state records are taken as always present, because the Go code dereferences those pointers without a nil check. A nil one (a panic) is not modelled.
- `metav1.Time`: modelled as an opaque wrapper around an instant, with no time arithmetic.
- Slice aliasing: the observation's address and association lists are values. The model does not capture that the Go observation shares its slice with the array that the loop fills.
- Fields of `VPCParameters` and of the SDK records that these helpers never read or write are not modelled.
- The NAT gateway reference resolver (`ResolveReferences` in the API package) is not modelled: it delegates to a crossplane-runtime resolver whose algorithm is not part of this model.
- `Vpc.LateInitializeVPC`: the parameters pointer is a non-null object. A nil `in` with a non-nil VPC panics in Go, and that panic is not modelled.
- `NatGateway.LateInitializeNatGateway`: the parameters pointer is a non-null object. A nil `in` with a non-nil gateway panics in Go, and that panic is not modelled.
