/** The late-initialisation helpers of the shared `awsclients` package. Their
    bodies are not part of this model; each is given the contract its name and
    its use promise: keep the current value when it is set, otherwise take the
    observed one. */
module Clients {
  import opened Aws

  /** `awsclients.LateInitializeString`: a non-empty `s` is kept; an empty one
      is replaced by the observed value, nil reading as "". */
  function LateInitializeString(s: string, from: Option<string>): (r: string)
    ensures s != "" ==> r == s
    ensures s == "" ==> r == StringValue(from)
  {
    if s != "" then s else StringValue(from)
  }

  /** `awsclients.LateInitializeStringPtr`: a non-nil `s` is kept, a nil one
      becomes `from` (itself possibly nil). */
  function LateInitializeStringPtr(s: Option<string>, from: Option<string>): (r: Option<string>)
    ensures s.Some? ==> r == s
    ensures s.None? ==> r == from
  {
    if s.Some? then s else from
  }

  /** `awsclients.LateInitializeBoolPtr`: as `LateInitializeStringPtr`, for
      bools. */
  function LateInitializeBoolPtr(b: Option<bool>, from: Option<bool>): (r: Option<bool>)
    ensures b.Some? ==> r == b
    ensures b.None? ==> r == from
  {
    if b.Some? then b else from
  }
}
