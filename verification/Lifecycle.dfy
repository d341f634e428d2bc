/** The campaign state machine. */
module Lifecycle {
  datatype CampaignState =
    | Draft | Scheduled | Applying | Active | Held | Reverting | Completed | Partial | Cancelled

  datatype Kind = Apply | Revert

  /** The moves out of a state; only a cancelled campaign has none. */
  function Legal(from: CampaignState): set<CampaignState> {
    match from
    case Draft => {Scheduled, Applying, Cancelled}
    case Scheduled => {Applying, Draft, Cancelled}
    case Applying => {Active, Partial, Held, Completed, Cancelled}
    case Active => {Reverting, Held, Partial, Applying, Completed, Cancelled}
    case Held => {Active, Applying, Reverting, Partial, Cancelled}
    case Reverting => {Completed, Partial, Cancelled}
    case Partial => {Applying, Reverting, Active, Completed, Held, Cancelled}
    case Completed => {Scheduled, Applying, Cancelled}
    case Cancelled => {}
  }

  /** Staying put is a move too: it changes nothing. */
  predicate CanTransition(from: CampaignState, to: CampaignState) {
    from == to || to in Legal(from)
  }

  /** A campaign shown so competes for the variants it covers; one being reverted does not. */
  predicate PricingState(s: CampaignState) {
    s == Applying || s == Active || s == Held || s == Partial
  }

  /** The claim a run of each kind takes on its campaign. */
  function ClaimState(kind: Kind): CampaignState {
    match kind
    case Apply => Applying
    case Revert => Reverting
  }

  /** Where a finished run leaves its campaign. */
  function FinalState(kind: Kind, clean: bool): CampaignState {
    if !clean then Partial else if kind == Revert then Completed else Active
  }

  /**
   * Which campaigns a run can claim, and where claims and ends lead: an apply takes any campaign but one being
   * reverted or cancelled, a revert only one that may have prices out, every claim can end as its run did, and
   * nothing but a cancelled campaign is past cancelling.
   */
  lemma ClaimsAndEnds(s: CampaignState, kind: Kind, clean: bool)
    ensures CanTransition(s, ClaimState(Apply)) <==> s !in {Reverting, Cancelled}
    ensures CanTransition(s, ClaimState(Revert)) <==> s in {Active, Held, Partial, Reverting}
    ensures CanTransition(ClaimState(kind), FinalState(kind, clean))
    ensures FinalState(kind, clean) == if !clean then Partial else if kind == Apply then Active else Completed
    ensures PricingState(s) <==> s == ClaimState(Apply) || (CanTransition(s, ClaimState(Revert)) && s != ClaimState(Revert))
    ensures s == Cancelled <==> !CanTransition(s, Cancelled) || Legal(s) == {}
  {
  }
}
