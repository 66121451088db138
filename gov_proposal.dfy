/**
 * Governance proposals: the one-byte proposal status with its string, YAML and
 * byte encodings, the tally record, the built-in proposal contents and the
 * registry of valid proposal-type tags.
 */
module GovProposal {
  import opened Base

  // ---------------------------------------------------------------------------
  // Proposal status
  // ---------------------------------------------------------------------------

  /** A proposal's lifecycle status, stored as a single byte. */
  newtype ProposalStatus = b: int | 0 <= b < 0x100

  const StatusNil: ProposalStatus := 0x00
  const StatusDepositPeriod: ProposalStatus := 0x01
  const StatusVotingPeriod: ProposalStatus := 0x02
  const StatusPassed: ProposalStatus := 0x03
  const StatusRejected: ProposalStatus := 0x04
  const StatusFailed: ProposalStatus := 0x05

  /** The status the parser hands back together with its error. */
  const StatusInvalid: ProposalStatus := 0xff

  /** Every string the status parser accepts. */
  const StatusNames: set<string> :=
    {"DepositPeriod", "VotingPeriod", "Passed", "Rejected", "Failed", ""}

  /** Go's `(ProposalStatus, error)` pair: the status and, on failure, the error text. */
  datatype StatusOrError = StatusOrError(status: ProposalStatus, err: Option<string>)

  /** The five statuses a proposal can really be in. */
  predicate ValidProposalStatus(status: ProposalStatus)
    ensures ValidProposalStatus(status) <==> 0x01 <= status <= 0x05
  {
    status == StatusDepositPeriod ||
    status == StatusVotingPeriod ||
    status == StatusPassed ||
    status == StatusRejected ||
    status == StatusFailed
  }

  /** The statuses that have a name: the five valid ones and `StatusNil`, whose name is "". */
  predicate IsNamedStatus(status: ProposalStatus) {
    status == StatusNil || ValidProposalStatus(status)
  }

  /** The `String()` of a status: its name, or "" for any byte that is not a valid status. */
  function StatusString(status: ProposalStatus): (s: string)
    ensures s == "" <==> !ValidProposalStatus(status)
    ensures s in StatusNames
  {
    if status == StatusDepositPeriod then "DepositPeriod"
    else if status == StatusVotingPeriod then "VotingPeriod"
    else if status == StatusPassed then "Passed"
    else if status == StatusRejected then "Rejected"
    else if status == StatusFailed then "Failed"
    else ""
  }

  /** Parses a status name; every other string is an error carrying status 0xff. */
  function ProposalStatusFromString(str: string): (r: StatusOrError)
    ensures r.err.None? <==> str in StatusNames
    ensures r.err.Some? ==>
      r.status == StatusInvalid && r.err.value == "'" + str + "' is not a valid proposal status"
    ensures r.err.None? ==> IsNamedStatus(r.status) && StatusString(r.status) == str
  {
    match str
    case "DepositPeriod" => StatusOrError(StatusDepositPeriod, None)
    case "VotingPeriod" => StatusOrError(StatusVotingPeriod, None)
    case "Passed" => StatusOrError(StatusPassed, None)
    case "Rejected" => StatusOrError(StatusRejected, None)
    case "Failed" => StatusOrError(StatusFailed, None)
    case "" => StatusOrError(StatusNil, None)
    case _ => StatusOrError(StatusInvalid, Some("'" + str + "' is not a valid proposal status"))
  }

  /** Round trip from a status: parsing the name of a named status gives it back, without error. */
  lemma RoundTripFromStatus(status: ProposalStatus)
    requires IsNamedStatus(status)
    ensures ProposalStatusFromString(StatusString(status)) == StatusOrError(status, None)
  {
  }

  /** The names are exactly the strings some named status prints as. */
  lemma {:induction false} StatusNamesAreImage(str: string)
    ensures str in StatusNames <==> exists status :: IsNamedStatus(status) && StatusString(status) == str
  {
    if str in StatusNames {
      var r := ProposalStatusFromString(str);
      assert IsNamedStatus(r.status) && StatusString(r.status) == str;
    }
  }

  /** Distinct named statuses have distinct names, so `StatusString` is a bijection onto `StatusNames`. */
  lemma StatusStringInjective(a: ProposalStatus, b: ProposalStatus)
    requires IsNamedStatus(a) && IsNamedStatus(b)
    requires StatusString(a) == StatusString(b)
    ensures a == b
  {
    RoundTripFromStatus(a);
    RoundTripFromStatus(b);
  }

  /** `MarshalYAML`: the same text as `String()`, for every byte. */
  function MarshalYaml(status: ProposalStatus): (s: string)
    ensures s == StatusString(status)
  {
    match status
    case 0x01 => "DepositPeriod"
    case 0x02 => "VotingPeriod"
    case 0x03 => "Passed"
    case 0x04 => "Rejected"
    case 0x05 => "Failed"
    case _ => ""
  }

  /** `Marshal`: the status as a one-byte sequence (the error it returns is always nil). */
  function Marshal(status: ProposalStatus): (bz: seq<Byte>)
    ensures |bz| == 1 && bz[0] == status as int
  {
    [status as int]
  }

  /** `Unmarshal`: the status held in the first byte; the rest of `data` is ignored. */
  function Unmarshal(data: seq<Byte>): (status: ProposalStatus)
    requires |data| > 0
    ensures status as int == data[0]
    ensures Marshal(status) == data[..1]
  {
    data[0] as ProposalStatus
  }

  /** Round trip through the byte encoding. */
  lemma MarshalRoundTrip(status: ProposalStatus)
    ensures Unmarshal(Marshal(status)) == status
  {
  }

  /**
   * `UnmarshalJSON` once `encoding/json` has decoded the JSON string: `decoded`
   * is the text it produced or its error. On any error the current status is
   * kept; otherwise the parsed status replaces it.
   */
  function UnmarshalJsonText(current: ProposalStatus, decoded: Result<string, string>): (r: StatusOrError)
    ensures decoded.Err? ==> r == StatusOrError(current, Some(decoded.error))
    ensures r.err.Some? ==> r.status == current
    ensures decoded.Ok? ==> (r.err.None? <==> decoded.value in StatusNames)
    ensures r.err.None? ==> decoded.Ok? && StatusString(r.status) == decoded.value
  {
    match decoded
    case Err(e) => StatusOrError(current, Some(e))
    case Ok(s) =>
      var parsed := ProposalStatusFromString(s);
      if parsed.err.Some? then StatusOrError(current, parsed.err) else parsed
  }

  /** JSON round trip at the string level: `MarshalJSON` writes `String()`, and reading it back restores a named status. */
  lemma JsonRoundTrip(current: ProposalStatus, status: ProposalStatus)
    requires IsNamedStatus(status)
    ensures UnmarshalJsonText(current, Ok(StatusString(status))) == StatusOrError(status, None)
  {
    RoundTripFromStatus(status);
  }

  // ---------------------------------------------------------------------------
  // Tally results and proposals
  // ---------------------------------------------------------------------------

  /** Vote tallies; each `sdk.Dec` is carried as an integer count of its smallest unit. */
  datatype TallyResult = TallyResult(
    totalPower: int,
    totalVotedPower: int,
    yes: int,
    abstain: int,
    no: int,
    noWithVeto: int)

  /** No voting power has been recorded in `tr`. */
  predicate NoVotes(tr: TallyResult) {
    tr.totalVotedPower == 0 && tr.yes == 0 && tr.abstain == 0 && tr.no == 0 && tr.noWithVeto == 0
  }

  /** `Equals`: compares the four vote options and ignores both power totals. */
  predicate Equals(tr: TallyResult, comp: TallyResult)
    ensures Equals(tr, comp) <==>
      tr.(totalPower := 0, totalVotedPower := 0) == comp.(totalPower := 0, totalVotedPower := 0)
  {
    tr.yes == comp.yes && tr.abstain == comp.abstain && tr.no == comp.no && tr.noWithVeto == comp.noWithVeto
  }

  /** The tally of a proposal nobody has voted on yet. */
  function EmptyTallyResult(totalVoting: int): (tr: TallyResult)
    ensures tr.totalPower == totalVoting && NoVotes(tr)
  {
    TallyResult(totalVoting, 0, 0, 0, 0, 0)
  }

  /** Empty tallies are `Equals` to each other whatever total power they were created with. */
  lemma EmptyTalliesAreEqual(p: int, q: int)
    ensures Equals(EmptyTallyResult(p), EmptyTallyResult(q))
  {
  }

  const ProposalTypeText: string := "Text"
  const ProposalTypeSoftwareUpgrade: string := "SoftwareUpgrade"

  /**
   * Proposal content. The governance module defines text and software-upgrade
   * proposals; `OtherContent` stands for the content types other modules bring,
   * each with its own type tag.
   */
  datatype Content =
    | TextProposal(title: string, description: string)
    | SoftwareUpgradeProposal(title: string, description: string)
    | OtherContent(title: string, description: string, tag: string)

  /** `ProposalType()` of a content value. */
  function ProposalType(c: Content): (ty: string)
    ensures c.TextProposal? ==> ty == ProposalTypeText
    ensures c.SoftwareUpgradeProposal? ==> ty == ProposalTypeSoftwareUpgrade
    ensures c.OtherContent? ==> ty == c.tag
  {
    match c
    case TextProposal(_, _) => ProposalTypeText
    case SoftwareUpgradeProposal(_, _) => ProposalTypeSoftwareUpgrade
    case OtherContent(_, _, tag) => tag
  }

  /** Content built for a type tag: only the two built-in tags have a constructor here. */
  function ContentFromProposalType(title: string, desc: string, ty: string): (c: Option<Content>)
    ensures c.Some? <==> ty == ProposalTypeText || ty == ProposalTypeSoftwareUpgrade
    ensures c.Some? ==>
      ProposalType(c.value) == ty && c.value.title == title && c.value.description == desc &&
      !c.value.OtherContent?
  {
    match ty
    case "Text" => Some(TextProposal(title, desc))
    case "SoftwareUpgrade" => Some(SoftwareUpgradeProposal(title, desc))
    case _ => None
  }

  /** A point in time, carried opaquely; `ZeroTime` is Go's zero `time.Time`. */
  datatype Time = ZeroTime | At(instant: int)

  /** One coin of a deposit. */
  datatype DecCoin = DecCoin(denom: string, amount: int)

  datatype Proposal = Proposal(
    content: Content,
    proposalId: Uint64,
    status: ProposalStatus,
    finalTallyResult: TallyResult,
    submitTime: Time,
    depositEndTime: Time,
    totalDeposit: seq<DecCoin>,
    votingStartTime: Time,
    votingEndTime: Time)

  /** A new proposal waits for deposits, holds none yet, and has an empty tally over `totalVoting`. */
  function NewProposal(totalVoting: int, content: Content, id: Uint64, submitTime: Time, depositEndTime: Time): (p: Proposal)
    ensures p.status == StatusDepositPeriod && ValidProposalStatus(p.status)
    ensures p.totalDeposit == []
    ensures p.finalTallyResult.totalPower == totalVoting && NoVotes(p.finalTallyResult)
    ensures p.content == content && p.proposalId == id
    ensures p.submitTime == submitTime && p.depositEndTime == depositEndTime
    ensures p.votingStartTime == ZeroTime && p.votingEndTime == ZeroTime
  {
    Proposal(content, id, StatusDepositPeriod, EmptyTallyResult(totalVoting), submitTime, depositEndTime,
             [], ZeroTime, ZeroTime)
  }

  /** The error `sdk.ErrUnknownRequest` builds. */
  datatype GovError = ErrUnknownRequest(msg: string)

  /** The governance handler: a no-op for the two built-in types, an error for every other tag. */
  function ProposalHandler(p: Proposal): (err: Option<GovError>)
    ensures err.None? <==>
      ProposalType(p.content) == ProposalTypeText || ProposalType(p.content) == ProposalTypeSoftwareUpgrade
    ensures err.Some? ==>
      err.value == ErrUnknownRequest("unrecognized gov proposal type: " + ProposalType(p.content))
  {
    var ty := ProposalType(p.content);
    if ty == ProposalTypeText || ty == ProposalTypeSoftwareUpgrade then None
    else Some(ErrUnknownRequest("unrecognized gov proposal type: " + ty))
  }

  /** Whatever `ContentFromProposalType` builds, the handler accepts once it is proposed. */
  lemma HandlerAcceptsBuiltContent(title: string, desc: string, ty: string, totalVoting: int,
                                   id: Uint64, submitTime: Time, depositEndTime: Time)
    requires ContentFromProposalType(title, desc, ty).Some?
    ensures ProposalHandler(NewProposal(totalVoting, ContentFromProposalType(title, desc, ty).value,
                                        id, submitTime, depositEndTime)).None?
  {
  }

  // ---------------------------------------------------------------------------
  // Registry of valid proposal types
  // ---------------------------------------------------------------------------

  /** The package-level set of valid proposal-type tags. */
  class ProposalTypeRegistry {
    var validProposalTypes: set<string>

    /** The registry as the package initialises it. */
    constructor ()
      ensures validProposalTypes == {ProposalTypeText, ProposalTypeSoftwareUpgrade}
    {
      validProposalTypes := {ProposalTypeText, ProposalTypeSoftwareUpgrade};
    }

    /** Whether `ty` has been registered. */
    function IsValidProposalType(ty: string): (ok: bool)
      reads this
      ensures ok <==> ty in validProposalTypes
    {
      ty in validProposalTypes
    }

    /**
     * Adds `ty`. A tag that is already valid makes the source panic; the model
     * returns the panic message and leaves the registry as it was.
     */
    method RegisterProposalType(ty: string) returns (panicked: Option<string>)
      modifies this
      ensures old(IsValidProposalType(ty)) ==>
        panicked == Some("already registered proposal type: " + ty) &&
        validProposalTypes == old(validProposalTypes)
      ensures !old(IsValidProposalType(ty)) ==>
        panicked == None && validProposalTypes == old(validProposalTypes) + {ty}
      ensures IsValidProposalType(ty)
      ensures forall t :: old(IsValidProposalType(t)) ==> IsValidProposalType(t)
    {
      if ty in validProposalTypes {
        return Some("already registered proposal type: " + ty);
      }
      validProposalTypes := validProposalTypes + {ty};
      panicked := None;
    }
  }
}
