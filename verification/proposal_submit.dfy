/** Submitting the "new contribution proposal" form, and leaving it.
    On submit the form's values, with every reward scaled to wei, are laid
    over the empty-proposal defaults; the page keeps the merged record and
    asks the proposal to be created. */
module ProposalSubmit {
  import opened Wrappers
  import Wei
  import ArcTypes
  import ProposalForm

  /** The keys of the proposal record the page keeps (`IProposalState`). */
  datatype Key =
    | AccountsWithUnclaimedRewards | ActivationTime | Beneficiary | BoostedAt
    | BoostedVotePeriodLimit | CreatedAt | ConfidenceThreshold | Dao | DaoBountyConst
    | Description | DescriptionHash | DownStakeNeededToQueue | EthReward | ExecutedAt
    | ExecutionState | ExpiresInQueueAt | ExternalToken | ExternalTokenReward
    | NativeTokenReward | Id | OrganizationId | ParamsHash | Periods | PeriodLength
    | PreBoostedAt | PreBoostedVotePeriodLimit | Proposer | ProposingRepReward
    | QueuedVoteRequiredPercentage | QueuedVotePeriodLimit | QuietEndingPeriodBeganAt
    | ReputationReward | ResolvedAt | StakesFor | StakesAgainst | Stage | ThresholdConst
    | Threshold | TotalRepWhenExecuted | Title | UpstakeNeededToPreBoost | Url
    | VotesFor | VotesAgainst | VotesCount | WinningOutcome | VotingMachine

  /** A value held under a key: `null`, a number, a string, a big integer
      (`BN`), a list, or one of the enumeration members the defaults use. */
  datatype Value =
    | Null
    | Number(n: real)
    | Text(s: string)
    | Big(b: int)
    | List(items: seq<Value>)
    | ExecutionNone
    | StageQueued
    | OutcomeFail

  type Record = map<Key, Value>

  /** The value `emptyProposal` gives each key: every string is empty, every
      big integer zero, and every number zero except `periods` (1) and
      `queuedVoteRequiredPercentage` (50). */
  function Default(k: Key): (r: Value)
    ensures r.Text? ==> r.s == ""
    ensures r.Big? ==> r.b == 0
    ensures r.List? ==> r.items == []
    ensures r.Number? && r.n != 0.0 <==> k == Periods || k == QueuedVoteRequiredPercentage
    ensures k == Periods ==> r == Number(1.0)
    ensures k == QueuedVoteRequiredPercentage ==> r == Number(50.0)
  {
    match k
    case AccountsWithUnclaimedRewards => List([])
    case ActivationTime => Number(0.0)
    case Beneficiary => Null
    case BoostedAt => Number(0.0)
    case BoostedVotePeriodLimit => Number(0.0)
    case CreatedAt => Number(0.0)
    case ConfidenceThreshold => Number(0.0)
    case Dao => Null
    case DaoBountyConst => Number(0.0)
    case Description => Text("")
    case DescriptionHash => Text("")
    case DownStakeNeededToQueue => Big(0)
    case EthReward => Big(0)
    case ExecutedAt => Number(0.0)
    case ExecutionState => ExecutionNone
    case ExpiresInQueueAt => Number(0.0)
    case ExternalToken => Null
    case ExternalTokenReward => Big(0)
    case NativeTokenReward => Big(0)
    case Id => Null
    case OrganizationId => Null
    case ParamsHash => Text("")
    case Periods => Number(1.0)
    case PeriodLength => Number(0.0)
    case PreBoostedAt => Number(0.0)
    case PreBoostedVotePeriodLimit => Number(0.0)
    case Proposer => Null
    case ProposingRepReward => Big(0)
    case QueuedVoteRequiredPercentage => Number(50.0)
    case QueuedVotePeriodLimit => Number(0.0)
    case QuietEndingPeriodBeganAt => Number(0.0)
    case ReputationReward => Big(0)
    case ResolvedAt => Number(0.0)
    case StakesFor => Big(0)
    case StakesAgainst => Big(0)
    case Stage => StageQueued
    case ThresholdConst => Big(0)
    case Threshold => Big(0)
    case TotalRepWhenExecuted => Big(0)
    case Title => Text("")
    case UpstakeNeededToPreBoost => Big(0)
    case Url => Text("")
    case VotesFor => Big(0)
    case VotesAgainst => Big(0)
    case VotesCount => Number(0.0)
    case WinningOutcome => OutcomeFail
    case VotingMachine => Null
  }

  /** Every key `emptyProposal` sets. */
  const AllKeys: set<Key> := {
    AccountsWithUnclaimedRewards, ActivationTime, Beneficiary, BoostedAt,
    BoostedVotePeriodLimit, CreatedAt, ConfidenceThreshold, Dao, DaoBountyConst,
    Description, DescriptionHash, DownStakeNeededToQueue, EthReward, ExecutedAt,
    ExecutionState, ExpiresInQueueAt, ExternalToken, ExternalTokenReward,
    NativeTokenReward, Id, OrganizationId, ParamsHash, Periods, PeriodLength,
    PreBoostedAt, PreBoostedVotePeriodLimit, Proposer, ProposingRepReward,
    QueuedVoteRequiredPercentage, QueuedVotePeriodLimit, QuietEndingPeriodBeganAt,
    ReputationReward, ResolvedAt, StakesFor, StakesAgainst, Stage, ThresholdConst,
    Threshold, TotalRepWhenExecuted, Title, UpstakeNeededToPreBoost, Url,
    VotesFor, VotesAgainst, VotesCount, WinningOutcome, VotingMachine}

  /** `emptyProposal`, the record the page starts with. */
  const EmptyProposal: Record := map k | k in AllKeys :: Default(k)

  /** The keys the form holds. */
  const FormKeys: set<Key> :=
    {Beneficiary, Description, EthReward, ExternalToken, ExternalTokenReward,
     NativeTokenReward, ReputationReward, Title, Url}

  /** Object spread `{...base, ...over}`. */
  function Spread(base: Record, over: Record): Record
  {
    base + over
  }

  /** A spread holds every key of either record, and `over` wins where
      both have one: the JavaScript object-spread semantics `Spread` stands
      for. The proofs about submitting read map union directly. */
  lemma SpreadKeepsAndOverrides(base: Record, over: Record)
    ensures Spread(base, over).Keys == base.Keys + over.Keys
    ensures forall k :: k in over ==> Spread(base, over)[k] == over[k]
    ensures forall k :: k in base && k !in over ==> Spread(base, over)[k] == base[k]
  {
  }

  /** The form's values as a record; amounts are still in ether. */
  function FormRecord(v: ProposalForm.FormValues): Record
  {
    map[
      Beneficiary := Text(v.beneficiary),
      Description := Text(v.description),
      EthReward := Number(v.ethReward),
      ExternalToken := Text(v.externalToken),
      ExternalTokenReward := Number(v.externalTokenReward),
      NativeTokenReward := Number(v.nativeTokenReward),
      ReputationReward := Number(v.reputationReward),
      Title := Text(v.title),
      Url := Text(v.url)]
  }

  /** The entries `proposalValues` writes after spreading the form: every
      reward scaled to wei, and the external token again. */
  function Converted(v: ProposalForm.FormValues): Record
  {
    map[
      EthReward := Big(Wei.ToWei(v.ethReward)),
      ExternalToken := Text(v.externalToken),
      ExternalTokenReward := Big(Wei.ToWei(v.externalTokenReward)),
      NativeTokenReward := Big(Wei.ToWei(v.nativeTokenReward)),
      ReputationReward := Big(Wei.ToWei(v.reputationReward))]
  }

  /** `proposalValues`: the form's values with every reward scaled to wei. */
  function ProposalValues(v: ProposalForm.FormValues): (r: Record)
    ensures r.Keys == FormKeys
  {
    assert Converted(v).Keys <= FormRecord(v).Keys;
    Spread(FormRecord(v), Converted(v))
  }

  /** The texts reach `proposalValues` unchanged. */
  lemma TextsUnchanged(v: ProposalForm.FormValues)
    ensures var r := ProposalValues(v);
      && r[Beneficiary] == Text(v.beneficiary)
      && r[Description] == Text(v.description)
      && r[Title] == Text(v.title)
      && r[Url] == Text(v.url)
      && r[ExternalToken] == Text(v.externalToken)
  {
  }

  /** Every reward reaches `proposalValues` in wei, whatever the form
      held under the same key before the conversion was written over it. */
  lemma RewardsInWei(v: ProposalForm.FormValues)
    ensures var r := ProposalValues(v);
      && r[EthReward] == Big(Wei.ToWei(v.ethReward))
      && r[ExternalTokenReward] == Big(Wei.ToWei(v.externalTokenReward))
      && r[NativeTokenReward] == Big(Wei.ToWei(v.nativeTokenReward))
      && r[ReputationReward] == Big(Wei.ToWei(v.reputationReward))
  {
  }

  /** The arguments handed on to create the proposal. */
  datatype CreateRequest = CreateRequest(
    daoAvatarAddress: ArcTypes.Address,
    title: string,
    description: string,
    url: string,
    nativeTokenReward: int,
    reputationReward: int,
    ethReward: int,
    externalToken: string,
    externalTokenReward: int,
    beneficiary: string)

  /** What a submit leaves behind: the page's proposal record and, unless
      the network check failed, the creation request. */
  datatype Submission = Submission(details: Record, request: Option<CreateRequest>)

  /** `handleSubmit`. `networkOk` is the answer of the network check; when
      it fails nothing changes and nothing is requested. */
  function HandleSubmit(details: Record, daoAvatarAddress: ArcTypes.Address, v: ProposalForm.FormValues,
                        networkOk: bool): (s: Submission)
    ensures !networkOk ==> s == Submission(details, None)
    ensures networkOk ==> s.details.Keys == AllKeys
    ensures networkOk ==> forall k :: k in AllKeys - FormKeys ==> s.details[k] == Default(k)
    ensures networkOk ==>
      && s.details[Beneficiary] == Text(v.beneficiary)
      && s.details[Description] == Text(v.description)
      && s.details[Title] == Text(v.title)
      && s.details[Url] == Text(v.url)
      && s.details[ExternalToken] == Text(v.externalToken)
      && s.details[EthReward] == Big(Wei.ToWei(v.ethReward))
      && s.details[ExternalTokenReward] == Big(Wei.ToWei(v.externalTokenReward))
      && s.details[NativeTokenReward] == Big(Wei.ToWei(v.nativeTokenReward))
      && s.details[ReputationReward] == Big(Wei.ToWei(v.reputationReward))
    ensures networkOk ==> s.request == Some(CreateRequest(
      daoAvatarAddress, v.title, v.description, v.url, Wei.ToWei(v.nativeTokenReward),
      Wei.ToWei(v.reputationReward), Wei.ToWei(v.ethReward), v.externalToken,
      Wei.ToWei(v.externalTokenReward), v.beneficiary))
  {
    if !networkOk then Submission(details, None)
    else
      var values := ProposalValues(v);
      var request := CreateRequest(
        daoAvatarAddress, v.title, v.description, v.url, Wei.ToWei(v.nativeTokenReward),
        Wei.ToWei(v.reputationReward), Wei.ToWei(v.ethReward), v.externalToken,
        Wei.ToWei(v.externalTokenReward), v.beneficiary);
      TextsUnchanged(v);
      RewardsInWei(v);
      assert FormKeys <= AllKeys;
      Submission(Spread(EmptyProposal, values), Some(request))
  }

  /** The record a submit keeps does not depend on what the page held
      before, so submitting the same values twice changes nothing more. */
  lemma SubmitForgetsEarlierDetails(d1: Record, d2: Record, dao: ArcTypes.Address, v: ProposalForm.FormValues)
    ensures HandleSubmit(d1, dao, v, true).details == HandleSubmit(d2, dao, v, true).details
    ensures var s := HandleSubmit(d1, dao, v, true);
      HandleSubmit(s.details, dao, v, true) == s
  {
  }

  /** Reading the submitted wei amounts back as ether recovers each reward
      the form held, to within one wei, never more. */
  lemma SubmittedRewardsRoundTrip(details: Record, dao: ArcTypes.Address, v: ProposalForm.FormValues)
    ensures var r := HandleSubmit(details, dao, v, true).request.value;
      && Wei.FromWei(r.ethReward) <= v.ethReward < Wei.FromWei(r.ethReward) + 1.0 / Wei.WeiPerEther as real
      && Wei.FromWei(r.externalTokenReward) <= v.externalTokenReward
         < Wei.FromWei(r.externalTokenReward) + 1.0 / Wei.WeiPerEther as real
      && Wei.FromWei(r.nativeTokenReward) <= v.nativeTokenReward
         < Wei.FromWei(r.nativeTokenReward) + 1.0 / Wei.WeiPerEther as real
      && Wei.FromWei(r.reputationReward) <= v.reputationReward
         < Wei.FromWei(r.reputationReward) + 1.0 / Wei.WeiPerEther as real
  {

  }

  /** Where `goBack` sends the browser. */
  datatype Navigation = Back | Push(path: string)

  /** `goBack`: one step back through the history when there is any,
      otherwise to the DAO's own page. */
  function GoBack(historyLength: nat, daoAvatarAddress: ArcTypes.Address): (n: Navigation)
    ensures n == Back <==> historyLength > 0
    ensures n.Push? ==> ArcTypes.RouteDao(n.path) == Some(daoAvatarAddress)
    ensures n.Push? ==> n.path == ArcTypes.DaoRoutePrefix + daoAvatarAddress
  {
    if historyLength > 0 then Back
    else
      ArcTypes.RouteRoundTrip(daoAvatarAddress);
      Push(ArcTypes.DaoRoute(daoAvatarAddress))
  }
}
