/** Records the Arc action creators build for the client store, and the route
    of a DAO's page. */
module ArcTypes {
  import opened Wrappers

  /** Chain addresses and proposal ids are opaque strings to the client. */
  type Address = string
  type ProposalId = string

  /** An on-chain amount in wei (a uint256). */
  type Amount = nat

  /** `ProposalStates` of the store: the lifecycle tag of a proposal. */
  datatype ProposalStage = NotBoosted | Boosted | Executed

  /** One member: current token and reputation balances, in ether. */
  datatype Member = Member(address: Address, tokens: real, reputation: real)

  /** The proposal record the store keeps (`IProposalState`). */
  datatype Proposal = Proposal(
    beneficiary: Address,
    boostedAt: int,
    description: string,
    daoAvatarAddress: Address,
    state: ProposalStage,
    predictionsFail: int,
    predictionsPass: int,
    proposalId: ProposalId,
    rewardEth: real,
    rewardReputation: real,
    rewardToken: real,
    submittedAt: int,
    votesYes: real,
    votesNo: real,
    winningVote: nat)

  /** The DAO record the store keeps (`IDaoState`). */
  datatype DaoData = DaoData(
    avatarAddress: Address,
    controllerAddress: Address,
    name: string,
    members: seq<Member>,
    rank: int,
    promotedAmount: real,
    proposals: seq<Proposal>,
    reputationAddress: Address,
    reputationCount: real,
    tokenAddress: Address,
    tokenCount: real,
    tokenName: string,
    tokenSymbol: string)

  const DaoRoutePrefix: string := "/dao/"

  /** The page of a DAO: "/dao/" followed by its avatar address. */
  function DaoRoute(avatar: Address): (path: string)
    ensures |path| == |DaoRoutePrefix| + |avatar|
    ensures path[..|DaoRoutePrefix|] == DaoRoutePrefix && path[|DaoRoutePrefix|..] == avatar
  {
    DaoRoutePrefix + avatar
  }

  /** The avatar address a DAO route names, if the path is one. */
  function RouteDao(path: string): (avatar: Option<Address>)
    ensures avatar.Some? ==> DaoRoute(avatar.value) == path
    ensures avatar.None? ==> forall a :: DaoRoute(a) != path
  {
    var n := |DaoRoutePrefix|;
    if n <= |path| && path[..n] == DaoRoutePrefix then
      assert path == path[..n] + path[n..];
      Some(path[n..])
    else
      assert forall a :: DaoRoute(a)[..n] == DaoRoutePrefix;
      None
  }

  /** Reading a route back recovers the avatar it was built from. */
  lemma RouteRoundTrip(avatar: Address)
    ensures RouteDao(DaoRoute(avatar)) == Some(avatar)
  {

  }
}
