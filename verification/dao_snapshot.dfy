/** The DAO snapshot of `getDAOData` and the avatar-keyed map of `getDAOs`.
    Every chain read and HTTP request is an input: a `DaoLedger` holds the
    answers the contract wrappers and the description service would give, and
    a `Failure` stands for a call that throws. */
module DaoSnapshot {
  import opened Wrappers
  import opened Wei
  import opened ArcTypes
  import opened Sequences

  /** Result of `votesStatus(id)`: the vote total per choice; index 1 is yes,
      index 2 is no. */
  type VoteVector = s: seq<Amount> | |s| >= 3 witness [0, 0, 0]

  /** `_rewards` of a proposal: index 0 is native tokens, index 1 reputation. */
  type RewardVector = s: seq<Amount> | |s| >= 2 witness [0, 0]

  /** Fields a DAO reports through direct queries (not event replay). */
  datatype DaoIdentity = DaoIdentity(
    avatar: Address,
    name: string,
    reputationAddress: Address,
    reputationSupply: Amount,
    tokenAddress: Address,
    tokenSupply: Amount,
    tokenName: string,
    tokenSymbol: string)

  /** The token and reputation events whose recipient `to` becomes a member. */
  datatype TokenEvent =
    | Mint(to: Address, amount: Amount)
    | Transfer(from: Address, to: Address, value: Amount)

  /** Token `Mint` and reputation `Mint` events. */
  type MintEvent = e: TokenEvent | e.Mint? witness Mint("", 0)

  /** Token `Transfer` events. */
  type TransferEvent = e: TokenEvent | e.Transfer? witness Transfer("", "", 0)

  /** `NewContributionProposal` events of the ContributionReward scheme. */
  datatype ProposalCreated = ProposalCreated(
    avatar: Address,
    proposalId: ProposalId,
    beneficiary: Address,
    contributionDescription: string,
    rewards: RewardVector)

  /** `ProposalExecuted` and `ProposalDeleted` events. */
  datatype ProposalEnded = ProposalEnded(proposalId: ProposalId)

  /** Everything `getDAOData` reads for one DAO, in the order it reads it. */
  datatype DaoLedger = DaoLedger(
    identity: Result<DaoIdentity, string>,
    tokenMints: Result<seq<MintEvent>, string>,
    tokenTransfers: Result<seq<TransferEvent>, string>,
    reputationMints: Result<seq<MintEvent>, string>,
    tokenBalance: Address -> Result<Amount, string>,
    reputationOf: Address -> Result<Amount, string>,
    proposalsCreated: Result<seq<ProposalCreated>, string>,
    proposalsExecuted: Result<seq<ProposalEnded>, string>,
    proposalsDeleted: Result<seq<ProposalEnded>, string>,
    votesStatus: ProposalId -> Result<VoteVector, string>,
    serverDescriptions: ProposalId -> Result<seq<string>, string>)

  /** The `to` argument of each event, in event order. */
  function Receivers(events: seq<TokenEvent>): (r: seq<Address>)
    ensures |r| == |events|
    ensures forall i :: 0 <= i < |events| ==> r[i] == events[i].to
  {
    seq(|events|, i requires 0 <= i < |events| => events[i].to)
  }

  function EndedIds(events: seq<ProposalEnded>): (r: seq<ProposalId>)
    ensures |r| == |events|
    ensures forall i :: 0 <= i < |events| ==> r[i] == events[i].proposalId
  {
    seq(|events|, i requires 0 <= i < |events| => events[i].proposalId)
  }

  /** Every recipient of a token mint, then of a token transfer, then of a
      reputation mint, in event order and with repetitions. */
  function Recipients(mints: seq<MintEvent>, transfers: seq<TransferEvent>,
                      reputationMints: seq<MintEvent>): (r: seq<Address>)
    ensures |r| == |mints| + |transfers| + |reputationMints|
  {
    Receivers(mints) + Receivers(transfers) + Receivers(reputationMints)
  }

  /** Position `i` of the recipient list is the `to` of the `i`-th token
      mint, then of the transfers, then of the reputation mints. */
  lemma RecipientsInEventOrder(mints: seq<MintEvent>, transfers: seq<TransferEvent>,
                               reputationMints: seq<MintEvent>)
    ensures var r := Recipients(mints, transfers, reputationMints);
      && (forall i :: 0 <= i < |mints| ==> r[i] == mints[i].to)
      && (forall j :: 0 <= j < |transfers| ==> r[|mints| + j] == transfers[j].to)
      && (forall k :: 0 <= k < |reputationMints| ==> r[|mints| + |transfers| + k] == reputationMints[k].to)
  {
  }

  /** The member list: one balance lookup pair per address, in address order.
      The first lookup that throws aborts the whole list. */
  function Members(addresses: seq<Address>,
                   tokenBalance: Address -> Result<Amount, string>,
                   reputationOf: Address -> Result<Amount, string>): (r: Result<seq<Member>, string>)
    ensures r.Success? <==>
      forall i :: 0 <= i < |addresses| ==>
        tokenBalance(addresses[i]).Success? && reputationOf(addresses[i]).Success?
    ensures r.Failure? ==> exists i ::
      && 0 <= i < |addresses|
      && (forall j :: 0 <= j < i ==> tokenBalance(addresses[j]).Success? && reputationOf(addresses[j]).Success?)
      && (if tokenBalance(addresses[i]).Failure? then r.error == tokenBalance(addresses[i]).error
          else reputationOf(addresses[i]).Failure? && r.error == reputationOf(addresses[i]).error)
    ensures r.Success? ==> |r.value| == |addresses|
    ensures r.Success? ==> forall i :: 0 <= i < |addresses| ==>
      r.value[i] == Member(addresses[i],
                           FromWei(tokenBalance(addresses[i]).value),
                           FromWei(reputationOf(addresses[i]).value))
  {
    if addresses == [] then Success([])
    else
      var a := addresses[0];
      var tokens :- tokenBalance(a);
      var reputation :- reputationOf(a);
      var rest :- Members(addresses[1..], tokenBalance, reputationOf);
      Success([Member(a, FromWei(tokens), FromWei(reputation))] + rest)
  }

  /** The proposal-created events that belong to the DAO `avatar`. */
  function OfAvatar(events: seq<ProposalCreated>, avatar: Address): (r: seq<ProposalCreated>)
    ensures forall i :: 0 <= i < |r| ==> r[i] in events && r[i].avatar == avatar
    ensures forall i :: 0 <= i < |events| && events[i].avatar == avatar ==> events[i] in r
    ensures |r| <= |events|
  {
    if events == [] then []
    else if events[0].avatar == avatar then [events[0]] + OfAvatar(events[1..], avatar)
    else OfAvatar(events[1..], avatar)
  }

  /** Selecting commutes with concatenation, so event order is kept. */
  lemma {:induction false} OfAvatarAppend(a: seq<ProposalCreated>, b: seq<ProposalCreated>, avatar: Address)
    ensures OfAvatar(a + b, avatar) == OfAvatar(a, avatar) + OfAvatar(b, avatar)
  {
    if a == [] {
      assert a + b == b;
    } else {
      assert (a + b)[1..] == a[1..] + b;
      OfAvatarAppend(a[1..], b, avatar);
    }
  }

  /** How a proposal ended, judged from the executed and deleted id lists. */
  datatype Outcome = Passed | Failed | Open

  function Classify(id: ProposalId, executedIds: seq<ProposalId>, failedIds: seq<ProposalId>): (o: Outcome)
    ensures o == Passed <==> id in executedIds
    ensures o == Failed <==> id !in executedIds && id in failedIds
    ensures o == Open <==> id !in executedIds && id !in failedIds
  {
    if id in executedIds then Passed
    else if id in failedIds then Failed
    else Open
  }

  /** The description shown: the server's first description when it returns
      a non-empty list, otherwise the on-chain one. A failed request is
      swallowed. */
  function Description(onChain: string, server: Result<seq<string>, string>): (d: string)
    ensures server.Success? && |server.value| > 0 ==> d == server.value[0]
    ensures server.Failure? || server.value == [] ==> d == onChain
  {
    match server
    case Success(list) => if |list| > 0 then list[0] else onChain
    case Failure(_) => onChain
  }

  /** The store record for one proposal-created event. Only an open proposal
      consults the voting machine, so only then can a lookup abort it. */
  function MakeProposal(e: ProposalCreated, daoAvatar: Address,
                        executedIds: seq<ProposalId>, failedIds: seq<ProposalId>,
                        votesStatus: ProposalId -> Result<VoteVector, string>,
                        serverDescriptions: ProposalId -> Result<seq<string>, string>): (r: Result<Proposal, string>)
    ensures r.Success? <==> Classify(e.proposalId, executedIds, failedIds) != Open || votesStatus(e.proposalId).Success?
    ensures r.Failure? ==> votesStatus(e.proposalId).Failure? && r.error == votesStatus(e.proposalId).error
    ensures r.Success? ==>
      var p := r.value;
      && p.proposalId == e.proposalId
      && p.beneficiary == e.beneficiary
      && p.daoAvatarAddress == daoAvatar
      && p.description == Description(e.contributionDescription, serverDescriptions(e.proposalId))
      && p.rewardToken == FromWei(e.rewards[0])
      && p.rewardReputation == FromWei(e.rewards[1])
      && p.rewardEth == 0.0
      && p.boostedAt == 0 && p.predictionsFail == 0 && p.predictionsPass == 0 && p.submittedAt == 0
    ensures r.Success? && e.proposalId in executedIds ==>
      r.value.state == Executed && r.value.winningVote == 1 && r.value.votesYes == 0.0 && r.value.votesNo == 0.0
    ensures r.Success? && e.proposalId !in executedIds && e.proposalId in failedIds ==>
      r.value.state == Executed && r.value.winningVote == 2 && r.value.votesYes == 0.0 && r.value.votesNo == 0.0
    ensures r.Success? && e.proposalId !in executedIds && e.proposalId !in failedIds ==>
      && r.value.state == NotBoosted && r.value.winningVote == 0
      && r.value.votesYes == FromWei(votesStatus(e.proposalId).value[1])
      && r.value.votesNo == FromWei(votesStatus(e.proposalId).value[2])
  {
    var description := Description(e.contributionDescription, serverDescriptions(e.proposalId));
    var proposal := Proposal(
      beneficiary := e.beneficiary,
      boostedAt := 0,
      description := description,
      daoAvatarAddress := daoAvatar,
      state := NotBoosted,
      predictionsFail := 0,
      predictionsPass := 0,
      proposalId := e.proposalId,
      rewardEth := 0.0,
      rewardReputation := FromWei(e.rewards[1]),
      rewardToken := FromWei(e.rewards[0]),
      submittedAt := 0,
      votesYes := 0.0,
      votesNo := 0.0,
      winningVote := 0);
    match Classify(e.proposalId, executedIds, failedIds)
    case Passed => Success(proposal.(state := Executed, winningVote := 1))
    case Failed => Success(proposal.(state := Executed, winningVote := 2))
    case Open =>
      var votes :- votesStatus(e.proposalId);
      Success(proposal.(votesYes := FromWei(votes[1]), votesNo := FromWei(votes[2])))
  }

  /** The proposal list: one record per event of the DAO, in event order. */
  function Proposals(events: seq<ProposalCreated>, daoAvatar: Address,
                     executedIds: seq<ProposalId>, failedIds: seq<ProposalId>,
                     votesStatus: ProposalId -> Result<VoteVector, string>,
                     serverDescriptions: ProposalId -> Result<seq<string>, string>): (r: Result<seq<Proposal>, string>)
    ensures var mine := OfAvatar(events, daoAvatar);
      r.Success? <==> forall i :: 0 <= i < |mine| ==>
        MakeProposal(mine[i], daoAvatar, executedIds, failedIds, votesStatus, serverDescriptions).Success?
    ensures var mine := OfAvatar(events, daoAvatar);
      r.Success? ==> |r.value| == |mine| && forall i :: 0 <= i < |mine| ==>
        MakeProposal(mine[i], daoAvatar, executedIds, failedIds, votesStatus, serverDescriptions) == Success(r.value[i])
  {
    if events == [] then Success([])
    else if events[0].avatar == daoAvatar then
      assert OfAvatar(events, daoAvatar) == [events[0]] + OfAvatar(events[1..], daoAvatar);
      var p :- MakeProposal(events[0], daoAvatar, executedIds, failedIds, votesStatus, serverDescriptions);
      var rest :- Proposals(events[1..], daoAvatar, executedIds, failedIds, votesStatus, serverDescriptions);
      Success([p] + rest)
    else
      Proposals(events[1..], daoAvatar, executedIds, failedIds, votesStatus, serverDescriptions)
  }

  /** Position `i` of `mine` is the first proposal whose record cannot be
      built, and it fails with `error`. */
  ghost predicate FirstFailureAt(mine: seq<ProposalCreated>, i: int, error: string, daoAvatar: Address,
                                 executedIds: seq<ProposalId>, failedIds: seq<ProposalId>,
                                 votesStatus: ProposalId -> Result<VoteVector, string>,
                                 serverDescriptions: ProposalId -> Result<seq<string>, string>)
  {
    && 0 <= i < |mine|
    && (forall j :: 0 <= j < i ==>
          MakeProposal(mine[j], daoAvatar, executedIds, failedIds, votesStatus, serverDescriptions).Success?)
    && MakeProposal(mine[i], daoAvatar, executedIds, failedIds, votesStatus, serverDescriptions) == Failure(error)
  }

  /** A proposal that builds, put in front, moves the first failure back by one. */
  lemma FirstFailureShifts(e: ProposalCreated, later: seq<ProposalCreated>, k: int, error: string,
                           daoAvatar: Address, executedIds: seq<ProposalId>, failedIds: seq<ProposalId>,
                           votesStatus: ProposalId -> Result<VoteVector, string>,
                           serverDescriptions: ProposalId -> Result<seq<string>, string>)
    requires MakeProposal(e, daoAvatar, executedIds, failedIds, votesStatus, serverDescriptions).Success?
    requires FirstFailureAt(later, k, error, daoAvatar, executedIds, failedIds, votesStatus, serverDescriptions)
    ensures FirstFailureAt([e] + later, k + 1, error, daoAvatar, executedIds, failedIds, votesStatus, serverDescriptions)
  {
  }

  /** A failing proposal list reports the error of the first of this DAO's
      proposals that fails, in event order. */
  lemma {:induction false} ProposalsReportFirstFailure(events: seq<ProposalCreated>, daoAvatar: Address,
                                                       executedIds: seq<ProposalId>, failedIds: seq<ProposalId>,
                                                       votesStatus: ProposalId -> Result<VoteVector, string>,
                                                       serverDescriptions: ProposalId -> Result<seq<string>, string>)
    ensures var r := Proposals(events, daoAvatar, executedIds, failedIds, votesStatus, serverDescriptions);
      r.Failure? ==> exists i :: FirstFailureAt(OfAvatar(events, daoAvatar), i, r.error, daoAvatar,
                                                executedIds, failedIds, votesStatus, serverDescriptions)
  {
    var r := Proposals(events, daoAvatar, executedIds, failedIds, votesStatus, serverDescriptions);
    if events != [] && r.Failure? {
      var rest := Proposals(events[1..], daoAvatar, executedIds, failedIds, votesStatus, serverDescriptions);
      var mine := OfAvatar(events, daoAvatar);
      var later := OfAvatar(events[1..], daoAvatar);
      ProposalsReportFirstFailure(events[1..], daoAvatar, executedIds, failedIds, votesStatus, serverDescriptions);
      if events[0].avatar == daoAvatar {
        assert mine == [events[0]] + later;
        var first := MakeProposal(events[0], daoAvatar, executedIds, failedIds, votesStatus, serverDescriptions);
        if first.Failure? {
          assert FirstFailureAt(mine, 0, r.error, daoAvatar, executedIds, failedIds, votesStatus, serverDescriptions);
        } else {
          assert rest.Failure? && r.error == rest.error;
          var k :| FirstFailureAt(later, k, rest.error, daoAvatar, executedIds, failedIds, votesStatus, serverDescriptions);
          FirstFailureShifts(events[0], later, k, rest.error, daoAvatar, executedIds, failedIds,
                             votesStatus, serverDescriptions);
        }
      } else {
        assert mine == later;
      }
    }
  }

  /** The fields filled from direct queries; members and proposals empty. */
  function Summary(avatarAddress: Address, id: DaoIdentity): (d: DaoData)
    ensures d.avatarAddress == avatarAddress && d.controllerAddress == ""
    ensures d.name == id.name && d.tokenName == id.tokenName && d.tokenSymbol == id.tokenSymbol
    ensures d.members == [] && d.proposals == []
    ensures d.rank == 1 && d.promotedAmount == 0.0
    ensures d.reputationAddress == id.reputationAddress && d.tokenAddress == id.tokenAddress
    ensures d.reputationCount * WeiPerEther as real == id.reputationSupply as real
    ensures d.tokenCount * WeiPerEther as real == id.tokenSupply as real
  {
    DaoData(
      avatarAddress := avatarAddress,
      controllerAddress := "",
      name := id.name,
      members := [],
      rank := 1,
      promotedAmount := 0.0,
      proposals := [],
      reputationAddress := id.reputationAddress,
      reputationCount := FromWei(id.reputationSupply),
      tokenAddress := id.tokenAddress,
      tokenCount := FromWei(id.tokenSupply),
      tokenName := id.tokenName,
      tokenSymbol := id.tokenSymbol)
  }

  /** The member and proposal lists of a detailed snapshot. */
  datatype Detail = Detail(members: seq<Member>, proposals: seq<Proposal>)

  /** Replays the mint and transfer events into members, then the proposal
      events into proposals. Any failing read aborts it. */
  function GetDetail(id: DaoIdentity, ledger: DaoLedger): (r: Result<Detail, string>)
    ensures r.Success? <==>
      && ledger.tokenMints.Success? && ledger.tokenTransfers.Success? && ledger.reputationMints.Success?
      && Members(Dedupe(Recipients(ledger.tokenMints.value, ledger.tokenTransfers.value, ledger.reputationMints.value)),
                 ledger.tokenBalance, ledger.reputationOf).Success?
      && ledger.proposalsCreated.Success? && ledger.proposalsExecuted.Success? && ledger.proposalsDeleted.Success?
      && Proposals(ledger.proposalsCreated.value, id.avatar, EndedIds(ledger.proposalsExecuted.value),
                   EndedIds(ledger.proposalsDeleted.value), ledger.votesStatus, ledger.serverDescriptions).Success?
    ensures ledger.tokenMints.Failure? ==> r == Failure(ledger.tokenMints.error)
    ensures ledger.tokenMints.Success? && ledger.tokenTransfers.Failure? ==> r == Failure(ledger.tokenTransfers.error)
    ensures ledger.tokenMints.Success? && ledger.tokenTransfers.Success? && ledger.reputationMints.Failure? ==>
      r == Failure(ledger.reputationMints.error)
    ensures ledger.tokenMints.Success? && ledger.tokenTransfers.Success? && ledger.reputationMints.Success? ==>
      var m := Members(Dedupe(Recipients(ledger.tokenMints.value, ledger.tokenTransfers.value, ledger.reputationMints.value)),
                       ledger.tokenBalance, ledger.reputationOf);
      && (m.Failure? ==> r == Failure(m.error))
      && (m.Success? && ledger.proposalsCreated.Failure? ==> r == Failure(ledger.proposalsCreated.error))
      && (m.Success? && ledger.proposalsCreated.Success? && ledger.proposalsExecuted.Failure? ==>
            r == Failure(ledger.proposalsExecuted.error))
      && ((m.Success? && ledger.proposalsCreated.Success? && ledger.proposalsExecuted.Success? &&
           ledger.proposalsDeleted.Failure?) ==> r == Failure(ledger.proposalsDeleted.error))
      && ((m.Success? && ledger.proposalsCreated.Success? && ledger.proposalsExecuted.Success? &&
           ledger.proposalsDeleted.Success?) ==>
            var p := Proposals(ledger.proposalsCreated.value, id.avatar, EndedIds(ledger.proposalsExecuted.value),
                               EndedIds(ledger.proposalsDeleted.value), ledger.votesStatus, ledger.serverDescriptions);
            p.Failure? ==> r == Failure(p.error))
    ensures r.Success? ==>
      && ledger.tokenMints.Success? && ledger.tokenTransfers.Success? && ledger.reputationMints.Success?
      && Members(Dedupe(Recipients(ledger.tokenMints.value, ledger.tokenTransfers.value, ledger.reputationMints.value)),
                 ledger.tokenBalance, ledger.reputationOf) == Success(r.value.members)
    ensures r.Success? ==>
      && ledger.proposalsCreated.Success? && ledger.proposalsExecuted.Success? && ledger.proposalsDeleted.Success?
      && Proposals(ledger.proposalsCreated.value, id.avatar, EndedIds(ledger.proposalsExecuted.value),
                   EndedIds(ledger.proposalsDeleted.value), ledger.votesStatus, ledger.serverDescriptions)
         == Success(r.value.proposals)
  {
    var mints :- ledger.tokenMints;
    var transfers :- ledger.tokenTransfers;
    var reputationMints :- ledger.reputationMints;
    var addresses := Dedupe(Recipients(mints, transfers, reputationMints));
    var members :- Members(addresses, ledger.tokenBalance, ledger.reputationOf);
    var created :- ledger.proposalsCreated;
    var executed :- ledger.proposalsExecuted;
    var deleted :- ledger.proposalsDeleted;
    var proposals :- Proposals(created, id.avatar, EndedIds(executed), EndedIds(deleted),
                               ledger.votesStatus, ledger.serverDescriptions);
    Success(Detail(members, proposals))
  }

  /** `getDAOData`: the snapshot of the DAO at `avatarAddress`. */
  function GetDAOData(avatarAddress: Address, ledger: DaoLedger, detailed: bool): (r: Result<DaoData, string>)
    ensures ledger.identity.Failure? ==> r == Failure(ledger.identity.error)
    ensures r.Success? ==>
      var id := ledger.identity.value;
      && r.value.avatarAddress == avatarAddress
      && r.value.controllerAddress == ""
      && r.value.name == id.name
      && r.value.rank == 1
      && r.value.promotedAmount == 0.0
      && r.value.reputationAddress == id.reputationAddress
      && r.value.tokenAddress == id.tokenAddress
      && r.value.reputationCount == FromWei(id.reputationSupply)
      && r.value.tokenCount == FromWei(id.tokenSupply)
      && r.value.tokenName == id.tokenName
      && r.value.tokenSymbol == id.tokenSymbol
    ensures !detailed ==> r.Success? == ledger.identity.Success?
    ensures !detailed && r.Success? ==> r.value.members == [] && r.value.proposals == []
    ensures detailed && ledger.identity.Success? ==>
      match GetDetail(ledger.identity.value, ledger)
      case Success(d) => r.Success? && r.value.members == d.members && r.value.proposals == d.proposals
      case Failure(e) => r == Failure(e)
  {
    var id :- ledger.identity;
    var summary := Summary(avatarAddress, id);
    if !detailed then Success(summary)
    else
      var detail :- GetDetail(id, ledger);
      Success(summary.(members := detail.members, proposals := detail.proposals))
  }

  function MemberAddresses(members: seq<Member>): (r: seq<Address>)
    ensures |r| == |members|
    ensures forall i :: 0 <= i < |members| ==> r[i] == members[i].address
  {
    seq(|members|, i requires 0 <= i < |members| => members[i].address)
  }

  /** A detailed snapshot lists each recipient of a mint or transfer exactly
      once, in order of first appearance, with its balances taken from the
      balance lookups. */
  lemma DetailedMembers(avatarAddress: Address, ledger: DaoLedger)
    requires GetDAOData(avatarAddress, ledger, true).Success?
    ensures ledger.tokenMints.Success? && ledger.tokenTransfers.Success? && ledger.reputationMints.Success?
    ensures var members := GetDAOData(avatarAddress, ledger, true).value.members;
      var addresses := Dedupe(Recipients(ledger.tokenMints.value, ledger.tokenTransfers.value,
                                         ledger.reputationMints.value));
      && MemberAddresses(members) == addresses
      && NoDuplicates(MemberAddresses(members))
      && InFirstAppearanceOrder(Recipients(ledger.tokenMints.value, ledger.tokenTransfers.value,
                                           ledger.reputationMints.value), MemberAddresses(members))
      && forall i :: 0 <= i < |members| ==>
           && ledger.tokenBalance(members[i].address).Success?
           && ledger.reputationOf(members[i].address).Success?
           && members[i].tokens == FromWei(ledger.tokenBalance(members[i].address).value)
           && members[i].reputation == FromWei(ledger.reputationOf(members[i].address).value)
  {
    assert GetDetail(ledger.identity.value, ledger).Success?;
    DedupeKeepsFirstAppearanceOrder(Recipients(ledger.tokenMints.value, ledger.tokenTransfers.value,
                                               ledger.reputationMints.value));
  }

  /** An address that receives both a token mint and a token transfer is one
      member, not two. */
  lemma MintAndTransferCollapse(avatarAddress: Address, ledger: DaoLedger, i: nat, j: nat)
    requires GetDAOData(avatarAddress, ledger, true).Success?
    requires ledger.tokenMints.Success? && ledger.tokenTransfers.Success?
    requires i < |ledger.tokenMints.value| && j < |ledger.tokenTransfers.value|
    requires ledger.tokenMints.value[i].to == ledger.tokenTransfers.value[j].to
    ensures var members := GetDAOData(avatarAddress, ledger, true).value.members;
      var a := ledger.tokenMints.value[i].to;
      exists k :: 0 <= k < |members| && members[k].address == a
                  && forall l :: 0 <= l < |members| && members[l].address == a ==> l == k
  {
    DetailedMembers(avatarAddress, ledger);
    var rs := Recipients(ledger.tokenMints.value, ledger.tokenTransfers.value, ledger.reputationMints.value);
    var a := ledger.tokenMints.value[i].to;
    assert rs[i] == a;
    var members := GetDAOData(avatarAddress, ledger, true).value.members;
    var addresses := MemberAddresses(members);
    assert addresses == Dedupe(rs);
    var k :| 0 <= k < |addresses| && addresses[k] == a;
    assert members[k].address == a;
    forall l | 0 <= l < |members| && members[l].address == a
      ensures l == k
    {
      assert addresses[l] == a;
    }
  }

  /** Member balances never depend on the amounts carried by the events: only
      who received something matters. */
  lemma MembersIgnoreEventAmounts(avatarAddress: Address, ledger: DaoLedger, detailed: bool,
                                  mints: seq<MintEvent>, transfers: seq<TransferEvent>, reputationMints: seq<MintEvent>)
    requires ledger.tokenMints.Success? && ledger.tokenTransfers.Success? && ledger.reputationMints.Success?
    requires Receivers(mints) == Receivers(ledger.tokenMints.value)
    requires Receivers(transfers) == Receivers(ledger.tokenTransfers.value)
    requires Receivers(reputationMints) == Receivers(ledger.reputationMints.value)
    ensures GetDAOData(avatarAddress, ledger.(tokenMints := Success(mints), tokenTransfers := Success(transfers),
                                              reputationMints := Success(reputationMints)), detailed)
         == GetDAOData(avatarAddress, ledger, detailed)
  {
  }

  /** A detailed snapshot holds one proposal per creation event naming this
      DAO's avatar, in event order, each classified by the ended-id lists. */
  lemma DetailedProposals(avatarAddress: Address, ledger: DaoLedger)
    requires GetDAOData(avatarAddress, ledger, true).Success?
    ensures ledger.identity.Success? && ledger.proposalsCreated.Success?
    ensures ledger.proposalsExecuted.Success? && ledger.proposalsDeleted.Success?
    ensures var proposals := GetDAOData(avatarAddress, ledger, true).value.proposals;
      var avatar := ledger.identity.value.avatar;
      var mine := OfAvatar(ledger.proposalsCreated.value, avatar);
      && |proposals| == |mine|
      && forall i :: 0 <= i < |mine| ==>
           MakeProposal(mine[i], avatar, EndedIds(ledger.proposalsExecuted.value),
                        EndedIds(ledger.proposalsDeleted.value),
                        ledger.votesStatus, ledger.serverDescriptions) == Success(proposals[i])
  {
  }

  /** A DAO whose history has no mint, transfer or proposal event has a
      detailed snapshot whenever its identity and ended-proposal reads
      succeed, and that snapshot has no members and no proposals. */
  lemma NoEventsNoDetail(avatarAddress: Address, ledger: DaoLedger)
    requires ledger.tokenMints == Success([]) && ledger.tokenTransfers == Success([])
    requires ledger.reputationMints == Success([]) && ledger.proposalsCreated == Success([])
    requires ledger.identity.Success?
    requires ledger.proposalsExecuted.Success? && ledger.proposalsDeleted.Success?
    ensures GetDAOData(avatarAddress, ledger, true).Success?
    ensures GetDAOData(avatarAddress, ledger, true).value.members == []
    ensures GetDAOData(avatarAddress, ledger, true).value.proposals == []
  {

  }

  /** The `NewOrg` events of the DAO creator contract. */
  datatype NewOrgEvent = NewOrgEvent(avatar: Address)

  /** Map each key to `f(key)`, visiting the keys in order; the first
      failure aborts. A repeated key is written again with the same value. */
  function CollectByKey<K(==), V>(keys: seq<K>, f: K -> Result<V, string>): (r: Result<map<K, V>, string>)
    ensures r.Success? <==> forall i :: 0 <= i < |keys| ==> f(keys[i]).Success?
    ensures r.Success? ==> forall i :: 0 <= i < |keys| ==> keys[i] in r.value
    ensures r.Success? ==> forall k :: k in r.value ==> k in keys && f(k) == Success(r.value[k])
    decreases |keys|
  {
    if keys == [] then Success(map[])
    else
      var n := |keys| - 1;
      var init := keys[..n];
      assert forall i :: 0 <= i < n ==> init[i] == keys[i];
      assert keys == init + [keys[n]];
      match CollectByKey(init, f)
      case Failure(e) => Failure(e)
      case Success(m) =>
        match f(keys[n])
        case Failure(e) => Failure(e)
        case Success(v) => Success(m[keys[n] := v])
  }

  function Avatars(events: seq<NewOrgEvent>): (r: seq<Address>)
    ensures |r| == |events|
    ensures forall i :: 0 <= i < |events| ==> r[i] == events[i].avatar
  {
    seq(|events|, i requires 0 <= i < |events| => events[i].avatar)
  }

  /** `getDAOs`: the summary snapshot of every DAO created, keyed by avatar.
      The first snapshot that fails aborts the whole map. */
  function GetDAOs(events: seq<NewOrgEvent>, ledgerOf: Address -> DaoLedger): (r: Result<map<Address, DaoData>, string>)
    ensures r.Success? <==> forall i :: 0 <= i < |events| ==>
      GetDAOData(events[i].avatar, ledgerOf(events[i].avatar), false).Success?
    ensures r.Success? ==> forall i :: 0 <= i < |events| ==> events[i].avatar in r.value
    ensures r.Success? ==> forall a :: a in r.value ==>
      && (exists i :: 0 <= i < |events| && events[i].avatar == a)
      && GetDAOData(a, ledgerOf(a), false) == Success(r.value[a])
  {
    var avatars := Avatars(events);
    var r := CollectByKey(avatars, a => GetDAOData(a, ledgerOf(a), false));
    assert forall a :: a in avatars ==> exists i :: 0 <= i < |events| && events[i].avatar == a;
    r
  }

  /** The map built by `getDAOs` holds summaries only. */
  lemma DaoMapHoldsSummaries(events: seq<NewOrgEvent>, ledgerOf: Address -> DaoLedger)
    ensures var r := GetDAOs(events, ledgerOf);
      r.Success? ==> forall a :: a in r.value ==>
        r.value[a].members == [] && r.value[a].proposals == [] && r.value[a].avatarAddress == a
  {
  }
}
