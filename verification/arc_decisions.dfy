/** The small decisions of `voteOnProposal` and `createDAO`: how a vote's
    transaction logs become the store update, and how collaborators become
    the founders a new DAO is deployed with. */
module ArcDecisions {
  import opened Wrappers
  import opened Wei
  import opened ArcTypes
  import DaoSnapshot

  // ---------------------------------------------------------------- voting

  /** A log of the vote transaction; `decision` is `args._decision`. */
  datatype Log = Log(event: string, decision: int)

  const ExecuteEvent: string := "LogExecuteProposal"
  const UnknownDecision: string := "Unknown proposal decision "

  /** The first log that reports an execution (`logs.find`). */
  function FindExecuted(logs: seq<Log>): (r: Option<Log>)
    ensures r.None? <==> forall i :: 0 <= i < |logs| ==> logs[i].event != ExecuteEvent
    ensures r.Some? ==> exists i :: 0 <= i < |logs| && logs[i] == r.value
                                    && r.value.event == ExecuteEvent
                                    && forall j :: 0 <= j < i ==> logs[j].event != ExecuteEvent
  {
    if logs == [] then None
    else if logs[0].event == ExecuteEvent then Some(logs[0])
    else
      var r := FindExecuted(logs[1..]);
      assert forall j :: 1 <= j < |logs| ==> logs[j] == logs[1..][j - 1];
      r
  }

  datatype VotePayload = VotePayload(
    votesNo: real,
    daoAvatarAddress: Address,
    proposalId: ProposalId,
    state: ProposalStage,
    votesYes: real,
    winningVote: nat)

  /** The action dispatched after `ARC_VOTE_PENDING`. An unknown decision
      rejects with a fixed message and the decision beside it; a throwing
      call rejects with its message. */
  datatype VoteAction =
    | VoteFulfilled(payload: VotePayload)
    | VoteRejected(message: string, decision: Option<int>)

  /** `voteOnProposal`, once the vote transaction (with the voting machine
      lookup before it) and the `votesStatus` read are given as results. */
  function VoteOnProposal(daoAvatar: Address, proposalId: ProposalId,
                          voteLogs: Result<seq<Log>, string>,
                          votesStatus: Result<DaoSnapshot.VoteVector, string>): (a: VoteAction)
    ensures voteLogs.Failure? ==> a == VoteRejected(voteLogs.error, None)
    ensures voteLogs.Success? && votesStatus.Failure? ==> a == VoteRejected(votesStatus.error, None)
    ensures a.VoteFulfilled? ==>
      && voteLogs.Success? && votesStatus.Success?
      && a.payload.daoAvatarAddress == daoAvatar && a.payload.proposalId == proposalId
      && a.payload.votesYes == FromWei(votesStatus.value[1])
      && a.payload.votesNo == FromWei(votesStatus.value[2])
    ensures voteLogs.Success? && votesStatus.Success? ==>
      match FindExecuted(voteLogs.value)
      case None => a.VoteFulfilled? && a.payload.state == NotBoosted && a.payload.winningVote == 0
      case Some(log) =>
        if log.decision == 1 || log.decision == 2 then
          a.VoteFulfilled? && a.payload.state == Executed && a.payload.winningVote == log.decision
        else
          a == VoteRejected(UnknownDecision, Some(log.decision))
  {
    match voteLogs
    case Failure(e) => VoteRejected(e, None)
    case Success(logs) =>
      match votesStatus
      case Failure(e) => VoteRejected(e, None)
      case Success(votes) =>
        var payload := VotePayload(
          votesNo := FromWei(votes[2]),
          daoAvatarAddress := daoAvatar,
          proposalId := proposalId,
          state := NotBoosted,
          votesYes := FromWei(votes[1]),
          winningVote := 0);
        match FindExecuted(logs)
        case None => VoteFulfilled(payload)
        case Some(log) =>
          if log.decision == 1 then VoteFulfilled(payload.(state := Executed, winningVote := 1))
          else if log.decision == 2 then VoteFulfilled(payload.(state := Executed, winningVote := 2))
          else VoteRejected(UnknownDecision, Some(log.decision))
  }

  /** Only the first execution log counts: a later log with a valid decision
      does not rescue an unknown first one. */
  lemma FirstExecutionLogDecides(daoAvatar: Address, proposalId: ProposalId, votes: DaoSnapshot.VoteVector,
                                 before: seq<Log>, d: int, after: seq<Log>)
    requires forall i :: 0 <= i < |before| ==> before[i].event != ExecuteEvent
    requires d != 1 && d != 2
    ensures VoteOnProposal(daoAvatar, proposalId, Success(before + [Log(ExecuteEvent, d)] + after), Success(votes))
         == VoteRejected(UnknownDecision, Some(d))
  {
    var logs := before + [Log(ExecuteEvent, d)] + after;
    assert logs[|before|] == Log(ExecuteEvent, d);
    assert forall j :: 0 <= j < |before| ==> logs[j] == before[j];
    var found := FindExecuted(logs);
    var i :| 0 <= i < |logs| && logs[i] == found.value && found.value.event == ExecuteEvent
             && forall j :: 0 <= j < i ==> logs[j].event != ExecuteEvent;
    assert i == |before|;
  }

  // ------------------------------------------------------------ DAO creation

  /** A collaborator row of the DAO-creation form, amounts in ether. */
  datatype Collaborator = Collaborator(address: Address, tokens: real, reputation: real)

  /** A founder as `Arc.DAO.new` takes it, amounts in wei. */
  datatype Founder = Founder(address: Address, tokens: int, reputation: int)

  /** The comparator passed to `collaborators.sort`. Its body computes
      `b.reputation - a.reputation` but never returns it, so every call yields
      `undefined`. Current engines read that as +0, "equal"; ECMA-262 itself
      calls such a comparator inconsistent and leaves the resulting order to
      the implementation. */
  function CompareAsWritten(a: Collaborator, b: Collaborator): (c: int)
    ensures c == 0
  {
    0
  }

  /** Insert `x` after every element that does not compare greater than it. */
  function InsertStable(sorted: seq<Collaborator>, x: Collaborator,
                        cmp: (Collaborator, Collaborator) -> int): (r: seq<Collaborator>)
    ensures multiset(r) == multiset(sorted) + multiset{x}
  {
    if sorted == [] then [x]
    else
      var n := |sorted| - 1;
      assert sorted == sorted[..n] + [sorted[n]];
      if cmp(sorted[n], x) > 0 then InsertStable(sorted[..n], x, cmp) + [sorted[n]]
      else sorted + [x]
  }

  /** A stable insertion sort, standing for the engine's `Array.prototype.sort`
      (stable in current engines); it is only ever used with `CompareAsWritten`. */
  function StableSort(xs: seq<Collaborator>, cmp: (Collaborator, Collaborator) -> int): (r: seq<Collaborator>)
    ensures multiset(r) == multiset(xs)
  {
    if xs == [] then []
    else
      var n := |xs| - 1;
      assert xs == xs[..n] + [xs[n]];
      InsertStable(StableSort(xs[..n], cmp), xs[n], cmp)
  }

  /** With a comparator that calls everything equal, a stable sort leaves
      the collaborators in input order. */
  lemma {:induction false} SortAsWrittenKeepsOrder(xs: seq<Collaborator>)
    ensures StableSort(xs, CompareAsWritten) == xs
  {
    if xs != [] {
      var n := |xs| - 1;
      SortAsWrittenKeepsOrder(xs[..n]);
      assert xs == xs[..n] + [xs[n]];
    }
  }

  /** One founder per collaborator, index-aligned, amounts scaled to wei. */
  function FoundersOf(collaborators: seq<Collaborator>): (r: seq<Founder>)
    ensures |r| == |collaborators|
    ensures forall i :: 0 <= i < |r| ==>
      r[i] == Founder(collaborators[i].address, ToWei(collaborators[i].tokens), ToWei(collaborators[i].reputation))
  {
    seq(|collaborators|, i requires 0 <= i < |collaborators| =>
      var c := collaborators[i];
      Founder(c.address, ToWei(c.tokens), ToWei(c.reputation)))
  }

  /** The founders `createDAO` deploys with: sort, then scale. */
  function Founders(collaborators: seq<Collaborator>): (r: seq<Founder>)
    ensures |r| == |collaborators|
    ensures forall i :: 0 <= i < |r| ==> r[i].address == collaborators[i].address
    ensures forall i :: 0 <= i < |r| ==> r[i].tokens == ToWei(collaborators[i].tokens)
    ensures forall i :: 0 <= i < |r| ==> r[i].reputation == ToWei(collaborators[i].reputation)
  {
    var sorted := StableSort(collaborators, CompareAsWritten);
    SortAsWrittenKeepsOrder(collaborators);
    FoundersOf(sorted)
  }

  /** What `Arc.DAO.new` is asked to deploy. */
  datatype DaoConfig = DaoConfig(name: string, tokenName: string, tokenSymbol: string,
                                 founders: seq<Founder>, schemes: seq<string>)

  /** Addresses of a freshly deployed DAO. */
  datatype Deployed = Deployed(avatar: Address, controller: Address, reputation: Address, token: Address)

  /** The actions `createDAO` dispatches after `ARC_CREATE_DAO_PENDING`. */
  datatype CreateDaoAction =
    | CreateDaoFulfilled(dao: DaoData, redirect: string)
    | CreateDaoRejected(message: string)

  function CreateDaoConfig(daoName: string, tokenName: string, tokenSymbol: string,
                           collaborators: seq<Collaborator>): (c: DaoConfig)
    ensures c.name == daoName && c.tokenName == tokenName && c.tokenSymbol == tokenSymbol
    ensures c.founders == Founders(collaborators)
    ensures c.schemes == ["ContributionReward"]
  {
    DaoConfig(daoName, tokenName, tokenSymbol, Founders(collaborators), ["ContributionReward"])
  }

  /** `createDAO`, with the deployment as an oracle. */
  function CreateDAO(daoName: string, tokenName: string, tokenSymbol: string,
                     collaborators: seq<Collaborator>,
                     deploy: DaoConfig -> Result<Deployed, string>): (a: CreateDaoAction)
    ensures var d := deploy(CreateDaoConfig(daoName, tokenName, tokenSymbol, collaborators));
      && (d.Failure? ==> a == CreateDaoRejected(d.error))
      && (d.Success? ==>
            && a.CreateDaoFulfilled?
            && a.redirect == DaoRoute(d.value.avatar)
            && a.dao.avatarAddress == d.value.avatar
            && a.dao.controllerAddress == d.value.controller
            && a.dao.reputationAddress == d.value.reputation
            && a.dao.tokenAddress == d.value.token
            && a.dao.rank == 1 && a.dao.promotedAmount == 0.0
            && a.dao.name == daoName && a.dao.tokenName == tokenName && a.dao.tokenSymbol == tokenSymbol
            && a.dao.members == [] && a.dao.proposals == []
            && a.dao.tokenCount == 0.0 && a.dao.reputationCount == 0.0)
  {
    match deploy(CreateDaoConfig(daoName, tokenName, tokenSymbol, collaborators))
    case Failure(e) => CreateDaoRejected(e)
    case Success(d) =>
      var dao := DaoData(
        avatarAddress := d.avatar,
        controllerAddress := d.controller,
        name := daoName,
        members := [],
        rank := 1,
        promotedAmount := 0.0,
        proposals := [],
        reputationAddress := d.reputation,
        reputationCount := 0.0,
        tokenAddress := d.token,
        tokenCount := 0.0,
        tokenName := tokenName,
        tokenSymbol := tokenSymbol);
      CreateDaoFulfilled(dao, DaoRoute(d.avatar))
  }

  /** The redirect of a fulfilled creation routes back to the new DAO. */
  lemma CreateDaoRedirectsToNewDao(daoName: string, tokenName: string, tokenSymbol: string,
                                   collaborators: seq<Collaborator>,
                                   deploy: DaoConfig -> Result<Deployed, string>)
    ensures var a := CreateDAO(daoName, tokenName, tokenSymbol, collaborators, deploy);
      a.CreateDaoFulfilled? ==> RouteDao(a.redirect) == Some(a.dao.avatarAddress)
  {
  }
}
