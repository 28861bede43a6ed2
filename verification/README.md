# Alchemy client core, modelled in Dafny

This project models the logic of the Alchemy DAO client that sits between its
React pages and the Arc blockchain SDK. There are three parts.

- **The "new contribution proposal" form** (`ProposalForm`, `ProposalSubmit`).
  - Validation writes its checks one after another into an error object, and
    a later write under the same key replaces an earlier one. The model keeps
    that order of writes.
  - Each field's final message is proved equal to an independent per-field
    definition (`FieldError`). The title limit, the required fields, the
    non-negative rewards, the "some reward" rule, the optional URL check and
    the uniqueness check are then read off that definition.
  - On submit, the form's values are laid over the 47 `emptyProposal`
    defaults, with each reward scaled to wei. Every other key keeps its
    default.
  - `goBack` steps back through the browser history when there is any, and
    otherwise goes to the DAO's page.
- **The DAO snapshot** (`DaoSnapshot`). `getDAOData` replays token mints,
  token transfers and reputation mints into one member per distinct recipient,
  in order of first appearance. Each member's balances come from balance
  lookups, not from event amounts. It then replays the proposal-creation events
  of this DAO, in event order, into proposal records. Each proposal is
  classified as executed, failed or open, and only an open one has its vote
  tallies read. `getDAOs` builds the avatar-keyed map of summary snapshots.
- **Small decisions** (`ArcDecisions`).
  - **`voteOnProposal`.** The first `LogExecuteProposal` log of the vote
    transaction decides the outcome: none, decision 1, decision 2, or an
    unknown decision, which is rejected.
  - **`createDAO`.** It sorts the collaborators and maps each one to a
    founder. Its comparator computes `b.reputation - a.reputation` but does not
    return it, so every comparison yields `undefined`. ECMA-262 calls such a
    comparator inconsistent and leaves the resulting order to the
    implementation. Current engines read `undefined` as +0 ("equal") and sort
    stably, and then the founders come out index-aligned with the
    collaborators. The model assumes that engine behaviour: it writes the
    comparator as written (always 0) and a stable insertion sort, and proves
    that the sort is the identity.

Every chain read, event fetch and HTTP request is an input to the model.
- A `DaoLedger` holds the answers for one DAO. A `Failure` stands for a call
  that throws.
- The vote transaction's logs and the `votesStatus` read are `Result`s.
- The deployment of a new DAO is an oracle function.
- The network check before a submit is a boolean.
- The address check (`web3.utils.isAddress`) and the URL regular expression
  are uninterpreted predicates.

Amounts: the original converts between wei and ether through double-precision
numbers (`Number(web3.fromWei(..))`, `toWei`). The model uses exact rational
arithmetic instead (`Wei`):
- `FromWei` is exact division by 10^18;
- `ToWei` is the floor of the product with 10^18;
- the two round-trip lemmas bound what is lost.

## Model

| member | source | states |
|---|---|---|
| Wei.FromWei | src/actions/arcActions.ts:110-113 | the ether value times 10^18 is exactly the wei amount; non-negative wei gives a non-negative value |
| Wei.ToWei | src/actions/arcActions.ts:209-210 | the wei amount is the largest integer not above the ether value times 10^18; non-negative stays non-negative |
| Wei.ToWeiFromWei | src/actions/arcActions.ts:209-210 | scaling a descaled amount back to wei recovers it exactly |
| Wei.FromWeiToWei | src/actions/arcActions.ts:110-113 | descaling a scaled decimal never overshoots and loses less than one wei |
| Sequences.Dedupe | src/actions/arcActions.ts:104 | the result has no repeated element, and holds exactly the elements of the input |
| Sequences.DedupeKeepsFirstAppearanceOrder | src/actions/arcActions.ts:104 | the deduplicated list keeps the order in which elements first appear in the input |
| Sequences.DedupeKeepsOne | src/actions/arcActions.ts:104 | every input element sits at exactly one position of the deduplicated list |
| ArcTypes.DaoRoute | src/actions/arcActions.ts:243 | a DAO's page path is the "/dao/" prefix followed by the avatar address |
| ArcTypes.RouteDao | src/actions/arcActions.ts:243 | reads the avatar back from a page path, and answers None exactly for paths that no avatar's route produces |
| ArcTypes.RouteRoundTrip | src/actions/arcActions.ts:243 | reading a DAO route back gives the avatar it was built from |
| DaoSnapshot.Receivers | src/actions/arcActions.ts:88-100 | one recipient per mint or transfer event, its `to` argument, in event order |
| DaoSnapshot.Recipients | src/actions/arcActions.ts:84-102 | the candidate member list has one entry per token mint, token transfer and reputation mint event |
| DaoSnapshot.RecipientsInEventOrder | src/actions/arcActions.ts:84-102 | the token mint recipients come first, then the transfer recipients, then the reputation mint recipients, each in event order |
| DaoSnapshot.EndedIds | src/actions/arcActions.ts:127-132 | the proposal ids of the executed or deleted events, in event order |
| DaoSnapshot.Members | src/actions/arcActions.ts:106-116 | succeeds exactly when every balance lookup succeeds; then one member per address, in address order, with both balances taken from the lookups; a failure carries the message of the first lookup that throws, token before reputation for each address |
| DaoSnapshot.OfAvatar | src/actions/arcActions.ts:135-137 | keeps exactly the creation events whose avatar is the DAO's |
| DaoSnapshot.OfAvatarAppend | src/actions/arcActions.ts:135-137 | the selection distributes over concatenation, so relative event order is kept |
| DaoSnapshot.Classify | src/actions/arcActions.ts:170-176 | passed exactly when the id was executed; failed exactly when it was deleted but not executed; open exactly when neither |
| DaoSnapshot.Description | src/actions/arcActions.ts:139-150 | the server's first description when the server returns a non-empty list; the on-chain description when it returns none or the request fails |
| DaoSnapshot.MakeProposal | src/actions/arcActions.ts:152-186 | executed gives Executed/1 even if also deleted; deleted only gives Executed/2; neither gives NotBoosted/0 with yes/no from vote totals 1 and 2; boost, submission and prediction fields are 0; only an open proposal can fail, and then with its tally read's message |
| DaoSnapshot.ProposalsReportFirstFailure | src/actions/arcActions.ts:134-189 | a failing proposal list carries the error of the first of this DAO's proposals, in event order, whose record cannot be built |
| DaoSnapshot.FirstFailureShifts | src/actions/arcActions.ts:134-189 | a proposal that builds, placed in front, moves the first failing position back by one |
| DaoSnapshot.Proposals | src/actions/arcActions.ts:134-189 | one proposal per creation event of this DAO, in event order, each as MakeProposal builds it; fails exactly when one of them fails |
| DaoSnapshot.Summary | src/actions/arcActions.ts:63-77 | the summary takes its name, token name and symbol, reputation and token addresses from the direct queries, both supplies in ether, no controller, rank 1, promoted amount 0, and no members or proposals |
| DaoSnapshot.GetDetail | src/actions/arcActions.ts:79-190 | succeeds exactly when the three event reads, every balance lookup, the three proposal-event reads and every open proposal's tally read succeed; otherwise it fails with the message of the first of those, in that order, that fails; members come from the deduplicated recipients of the three event streams, and proposals from this DAO's creation events with the executed and deleted id lists |
| DaoSnapshot.GetDAOData | src/actions/arcActions.ts:60-193 | a failing identity read fails the snapshot; the name, token name and symbol, reputation and token addresses and both supplies come from the identity, with no controller, rank 1 and promoted amount 0; a non-detailed snapshot has empty members and proposals; a detailed one carries the detail or its failure |
| DaoSnapshot.DetailedMembers | src/actions/arcActions.ts:84-116 | the member addresses are the deduplicated recipients, without repeats, in first-appearance order, with balances from the lookups |
| DaoSnapshot.MintAndTransferCollapse | src/actions/arcActions.ts:84-104 | an address that receives both a mint and a transfer is exactly one member |
| DaoSnapshot.MembersIgnoreEventAmounts | src/actions/arcActions.ts:106-116 | changing only the amounts carried by events leaves the snapshot unchanged |
| DaoSnapshot.DetailedProposals | src/actions/arcActions.ts:134-189 | the proposal list is index-aligned with this DAO's creation events, each classified by the ended-id lists |
| DaoSnapshot.NoEventsNoDetail | src/actions/arcActions.ts:79-190 | with no mint, transfer or proposal events, a detailed snapshot succeeds whenever the identity and ended-proposal reads do, and has no members and no proposals |
| DaoSnapshot.CollectByKey | src/actions/arcActions.ts:38-43 | succeeds exactly when every key's value does; then every key is present and maps to its own value, and no other key is present |
| DaoSnapshot.Avatars | src/actions/arcActions.ts:40-42 | the avatar of each creation event, in event order |
| DaoSnapshot.GetDAOs | src/actions/arcActions.ts:38-43 | the map holds exactly the created avatars, each mapped to its non-detailed snapshot; one failing snapshot fails the map |
| DaoSnapshot.DaoMapHoldsSummaries | src/actions/arcActions.ts:42 | every map entry is a summary of its own avatar, with no members and no proposals |
| ArcDecisions.FindExecuted | src/actions/arcActions.ts:341 | the first log whose event is "LogExecuteProposal", and None exactly when there is none |
| ArcDecisions.VoteOnProposal | src/actions/arcActions.ts:328-357 | a throwing call rejects with its message; no execution log gives NotBoosted/0; decision 1 or 2 gives Executed with that winning vote; any other decision is rejected with "Unknown proposal decision " and the decision, with nothing fulfilled |
| ArcDecisions.FirstExecutionLogDecides | src/actions/arcActions.ts:341-352 | an unknown decision in the first execution log rejects, whatever later logs say |
| ArcDecisions.CompareAsWritten | src/actions/arcActions.ts:202-204 | the comparator returns nothing, modelled as 0 for every pair: it never orders two collaborators |
| ArcDecisions.InsertStable | src/actions/arcActions.ts:202-204 | inserting adds exactly the one element |
| ArcDecisions.StableSort | src/actions/arcActions.ts:202-204 | sorting is a permutation of the collaborators |
| ArcDecisions.SortAsWrittenKeepsOrder | src/actions/arcActions.ts:202-204 | with the comparator as written, the sort returns the collaborators in input order |
| ArcDecisions.FoundersOf | src/actions/arcActions.ts:205-212 | one founder per collaborator at the same index, with the same address and both amounts scaled to wei |
| ArcDecisions.Founders | src/actions/arcActions.ts:201-212 | the founders are index-aligned with the unsorted input collaborators |
| ArcDecisions.CreateDaoConfig | src/actions/arcActions.ts:214-224 | the deployment gets the names, the founders and the ContributionReward scheme |
| ArcDecisions.CreateDAO | src/actions/arcActions.ts:195-247 | a failed deployment rejects with its message; a successful one fulfils with the new avatar, controller, reputation and token addresses, the given names, zero counts, rank 1, promoted amount 0, no members or proposals, and redirects to the new DAO's page |
| ArcDecisions.CreateDaoRedirectsToNewDao | src/actions/arcActions.ts:243 | the redirect after a successful creation routes back to the new DAO's avatar |
| ProposalForm.Require | src/components/CreateProposal/CreateProposalContainer.tsx:194-198 | an empty text marks its field "Required"; a non-empty one changes nothing; other fields are never touched |
| ProposalForm.NonNegative | src/components/CreateProposal/CreateProposalContainer.tsx:200-204 | a negative amount marks its field as a negative reward; any other amount changes nothing; other fields are never touched |
| ProposalForm.MessageTextsDistinct | src/components/CreateProposal/CreateProposalContainer.tsx:196-233 | no two error messages share a text |
| ProposalForm.WriteReplaces | src/components/CreateProposal/CreateProposalContainer.tsx:194-204 | a write changes only its own key and, when it fires, replaces what an earlier write left there |
| ProposalForm.Validate | src/components/CreateProposal/CreateProposalContainer.tsx:191-237 | every key's final message is the one the per-field rule gives: "Required" over the earlier title, uniqueness and address messages; the URL, reward and "some reward" messages; nothing on reputation |
| ProposalForm.TitleLimit | src/components/CreateProposal/CreateProposalContainer.tsx:206-208 | "too long" exactly when the title exceeds 120 characters; some title error exactly when it is empty or too long |
| ProposalForm.EmptyBeneficiaryIsRequired | src/components/CreateProposal/CreateProposalContainer.tsx:215-230 | an empty recipient ends as "Required", whatever the address check says |
| ProposalForm.NegativeRewards | src/components/CreateProposal/CreateProposalContainer.tsx:200-226 | the ETH, external-token and native-token rewards are flagged exactly when negative; the reputation reward never is |
| ProposalForm.RewardsRule | src/components/CreateProposal/CreateProposalContainer.tsx:232-234 | the "some reward" error is present exactly when all four rewards are zero |
| ProposalForm.UrlRule | src/components/CreateProposal/CreateProposalContainer.tsx:219-222 | an empty URL is never an error; a non-empty one is exactly when the pattern rejects it |
| ProposalForm.UniquenessOffWithoutDescriptions | src/components/CreateProposal/CreateProposalContainer.tsx:173 | with the empty description list the page passes, "Must be unique" is never reported |
| ProposalForm.ErrorKeys | src/components/CreateProposal/CreateProposalContainer.tsx:192-236 | errors appear only under the eight checked keys, and there are none exactly when every check passes |
| ProposalSubmit.Default | src/components/CreateProposal/CreateProposalContainer.tsx:17-65 | every default string and list is empty, every big integer zero, and every number zero except `periods` (1) and `queuedVoteRequiredPercentage` (50) |
| ProposalSubmit.SpreadKeepsAndOverrides | src/components/CreateProposal/CreateProposalContainer.tsx:140-142 | an object spread holds the keys of both records, and the later one wins on a shared key |
| ProposalSubmit.ProposalValues | src/components/CreateProposal/CreateProposalContainer.tsx:133-139 | the submitted values hold exactly the nine form keys |
| ProposalSubmit.TextsUnchanged | src/components/CreateProposal/CreateProposalContainer.tsx:133-139 | the text fields and the external token are submitted unchanged |
| ProposalSubmit.RewardsInWei | src/components/CreateProposal/CreateProposalContainer.tsx:133-139 | all four rewards are submitted in wei, replacing the ether amounts the spread copied |
| ProposalSubmit.HandleSubmit | src/components/CreateProposal/CreateProposalContainer.tsx:130-147 | a failed network check changes nothing and requests nothing; otherwise the record has exactly the default keys, the nine form keys carry the submitted values, every other key keeps its default, and the creation request carries the same values |
| ProposalSubmit.SubmitForgetsEarlierDetails | src/components/CreateProposal/CreateProposalContainer.tsx:140-142 | the kept record does not depend on the earlier one, so submitting the same values again changes nothing |
| ProposalSubmit.SubmittedRewardsRoundTrip | src/components/CreateProposal/CreateProposalContainer.tsx:134-139 | reading each requested wei amount back as ether gives the form's reward to within one wei, never more |
| ProposalSubmit.GoBack | src/components/CreateProposal/CreateProposalContainer.tsx:149-158 | back exactly when the history is non-empty; otherwise a push of the page whose route reads back as this DAO |

## Left out

- ArcDecisions.Founders: assumes the engine's sort is stable and reads the
  comparator's `undefined` as +0, as current engines do. ECMA-262 leaves the
  order implementation-defined for an inconsistent comparator, and older V8
  releases used an unstable sort for arrays of more than 10 elements; the
  model does not cover those orders.
- Floating point: every `Number(web3.fromWei(..))` and `toWei(..)` is exact
  rational arithmetic, with truncation below one wei. `Util.toWei` (lib/util)
  is not part of this model; it is taken to scale by 10^18 like `web3.toWei`.
- Number inputs that are `NaN` or an empty string are not modelled. Form
  amounts are real numbers, so "falsy" means zero.
- Title length is counted in characters of a Dafny string, not in UTF-16 code
  units.
- `web3.utils.isAddress` and the URL regular expression are parameters, not
  interpreted.
- The `[key: string]: any` index signature of `FormValues`: the form holds
  exactly its nine declared fields. The key order of JavaScript objects is not
  modelled either.
- `proposalDescriptions` is a parameter of `Validate`. The page passes the
  empty list, and `UniquenessOffWithoutDescriptions` covers that case.
- Formik's wiring is not modelled: it runs `validate` and calls `onSubmit`
  only on a clean result, and its `setSubmitting` is left out too. So are
  React rendering, Redux dispatch, normalizr, `push` and the console logging
  of a failed description request.
- The `createProposal` call at the end of `handleSubmit` passes ten arguments
  to an action creator (arcActions.ts:250) that takes five. The model stops at
  the `CreateRequest` it would pass. `createProposal` itself (arcActions.ts:250-310)
  is not modelled.
- `getDAO` (arcActions.ts:50-58) is not modelled; it only dispatches
  `getDAOData(.., true)`.
- The action plumbing is not modelled: the PENDING actions, the action `type`
  tags and the normalizr payloads. `createDAO`'s two outcomes are
  `CreateDaoFulfilled`/`CreateDaoRejected`. A failing `getDAOData` inside
  `getDAOs`' `NewOrg` callback is an unhandled rejection that dispatches
  nothing; a `Failure` of `GetDAOs` stands for it.
- The `getDAOs` error branch (arcActions.ts:34-36) dispatches a rejection and
  then goes on with a possibly undefined event list. It is a crash path and is
  not modelled; the event list is an input.
- DaoSnapshot.MakeProposal: `votesStatus` answers are vectors of at least three
  totals and `_rewards` of at least two amounts, as the voting machine and
  the ContributionReward scheme return them. A shorter array, which would
  give `undefined` at index 1 or 2 (arcActions.ts:162-163,184-185), is not
  modelled.
- DaoSnapshot.GetDetail: the lookup `Arc.ContributionReward.deployed()`
  (arcActions.ts:119) has no failure of its own in the model; a throw there is
  folded into the failure of `proposalsCreated`, which aborts at the same
  point.
- DaoSnapshot.GetDAOData: the identity reads (name, addresses, supplies, token
  name and symbol) are one `Result`, so which of them failed first is not
  distinguished. The scheme-parameter and voting-machine lookups for an open
  proposal are folded into its `votesStatus` result.
- DaoSnapshot.GetDAOs: the ledger answers the same for an avatar each time it
  is asked, so a repeated `NewOrg` avatar rewrites an equal snapshot. The
  source asks the chain again.
- ArcDecisions.VoteOnProposal: the account, gas and vote value of the vote
  transaction are not modelled; the transaction is given as its logs or its
  failure. Proposal ids are strings (the source also allows numbers).
- `src/components/ViewDao/ViewDaoContainer.tsx` (rendering only) and
  `src/constants/web3Constants.ts` (a string enumeration) are not part of this
  model.
