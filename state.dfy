/**
 * The state snapshot the selectors read, and the records in it. Only the
 * fields a selector or a domain rule may look at are kept.
 */
module CivilState {
  import opened Options

  /** An Ethereum address, as the hex string the maps are keyed by. */
  type Address = string

  /** The string key of a challenge in `challenges` and `challengeUserData`. */
  type ChallengeKey = string

  datatype AppealData = AppealData(
    requester: Address,
    appealFeePaid: nat,
    appealPhaseExpiry: nat,
    appealOpenToChallengeExpiry: nat,
    appealGranted: bool)

  datatype ChallengeData = ChallengeData(
    challenger: Address,
    rewardPool: nat,
    stake: nat,
    commitEndDate: nat,
    revealEndDate: nat,
    resolved: bool,
    appeal: Option<AppealData>)

  datatype ListingData = ListingData(
    owner: Address,
    appExpiry: nat,
    isWhitelisted: bool,
    unstakedDeposit: nat,
    challengeID: nat,
    challenge: Option<ChallengeData>)

  datatype ListingWrapper = ListingWrapper(address: Address, data: ListingData)

  /** A listing together with the end of its current timed phase, if any. */
  datatype ListingWrapperWithExpiry = ListingWrapperWithExpiry(listing: ListingWrapper, expiry: Option<nat>)

  datatype WrappedChallengeData = WrappedChallengeData(
    listingAddress: Address,
    challengeID: nat,
    challenge: ChallengeData)

  /**
   * One user's part in one challenge. The source declares the flags as
   * possibly undefined; it only reads them through `!!` and `!`, under which
   * undefined behaves as false, so they are plain booleans here.
   */
  datatype UserChallengeData = UserChallengeData(
    didUserCommit: bool,
    didUserReveal: bool,
    didUserCollect: bool,
    isVoterWinner: bool)

  /** The newsroom contract as the newsroom manager stores it (`wrapper.data`). */
  datatype Newsroom = Newsroom(address: Address, name: string, owners: seq<Address>)

  /** `user.account`: the connected wallet; its own `account` field is the wallet's address. */
  datatype WalletAccount = WalletAccount(account: Option<Address>)

  datatype UserState = UserState(account: Option<WalletAccount>)

  datatype TimestampedEvent = TimestampedEvent(timestamp: nat, eventName: string)

  datatype ListingExtendedMetadata = ListingExtendedMetadata(
    latestChallengeID: Option<nat>,
    listingRemovedTimestamp: Option<nat>,
    whitelistedTimestamp: Option<nat>)

  datatype State = State(
    newsrooms: map<Address, Newsroom>,
    listings: map<Address, ListingWrapperWithExpiry>,
    challenges: map<ChallengeKey, WrappedChallengeData>,
    challengeUserData: map<ChallengeKey, map<Address, UserChallengeData>>,
    histories: map<Address, seq<TimestampedEvent>>,
    listingsExtendedMetadata: map<Address, ListingExtendedMetadata>,
    user: Option<UserState>)

  /** The props of a listing container: `{ listingAddress? }`. */
  datatype ListingProps = ListingProps(listingAddress: Option<Address>)

  /** A challenge identifier as it reaches a selector: a string or a `BigNumber`. */
  datatype ChallengeIdValue = Str(s: string) | Num(n: nat)

  /** The props of a challenge container: `{ challengeID? }`. */
  datatype ChallengeProps = ChallengeProps(challengeID: Option<ChallengeIdValue>)

  /**
   * The phase predicates of the domain-rules library. Their bodies are not
   * part of this model: every selector takes them as a parameter and every
   * lemma holds for all of them.
   */
  datatype DomainRules = DomainRules(
    isInApplicationPhase: ListingData -> bool,
    canListingBeChallenged: ListingData -> bool,
    canBeWhitelisted: ListingData -> bool,
    isAwaitingAppealRequest: ListingData -> bool,
    isListingAwaitingAppealJudgment: ListingData -> bool,
    isListingAwaitingAppealChallenge: ListingData -> bool,
    isInAppealChallengeCommitPhase: ListingData -> bool,
    isInAppealChallengeRevealPhase: ListingData -> bool,
    canListingAppealChallengeBeResolved: ListingData -> bool,
    isChallengeInCommitStage: ChallengeData -> bool,
    isChallengeInRevealStage: ChallengeData -> bool,
    canResolveChallenge: ChallengeData -> bool,
    isAppealAwaitingJudgment: AppealData -> bool,
    canAppealBeResolved: AppealData -> bool,
    isAwaitingAppealChallenge: AppealData -> bool)
}
