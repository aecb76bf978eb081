/**
 * The read-side selectors of the dapp: pure functions from a state snapshot
 * and a container's props to the view-state the components render. Each
 * `makeGetX` factory of the source is modelled as the plain function its
 * selector wraps; the phase predicates of the domain-rules library arrive as
 * a `DomainRules` parameter.
 */
module Selectors {
  import opened Options
  import opened Decimal
  import opened CivilState

  // ---------------------------------------------------------------------------
  // JavaScript truthiness and identifier normalisation
  // ---------------------------------------------------------------------------

  /** Truthiness of an optional string: `undefined` and "" are falsy. */
  predicate IsTruthy(s: Option<string>) {
    s.Some? && s.value != ""
  }

  /**
   * Truthiness of an optional challenge identifier. A `BigNumber` is an
   * object, so it is truthy whatever its value, zero included.
   */
  predicate HasChallengeId(id: Option<ChallengeIdValue>) {
    match id
    case None => false
    case Some(Str(s)) => s != ""
    case Some(Num(_)) => true
  }

  /** The map key for an identifier: a string as it is, a number by `toString`. */
  function ChallengeKeyOf(id: ChallengeIdValue): (key: ChallengeKey)
    ensures id.Str? ==> key == id.s
    ensures id.Num? ==> IsCanonical(key) && ParseDecimal(key) == id.n
  {
    match id
    case Str(s) => s
    case Num(n) => ParseNatToString(n); NatToString(n)
  }

  /** `x && f(x)` for an object `x` that may be undefined. */
  function Guard<T>(x: Option<T>, f: T -> bool): (r: Option<bool>)
    ensures r.None? <==> x.None?
    ensures r.Some? ==> r.value == f(x.value)
  {
    match x
    case None => None
    case Some(v) => Some(f(v))
  }

  /** `x && x.n ? x.n : undefined` for a numeric field `n`: zero is falsy. */
  function IfTruthy(n: Option<nat>): (r: Option<nat>)
    ensures r.Some? <==> n.Some? && n.value != 0
    ensures r.Some? ==> r == n
  {
    if n.Some? && n.value != 0 then n else None
  }

  // ---------------------------------------------------------------------------
  // Accessors
  // ---------------------------------------------------------------------------

  function GetUser(state: State): Option<UserState> {
    state.user
  }

  /** `user.account && user.account.account`: the wallet's address, if there is a wallet and it has one. */
  function UserAddress(user: UserState): (r: Option<Address>)
    ensures r.Some? <==> user.account.Some? && user.account.value.account.Some?
    ensures r.Some? ==> r == user.account.value.account
  {
    match user.account
    case None => None
    case Some(wallet) => wallet.account
  }

  function GetNewsroom(state: State, props: ListingProps): (r: Option<Newsroom>)
    ensures r.Some? <==> IsTruthy(props.listingAddress) && props.listingAddress.value in state.newsrooms
    ensures r.Some? ==> r.value == state.newsrooms[props.listingAddress.value]
  {
    if !IsTruthy(props.listingAddress) then None
    else Get(state.newsrooms, props.listingAddress.value)
  }

  /**
   * Unknown while the newsroom or the user is not loaded; otherwise whether the
   * user's address is one of the newsroom's owners. A user without a wallet
   * address gets `false`, since `owners.includes(undefined)` is false.
   */
  function GetIsUserNewsroomOwner(state: State, props: ListingProps): (r: Option<bool>)
    ensures r.None? <==> GetNewsroom(state, props).None? || GetUser(state).None?
    ensures r == Some(true) <==>
      && GetNewsroom(state, props).Some?
      && GetUser(state).Some?
      && UserAddress(GetUser(state).value).Some?
      && exists i :: 0 <= i < |GetNewsroom(state, props).value.owners| &&
           GetNewsroom(state, props).value.owners[i] == UserAddress(GetUser(state).value).value
  {
    match (GetNewsroom(state, props), GetUser(state))
    case (Some(newsroom), Some(user)) =>
      var address := UserAddress(user);
      Some(address.Some? && address.value in newsroom.owners)
    case _ => None
  }

  function GetListingWrapper(state: State, props: ListingProps): (r: Option<ListingWrapperWithExpiry>)
    ensures r.Some? <==> IsTruthy(props.listingAddress) && props.listingAddress.value in state.listings
    ensures r.Some? ==> r.value == state.listings[props.listingAddress.value]
  {
    if !IsTruthy(props.listingAddress) then None
    else Get(state.listings, props.listingAddress.value)
  }

  function GetListing(state: State, props: ListingProps): (r: Option<ListingWrapper>)
    ensures r.Some? <==> GetListingWrapper(state, props).Some?
    ensures r.Some? ==> r.value == state.listings[props.listingAddress.value].listing
  {
    match GetListingWrapper(state, props)
    case None => None
    case Some(w) => Some(w.listing)
  }

  function GetChallenge(state: State, props: ChallengeProps): (r: Option<WrappedChallengeData>)
    ensures r.Some? <==>
      HasChallengeId(props.challengeID) && ChallengeKeyOf(props.challengeID.value) in state.challenges
    ensures r.Some? ==> r.value == state.challenges[ChallengeKeyOf(props.challengeID.value)]
  {
    if !HasChallengeId(props.challengeID) then None
    else Get(state.challenges, ChallengeKeyOf(props.challengeID.value))
  }

  function GetChallengeUserDataMap(state: State, props: ChallengeProps): (r: Option<map<Address, UserChallengeData>>)
    ensures r.Some? <==>
      HasChallengeId(props.challengeID) && ChallengeKeyOf(props.challengeID.value) in state.challengeUserData
    ensures r.Some? ==> r.value == state.challengeUserData[ChallengeKeyOf(props.challengeID.value)]
  {
    if !HasChallengeId(props.challengeID) then None
    else Get(state.challengeUserData, ChallengeKeyOf(props.challengeID.value))
  }

  /**
   * The user's data for one challenge. `user.account` is read only once the
   * challenge's map is found; a wallet without an address looks up
   * `undefined`, which no entry is keyed by.
   */
  function GetUserChallengeData(state: State, props: ChallengeProps): (r: Option<UserChallengeData>)
    requires GetChallengeUserDataMap(state, props).Some? ==> GetUser(state).Some?
    ensures r.Some? <==>
      && GetChallengeUserDataMap(state, props).Some?
      && UserAddress(GetUser(state).value).Some?
      && UserAddress(GetUser(state).value).value in GetChallengeUserDataMap(state, props).value
    ensures r.Some? ==>
      r.value == GetChallengeUserDataMap(state, props).value[UserAddress(GetUser(state).value).value]
  {
    match GetChallengeUserDataMap(state, props)
    case None => None
    case Some(userMap) =>
      match UserAddress(GetUser(state).value)
      case None => None
      case Some(address) => Get(userMap, address)
  }

  // ---------------------------------------------------------------------------
  // Eligibility sets
  // ---------------------------------------------------------------------------

  /** Revealed a winning vote and has not collected the reward yet. */
  predicate HasUnclaimedRewards(d: UserChallengeData) {
    d.didUserReveal && d.isVoterWinner && !d.didUserCollect
  }

  /** Committed a vote and has not revealed it. */
  predicate HasUnrevealedCommit(d: UserChallengeData) {
    d.didUserCommit && !d.didUserReveal
  }

  /** `challenge && isChallengeInRevealStage(challenge.challenge)`, read as a condition. */
  predicate IsInRevealStage(rules: DomainRules, challenges: map<ChallengeKey, WrappedChallengeData>, key: ChallengeKey) {
    key in challenges && rules.isChallengeInRevealStage(challenges[key].challenge)
  }

  /** `challenge && challenge.challenge.resolved`, read as a condition. */
  predicate IsResolved(challenges: map<ChallengeKey, WrappedChallengeData>, key: ChallengeKey) {
    key in challenges && challenges[key].challenge.resolved
  }

  /**
   * What the three set selectors need of the snapshot: the user is loaded and,
   * when it has a wallet, every per-challenge map holds an entry for the
   * wallet's address (the source destructures that entry without a check, so a
   * wallet without an address is admitted only while no challenge has data).
   */
  predicate UserDataComplete(state: State) {
    && state.user.Some?
    && (state.user.value.account.Some? ==>
          forall key :: key in state.challengeUserData ==>
            && state.user.value.account.value.account.Some?
            && state.user.value.account.value.account.value in state.challengeUserData[key])
  }

  function GetUserChallengesWithUnclaimedRewards(state: State): (r: Option<set<ChallengeKey>>)
    requires UserDataComplete(state)
    ensures r.None? <==> state.user.value.account.None?
    ensures r.Some? ==> r.value <= state.challengeUserData.Keys
    ensures r.Some? ==> forall key :: key in state.challengeUserData ==>
      (key in r.value <==> HasUnclaimedRewards(state.challengeUserData[key][UserAddress(state.user.value).value]))
  {
    match state.user.value.account
    case None => None
    case Some(wallet) =>
      Some(set key | key in state.challengeUserData &&
                     HasUnclaimedRewards(state.challengeUserData[key][wallet.account.value]))
  }

  function GetUserChallengesWithUnrevealedVotes(rules: DomainRules, state: State): (r: Option<set<ChallengeKey>>)
    requires UserDataComplete(state)
    ensures r.None? <==> state.user.value.account.None?
    ensures r.Some? ==> r.value <= state.challengeUserData.Keys
    ensures r.Some? ==> forall key :: key in state.challengeUserData ==>
      (key in r.value <==>
        && HasUnrevealedCommit(state.challengeUserData[key][UserAddress(state.user.value).value])
        && key in state.challenges
        && rules.isChallengeInRevealStage(state.challenges[key].challenge))
  {
    match state.user.value.account
    case None => None
    case Some(wallet) =>
      Some(set key | key in state.challengeUserData &&
                     HasUnrevealedCommit(state.challengeUserData[key][wallet.account.value]) &&
                     IsInRevealStage(rules, state.challenges, key))
  }

  function GetUserChallengesWithRescueTokens(state: State): (r: Option<set<ChallengeKey>>)
    requires UserDataComplete(state)
    ensures r.None? <==> state.user.value.account.None?
    ensures r.Some? ==> r.value <= state.challengeUserData.Keys
    ensures r.Some? ==> forall key :: key in state.challengeUserData ==>
      (key in r.value <==>
        && HasUnrevealedCommit(state.challengeUserData[key][UserAddress(state.user.value).value])
        && key in state.challenges
        && state.challenges[key].challenge.resolved)
  {
    match state.user.value.account
    case None => None
    case Some(wallet) =>
      Some(set key | key in state.challengeUserData &&
                     HasUnrevealedCommit(state.challengeUserData[key][wallet.account.value]) &&
                     IsResolved(state.challenges, key))
  }

  // ---------------------------------------------------------------------------
  // Derived listing and challenge values
  // ---------------------------------------------------------------------------

  function GetListingAddressByChallengeID(state: State, props: ChallengeProps): (r: Option<Address>)
    ensures r.Some? <==> GetChallenge(state, props).Some?
    ensures r.Some? ==> r.value == state.challenges[ChallengeKeyOf(props.challengeID.value)].listingAddress
  {
    match GetChallenge(state, props)
    case None => None
    case Some(challenge) => Some(challenge.listingAddress)
  }

  function GetListingExpiry(state: State, props: ListingProps): (r: Option<nat>)
    ensures GetListingWrapper(state, props).None? ==> r.None?
    ensures r.Some? ==> state.listings[props.listingAddress.value].expiry == r
    ensures GetListingWrapper(state, props).Some? && GetListingWrapper(state, props).value.expiry.Some? ==> r.Some?
  {
    match GetListingWrapper(state, props)
    case None => None
    case Some(w) => w.expiry
  }

  datatype ChallengeState = ChallengeState(
    isResolved: Option<bool>,
    inCommitPhase: Option<bool>,
    inRevealPhase: Option<bool>,
    canResolveChallenge: Option<bool>,
    isAwaitingAppealJudgment: Option<bool>,
    isAwaitingAppealChallenge: Option<bool>,
    canAppealBeResolved: Option<bool>)

  /** `challenge && challenge.appeal`. */
  function AppealOf(challenge: Option<ChallengeData>): (r: Option<AppealData>)
    ensures r.Some? <==> challenge.Some? && challenge.value.appeal.Some?
    ensures r.Some? ==> r == challenge.value.appeal
  {
    match challenge
    case None => None
    case Some(c) => c.appeal
  }

  /** The flags of one challenge record, or of none. */
  function ChallengeStateOf(rules: DomainRules, challenge: Option<ChallengeData>): (r: ChallengeState)
    ensures challenge.None? ==> r == ChallengeState(None, None, None, None, None, None, None)
    ensures challenge.Some? ==>
      && r.isResolved == Some(challenge.value.resolved)
      && r.inCommitPhase == Some(rules.isChallengeInCommitStage(challenge.value))
      && r.inRevealPhase == Some(rules.isChallengeInRevealStage(challenge.value))
      && r.canResolveChallenge == Some(rules.canResolveChallenge(challenge.value))
    ensures r.isAwaitingAppealJudgment.None? <==> challenge.None? || challenge.value.appeal.None?
    ensures r.isAwaitingAppealChallenge.None? <==> challenge.None? || challenge.value.appeal.None?
    ensures r.canAppealBeResolved.None? <==> challenge.None? || challenge.value.appeal.None?
    ensures r.isAwaitingAppealJudgment.Some? ==>
      && r.isAwaitingAppealJudgment.value == rules.isAppealAwaitingJudgment(challenge.value.appeal.value)
      && r.isAwaitingAppealChallenge.value == rules.isAwaitingAppealChallenge(challenge.value.appeal.value)
      && r.canAppealBeResolved.value == rules.canAppealBeResolved(challenge.value.appeal.value)
  {
    var appeal := AppealOf(challenge);
    ChallengeState(
      isResolved := Guard(challenge, (c: ChallengeData) => c.resolved),
      inCommitPhase := Guard(challenge, rules.isChallengeInCommitStage),
      inRevealPhase := Guard(challenge, rules.isChallengeInRevealStage),
      canResolveChallenge := Guard(challenge, rules.canResolveChallenge),
      isAwaitingAppealJudgment := Guard(appeal, rules.isAppealAwaitingJudgment),
      isAwaitingAppealChallenge := Guard(appeal, rules.isAwaitingAppealChallenge),
      canAppealBeResolved := Guard(appeal, rules.canAppealBeResolved))
  }

  function GetChallengeState(rules: DomainRules, state: State, props: ChallengeProps): (r: ChallengeState)
    ensures GetChallenge(state, props).None? ==> r == ChallengeState(None, None, None, None, None, None, None)
    ensures GetChallenge(state, props).Some? ==>
      r == ChallengeStateOf(rules, Some(state.challenges[ChallengeKeyOf(props.challengeID.value)].challenge))
  {
    match GetChallenge(state, props)
    case None => ChallengeStateOf(rules, None)
    case Some(wrapped) => ChallengeStateOf(rules, Some(wrapped.challenge))
  }

  datatype ListingPhaseState = ListingPhaseState(
    isInApplication: bool,
    canBeChallenged: bool,
    canBeWhitelisted: bool,
    canResolveChallenge: Option<bool>,
    inChallengeCommitVotePhase: Option<bool>,
    inChallengeRevealPhase: Option<bool>,
    isAwaitingAppealRequest: bool,
    isWhitelisted: bool,
    isUnderChallenge: Option<bool>,
    isRejected: bool,
    isAwaitingAppealJudgment: bool,
    isAwaitingAppealChallenge: bool,
    isInAppealChallengeCommitPhase: bool,
    isInAppealChallengeRevealPhase: bool,
    canListingAppealChallengeBeResolved: bool)

  /** The phase flags of one listing. `isRejected` is not read from the chain: it is what is left when no other live state holds. */
  function PhaseStateOf(rules: DomainRules, data: ListingData): (r: ListingPhaseState)
    ensures r.isRejected <==>
      !r.isWhitelisted && !r.isInApplication && !r.canBeWhitelisted && r.isUnderChallenge.None?
    ensures r.isUnderChallenge.None? <==> data.challenge.None?
    ensures r.isUnderChallenge == Some(true) <==> data.challenge.Some? && !data.challenge.value.resolved
    ensures r.inChallengeCommitVotePhase.None? <==> data.challenge.None?
    ensures r.inChallengeRevealPhase.None? <==> data.challenge.None?
    ensures r.canResolveChallenge.None? <==> data.challenge.None?
    ensures r.isWhitelisted == data.isWhitelisted
    ensures r.isInApplication == rules.isInApplicationPhase(data)
    ensures r.canBeWhitelisted == rules.canBeWhitelisted(data)
    ensures r.inChallengeCommitVotePhase == ChallengeStateOf(rules, data.challenge).inCommitPhase
    ensures r.inChallengeRevealPhase == ChallengeStateOf(rules, data.challenge).inRevealPhase
    ensures r.canResolveChallenge == ChallengeStateOf(rules, data.challenge).canResolveChallenge
    ensures r.isRejected ==> r.isUnderChallenge != Some(true)
  {
    var isInApplication := rules.isInApplicationPhase(data);
    var canBeWhitelisted := rules.canBeWhitelisted(data);
    ListingPhaseState(
      isInApplication := isInApplication,
      canBeChallenged := rules.canListingBeChallenged(data),
      canBeWhitelisted := canBeWhitelisted,
      canResolveChallenge := Guard(data.challenge, rules.canResolveChallenge),
      inChallengeCommitVotePhase := Guard(data.challenge, rules.isChallengeInCommitStage),
      inChallengeRevealPhase := Guard(data.challenge, rules.isChallengeInRevealStage),
      isAwaitingAppealRequest := rules.isAwaitingAppealRequest(data),
      isWhitelisted := data.isWhitelisted,
      isUnderChallenge := Guard(data.challenge, (c: ChallengeData) => !c.resolved),
      isRejected := !data.isWhitelisted && !isInApplication && !canBeWhitelisted && data.challenge.None?,
      isAwaitingAppealJudgment := rules.isListingAwaitingAppealJudgment(data),
      isAwaitingAppealChallenge := rules.isListingAwaitingAppealChallenge(data),
      isInAppealChallengeCommitPhase := rules.isInAppealChallengeCommitPhase(data),
      isInAppealChallengeRevealPhase := rules.isInAppealChallengeRevealPhase(data),
      canListingAppealChallengeBeResolved := rules.canListingAppealChallengeBeResolved(data))
  }

  function GetListingPhaseState(rules: DomainRules, state: State, props: ListingProps): (r: Option<ListingPhaseState>)
    ensures r.None? <==> GetListingWrapper(state, props).None?
    ensures r.Some? ==>
      var data := state.listings[props.listingAddress.value].listing.data;
      && (r.value.isRejected <==>
            !data.isWhitelisted && !rules.isInApplicationPhase(data) && !rules.canBeWhitelisted(data) &&
            data.challenge.None?)
      && (r.value.isUnderChallenge == Some(true) <==> data.challenge.Some? && !data.challenge.value.resolved)
  {
    match GetListingWrapper(state, props)
    case None => None
    case Some(w) => Some(PhaseStateOf(rules, w.listing.data))
  }

  // ---------------------------------------------------------------------------
  // History and extended metadata
  // ---------------------------------------------------------------------------

  /** The listing's events, or the empty list when none are known. The address is not checked for truthiness. */
  function GetListingHistory(state: State, props: ListingProps): (r: seq<TimestampedEvent>)
    ensures props.listingAddress.Some? && props.listingAddress.value in state.histories ==>
      r == state.histories[props.listingAddress.value]
    ensures props.listingAddress.None? || props.listingAddress.value !in state.histories ==> r == []
  {
    match props.listingAddress
    case None => []
    case Some(address) =>
      match Get(state.histories, address)
      case None => []
      case Some(history) => history
  }

  function GetListingExtendedMetadata(state: State, props: ListingProps): (r: Option<ListingExtendedMetadata>)
    ensures r.Some? <==> props.listingAddress.Some? && props.listingAddress.value in state.listingsExtendedMetadata
    ensures r.Some? ==> r.value == state.listingsExtendedMetadata[props.listingAddress.value]
  {
    match props.listingAddress
    case None => None
    case Some(address) => Get(state.listingsExtendedMetadata, address)
  }

  /** The identifier is a `BigNumber`, so any present value is truthy. */
  function GetLatestChallengeSucceededChallengeID(state: State, props: ListingProps): (r: Option<nat>)
    ensures r.Some? <==>
      GetListingExtendedMetadata(state, props).Some? &&
      GetListingExtendedMetadata(state, props).value.latestChallengeID.Some?
    ensures r.Some? ==> r == state.listingsExtendedMetadata[props.listingAddress.value].latestChallengeID
  {
    match GetListingExtendedMetadata(state, props)
    case None => None
    case Some(meta) => meta.latestChallengeID
  }

  function GetLatestListingRemovedTimestamp(state: State, props: ListingProps): (r: Option<nat>)
    ensures r.Some? ==> r.value > 0
    ensures r.Some? <==>
      && GetListingExtendedMetadata(state, props).Some?
      && GetListingExtendedMetadata(state, props).value.listingRemovedTimestamp.Some?
      && GetListingExtendedMetadata(state, props).value.listingRemovedTimestamp.value != 0
    ensures r.Some? ==> r == state.listingsExtendedMetadata[props.listingAddress.value].listingRemovedTimestamp
  {
    match GetListingExtendedMetadata(state, props)
    case None => None
    case Some(meta) => IfTruthy(meta.listingRemovedTimestamp)
  }

  function GetLatestWhitelistedTimestamp(state: State, props: ListingProps): (r: Option<nat>)
    ensures r.Some? ==> r.value > 0
    ensures r.Some? <==>
      && GetListingExtendedMetadata(state, props).Some?
      && GetListingExtendedMetadata(state, props).value.whitelistedTimestamp.Some?
      && GetListingExtendedMetadata(state, props).value.whitelistedTimestamp.value != 0
    ensures r.Some? ==> r == state.listingsExtendedMetadata[props.listingAddress.value].whitelistedTimestamp
  {
    match GetListingExtendedMetadata(state, props)
    case None => None
    case Some(meta) => IfTruthy(meta.whitelistedTimestamp)
  }
}
