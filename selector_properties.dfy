/**
 * Properties that relate several selectors to each other, or a selector to
 * the updates the sync layer makes to the snapshot.
 */
module SelectorProperties {
  import opened Options
  import opened Decimal
  import opened CivilState
  import opened Selectors

  // ---------------------------------------------------------------------------
  // Missing keys
  // ---------------------------------------------------------------------------

  /** Without a listing address in the props, every listing-keyed selector yields no value. */
  lemma NoListingAddressNoValue(rules: DomainRules, state: State)
    ensures var props := ListingProps(None);
      && GetNewsroom(state, props).None?
      && GetIsUserNewsroomOwner(state, props).None?
      && GetListingWrapper(state, props).None?
      && GetListing(state, props).None?
      && GetListingExpiry(state, props).None?
      && GetListingPhaseState(rules, state, props).None?
      && GetListingHistory(state, props) == []
      && GetListingExtendedMetadata(state, props).None?
      && GetLatestChallengeSucceededChallengeID(state, props).None?
      && GetLatestListingRemovedTimestamp(state, props).None?
      && GetLatestWhitelistedTimestamp(state, props).None?
  {
  }

  /**
   * The empty address is falsy, so the guarded selectors ignore it; history and
   * metadata are looked up without that guard and do see an entry keyed "".
   */
  lemma EmptyAddressIsGuardedOnlyWhereChecked(rules: DomainRules, state: State)
    ensures var props := ListingProps(Some(""));
      && GetListingWrapper(state, props).None?
      && GetListingPhaseState(rules, state, props).None?
      && GetNewsroom(state, props).None?
      && ("" in state.histories ==> GetListingHistory(state, props) == state.histories[""])
      && ("" in state.listingsExtendedMetadata ==>
            GetListingExtendedMetadata(state, props) == Some(state.listingsExtendedMetadata[""]))
  {
  }

  /** An empty-string or missing challenge identifier selects nothing, whatever the maps hold. */
  lemma NoChallengeIdNoValue(rules: DomainRules, state: State, props: ChallengeProps)
    requires props.challengeID.None? || props.challengeID == Some(Str(""))
    ensures GetChallenge(state, props).None?
    ensures GetChallengeUserDataMap(state, props).None?
    ensures GetUserChallengeData(state, props).None?
    ensures GetListingAddressByChallengeID(state, props).None?
    ensures GetChallengeState(rules, state, props) == ChallengeState(None, None, None, None, None, None, None)
  {
  }

  // ---------------------------------------------------------------------------
  // Identifier normalisation
  // ---------------------------------------------------------------------------

  /** A numeric identifier and its string form select the same entries. */
  lemma NumericIdMatchesStringForm(state: State, n: nat)
    ensures var byNumber := ChallengeProps(Some(Num(n)));
            var byString := ChallengeProps(Some(Str(NatToString(n))));
      && GetChallenge(state, byNumber) == GetChallenge(state, byString)
      && GetChallengeUserDataMap(state, byNumber) == GetChallengeUserDataMap(state, byString)
  {
  }

  /** Every canonical decimal key is reached by the number it denotes, zero included. */
  lemma CanonicalKeyReachedByNumber(state: State, key: ChallengeKey)
    requires IsCanonical(key)
    ensures var byNumber := ChallengeProps(Some(Num(ParseDecimal(key))));
            var byString := ChallengeProps(Some(Str(key)));
      && GetChallenge(state, byNumber) == GetChallenge(state, byString)
      && GetChallengeUserDataMap(state, byNumber) == GetChallengeUserDataMap(state, byString)
  {
    NatToStringOfParse(key);
  }

  /** Two different numeric identifiers never select the same key. */
  lemma DistinctNumbersDistinctKeys(n: nat, m: nat)
    requires n != m
    ensures ChallengeKeyOf(Num(n)) != ChallengeKeyOf(Num(m))
  {
  }

  // ---------------------------------------------------------------------------
  // Eligibility sets
  // ---------------------------------------------------------------------------

  /**
   * The set selectors agree with the per-challenge selectors: a challenge is in
   * a set exactly when the user's data and the challenge state that the
   * challenge's own selectors report put it there.
   */
  lemma SetsAgreeWithPerChallengeSelectors(rules: DomainRules, state: State, key: ChallengeKey)
    requires UserDataComplete(state) && state.user.value.account.Some?
    requires key in state.challengeUserData && key != ""
    ensures var props := ChallengeProps(Some(Str(key)));
            var d := GetUserChallengeData(state, props);
            var flags := GetChallengeState(rules, state, props);
      && d.Some?
      && (key in GetUserChallengesWithUnclaimedRewards(state).value <==> HasUnclaimedRewards(d.value))
      && (key in GetUserChallengesWithUnrevealedVotes(rules, state).value <==>
            HasUnrevealedCommit(d.value) && flags.inRevealPhase == Some(true))
      && (key in GetUserChallengesWithRescueTokens(state).value <==>
            HasUnrevealedCommit(d.value) && flags.isResolved == Some(true))
  {
  }

  /** A revealed vote cannot also be an unrevealed one: unclaimed rewards exclude the other two sets. */
  lemma UnclaimedRewardsDisjoint(rules: DomainRules, state: State)
    requires UserDataComplete(state) && state.user.value.account.Some?
    ensures GetUserChallengesWithUnclaimedRewards(state).value !! GetUserChallengesWithUnrevealedVotes(rules, state).value
    ensures GetUserChallengesWithUnclaimedRewards(state).value !! GetUserChallengesWithRescueTokens(state).value
  {
  }

  /** Replacing one challenge's user data changes each set at that challenge only. */
  lemma UserDataUpdateIsLocal(
    rules: DomainRules, state: State, key: ChallengeKey, entry: map<Address, UserChallengeData>)
    requires UserDataComplete(state) && state.user.value.account.Some?
    requires UserAddress(state.user.value).Some? && UserAddress(state.user.value).value in entry
    ensures var state' := state.(challengeUserData := state.challengeUserData[key := entry]);
            var d := entry[UserAddress(state.user.value).value];
      && UserDataComplete(state')
      && GetUserChallengesWithUnclaimedRewards(state').value ==
           GetUserChallengesWithUnclaimedRewards(state).value - {key} +
           (if HasUnclaimedRewards(d) then {key} else {})
      && GetUserChallengesWithUnrevealedVotes(rules, state').value ==
           GetUserChallengesWithUnrevealedVotes(rules, state).value - {key} +
           (if HasUnrevealedCommit(d) && IsInRevealStage(rules, state.challenges, key) then {key} else {})
      && GetUserChallengesWithRescueTokens(state').value ==
           GetUserChallengesWithRescueTokens(state).value - {key} +
           (if HasUnrevealedCommit(d) && IsResolved(state.challenges, key) then {key} else {})
  {
  }

  /** Replacing one challenge record changes the unrevealed and rescue sets at that challenge only. */
  lemma ChallengeUpdateIsLocal(
    rules: DomainRules, state: State, key: ChallengeKey, challenge: WrappedChallengeData)
    requires UserDataComplete(state) && state.user.value.account.Some?
    ensures var state' := state.(challenges := state.challenges[key := challenge]);
            var inKey := key in state.challengeUserData &&
                         HasUnrevealedCommit(state.challengeUserData[key][UserAddress(state.user.value).value]);
      && GetUserChallengesWithUnclaimedRewards(state') == GetUserChallengesWithUnclaimedRewards(state)
      && GetUserChallengesWithUnrevealedVotes(rules, state').value ==
           GetUserChallengesWithUnrevealedVotes(rules, state).value - {key} +
           (if inKey && rules.isChallengeInRevealStage(challenge.challenge) then {key} else {})
      && GetUserChallengesWithRescueTokens(state').value ==
           GetUserChallengesWithRescueTokens(state).value - {key} +
           (if inKey && challenge.challenge.resolved then {key} else {})
  {
  }

  /**
   * A wallet without an address: no challenge has any entry for it, so the
   * sets are empty while no challenge has user data (with any data, the source
   * destructures `get(undefined)` and throws, which `UserDataComplete` rules out).
   */
  lemma WalletWithoutAddress(rules: DomainRules, state: State)
    requires state.user == Some(UserState(Some(WalletAccount(None))))
    requires state.challengeUserData == map[]
    ensures UserDataComplete(state)
    ensures GetUserChallengesWithUnclaimedRewards(state) == Some({})
    ensures GetUserChallengesWithUnrevealedVotes(rules, state) == Some({})
    ensures GetUserChallengesWithRescueTokens(state) == Some({})
    ensures forall props :: GetUserChallengeData(state, props).None?
  {
    var u := GetUserChallengesWithUnclaimedRewards(state).value;
    var v := GetUserChallengesWithUnrevealedVotes(rules, state).value;
    var w := GetUserChallengesWithRescueTokens(state).value;
    assert state.challengeUserData.Keys == {};
    assert u == {} && v == {} && w == {};
  }

  /** A snapshot with one challenge "5" on which the user committed and has not revealed. */
  function ExampleState(challenge: ChallengeData): State {
    State(
      newsrooms := map[],
      listings := map[],
      challenges := map["5" := WrappedChallengeData("0xListing", 5, challenge)],
      challengeUserData := map["5" := map["0xUser" := UserChallengeData(true, false, false, false)]],
      histories := map[],
      listingsExtendedMetadata := map[],
      user := Some(UserState(Some(WalletAccount(Some("0xUser"))))))
  }

  /** An unresolved challenge in its reveal stage: the vote can still be revealed, and nothing is to rescue. */
  lemma ExampleInRevealStage(rules: DomainRules, challenge: ChallengeData)
    requires !challenge.resolved && challenge.appeal.None?
    requires rules.isChallengeInRevealStage(challenge)
    ensures UserDataComplete(ExampleState(challenge))
    ensures GetUserChallengesWithUnrevealedVotes(rules, ExampleState(challenge)) == Some({"5"})
    ensures GetUserChallengesWithRescueTokens(ExampleState(challenge)) == Some({})
  {
    var state := ExampleState(challenge);
    var unrevealed := GetUserChallengesWithUnrevealedVotes(rules, state).value;
    assert "5" in unrevealed;
    assert unrevealed == {"5"};
    var rescue := GetUserChallengesWithRescueTokens(state).value;
    assert state.challengeUserData.Keys == {"5"};
    assert "5" !in rescue;
    assert rescue == {};
  }

  /** The same challenge once resolved (and so past its reveal stage): only the rescue set holds it. */
  lemma ExampleResolved(rules: DomainRules, challenge: ChallengeData)
    requires challenge.resolved && challenge.appeal.None?
    requires !rules.isChallengeInRevealStage(challenge)
    ensures UserDataComplete(ExampleState(challenge))
    ensures GetUserChallengesWithUnrevealedVotes(rules, ExampleState(challenge)) == Some({})
    ensures GetUserChallengesWithRescueTokens(ExampleState(challenge)) == Some({"5"})
  {
    var state := ExampleState(challenge);
    var unrevealed := GetUserChallengesWithUnrevealedVotes(rules, state).value;
    assert state.challengeUserData.Keys == {"5"};
    assert "5" !in unrevealed;
    assert unrevealed == {};
    var rescue := GetUserChallengesWithRescueTokens(state).value;
    assert "5" in rescue;
    assert rescue == {"5"};
  }

  // ---------------------------------------------------------------------------
  // Phase records
  // ---------------------------------------------------------------------------

  /** A rejected listing has no challenge at all, so every challenge flag of its phase record is unknown. */
  lemma RejectedListingHasNoChallengeFlags(rules: DomainRules, state: State, props: ListingProps)
    requires GetListingPhaseState(rules, state, props).Some?
    requires GetListingPhaseState(rules, state, props).value.isRejected
    ensures var r := GetListingPhaseState(rules, state, props).value;
      && !r.isWhitelisted && !r.isInApplication && !r.canBeWhitelisted
      && r.isUnderChallenge.None?
      && r.inChallengeCommitVotePhase.None?
      && r.inChallengeRevealPhase.None?
      && r.canResolveChallenge.None?
  {
  }

  /**
   * The challenge flags of a listing's phase record are those of the challenge
   * state of the challenge it carries, and `isUnderChallenge` is the negation
   * of that challenge's `isResolved`.
   */
  lemma ListingPhaseMatchesChallengeState(rules: DomainRules, data: ListingData)
    ensures var p := PhaseStateOf(rules, data);
            var c := ChallengeStateOf(rules, data.challenge);
      && p.inChallengeCommitVotePhase == c.inCommitPhase
      && p.inChallengeRevealPhase == c.inRevealPhase
      && p.canResolveChallenge == c.canResolveChallenge
      && p.isUnderChallenge.None? == c.isResolved.None?
      && (p.isUnderChallenge.Some? ==> p.isUnderChallenge.value == !c.isResolved.value)
  {
  }

  /**
   * When the challenges map holds, under the listing's challenge identifier,
   * the same challenge the listing carries, the challenge selector reports the
   * same phase as the listing's phase record.
   */
  lemma ListingAndChallengeSelectorsAgree(
    rules: DomainRules, state: State, listingProps: ListingProps)
    requires GetListingWrapper(state, listingProps).Some?
    requires var data := GetListingWrapper(state, listingProps).value.listing.data;
      && data.challenge.Some?
      && NatToString(data.challengeID) in state.challenges
      && state.challenges[NatToString(data.challengeID)].challenge == data.challenge.value
    ensures var data := GetListingWrapper(state, listingProps).value.listing.data;
            var p := GetListingPhaseState(rules, state, listingProps).value;
            var c := GetChallengeState(rules, state, ChallengeProps(Some(Num(data.challengeID))));
      && p.inChallengeCommitVotePhase == c.inCommitPhase
      && p.inChallengeRevealPhase == c.inRevealPhase
      && p.canResolveChallenge == c.canResolveChallenge
      && p.isUnderChallenge == Some(c.isResolved == Some(false))
  {
  }

  /** Appeal flags are unknown for a challenge without an appeal, and known for one with it. */
  lemma AppealFlagsNeedAnAppeal(rules: DomainRules, state: State, props: ChallengeProps)
    requires GetChallenge(state, props).Some?
    ensures var c := GetChallenge(state, props).value.challenge;
            var flags := GetChallengeState(rules, state, props);
      && flags.isResolved == Some(c.resolved)
      && (c.appeal.None? <==> flags.isAwaitingAppealJudgment.None?)
      && (c.appeal.None? <==> flags.isAwaitingAppealChallenge.None?)
      && (c.appeal.None? <==> flags.canAppealBeResolved.None?)
  {
  }

  // ---------------------------------------------------------------------------
  // Extended metadata
  // ---------------------------------------------------------------------------

  /** A zero removal timestamp reads as "never removed". */
  lemma ZeroRemovedTimestampReadsAsAbsent(state: State, address: Address)
    requires address in state.listingsExtendedMetadata
    requires state.listingsExtendedMetadata[address].listingRemovedTimestamp == Some(0)
    ensures GetLatestListingRemovedTimestamp(state, ListingProps(Some(address))).None?
  {
  }

  /** A zero whitelisting timestamp reads as "never whitelisted". */
  lemma ZeroWhitelistedTimestampReadsAsAbsent(state: State, address: Address)
    requires address in state.listingsExtendedMetadata
    requires state.listingsExtendedMetadata[address].whitelistedTimestamp == Some(0)
    ensures GetLatestWhitelistedTimestamp(state, ListingProps(Some(address))).None?
  {
  }
}
