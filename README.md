# Civil dapp selectors: a Dafny model

This project models the read-side selector layer of the Civil newsroom
registry dapp (`packages/dapp/src/selectors/index.ts`). These selectors are
pure functions. Each takes a snapshot of the Redux state and a container's
props, and derives the view-state the React components render:

- accessors look up a newsroom, listing, challenge, per-user challenge data,
  history or extended metadata by listing address or challenge identifier;
- three eligibility sets give the challenges where the current user has
  unclaimed rewards, unrevealed votes, or tokens to rescue;
- two phase records give the flags of a challenge and of a listing. One of
  them, `isRejected`, is computed as the negation of the others.

Files:

- `options.dfy`: `Option` stands for `undefined`; `Get` stands for immutable.js `Map.get`.
- `decimal.dfy`: the decimal string that `BigNumber.toString()` gives a
  challenge identifier. It includes a round trip through parsing, injectivity,
  and the canonical-numeral converse.
- `state.dfy`: the snapshot and its records. The phase predicates imported
  from `@joincivil/core` become the fields of a `DomainRules` record of total
  functions. Their bodies are not in this model, so every selector takes the
  rules as a parameter and every lemma holds for all rules. No exhaustiveness
  between phases is assumed.
- `selectors.dfy`: one function per selector. Each `makeGetX` factory is
  modelled as the plain function that its `createSelector` call wraps.
- `selector_properties.dfy`: lemmas that relate selectors to each other and
  to updates of the snapshot.

JavaScript truthiness is written out where the source relies on it:

- a listing address is falsy when it is `undefined` or `""`;
- a challenge identifier is falsy when it is `undefined` or `""`. A `BigNumber`
  is an object, so a numeric identifier is always truthy, zero included;
- a timestamp of `0` is falsy.

Where the source would throw a `TypeError`, the model has a `requires`
instead. This covers reading `user.account` while the user is undefined, and
destructuring a user entry that a per-challenge map lacks. The user's wallet
(`user.account`) and its address (`user.account.account`) are kept apart. The
set selectors test the wallet. Then, for each challenge, they look up the
address, which may be `undefined`.

Three behaviours of the code are easy to miss; the model follows the code:

- `getListingHistory` and `getListingExtendedMetadata` do not check that the
  address is truthy. They look up `""` like any other key (lemma
  `EmptyAddressIsGuardedOnlyWhereChecked`). "No address, no value" therefore
  holds for every listing-keyed selector only when the address is missing
  (lemma `NoListingAddressNoValue`).
- `makeGetIsUserNewsroomOwner` returns `false`, not `undefined`, for a loaded
  user with no wallet address, because `owners.includes(undefined)` is false.
- `getListingHistory` returns the empty list, not `undefined`, when no history
  is known.

## Model

| member | source | states |
|---|---|---|
| `Decimal.NatToString` | packages/dapp/src/selectors/index.ts:90-92 | the string form of a numeric identifier is a canonical numeral: non-empty, digits only, no leading zero except "0" itself, one digit exactly for values below ten |
| `Decimal.ParseNatToString` | packages/dapp/src/selectors/index.ts:90-92 | reading the string form of `n` back as a decimal numeral gives `n` |
| `Decimal.NatToStringInjective` | packages/dapp/src/selectors/index.ts:90-92 | two numbers with the same string form are equal |
| `Decimal.NatToStringOfParse` | packages/dapp/src/selectors/index.ts:90-92 | every canonical numeral is the string form of the number it denotes |
| `Selectors.ChallengeKeyOf` | packages/dapp/src/selectors/index.ts:86-92 | a string identifier is its own key; a numeric one becomes a canonical numeral that parses back to the number |
| `Selectors.UserAddress` | packages/dapp/src/selectors/index.ts:57 | the address is present exactly when the user has a wallet and the wallet has an address, and then it is the wallet's address |
| `Selectors.GetNewsroom` | packages/dapp/src/selectors/index.ts:44-49 | gives a value exactly when the address is truthy and has an entry in `newsrooms`, and then gives that entry |
| `Selectors.GetIsUserNewsroomOwner` | packages/dapp/src/selectors/index.ts:51-60 | unknown exactly when the newsroom or the user is not loaded; true exactly when the user's wallet has an address listed among the newsroom's owners |
| `Selectors.GetListingWrapper` | packages/dapp/src/selectors/index.ts:64-74 | gives a value exactly when the address is truthy and has an entry in `listings`, and then gives that entry |
| `Selectors.GetListing` | packages/dapp/src/selectors/index.ts:76-81 | defined exactly when the wrapper is, and then gives the wrapper's `listing` |
| `Selectors.GetChallenge` | packages/dapp/src/selectors/index.ts:85-96 | gives a value exactly when the identifier is truthy and its normalised key is in `challenges`, and then gives that entry |
| `Selectors.GetChallengeUserDataMap` | packages/dapp/src/selectors/index.ts:100-113 | the same, with the same normalisation, over `challengeUserData` |
| `Selectors.GetUserChallengeData` | packages/dapp/src/selectors/index.ts:115-123 | defined exactly when the challenge's user map is found, the user's wallet has an address, and that map has an entry for the address; then gives that entry |
| `Selectors.GetUserChallengesWithUnclaimedRewards` | packages/dapp/src/selectors/index.ts:125-138 | no set exactly when the user has no wallet; otherwise a subset of the keys of `challengeUserData`, holding exactly the challenges where the user revealed, won and has not collected |
| `Selectors.GetUserChallengesWithUnrevealedVotes` | packages/dapp/src/selectors/index.ts:140-155 | no set exactly when the user has no wallet; otherwise a subset of the keys, holding exactly the challenges where the user committed and did not reveal, a challenge record exists, and that challenge is in its reveal stage |
| `Selectors.GetUserChallengesWithRescueTokens` | packages/dapp/src/selectors/index.ts:157-172 | no set exactly when the user has no wallet; otherwise a subset of the keys, holding exactly the challenges where the user committed and did not reveal, and a challenge record exists and is resolved |
| `Selectors.GetListingAddressByChallengeID` | packages/dapp/src/selectors/index.ts:174-184 | defined exactly when the challenge is found, and then gives that challenge's listing address |
| `Selectors.GetListingExpiry` | packages/dapp/src/selectors/index.ts:186-190 | unknown without a listing wrapper; otherwise the wrapper's own `expiry`, present or not |
| `Selectors.AppealOf` | packages/dapp/src/selectors/index.ts:199-201 | defined exactly when both the challenge and its appeal are present, and then gives the appeal |
| `Selectors.ChallengeStateOf` | packages/dapp/src/selectors/index.ts:193-212 | every flag is unknown without a challenge; with one, the resolved, commit, reveal and resolvable flags are known and equal the record's field and the rules' values; the three appeal flags are unknown exactly when there is no challenge or no appeal, and otherwise equal the appeal rules' values |
| `Selectors.GetChallengeState` | packages/dapp/src/selectors/index.ts:192-212 | all flags unknown when the challenge is not found; otherwise the flags of the record stored under the normalised key |
| `Selectors.PhaseStateOf` | packages/dapp/src/selectors/index.ts:221-258 | `isWhitelisted`, `isInApplication` and `canBeWhitelisted` are the listing's field and the rules' values; the commit, reveal and resolvable flags are those of the challenge state of the listing's challenge; `isRejected` holds exactly when the listing is not whitelisted, not in application, cannot be whitelisted and has no challenge; `isUnderChallenge` is true exactly for a present, unresolved challenge; the challenge flags are unknown exactly when there is no challenge; a rejected listing is never under challenge |
| `Selectors.GetListingPhaseState` | packages/dapp/src/selectors/index.ts:215-260 | unknown exactly when the listing wrapper is; otherwise `isRejected` and `isUnderChallenge` relate to the stored listing data and the rules as above |
| `Selectors.GetListingHistory` | packages/dapp/src/selectors/index.ts:264-269 | the stored history of the address when there is one, and the empty list when the address is missing or has no history |
| `Selectors.GetListingExtendedMetadata` | packages/dapp/src/selectors/index.ts:271-276 | defined exactly when an address is given and has metadata, and then gives that metadata; the address is not checked for truthiness |
| `Selectors.GetLatestChallengeSucceededChallengeID` | packages/dapp/src/selectors/index.ts:278-286 | defined exactly when the metadata and its `latestChallengeID` are present, and then gives that field unchanged |
| `Selectors.GetLatestListingRemovedTimestamp` | packages/dapp/src/selectors/index.ts:288-296 | defined exactly when the metadata holds a non-zero removal timestamp, and then gives it unchanged; never zero |
| `Selectors.GetLatestWhitelistedTimestamp` | packages/dapp/src/selectors/index.ts:298-306 | defined exactly when the metadata holds a non-zero whitelisting timestamp, and then gives it unchanged; never zero |
| `SelectorProperties.NoListingAddressNoValue` | packages/dapp/src/selectors/index.ts:44-81 | with no listing address, every listing-keyed selector gives no value, and the history is empty |
| `SelectorProperties.EmptyAddressIsGuardedOnlyWhereChecked` | packages/dapp/src/selectors/index.ts:264-276 | the empty address is refused by the guarded accessors but reaches a history or extended-metadata entry keyed "" |
| `SelectorProperties.NoChallengeIdNoValue` | packages/dapp/src/selectors/index.ts:85-123 | a missing or empty-string challenge identifier selects no challenge, no user data, no listing address, and gives all challenge flags unknown |
| `SelectorProperties.NumericIdMatchesStringForm` | packages/dapp/src/selectors/index.ts:85-113 | a numeric identifier and its string form select the same challenge and the same user-data map |
| `SelectorProperties.CanonicalKeyReachedByNumber` | packages/dapp/src/selectors/index.ts:85-113 | every canonical decimal key, "0" included, is selected by the number it denotes |
| `SelectorProperties.DistinctNumbersDistinctKeys` | packages/dapp/src/selectors/index.ts:90-92 | different numeric identifiers normalise to different keys |
| `SelectorProperties.SetsAgreeWithPerChallengeSelectors` | packages/dapp/src/selectors/index.ts:115-172 | for every non-empty key in `challengeUserData`, membership in each eligibility set equals the condition computed from that challenge's own user-data and challenge-state selectors |
| `SelectorProperties.UnclaimedRewardsDisjoint` | packages/dapp/src/selectors/index.ts:125-172 | the unclaimed-rewards set shares no challenge with the unrevealed-votes set or the rescue-tokens set |
| `SelectorProperties.UserDataUpdateIsLocal` | packages/dapp/src/selectors/index.ts:125-172 | replacing one challenge's user data changes each eligibility set at that challenge only |
| `SelectorProperties.ChallengeUpdateIsLocal` | packages/dapp/src/selectors/index.ts:140-172 | replacing one challenge record leaves the unclaimed-rewards set as it was and changes the other two sets at that challenge only |
| `SelectorProperties.WalletWithoutAddress` | packages/dapp/src/selectors/index.ts:115-172 | for a wallet without an address and no challenge data, the three sets are empty (not unknown) and no per-challenge user data is found |
| `SelectorProperties.ExampleInRevealStage` | packages/dapp/src/selectors/index.ts:140-172 | a user who committed to unresolved challenge "5" while it is in its reveal stage has unrevealed votes `{"5"}` and no tokens to rescue |
| `SelectorProperties.ExampleResolved` | packages/dapp/src/selectors/index.ts:140-172 | once "5" is resolved and past its reveal stage, the same user has no unrevealed votes and tokens to rescue `{"5"}` |
| `SelectorProperties.RejectedListingHasNoChallengeFlags` | packages/dapp/src/selectors/index.ts:227-240 | a rejected listing is not whitelisted, not in application, cannot be whitelisted, and all its challenge flags, `isUnderChallenge` included, are unknown |
| `SelectorProperties.ListingPhaseMatchesChallengeState` | packages/dapp/src/selectors/index.ts:192-240 | the challenge flags in a listing's phase record equal those in the challenge state of its challenge, and `isUnderChallenge` is the negation of `isResolved` |
| `SelectorProperties.ListingAndChallengeSelectorsAgree` | packages/dapp/src/selectors/index.ts:192-240 | when `challenges` stores the listing's challenge under its identifier, the listing phase selector and the challenge state selector for that numeric identifier report the same commit, reveal and resolvable flags; "under challenge" means "not resolved" |
| `SelectorProperties.AppealFlagsNeedAnAppeal` | packages/dapp/src/selectors/index.ts:192-212 | for a found challenge, `isResolved` is its resolved field, and each appeal flag is unknown exactly when the challenge has no appeal |
| `SelectorProperties.ZeroRemovedTimestampReadsAsAbsent` | packages/dapp/src/selectors/index.ts:288-296 | a removal timestamp of zero reads as absent |
| `SelectorProperties.ZeroWhitelistedTimestampReadsAsAbsent` | packages/dapp/src/selectors/index.ts:298-306 | a whitelisting timestamp of zero reads as absent |

## Left out

- The `createSelector` memoisation of reselect. Each selector is the plain function it wraps, so recomputation and cache sharing are not modelled.
- The bodies of the `@joincivil/core` phase predicates are foreign code. They are parameters (`DomainRules`), with no relation between them assumed.
- `BigNumber.toString` switches to exponential notation from 1e21 upward. Identifiers are modelled as naturals written in plain decimal; negative and fractional `BigNumber`s are not modelled.
- `Selectors.PhaseStateOf`: the flags copied unchanged from a domain rule are not restated in its contract, because each is just the rule's value. These are `canBeChallenged`, `isAwaitingAppealRequest` and the five listing-level appeal flags.
- `null` is not told apart from `undefined`. Both are `None`.
- Structural errors are not modelled as values. Where the source would throw, a `requires` stands in: the set selectors need a loaded user and, for a user with a wallet, an address and an entry for that address in every per-challenge map (`UserDataComplete`); `GetUserChallengeData` needs a loaded user once the challenge's map is found.
- The truthiness test on `challengeUserData` in the three set selectors always succeeds. The snapshot always holds that map, so the test is not modelled.
- The type of `latestChallengeID` is declared in `packages/dapp/src/reducers/listings`, which is not part of this model. It is taken as a `BigNumber`, so any present value is truthy.
- The records keep only the fields that a selector or a phase predicate may read. Other on-chain fields, and the event payloads of histories, are not modelled.
- `getUser`, `getListings`, `getChallenges`, `getChallengeUserData` and `getHistories` project a field of the snapshot. They appear only where they are used.
- The wallet singleton (`packages/dapp/src/helpers/civilInstance.ts`) is not modelled; it is plumbing over the wallet.
- The React views (`OwnerListingViews.tsx`, `AppealAwaitingDecisionCard.tsx`), the interface declarations, the Storybook story, the icon and the Truffle configuration are not modelled. They have no selector logic.
