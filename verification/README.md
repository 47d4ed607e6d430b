# Profile view controller

A model of `ProfileViewModel` and `ProfileViewMyStateModel` from
`src/state/models/profile-view.ts`. This is the client-side controller that shows one actor
profile. It has four parts:

- a loading state machine (`isLoading`, `isRefreshing`, `hasLoaded`, `error`);
- a fetch-and-replace protocol that writes every successful fetch through to the shared
  profile cache before it copies the response into its own fields;
- a follow toggle that moves the follower counter and the follow record together, and only
  after the remote call succeeds;
- a profile update that keeps the banner locally, attaches the uploaded avatar to the record
  it submits, and then refreshes.

The project has four files:

- `wrappers.dfy`: `Option`, `Result` and `Outcome`.
- `profile_state.dfy` (module `ProfileState`): the controller as values. `World` holds the
  observable fields, the bound query, the signed-in viewer's identifier and the shared cache.
  Each entry point is a function of the world before the call and of the outcome of each
  remote call it may make. `Run` applies a sequence of entry-point calls.
- `profile_view.dfy` (module `ProfileView`): the classes, with the fields of
  `profile-view.ts:25-52`. Their methods assign those fields step by step, as the source does.
  Each method is proved to perform exactly the transition `ProfileState` defines. For example,
  `ensures State() == ProfileState.Load(old(State()), refreshing, fetch, extractEntities)`.
- `profile_properties.dfy` (module `ProfileProperties`): lemmas over any sequence of calls.

Remote calls are never made. `getProfile`, `follow`, `unfollow`, blob upload, the profile
update and the viewer reload each become a parameter that says how the call resolved. The
methods consult only the outcomes of the calls the source would reach. `toggleFollowing`
also returns which call it issued, and `updateProfile` returns the record it submitted. This
way "no remote call" and "the avatar reference is attached before submission" are stated
facts. A thrown exception is an `Outcome.Fail` result. `extractEntities` is a function
value, given when the controller is constructed.

## Model

| member | source | states |
|---|---|---|
| `ProfileState.Initial` | src/state/models/profile-view.ts:25-52 | a new controller is in the not-loaded phase with consistent flags, no content, no error and not empty; it does not follow and is not a member; it has no entities and no banner; the query, viewer and cache are the ones given |
| `ProfileState.View.HasContent` | src/state/models/profile-view.ts:69-71 | the getter itself, content exactly when the `did` is non-empty; it has no contract of its own, because `View.IsEmpty` and `ProfileState.Load` state how it relates to emptiness and to a load |
| `ProfileState.View.HasError` | src/state/models/profile-view.ts:73-75 | with consistent flags, an error is reported exactly in the IDLE_ERROR phase |
| `ProfileState.View.IsEmpty` | src/state/models/profile-view.ts:77-79 | content rules out emptiness, and an empty view has passed the not-loaded phase |
| `ProfileState.View.IsUser` | src/state/models/profile-view.ts:81-83 | a user profile does not carry the scene actor type |
| `ProfileState.View.IsScene` | src/state/models/profile-view.ts:81-87 | a profile is never both a scene and a user, because the two actor-type constants differ |
| `ProfileState.XLoading` | src/state/models/profile-view.ts:151-155 | enters the LOADING phase, refreshing exactly when asked; clears the error; keeps `hasLoaded`; the flags stay consistent |
| `ProfileState.XIdle` | src/state/models/profile-view.ts:157-162 | leaves for IDLE_OK on an empty error, otherwise IDLE_ERROR carrying the message; sets `hasLoaded` |
| `ProfileState.MergeMyState` | src/state/models/profile-view.ts:194-196 | `myState` is merged: a handle the response carries overwrites, one it omits keeps its old value |
| `ProfileState.ReplaceAll` | src/state/models/profile-view.ts:181-198 | identity, declaration, content and all four counters come from the response; `myState` is merged, or unchanged when the response has none; entities are extracted from `description or ''`; the banner is untouched |
| `ProfileState.Load` | src/state/models/profile-view.ts:167-179 | ends idle with `hasLoaded`; a failed fetch sets the error to the failure string and changes no data, no cache entry and not `hasContent`; a success clears the error, overwrites the cache at `params.actor`, replaces the data, and `hasContent` holds exactly when the response `did` is non-empty; `isEmpty` follows |
| `ProfileState.IsFollowing` | src/state/models/profile-view.ts:104 | JavaScript's truthiness test on `myState.follow`: following exactly when `follow or ''` is non-empty, so an unset handle and the empty string both read as not following |
| `ProfileState.WithFollow` | src/state/models/profile-view.ts:106-109 | the `runInAction` blocks of the toggle: the follower counter and the follow handle take the given values, and the flags, query, viewer, cache, membership and every other data field are unchanged |
| `ProfileState.ToggleFollowing` | src/state/models/profile-view.ts:100-121 | not signed in: throws "Not logged in", makes no call and changes nothing; following (a handle that is set and non-empty, as JavaScript's truthiness test reads it): unfollows the stored record, and on success the counter drops by one and the handle is cleared; otherwise: follows with this `did` and declaration cid, and on success the counter rises by one and the handle is the returned uri; a failed call changes nothing and is rethrown; no other field ever changes |
| `ProfileState.UpdateProfile` | src/state/models/profile-view.ts:123-146 | the banner is set whatever follows; a failed upload stops before any submission; a supplied avatar is replaced by the uploaded reference before the record is submitted; success means every call succeeded, and then the world is a refresh of the banner-updated world |
| `ProfileProperties.GettersMatchPhase` | src/state/models/profile-view.ts:69-87 | in consistent flags, `hasError` holds exactly in IDLE_ERROR; `isEmpty` excludes content and the not-loaded phase; `isUser` and `isScene` exclude each other |
| `ProfileProperties.StepHasLoaded` | src/state/models/profile-view.ts:92-98 | one entry point never clears `hasLoaded`, and sets it exactly when it reaches a fetch |
| `ProfileProperties.HasLoadedNeverReverts` | src/state/models/profile-view.ts:157-162 | once `hasLoaded` is true, no sequence of calls makes it false |
| `ProfileProperties.HasLoadedIffFetched` | src/state/models/profile-view.ts:167-178 | after any sequence of calls, `hasLoaded` holds exactly when it held before or some call reached a fetch, whether it succeeded or failed |
| `ProfileProperties.HasLoadedFromInitial` | src/state/models/profile-view.ts:25-28 | a new controller reports `hasLoaded` exactly when some call has reached a fetch |
| `ProfileProperties.StatusStaysConsistent` | src/state/models/profile-view.ts:151-162 | every sequence of calls keeps the flags consistent: refreshing only while loading, and an error only when idle after an attempt |
| `ProfileProperties.ReplaceAllIdempotent` | src/state/models/profile-view.ts:181-198 | replacing twice with the same response is the same as replacing once |
| `ProfileProperties.ReplaceAllForgetsPreviousData` | src/state/models/profile-view.ts:181-198 | only `myState` and the banner carry over from the previous data |
| `ProfileProperties.FullMyStateReplaces` | src/state/models/profile-view.ts:194-196 | a response that carries both handles determines `myState` completely |
| `ProfileProperties.FailedFetchesKeepData` | src/state/models/profile-view.ts:176-178 | any run of failed setups and refreshes keeps the data, the cache and `hasContent`, and leaves the last failure as the error |
| `ProfileProperties.CacheWrittenOnlyAtOwnKey` | src/state/models/profile-view.ts:173 | no sequence of calls adds, removes or changes a cache entry at any key other than `params.actor`; the query and the viewer identity never change |
| `ProfileProperties.FollowersTrackHandle` | src/state/models/profile-view.ts:104-120 | over any sequence of toggles with non-empty follow uris, the follower count minus the viewer's own follow never changes: the counter and the handle move together |
| `ProfileProperties.FollowThenUnfollow` | src/state/models/profile-view.ts:104-120 | a successful follow and then a successful unfollow restore the counter and leave the profile unfollowed |
| `ProfileProperties.AliceScenario` | src/state/models/profile-view.ts:92-121 | loading "alice.test" gives did "did:1", 10 followers, no follow, loaded, no error, and fills the cache; following gives 11 and the returned uri; a refresh that fails with "network down" keeps all data and reports the error |
| `ProfileView.MyStateModel.constructor` | src/state/models/profile-view.ts:14-21 | both handles start unset |
| `ProfileView.MyStateModel.Assign` | src/state/models/profile-view.ts:194-196 | the in-place `Object.assign` leaves exactly the merged `myState` |
| `ProfileView.RootStore.Overwrite` | src/state/models/profile-view.ts:173 | the cache entry at the key becomes the snapshot (last writer wins); nothing else changes |
| `ProfileView.ProfileViewModel.constructor` | src/state/models/profile-view.ts:23-67 | the fields take the initial values of lines 25-52 |
| `ProfileView.ProfileViewModel.HasContent` | src/state/models/profile-view.ts:69-79 | content rules out emptiness; without content the controller is empty exactly once it has loaded |
| `ProfileView.ProfileViewModel.HasError` | src/state/models/profile-view.ts:73-75 | with consistent flags, an error is reported exactly in the IDLE_ERROR phase |
| `ProfileView.ProfileViewModel.IsEmpty` | src/state/models/profile-view.ts:77-79 | an empty controller has passed the not-loaded phase |
| `ProfileView.ProfileViewModel.IsUser` | src/state/models/profile-view.ts:81-87 | a user profile is not a scene |
| `ProfileView.ProfileViewModel.IsScene` | src/state/models/profile-view.ts:85-87 | a scene profile does not carry the user actor type |
| `ProfileView.ProfileViewModel.Setup` | src/state/models/profile-view.ts:92-94 | loads without the refreshing flag |
| `ProfileView.ProfileViewModel.Refresh` | src/state/models/profile-view.ts:96-98 | loads with the refreshing flag |
| `ProfileView.ProfileViewModel.ToggleFollowing` | src/state/models/profile-view.ts:100-121 | new state, issued call and thrown error are those of `ProfileState.ToggleFollowing` |
| `ProfileView.ProfileViewModel.UpdateProfile` | src/state/models/profile-view.ts:123-146 | new state, submitted record and thrown error are those of `ProfileState.UpdateProfile` |
| `ProfileView.ProfileViewModel.XLoading` | src/state/models/profile-view.ts:151-155 | the flags become `ProfileState.XLoading` of the old flags; the data is unchanged |
| `ProfileView.ProfileViewModel.XIdle` | src/state/models/profile-view.ts:157-162 | the flags become `ProfileState.XIdle` of the old flags; the data is unchanged |
| `ProfileView.ProfileViewModel.Load` | src/state/models/profile-view.ts:167-179 | the new state, including the cache, is `ProfileState.Load` of the old state |
| `ProfileView.ProfileViewModel.ReplaceAll` | src/state/models/profile-view.ts:181-198 | the data becomes `ProfileState.ReplaceAll` of the old data; the flags are unchanged |
| `ProfileView.ProfileViewModel.CopyResponse` | src/state/models/profile-view.ts:183-196 | after the copies and the `myState` merge, the data is `ProfileState.ReplaceAll` of the old data except that the entities are not yet extracted; the flags are unchanged |
| `ProfileView.ProfileViewModel.CopyContent` | src/state/models/profile-view.ts:183-189 | identity, declaration and content fields equal the response's |
| `ProfileView.ProfileViewModel.ExtractDescription` | src/state/models/profile-view.ts:197 | the entities are those extracted from the copied description, or from the empty text when there is none |
| `ProfileView.ProfileViewModel.CopyCounters` | src/state/models/profile-view.ts:190-193 | the four counters equal the response's |

## Left out

- `ProfileState.Load`: only a failure of `getProfile` is modelled. The `try` at lines 169-175 also covers the cache `overwrite` and `_replaceAll`, including `extractEntities`. If one of those threw, the `catch` would set the error after the cache entry and some fields had already been written. The model does not capture that partial write: the cache and the copying steps cannot fail in it, and `extractEntities` is total. So `ProfileState.Load`, `ProfileView.ProfileViewModel.Load` and `ProfileProperties.FailedFetchesKeepData` state "a failed load changes no data" only for a failed fetch.
- `src/view/com/util/load-latest/LoadLatestBtn.tsx` is presentation only: layout, styling and icon rendering, with no state.
- MobX observability (`makeAutoObservable`, `runInAction`) is not modelled. Each `runInAction` block is part of one atomic method step.
- Concurrency across `await` points is not modelled. Each entry point is one atomic step. So overlapping refreshes, and a toggle racing a refresh, are not captured. The LOADING phase is only visible inside `Load`, between `XLoading` and `XIdle`.
- The remote calls (`getProfile`, `follow`, `unfollow`, blob upload, `updateProfile`, `me.load`) are outcome parameters. The viewer record that `me.load()` reloads is not modelled: `meDid` never changes.
- `root-store.ts` is not part of this model. The root store is reduced to the viewer's identifier and the profile cache as a map.
- `extractEntities` is an arbitrary function value, because its internals are not part of this model. So nothing is stated about which descriptions yield mentions or links.
- `console.log` at line 182 is not modelled.
- A failed fetch's message is the string `e.toString()`, taken as given. The code stores exactly that string. An empty string therefore leaves `hasError` false. So the model does not promise a non-empty error after every failed load, because the code does not guarantee one.
- `Object.assign` of a property that is present but `undefined` is modelled as an absent property.
- The response type makes both fields of `declaration` required. So the in-place `Object.assign` into `declaration` overwrites both fields, and the model states it that way.
- `updateProfile` writes the avatar reference into the caller's `updates` object. The model returns the record it submitted instead, so it does not capture the aliasing.
- The profile record submitted by `updateProfile` has only `displayName`, `description` and `avatar`. Other fields of that record type are defined outside the modelled file.
- Counters are unbounded integers. JavaScript numbers are doubles, which hold every realistic count exactly.
