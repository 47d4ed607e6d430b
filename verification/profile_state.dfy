/**
 * The profile view controller of src/state/models/profile-view.ts, as values.
 *
 * A `World` is everything one entry point of the controller can read or
 * write: its own observable fields (`View`), the query it is bound to, the
 * signed-in viewer's identity and the shared profile cache. Each entry point
 * (`setup`, `refresh`, `toggleFollowing`, `updateProfile`) is a function from
 * the world before the call, and the outcomes of the remote calls it makes, to
 * the world after it. The class in module ProfileView is proved to perform
 * exactly these transitions.
 */
module ProfileState {
  import opened Wrappers

  const ACTOR_TYPE_USER: string := "app.bsky.system.actorUser"
  const ACTOR_TYPE_SCENE: string := "app.bsky.system.actorScene"

  /** Message of the error `toggleFollowing` throws when nobody is signed in. */
  const NOT_LOGGED_IN: string := "Not logged in"

  /** A declaration reference: content id and actor type tag. */
  datatype DeclRef = DeclRef(cid: string, actorType: string)

  /** The viewer's relationship to the profile: follow record and membership record. */
  datatype MyState = MyState(follow: Option<string>, member: Option<string>)

  /** A mention or link found in a text. */
  datatype Entity = Entity(kind: string, value: string, start: int, end: int)

  /** The entity extractor of the string utilities; its internals are not modelled. */
  type Extractor = string -> seq<Entity>

  /** The query a controller is bound to. */
  datatype QueryParams = QueryParams(actor: string)

  /** The payload of a successful profile fetch. */
  datatype Profile = Profile(
    did: string,
    handle: string,
    declaration: DeclRef,
    creator: string,
    displayName: Option<string>,
    description: Option<string>,
    avatar: Option<string>,
    followersCount: int,
    followsCount: int,
    membersCount: int,
    postsCount: int,
    myState: Option<MyState>)

  /** The loading flags. */
  datatype Status = Status(isLoading: bool, isRefreshing: bool, hasLoaded: bool, error: string)

  /** The data fields, `myState` and the locally kept banner. */
  datatype Data = Data(
    did: string,
    handle: string,
    declaration: DeclRef,
    creator: string,
    displayName: Option<string>,
    description: Option<string>,
    avatar: Option<string>,
    followersCount: int,
    followsCount: int,
    membersCount: int,
    postsCount: int,
    myState: MyState,
    userBanner: Option<string>,
    descriptionEntities: Option<seq<Entity>>)

  /** The controller's observable state, with the derived getters. */
  datatype View = View(status: Status, data: Data) {
    predicate HasContent() { data.did != "" }

    predicate HasError()
      ensures Consistent(status) ==> (HasError() <==> PhaseOf(status).IdleError?)
    {
      status.error != ""
    }

    predicate IsEmpty()
      ensures HasContent() ==> !IsEmpty()
      ensures IsEmpty() ==> PhaseOf(status) != NotLoaded
    {
      status.hasLoaded && !HasContent()
    }

    predicate IsUser()
      ensures IsUser() ==> data.declaration.actorType != ACTOR_TYPE_SCENE
    {
      data.declaration.actorType == ACTOR_TYPE_USER
    }

    predicate IsScene()
      ensures IsScene() ==> !IsUser()
    {
      data.declaration.actorType == ACTOR_TYPE_SCENE
    }
  }

  /** The controller together with the parts of the root store it uses. */
  datatype World = World(view: View, params: QueryParams, meDid: string, profiles: map<string, Profile>)

  /** A freshly constructed controller. */
  function Initial(params: QueryParams, meDid: string, profiles: map<string, Profile>): (r: World)
    ensures r.params == params && r.meDid == meDid && r.profiles == profiles
    ensures PhaseOf(r.view.status) == NotLoaded && Consistent(r.view.status)
    ensures !r.view.HasContent() && !r.view.HasError() && !r.view.IsEmpty()
    ensures !IsFollowing(r.view.data.myState) && r.view.data.myState.member.None?
    ensures r.view.data.descriptionEntities.None? && r.view.data.userBanner.None?
  {
    var data := Data("", "", DeclRef("", ""), "", None, None, None, 0, 0, 0, 0,
                     MyState(None, None), None, None);
    World(View(Status(false, false, false, ""), data), params, meDid, profiles)
  }

  // Loading state machine
  // =

  /** The phases of the loading state machine. */
  datatype Phase = NotLoaded | Loading(refreshing: bool) | IdleOk | IdleError(message: string)

  /** The phase the loading flags encode. */
  function PhaseOf(s: Status): Phase {
    if s.isLoading then Loading(s.isRefreshing)
    else if !s.hasLoaded then NotLoaded
    else if s.error == "" then IdleOk
    else IdleError(s.error)
  }

  /** Flag combinations the state machine can produce: refreshing only while
      loading, an error only when idle after a completed attempt. */
  predicate Consistent(s: Status) {
    && (s.isRefreshing ==> s.isLoading)
    && (s.error != "" ==> s.hasLoaded && !s.isLoading)
  }

  /** `_xLoading(isRefreshing)`: enter LOADING, clearing any error. */
  function XLoading(s: Status, refreshing: bool): (r: Status)
    ensures PhaseOf(r) == Loading(refreshing)
    ensures r.error == "" && r.hasLoaded == s.hasLoaded
    ensures Consistent(r)
  {
    Status(true, refreshing, s.hasLoaded, "")
  }

  /** `_xIdle(err)`: leave LOADING for idle, with `err` as the error (empty on success). */
  function XIdle(s: Status, err: string): (r: Status)
    ensures PhaseOf(r) == if err == "" then IdleOk else IdleError(err)
    ensures r.hasLoaded && r.error == err && !r.isRefreshing
    ensures Consistent(r)
  {
    Status(false, false, true, err)
  }

  // Fetch and replace
  // =

  /** `Object.assign(myState, patch)`: a field the patch carries overwrites, one it omits is kept. */
  function MergeMyState(cur: MyState, patch: MyState): (r: MyState)
    ensures patch.follow.None? ==> r.follow == cur.follow
    ensures patch.follow.Some? ==> r.follow == patch.follow
    ensures patch.member.None? ==> r.member == cur.member
    ensures patch.member.Some? ==> r.member == patch.member
  {
    MyState(if patch.follow.Some? then patch.follow else cur.follow,
            if patch.member.Some? then patch.member else cur.member)
  }

  /** `_replaceAll(res)`: copy every field of the response into the data. */
  function ReplaceAll(d: Data, p: Profile, extract: Extractor): (r: Data)
    ensures r.did == p.did && r.handle == p.handle && r.creator == p.creator
    ensures r.declaration == p.declaration
    ensures r.displayName == p.displayName && r.description == p.description && r.avatar == p.avatar
    ensures r.followersCount == p.followersCount && r.followsCount == p.followsCount
    ensures r.membersCount == p.membersCount && r.postsCount == p.postsCount
    ensures p.myState.None? ==> r.myState == d.myState
    ensures p.myState.Some? ==> r.myState == MergeMyState(d.myState, p.myState.value)
    ensures r.descriptionEntities == Some(extract(p.description.GetOr("")))
    ensures r.userBanner == d.userBanner
  {
    Data(p.did, p.handle, p.declaration, p.creator, p.displayName, p.description, p.avatar,
         p.followersCount, p.followsCount, p.membersCount, p.postsCount,
         if p.myState.Some? then MergeMyState(d.myState, p.myState.value) else d.myState,
         d.userBanner,
         Some(extract(p.description.GetOr(""))))
  }

  /** `_load(isRefreshing)` with the fetch resolving as `fetch`. */
  function Load(w: World, refreshing: bool, fetch: Result<Profile, string>, extract: Extractor): (r: World)
    ensures r.params == w.params && r.meDid == w.meDid
    ensures PhaseOf(r.view.status) == PhaseOf(XIdle(w.view.status, if fetch.Success? then "" else fetch.error))
    ensures r.view.status.hasLoaded
    ensures fetch.Failure? ==>
      && r.view.status.error == fetch.error
      && r.view.data == w.view.data
      && r.profiles == w.profiles
      && r.view.HasContent() == w.view.HasContent()
    ensures fetch.Success? ==>
      && !r.view.HasError()
      && r.profiles == w.profiles[w.params.actor := fetch.value]
      && r.view.data == ReplaceAll(w.view.data, fetch.value, extract)
      && (r.view.HasContent() <==> fetch.value.did != "")
    ensures r.view.IsEmpty() <==> if fetch.Success? then fetch.value.did == "" else !w.view.HasContent()
  {
    var loading := XLoading(w.view.status, refreshing);
    match fetch
    case Success(p) =>
      w.(view := View(XIdle(loading, ""), ReplaceAll(w.view.data, p, extract)),
         profiles := w.profiles[w.params.actor := p])
    case Failure(e) =>
      w.(view := w.view.(status := XIdle(loading, e)))
  }

  // Follow toggle
  // =

  /** The remote call `toggleFollowing` issues. */
  datatype Call = NoCall | UnfollowCall(uri: string) | FollowCall(subject: string, declarationCid: string)

  /** The world after `toggleFollowing`, the call it issued and whether it threw. */
  datatype ToggleReply = ToggleReply(world: World, call: Call, result: Outcome<string>)

  /** The truthiness test `if (this.myState.follow)`: set and not the empty string. */
  predicate IsFollowing(ms: MyState)
    ensures IsFollowing(ms) <==> ms.follow.GetOr("") != ""
  {
    ms.follow.Some? && ms.follow.value != ""
  }

  /** `w` with only the follower counter and the follow handle replaced. */
  function WithFollow(w: World, followersCount: int, follow: Option<string>): (r: World)
    ensures r.view.data.followersCount == followersCount && r.view.data.myState.follow == follow
    ensures r.view.status == w.view.status && r.params == w.params
    ensures r.meDid == w.meDid && r.profiles == w.profiles
    ensures r.view.data.myState.member == w.view.data.myState.member
    ensures r.view.data.(followersCount := w.view.data.followersCount, myState := w.view.data.myState) == w.view.data
  {
    var d := w.view.data;
    w.(view := w.view.(data := d.(followersCount := followersCount, myState := d.myState.(follow := follow))))
  }

  /** `toggleFollowing()`, with the unfollow or follow call resolving as given. */
  function ToggleFollowing(w: World, unfollowReply: Outcome<string>, followReply: Result<string, string>): (r: ToggleReply)
    ensures w.meDid == "" ==> r == ToggleReply(w, NoCall, Fail(NOT_LOGGED_IN))
    ensures w.meDid != "" && IsFollowing(w.view.data.myState) ==>
      && r.call == UnfollowCall(w.view.data.myState.follow.value)
      && r.result == unfollowReply
      && (unfollowReply.Pass? ==>
            r.world.view.data.followersCount == w.view.data.followersCount - 1
            && r.world.view.data.myState.follow == None)
      && (unfollowReply.Fail? ==> r.world == w)
    ensures w.meDid != "" && !IsFollowing(w.view.data.myState) ==>
      && r.call == FollowCall(w.view.data.did, w.view.data.declaration.cid)
      && (followReply.Success? ==>
            r.result == Pass
            && r.world.view.data.followersCount == w.view.data.followersCount + 1
            && r.world.view.data.myState.follow == Some(followReply.value))
      && (followReply.Failure? ==> r.result == Fail(followReply.error) && r.world == w)
    ensures r.world == WithFollow(w, r.world.view.data.followersCount, r.world.view.data.myState.follow)
  {
    var d := w.view.data;
    if w.meDid == "" then
      ToggleReply(w, NoCall, Fail(NOT_LOGGED_IN))
    else if IsFollowing(d.myState) then
      var call := UnfollowCall(d.myState.follow.value);
      match unfollowReply
      case Fail(e) => ToggleReply(w, call, Fail(e))
      case Pass => ToggleReply(WithFollow(w, d.followersCount - 1, None), call, Pass)
    else
      var call := FollowCall(d.did, d.declaration.cid);
      match followReply
      case Failure(e) => ToggleReply(w, call, Fail(e))
      case Success(uri) => ToggleReply(WithFollow(w, d.followersCount + 1, Some(uri)), call, Pass)
  }

  // Profile update
  // =

  /** An image picked by the user: file path and MIME type. */
  datatype PickedImage = PickedImage(path: string, mime: string)

  /** A reference to an uploaded blob. */
  datatype AvatarRef = AvatarRef(cid: string, mimeType: string)

  /** The profile record sent to the server. */
  datatype ProfileRecord = ProfileRecord(displayName: string, description: Option<string>, avatar: Option<AvatarRef>)

  /** The world after `updateProfile`, the record it submitted (if it got that far) and whether it threw. */
  datatype UpdateReply = UpdateReply(world: World, sent: Option<ProfileRecord>, result: Outcome<string>)

  /** `w` with only the local banner replaced. */
  function WithBanner(w: World, banner: Option<string>): World {
    w.(view := w.view.(data := w.view.data.(userBanner := banner)))
  }

  /** `updateProfile(updates, newUserAvatar, userBanner)`: keep the banner locally,
      upload the avatar if one is given, submit the record, reload the viewer and
      refresh. Each remote call resolves as the matching parameter says. */
  function UpdateProfile(
    w: World, updates: ProfileRecord, newUserAvatar: Option<PickedImage>, userBanner: Option<string>,
    upload: Result<string, string>, updateReply: Outcome<string>, meLoad: Outcome<string>,
    fetch: Result<Profile, string>, extract: Extractor): (r: UpdateReply)
    ensures r.world.view.data.userBanner == userBanner
    ensures newUserAvatar.Some? && upload.Failure? ==> r.sent == None && r.result == Fail(upload.error)
    ensures newUserAvatar.Some? && upload.Success? ==>
      r.sent == Some(updates.(avatar := Some(AvatarRef(upload.value, newUserAvatar.value.mime))))
    ensures newUserAvatar.None? ==> r.sent == Some(updates)
    ensures r.result.Pass? <==> r.sent.Some? && updateReply.Pass? && meLoad.Pass?
    ensures r.result.Pass? ==> r.world == Load(WithBanner(w, userBanner), true, fetch, extract)
    ensures r.result.Fail? ==> r.world == WithBanner(w, userBanner)
  {
    var w1 := WithBanner(w, userBanner);
    if newUserAvatar.Some? && upload.Failure? then
      UpdateReply(w1, None, Fail(upload.error))
    else
      var record := if newUserAvatar.Some?
                     then updates.(avatar := Some(AvatarRef(upload.value, newUserAvatar.value.mime)))
                     else updates;
      if updateReply.Fail? then UpdateReply(w1, Some(record), updateReply)
      else if meLoad.Fail? then UpdateReply(w1, Some(record), meLoad)
      else UpdateReply(Load(w1, true, fetch, extract), Some(record), Pass)
  }

  // Sequences of entry points
  // =

  /** One call of a public entry point, with the outcomes of the remote calls it makes. */
  datatype Action =
    | Setup(fetch: Result<Profile, string>)
    | Refresh(fetch: Result<Profile, string>)
    | Toggle(unfollowReply: Outcome<string>, followReply: Result<string, string>)
    | Update(updates: ProfileRecord, newUserAvatar: Option<PickedImage>, userBanner: Option<string>,
             upload: Result<string, string>, updateReply: Outcome<string>, meLoad: Outcome<string>,
             fetch: Result<Profile, string>)
  {
    /** Whether the action gets as far as fetching the profile. */
    predicate Fetches() {
      || Setup?
      || Refresh?
      || (Update? && (newUserAvatar.None? || upload.Success?) && updateReply.Pass? && meLoad.Pass?)
    }
  }

  function Step(w: World, a: Action, extract: Extractor): World {
    match a
    case Setup(fetch) => Load(w, false, fetch, extract)
    case Refresh(fetch) => Load(w, true, fetch, extract)
    case Toggle(unfollowReply, followReply) => ToggleFollowing(w, unfollowReply, followReply).world
    case Update(updates, avatar, banner, upload, updateReply, meLoad, fetch) =>
      UpdateProfile(w, updates, avatar, banner, upload, updateReply, meLoad, fetch, extract).world
  }

  /** The world after the actions, one after the other. */
  function Run(w: World, actions: seq<Action>, extract: Extractor): World
    decreases |actions|
  {
    if actions == [] then w else Run(Step(w, actions[0], extract), actions[1..], extract)
  }
}
