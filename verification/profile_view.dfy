/**
 * The profile view controller of src/state/models/profile-view.ts as objects
 * whose fields are assigned step by step, as the source does. Each method is
 * proved to perform the transition that module ProfileState specifies, so the
 * properties proved there hold of these objects.
 *
 * Remote calls are not made here: each method receives the outcome of every
 * call it may issue and consults only the ones the source would reach.
 */
module ProfileView {
  import opened Wrappers
  import opened ProfileState

  /** `ProfileViewMyStateModel`: the viewer's follow and membership records. */
  class MyStateModel {
    var follow: Option<string>
    var member: Option<string>

    constructor ()
      ensures Value() == MyState(None, None)
    {
      follow, member := None, None;
    }

    function Value(): MyState
      reads this
    {
      MyState(follow, member)
    }

    /** `Object.assign(myState, patch)`. */
    method Assign(patch: MyState)
      modifies this
      ensures Value() == MergeMyState(old(Value()), patch)
    {
      if patch.follow.Some? {
        follow := patch.follow;
      }
      if patch.member.Some? {
        member := patch.member;
      }
    }
  }

  /** The parts of the root store the controller uses: the signed-in viewer's
      identifier (empty when nobody is signed in) and the shared profile cache. */
  class RootStore {
    var meDid: string
    var profiles: map<string, Profile>

    constructor (meDid: string, profiles: map<string, Profile>)
      ensures this.meDid == meDid && this.profiles == profiles
    {
      this.meDid := meDid;
      this.profiles := profiles;
    }

    /** The cache's `overwrite(key, snapshot)`: last writer wins, no merge. */
    method Overwrite(key: string, snapshot: Profile)
      modifies this
      ensures profiles == old(profiles)[key := snapshot]
      ensures meDid == old(meDid)
    {
      profiles := profiles[key := snapshot];
    }
  }

  /** `ProfileViewModel`. */
  class ProfileViewModel {
    // state
    var isLoading: bool
    var isRefreshing: bool
    var hasLoaded: bool
    var error: string
    const params: QueryParams

    // data
    var did: string
    var handle: string
    var declaration: DeclRef
    var creator: string
    var displayName: Option<string>
    var description: Option<string>
    var avatar: Option<string>
    var followersCount: int
    var followsCount: int
    var membersCount: int
    var postsCount: int
    const myState: MyStateModel
    var userBanner: Option<string>
    var descriptionEntities: Option<seq<Entity>>

    const rootStore: RootStore
    const extractEntities: Extractor

    function LoadStatus(): Status
      reads this`isLoading, this`isRefreshing, this`hasLoaded, this`error
    {
      Status(isLoading, isRefreshing, hasLoaded, error)
    }

    function Fields(): Data
      reads this`did, this`handle, this`declaration, this`creator, this`displayName,
            this`description, this`avatar, this`followersCount, this`followsCount,
            this`membersCount, this`postsCount, this`userBanner, this`descriptionEntities, myState
    {
      Data(did, handle, declaration, creator, displayName, description, avatar,
           followersCount, followsCount, membersCount, postsCount,
           myState.Value(), userBanner, descriptionEntities)
    }

    function ViewState(): View
      reads this, myState
    {
      View(LoadStatus(), Fields())
    }

    /** Everything the entry points read or write. */
    function State(): World
      reads this, myState, rootStore
    {
      World(ViewState(), params, rootStore.meDid, rootStore.profiles)
    }

    constructor (rootStore: RootStore, params: QueryParams, extractEntities: Extractor)
      ensures this.rootStore == rootStore && this.params == params
      ensures this.extractEntities == extractEntities && fresh(myState)
      ensures State() == Initial(params, rootStore.meDid, rootStore.profiles)
    {
      isLoading, isRefreshing, hasLoaded, error := false, false, false, "";
      this.params := params;
      did, handle, declaration, creator := "", "", DeclRef("", ""), "";
      displayName, description, avatar := None, None, None;
      followersCount, followsCount, membersCount, postsCount := 0, 0, 0, 0;
      myState := new MyStateModel();
      userBanner, descriptionEntities := None, None;
      this.rootStore := rootStore;
      this.extractEntities := extractEntities;
    }

    // getters
    // =

    predicate HasContent()
      reads this, myState
      ensures HasContent() ==> !IsEmpty()
      ensures !HasContent() ==> (IsEmpty() <==> hasLoaded)
    {
      ViewState().HasContent()
    }

    predicate HasError()
      reads this, myState
      ensures Consistent(LoadStatus()) ==> (HasError() <==> PhaseOf(LoadStatus()).IdleError?)
    {
      ViewState().HasError()
    }

    predicate IsEmpty()
      reads this, myState
      ensures IsEmpty() ==> PhaseOf(LoadStatus()) != NotLoaded
    {
      ViewState().IsEmpty()
    }

    predicate IsUser()
      reads this, myState
      ensures IsUser() ==> !IsScene()
    {
      ViewState().IsUser()
    }

    predicate IsScene()
      reads this, myState
      ensures IsScene() ==> declaration.actorType != ACTOR_TYPE_USER
    {
      ViewState().IsScene()
    }

    // public api
    // =

    method Setup(fetch: Result<Profile, string>)
      modifies this, myState, rootStore
      ensures State() == Step(old(State()), Action.Setup(fetch), extractEntities)
    {
      Load(false, fetch);
    }

    method Refresh(fetch: Result<Profile, string>)
      modifies this, myState, rootStore
      ensures State() == Step(old(State()), Action.Refresh(fetch), extractEntities)
    {
      Load(true, fetch);
    }

    /** Unfollow (when following) or follow, changing the counter and the
        handle together once the call succeeds. Returns the call issued and
        whether the method threw. */
    method ToggleFollowing(unfollowReply: Outcome<string>, followReply: Result<string, string>)
      returns (call: Call, result: Outcome<string>)
      modifies this, myState
      ensures ToggleReply(State(), call, result) == ProfileState.ToggleFollowing(old(State()), unfollowReply, followReply)
    {
      if rootStore.meDid == "" {
        return NoCall, Fail(NOT_LOGGED_IN);
      }
      if IsFollowing(myState.Value()) {
        call := UnfollowCall(myState.follow.value);
        if unfollowReply.Fail? {
          return call, unfollowReply;
        }
        followersCount := followersCount - 1;
        myState.follow := None;
      } else {
        call := FollowCall(did, declaration.cid);
        if followReply.Failure? {
          return call, Fail(followReply.error);
        }
        followersCount := followersCount + 1;
        myState.follow := Some(followReply.value);
      }
      result := Pass;
    }

    /** Keep the banner locally, upload the avatar if one is given and attach the
        reference to the record, submit it, reload the viewer and refresh.
        Returns the record submitted (if any) and whether the method threw. */
    method UpdateProfile(updates: ProfileRecord, newUserAvatar: Option<PickedImage>, userBanner: Option<string>,
                         upload: Result<string, string>, updateReply: Outcome<string>, meLoad: Outcome<string>,
                         fetch: Result<Profile, string>)
      returns (sent: Option<ProfileRecord>, result: Outcome<string>)
      modifies this, myState, rootStore
      ensures UpdateReply(State(), sent, result)
           == ProfileState.UpdateProfile(old(State()), updates, newUserAvatar, userBanner, upload,
                                         updateReply, meLoad, fetch, extractEntities)
    {
      this.userBanner := userBanner;
      var record := updates;
      if newUserAvatar.Some? {
        if upload.Failure? {
          return None, Fail(upload.error);
        }
        record := record.(avatar := Some(AvatarRef(upload.value, newUserAvatar.value.mime)));
      }
      sent := Some(record);
      if updateReply.Fail? {
        return sent, updateReply;
      }
      if meLoad.Fail? {
        return sent, meLoad;
      }
      Refresh(fetch);
      result := Pass;
    }

    // state transitions
    // =

    method XLoading(refreshing: bool)
      modifies this`isLoading, this`isRefreshing, this`hasLoaded, this`error
      ensures LoadStatus() == ProfileState.XLoading(old(LoadStatus()), refreshing)
      ensures Fields() == old(Fields())
    {
      isLoading := true;
      isRefreshing := refreshing;
      error := "";
    }

    method XIdle(err: string)
      modifies this`isLoading, this`isRefreshing, this`hasLoaded, this`error
      ensures LoadStatus() == ProfileState.XIdle(old(LoadStatus()), err)
      ensures Fields() == old(Fields())
    {
      isLoading := false;
      isRefreshing := false;
      hasLoaded := true;
      error := err;
    }

    // loader functions
    // =

    method Load(refreshing: bool, fetch: Result<Profile, string>)
      modifies this, myState, rootStore
      ensures State() == ProfileState.Load(old(State()), refreshing, fetch, extractEntities)
    {
      XLoading(refreshing);
      match fetch {
        case Success(res) =>
          rootStore.Overwrite(params.actor, res);
          ReplaceAll(res);
          XIdle("");
        case Failure(e) =>
          XIdle(e);
      }
    }

    method ReplaceAll(res: Profile)
      modifies this`did, this`handle, this`declaration, this`creator, this`displayName,
               this`description, this`avatar, this`descriptionEntities,
               this`followersCount, this`followsCount, this`membersCount, this`postsCount, myState
      ensures Fields() == ProfileState.ReplaceAll(old(Fields()), res, extractEntities)
      ensures LoadStatus() == old(LoadStatus())
    {
      CopyResponse(res);
      ExtractDescription();
    }

    /** Every step of `_replaceAll` but the last: the copies and the `myState` merge. */
    method CopyResponse(res: Profile)
      modifies this`did, this`handle, this`declaration, this`creator, this`displayName,
               this`description, this`avatar,
               this`followersCount, this`followsCount, this`membersCount, this`postsCount, myState
      ensures Fields() == ProfileState.ReplaceAll(old(Fields()), res, extractEntities)
                            .(descriptionEntities := old(descriptionEntities))
      ensures LoadStatus() == old(LoadStatus())
    {
      ghost var expected := ProfileState.ReplaceAll(Fields(), res, extractEntities);
      CopyContent(res);
      CopyCounters(res);
      if res.myState.Some? {
        myState.Assign(res.myState.value);
      }
      assert myState.Value() == expected.myState;
    }

    /** The last step of `_replaceAll`: the entities of the copied description,
        or of the empty text when there is none. */
    method ExtractDescription()
      modifies this`descriptionEntities
      ensures descriptionEntities == Some(extractEntities(description.GetOr("")))
    {
      descriptionEntities := Some(extractEntities(description.GetOr("")));
    }

    /** The identity and content copies of `_replaceAll`. */
    method CopyContent(res: Profile)
      modifies this`did, this`handle, this`declaration, this`creator, this`displayName,
               this`description, this`avatar
      ensures did == res.did && handle == res.handle && creator == res.creator
      ensures declaration == res.declaration
      ensures displayName == res.displayName && description == res.description && avatar == res.avatar
    {
      did, handle, creator := res.did, res.handle, res.creator;
      declaration := declaration.(cid := res.declaration.cid, actorType := res.declaration.actorType);
      displayName, description, avatar := res.displayName, res.description, res.avatar;
    }

    /** The counter copies of `_replaceAll`. */
    method CopyCounters(res: Profile)
      modifies this`followersCount, this`followsCount, this`membersCount, this`postsCount
      ensures followersCount == res.followersCount && followsCount == res.followsCount
      ensures membersCount == res.membersCount && postsCount == res.postsCount
    {
      followersCount, followsCount := res.followersCount, res.followsCount;
      membersCount, postsCount := res.membersCount, res.postsCount;
    }
  }
}
