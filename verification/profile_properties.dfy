/**
 * Properties of the profile view controller over whole sequences of calls to
 * its entry points: what the loading flags promise, what a failed fetch leaves
 * alone, how the follower counter and the follow handle stay in step, and that
 * the shared cache is only ever written at the controller's own key.
 */
module ProfileProperties {
  import opened Wrappers
  import opened ProfileState

  // Loading state machine
  // =

  /** The derived getters agree with the phase of the loading state machine. */
  lemma GettersMatchPhase(v: View)
    requires Consistent(v.status)
    ensures v.HasError() <==> PhaseOf(v.status).IdleError?
    ensures v.IsEmpty() ==> !v.HasContent() && PhaseOf(v.status) != NotLoaded
    ensures !(v.IsUser() && v.IsScene())
  {
  }

  /** One entry point never clears `hasLoaded`, and sets it exactly when it fetches. */
  lemma StepHasLoaded(w: World, a: Action, extract: Extractor)
    ensures Step(w, a, extract).view.status.hasLoaded <==> w.view.status.hasLoaded || a.Fetches()
  {
  }

  /** Once `hasLoaded` is true no sequence of calls makes it false again. */
  lemma {:induction false} HasLoadedNeverReverts(w: World, actions: seq<Action>, extract: Extractor)
    requires w.view.status.hasLoaded
    ensures Run(w, actions, extract).view.status.hasLoaded
    decreases |actions|
  {
    if actions != [] {
      StepHasLoaded(w, actions[0], extract);
      HasLoadedNeverReverts(Step(w, actions[0], extract), actions[1..], extract);
    }
  }

  /** `hasLoaded` is true after a sequence of calls exactly when it was true
      before or one of the calls got as far as fetching the profile. */
  lemma {:induction false} HasLoadedIffFetched(w: World, actions: seq<Action>, extract: Extractor)
    ensures Run(w, actions, extract).view.status.hasLoaded <==>
      w.view.status.hasLoaded || exists i :: 0 <= i < |actions| && actions[i].Fetches()
    decreases |actions|
  {
    if actions != [] {
      var rest := actions[1..];
      StepHasLoaded(w, actions[0], extract);
      HasLoadedIffFetched(Step(w, actions[0], extract), rest, extract);
      if exists i :: 0 <= i < |actions| && actions[i].Fetches() {
        var i :| 0 <= i < |actions| && actions[i].Fetches();
        if i > 0 {
          assert rest[i - 1] == actions[i];
        }
      }
      if exists j :: 0 <= j < |rest| && rest[j].Fetches() {
        var j :| 0 <= j < |rest| && rest[j].Fetches();
        assert actions[j + 1] == rest[j];
      }
    }
  }

  /** A new controller reports `hasLoaded` exactly after some call has fetched. */
  lemma HasLoadedFromInitial(params: QueryParams, meDid: string, profiles: map<string, Profile>,
                             actions: seq<Action>, extract: Extractor)
    ensures Run(Initial(params, meDid, profiles), actions, extract).view.status.hasLoaded <==>
      exists i :: 0 <= i < |actions| && actions[i].Fetches()
  {
    HasLoadedIffFetched(Initial(params, meDid, profiles), actions, extract);
  }

  /** Every sequence of calls keeps the loading flags in a combination the state
      machine allows: an error only when idle after an attempt. */
  lemma {:induction false} StatusStaysConsistent(w: World, actions: seq<Action>, extract: Extractor)
    requires Consistent(w.view.status)
    ensures Consistent(Run(w, actions, extract).view.status)
    decreases |actions|
  {
    if actions != [] {
      var a := actions[0];
      match a {
        case Setup(_) =>
        case Refresh(_) =>
        case Toggle(u, f) =>
        case Update(updates, avatar, banner, upload, updateReply, meLoad, fetch) =>
      }
      StatusStaysConsistent(Step(w, a, extract), actions[1..], extract);
    }
  }

  // Fetch and replace
  // =

  /** Replacing twice with the same response is replacing once. */
  lemma ReplaceAllIdempotent(d: Data, p: Profile, extract: Extractor)
    ensures ReplaceAll(ReplaceAll(d, p, extract), p, extract) == ReplaceAll(d, p, extract)
  {
  }

  /** The replacement is total: apart from the merged `myState` and the local
      banner, nothing of the previous data survives it. */
  lemma ReplaceAllForgetsPreviousData(d1: Data, d2: Data, p: Profile, extract: Extractor)
    requires d1.myState == d2.myState && d1.userBanner == d2.userBanner
    ensures ReplaceAll(d1, p, extract) == ReplaceAll(d2, p, extract)
  {
  }

  /** A response carrying both relationship handles replaces `myState` whatever it was. */
  lemma FullMyStateReplaces(d: Data, p: Profile, extract: Extractor)
    requires p.myState.Some? && p.myState.value.follow.Some? && p.myState.value.member.Some?
    ensures ReplaceAll(d, p, extract).myState == p.myState.value
  {
  }

  /** Any run of failed fetches leaves the data, the cache and `hasContent` as
      they were, and leaves the last failure as the error. */
  lemma {:induction false} FailedFetchesKeepData(w: World, actions: seq<Action>, extract: Extractor)
    requires |actions| > 0
    requires forall i :: 0 <= i < |actions| ==> (actions[i].Setup? || actions[i].Refresh?) && actions[i].fetch.Failure?
    ensures Run(w, actions, extract).view.data == w.view.data
    ensures Run(w, actions, extract).profiles == w.profiles
    ensures Run(w, actions, extract).view.HasContent() == w.view.HasContent()
    ensures Run(w, actions, extract).view.status.error == actions[|actions| - 1].fetch.error
    decreases |actions|
  {
    var w1 := Step(w, actions[0], extract);
    if |actions| > 1 {
      var rest := actions[1..];
      assert forall i :: 0 <= i < |rest| ==> rest[i] == actions[i + 1];
      FailedFetchesKeepData(w1, rest, extract);
    }
  }

  /** The controller writes the shared cache only at its own query key: every
      other entry, present or absent, is as it was, and the query and the viewer
      identity never change. */
  lemma {:induction false} CacheWrittenOnlyAtOwnKey(w: World, actions: seq<Action>, extract: Extractor, key: string)
    requires key != w.params.actor
    ensures Run(w, actions, extract).params == w.params
    ensures Run(w, actions, extract).meDid == w.meDid
    ensures key in Run(w, actions, extract).profiles <==> key in w.profiles
    ensures key in w.profiles ==> Run(w, actions, extract).profiles[key] == w.profiles[key]
    decreases |actions|
  {
    if actions != [] {
      var a := actions[0];
      match a {
        case Setup(_) =>
        case Refresh(_) =>
        case Toggle(u, f) =>
        case Update(updates, avatar, banner, upload, updateReply, meLoad, fetch) =>
      }
      CacheWrittenOnlyAtOwnKey(Step(w, a, extract), actions[1..], extract, key);
    }
  }

  // Follow toggle
  // =

  /** The follower count with the viewer's own follow taken out. */
  function BaseFollowers(w: World): int {
    w.view.data.followersCount - if IsFollowing(w.view.data.myState) then 1 else 0
  }

  /** Follow replies carry a non-empty record URI. */
  predicate NonEmptyFollowUris(actions: seq<Action>) {
    forall i :: 0 <= i < |actions| ==>
      actions[i].Toggle? && (actions[i].followReply.Success? ==> actions[i].followReply.value != "")
  }

  /** Over any sequence of toggles the follower counter and the follow handle
      move together: the count without the viewer's own follow never changes. */
  lemma {:induction false} FollowersTrackHandle(w: World, actions: seq<Action>, extract: Extractor)
    requires NonEmptyFollowUris(actions)
    ensures BaseFollowers(Run(w, actions, extract)) == BaseFollowers(w)
    decreases |actions|
  {
    if actions != [] {
      var rest := actions[1..];
      assert forall i :: 0 <= i < |rest| ==> rest[i] == actions[i + 1];
      var w1 := Step(w, actions[0], extract);
      assert BaseFollowers(w1) == BaseFollowers(w);
      FollowersTrackHandle(w1, rest, extract);
    }
  }

  /** A successful follow followed by a successful unfollow restores the counter
      and leaves the profile unfollowed; the outcomes of the calls not made do not matter. */
  lemma FollowThenUnfollow(w: World, uri: string, unusedUnfollow: Outcome<string>,
                           unusedFollow: Result<string, string>, extract: Extractor)
    requires w.meDid != "" && !IsFollowing(w.view.data.myState) && uri != ""
    ensures Run(w, [Toggle(unusedUnfollow, Success(uri)), Toggle(Pass, unusedFollow)], extract)
         == WithFollow(w, w.view.data.followersCount, None)
  {
    var w1 := Step(w, Toggle(unusedUnfollow, Success(uri)), extract);
    assert IsFollowing(w1.view.data.myState);
    var actions := [Toggle(unusedUnfollow, Success(uri)), Toggle(Pass, unusedFollow)];
    assert actions[1..] == [Toggle(Pass, unusedFollow)];
    assert Run(w1, actions[1..], extract) == Step(w1, Toggle(Pass, unusedFollow), extract);
  }

  // A worked scenario
  // =

  /** Load "alice.test", follow her, then fail a refresh. */
  lemma AliceScenario(extract: Extractor)
    ensures
      var alice := Profile("did:1", "alice.test", DeclRef("cid:a", ACTOR_TYPE_USER), "did:1",
                           None, None, None, 10, 0, 0, 0, Some(MyState(None, None)));
      var w0 := Initial(QueryParams("alice.test"), "did:me", map[]);
      var w1 := Run(w0, [Setup(Success(alice))], extract);
      var w2 := Run(w1, [Toggle(Pass, Success("at://f/9"))], extract);
      var w3 := Run(w2, [Refresh(Failure("network down"))], extract);
      && w1.view.data.did == "did:1" && w1.view.data.followersCount == 10
      && w1.view.data.myState.follow == None
      && w1.view.status.hasLoaded && w1.view.status.error == ""
      && w1.view.IsUser() && !w1.view.IsEmpty()
      && w1.profiles == map["alice.test" := alice]
      && w2.view.data.followersCount == 11 && w2.view.data.myState.follow == Some("at://f/9")
      && w3.view.status.hasLoaded && w3.view.status.error == "network down"
      && w3.view.data == w2.view.data
  {
  }
}
