/** The root component: from the session and the caller's profile query it
    picks the loading screen, the login page, or the main view with the
    profile-setup dialog and the dashboard of the profile's role. The
    dialog's visibility is a state flag that an effect recomputes. */
module App {
  import opened Types
  import Queries

  /** A query's data: `undefined` before the first fetch, `null` when the
      backend has no profile, or a value. */
  datatype Loaded<+T> = NotLoaded | Null | Value(value: T)

  /** What the root component reads from its hooks on one render. */
  datatype Inputs = Inputs(isInitializing: bool, isAuthenticated: bool,
                           profileLoading: bool, isFetched: bool, profile: Loaded<Profile>)

  /** One render of the root: the dashboards are listed in the order the
      three role conditions appear. */
  datatype Screen = Loading | Login | Main(setupDialog: bool, dashboards: seq<Role>)

  /** The effect's dependency list `[isAuthenticated, profileLoading, isFetched, userProfile]`. */
  datatype Deps = Deps(isAuthenticated: bool, profileLoading: bool, isFetched: bool, profile: Loaded<Profile>)

  function DepsOf(s: Inputs): (d: Deps)
    ensures d.isAuthenticated == s.isAuthenticated && d.profileLoading == s.profileLoading
    ensures d.isFetched == s.isFetched && d.profile == s.profile
  {
    Deps(s.isAuthenticated, s.profileLoading, s.isFetched, s.profile)
  }

  /** The effect's condition: signed in, done loading, fetched, and no profile
      (a strict comparison with `null`, so a not-yet-loaded profile does not count). */
  predicate SetupNeeded(d: Deps): (r: bool)
    ensures r ==> d.isAuthenticated && d.profile == Null
    ensures d.profile.NotLoaded? || d.profile.Value? ==> !r
  {
    d.isAuthenticated && !d.profileLoading && d.isFetched && d.profile == Null
  }

  /** The three `role === ...` conditions under `userProfile && ...`. */
  function Dashboards(profile: Loaded<Profile>): (ds: seq<Role>)
    ensures |ds| <= 1
    ensures profile.Value? ==> ds == [profile.value.role]
    ensures !profile.Value? <==> ds == []
  {
    if !profile.Value? then []
    else
      var role := profile.value.role;
      (if role == Santri then [Santri] else [])
      + (if role == Ustadz then [Ustadz] else [])
      + (if role == Admin then [Admin] else [])
  }

  /** The render function, given the current value of the setup flag. */
  function Render(s: Inputs, showProfileSetup: bool): (scr: Screen)
    ensures scr == Loading <==> s.isInitializing || (s.isAuthenticated && s.profileLoading)
    ensures scr == Login <==> !scr.Loading? && !s.isAuthenticated
    ensures scr.Main? <==> !s.isInitializing && s.isAuthenticated && !s.profileLoading
    ensures scr.Main? ==> scr.setupDialog == showProfileSetup && scr.dashboards == Dashboards(s.profile)
  {
    if s.isInitializing || (s.isAuthenticated && s.profileLoading) then Loading
    else if !s.isAuthenticated then Login
    else Main(showProfileSetup, Dashboards(s.profile))
  }

  /** The root component's state: the setup flag, and the dependencies the
      effect last ran with (`None` before the first render). React runs the
      effect after a render only when these dependencies changed. */
  class Root {
    var showProfileSetup: bool
    var lastDeps: Option<Deps>
    /** Whether `onClose` lowered the flag since the effect last ran. */
    ghost var closedSinceEffect: bool

    /** The flag is the effect's last verdict, unless `onClose` lowered it since. */
    ghost predicate Valid()
      reads this
    {
      && (lastDeps == None ==> !showProfileSetup)
      && (lastDeps.Some? ==> showProfileSetup == (SetupNeeded(lastDeps.value) && !closedSinceEffect))
    }

    constructor ()
      ensures Valid() && !showProfileSetup && lastDeps == None
    {
      showProfileSetup := false;
      lastDeps := None;
      closedSinceEffect := false;
    }

    /** The effect body, run with dependencies `d`. */
    method RunEffect(d: Deps)
      modifies this
      ensures Valid() && showProfileSetup == SetupNeeded(d) && lastDeps == Some(d) && !closedSinceEffect
    {
      showProfileSetup := SetupNeeded(d);
      lastDeps := Some(d);
      closedSinceEffect := false;
    }

    /** The dialog's `onClose`: lowers the flag, and no dependency changes. */
    method CloseProfileSetup()
      requires Valid()
      modifies this
      ensures Valid() && !showProfileSetup && lastDeps == old(lastDeps) && closedSinceEffect
    {
      showProfileSetup := false;
      closedSinceEffect := true;
    }

    function View(s: Inputs): (scr: Screen)
      reads this
      ensures scr == Render(s, showProfileSetup)
    {
      Render(s, showProfileSetup)
    }

    /** A render with inputs `s`, followed by the effect when its dependencies
        changed: the screen the user ends up with. Once settled, the setup
        dialog and a dashboard are never shown together. */
    method Settle(s: Inputs) returns (scr: Screen)
      requires Valid()
      modifies this
      ensures Valid() && lastDeps == Some(DepsOf(s))
      ensures old(lastDeps) != Some(DepsOf(s)) ==> showProfileSetup == SetupNeeded(DepsOf(s)) && !closedSinceEffect
      ensures old(lastDeps) == Some(DepsOf(s)) ==>
        showProfileSetup == old(showProfileSetup) && closedSinceEffect == old(closedSinceEffect)
      ensures scr == Render(s, showProfileSetup)
      ensures scr.Main? ==> !(scr.setupDialog && scr.dashboards != [])
    {
      if lastDeps != Some(DepsOf(s)) {
        RunEffect(DepsOf(s));
      }
      scr := View(s);
    }
  }

  /** The screen once the effect has run for the current dependencies, with
      `closed` telling whether `onClose` ran since: never both the dialog and
      a dashboard; the dialog iff the profile was fetched as `null` and not
      closed; a present profile shows its role's dashboard. */
  lemma SettledScreen(s: Inputs, closed: bool)
    ensures var scr := Render(s, SetupNeeded(DepsOf(s)) && !closed);
      scr.Main? ==>
        && !(scr.setupDialog && scr.dashboards != [])
        && (scr.setupDialog <==> s.isFetched && s.profile == Null && !closed)
        && (s.profile.Value? ==> scr.dashboards == [s.profile.value.role] && !scr.setupDialog)
  {
  }

  /** A signed-in user whose fetched profile is `null` sees the dialog and no
      dashboard until the dialog is closed, then neither; a profile that is
      not `null` (also one not loaded yet) never raises the dialog. */
  lemma SetupOnlyForNullProfile(s: Inputs, closed: bool)
    ensures !s.isInitializing && s.isAuthenticated && !s.profileLoading && s.isFetched && s.profile == Null ==>
      Render(s, SetupNeeded(DepsOf(s)) && !closed) == Main(!closed, [])
    ensures s.profile != Null ==> !SetupNeeded(DepsOf(s))
  {
  }

  /** Closing the dialog while the dependencies stay the same keeps it closed
      (the inputs below are new to the effect, so the first render raises it):
      a re-render does not run the effect again, so a signed-in user whose
      profile is still `null` sees neither dialog nor dashboard. */
  method CloseThenRerender(root: Root, s: Inputs) returns (before: Screen, after: Screen)
    requires root.Valid() && root.lastDeps != Some(DepsOf(s))
    requires !s.isInitializing && SetupNeeded(DepsOf(s))
    modifies root
    ensures before == Main(true, []) && after == Main(false, [])
  {
    before := root.Settle(s);
    root.CloseProfileSetup();
    after := root.Settle(s);
  }

  /** Between a render and its effect the flag can lag behind: a profile that
      arrives while the dialog is up renders both for one frame. */
  lemma StaleFlagRendersBoth(p: Profile)
    ensures Render(Inputs(false, true, false, true, Value(p)), true) == Main(true, [p.role])
  {
  }

  /** The inputs the hooks produce: the profile hook's flags are derived from
      the actor's state and React Query's own flags. */
  function HookInputs(isInitializing: bool, identity: Option<Principal>, actor: Queries.Actor,
                      actorFetching: bool, q: Queries.QueryFlags, data: Loaded<Profile>): (s: Inputs)
    ensures s.isInitializing == isInitializing
    ensures s.isAuthenticated <==> identity.Some?
    ensures s.profileLoading == Queries.ProfileHookFlags(actor, actorFetching, q).isLoading
    ensures s.isFetched == Queries.ProfileHookFlags(actor, actorFetching, q).isFetched
    ensures s.profileLoading <==> actorFetching || q.isLoading
    ensures s.isFetched <==> actor == Queries.Ready && q.isFetched
    ensures s.profile == data
  {
    var flags := Queries.ProfileHookFlags(actor, actorFetching, q);
    Inputs(isInitializing, identity.Some?, flags.isLoading, flags.isFetched, data)
  }

  /** A signed-in user waits on the loading screen while the actor is fetched,
      and is never asked to set up a profile while there is no actor. */
  lemma ActorGatesRoot(isInitializing: bool, identity: Option<Principal>, actor: Queries.Actor,
                       actorFetching: bool, q: Queries.QueryFlags, data: Loaded<Profile>, show: bool)
    ensures var s := HookInputs(isInitializing, identity, actor, actorFetching, q, data);
      && (identity.Some? && actorFetching ==> Render(s, show) == Loading)
      && (actor == Queries.NoActor ==> !SetupNeeded(DepsOf(s)))
  {
  }
}
