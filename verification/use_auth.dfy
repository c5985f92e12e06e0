/** The authentication hook: the session, the signed-in user and their profile, kept up
    to date by the auth listener and the initial session check. Callbacks are modelled
    as events applied in the order they happen to run. */
module UseAuth {
  import opened Wrappers
  import opened DbTypes
  import opened AuthLib

  datatype Session = Session(user: AuthUser)

  datatype State = State(
    user: Option<AuthUser>,
    session: Option<Session>,
    profile: Option<UserMetadata>,
    loading: bool)

  /** Before any callback: no user, no session, no profile, loading. */
  const Initial := State(None, None, None, true)

  /** A callback that runs:
      - AuthStateChanged: the auth listener fires with the current session;
      - SessionRestored: the initial `getSession` resolves;
      - ProfileLoaded: a profile lookup resolves (null on any error). */
  datatype Event =
    | AuthStateChanged(session: Option<Session>)
    | SessionRestored(session: Option<Session>)
    | ProfileLoaded(profile: Option<UserMetadata>)

  /** The new state and the user id whose profile lookup the callback starts, if any. */
  datatype Effect = Effect(state: State, lookup: Option<string>)

  function UserOf(session: Option<Session>): Option<AuthUser> {
    if session.Some? then Some(session.value.user) else None
  }

  /** One callback. Both session callbacks publish the session, its user and the end of
      loading, and start a lookup for the session's user; only the listener clears the
      profile when there is no session. A resolved lookup sets the profile and nothing
      else. */
  function Apply(s: State, e: Event): (r: Effect)
    ensures e.ProfileLoaded? ==> r == Effect(s.(profile := e.profile), None)
    ensures !e.ProfileLoaded? ==>
      && r.state.session == e.session
      && r.state.user == UserOf(e.session)
      && !r.state.loading
      && (r.lookup.Some? <==> e.session.Some?)
      && (r.lookup.Some? ==> r.lookup.value == e.session.value.user.id)
      && (r.state.profile == if e.AuthStateChanged? && e.session.None? then None else s.profile)
  {
    match e
    case ProfileLoaded(p) => Effect(s.(profile := p), None)
    case AuthStateChanged(session) =>
      var profile := if session.Some? then s.profile else None;
      Effect(State(UserOf(session), session, profile, false), if session.Some? then Some(session.value.user.id) else None)
    case SessionRestored(session) =>
      Effect(State(UserOf(session), session, s.profile, false), if session.Some? then Some(session.value.user.id) else None)
  }

  /** The state after a sequence of callbacks, and every lookup started, in order. */
  datatype Trace = Trace(state: State, lookups: seq<string>)

  function Run(events: seq<Event>): Trace {
    if |events| == 0 then Trace(Initial, [])
    else
      var prev := Run(events[..|events| - 1]);
      var eff := Apply(prev.state, events[|events| - 1]);
      Trace(eff.state, prev.lookups + (if eff.lookup.Some? then [eff.lookup.value] else []))
  }

  predicate IsSessionEvent(e: Event) { e.AuthStateChanged? || e.SessionRestored? }

  /** The hook keeps loading exactly until the first session callback has run. */
  lemma {:induction false} LoadingUntilFirstSession(events: seq<Event>)
    ensures Run(events).state.loading <==> forall j :: 0 <= j < |events| ==> !IsSessionEvent(events[j])
  {
    if |events| > 0 {
      var prefix := events[..|events| - 1];
      LoadingUntilFirstSession(prefix);
      assert forall j :: 0 <= j < |prefix| ==> prefix[j] == events[j];
    }
  }

  /** Profiles are only ever looked up for the user of a session some callback saw. */
  lemma {:induction false} LookupsAreSessionUsers(events: seq<Event>)
    ensures forall id :: id in Run(events).lookups ==>
      exists j :: 0 <= j < |events| && IsSessionEvent(events[j]) && events[j].session.Some? && events[j].session.value.user.id == id
  {
    if |events| > 0 {
      var prefix := events[..|events| - 1];
      LookupsAreSessionUsers(prefix);
      assert forall j :: 0 <= j < |prefix| ==> prefix[j] == events[j];
    }
  }

  /** The published user is the user of the latest session callback (none before any). */
  lemma {:induction false} UserIsLatestSession(events: seq<Event>, j: nat)
    requires j < |events| && IsSessionEvent(events[j])
    requires forall k :: j < k < |events| ==> !IsSessionEvent(events[k])
    ensures Run(events).state.user == UserOf(events[j].session)
    ensures Run(events).state.session == events[j].session
  {
    if j < |events| - 1 {
      var prefix := events[..|events| - 1];
      UserIsLatestSession(prefix, j);
    }
  }

  /** `isManager`: the profile is loaded and its role is manager. */
  predicate IsManager(s: State) {
    s.profile.Some? && s.profile.value.role == Manager
  }

  /** A signed-out listener callback leaves no manager behind; a lookup resolving late
      can still set a profile after it, because lookups are not cancelled. */
  lemma SignOutAndLateLookup(s: State, p: UserMetadata)
    ensures !IsManager(Apply(s, AuthStateChanged(None)).state)
    ensures var after := Apply(Apply(s, AuthStateChanged(None)).state, ProfileLoaded(Some(p))).state;
      after.user.None? && after.profile == Some(p) && (IsManager(after) <==> p.role == Manager)
  {
  }
}
