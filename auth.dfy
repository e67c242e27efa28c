/** The session manager of src/hooks/use-auth.tsx: the signed-in user, the
    Google Fit access token, the route guard and the connect / reconnect /
    disconnect flows. Popups, sign-in calls and token revocation are not run:
    each is an outcome the caller supplies. */
module Auth {
  import opened Wrappers
  import opened Profiles

  // ---------------------------------------------------------------------
  // Route guard

  const LoginPath: string := "/login"
  const SignupPath: string := "/signup"
  const LandingPath: string := "/"
  const DashboardPath: string := "/dashboard"
  const PublicPaths: seq<string> := [LoginPath, SignupPath, LandingPath]

  /** The `router.push` calls the guard effect makes, in order. */
  function Redirects(signedIn: bool, loading: bool, configured: bool, path: string): (r: seq<string>)
    ensures |r| <= 1
    ensures loading ==> r == []
    ensures r == [LoginPath] <==>
      !loading && !signedIn && configured && path != LoginPath && path != SignupPath && path != LandingPath
    ensures r == [DashboardPath] <==> !loading && signedIn && (path == LoginPath || path == SignupPath)
    ensures r != [] ==> r == [LoginPath] || r == [DashboardPath]
  {
    assert LoginPath != DashboardPath && [LoginPath] != [DashboardPath];
    assert path in PublicPaths <==> path == LoginPath || path == SignupPath || path == LandingPath;
    if loading then []
    else
      var pathIsProtected := path !in PublicPaths;
      (if !signedIn && configured && pathIsProtected then [LoginPath] else []) +
      (if signedIn && !pathIsProtected && path != LandingPath then [DashboardPath] else [])
  }

  // ---------------------------------------------------------------------
  // Popup outcomes and the connect policy

  /** What a sign-in, link or re-authentication popup resolves to: a result
      (with its user, if any, and the credential's access token, if any), or
      a rejection with its error code and message. */
  datatype Popup =
    | Granted(user: Option<User>, accessToken: Option<string>)
    | Rejected(code: string, message: string)

  const CredentialInUse: string := "auth/credential-already-in-use"
  const RequiresRecentLogin: string := "auth/requires-recent-login"
  const PopupClosed: string := "auth/popup-closed-by-user"
  const NoTokenMessage: string := "Could not get access token."
  const NotConfiguredMessage: string := "Firebase not configured"

  /** The notices (toasts) the session shows. */
  datatype Notice =
    | MustBeLoggedIn
    | Connected
    | Reauthenticating
    | Refreshed
    | SecurityCheck
    | RefreshFailed
    | ReauthFailed
    | ConnectionFailed(message: string)
    | Disconnected

  /** The token a connect attempt stores (None: leave `fitToken` as it is)
      and the notices it shows. */
  datatype ConnectOutcome = ConnectOutcome(token: Option<string>, notices: seq<Notice>)

  /** The link attempt and, for the two codes that fall back to it, the
      re-authentication attempt. */
  function Connection(link: Popup, reauth: Popup): (o: ConnectOutcome)
    ensures o.token.Some? ==> TruthyString(o.token)
    ensures o.token.Some? <==>
      || (link.Granted? && TruthyString(link.accessToken))
      || (link.Rejected? && link.code == CredentialInUse &&
          reauth.Granted? && reauth.user.Some? && TruthyString(reauth.accessToken))
      || (link.Rejected? && link.code == RequiresRecentLogin &&
          reauth.Granted? && TruthyString(reauth.accessToken))
    ensures o.token.Some? && link.Granted? ==> o.token == link.accessToken
    ensures o.token.Some? && link.Rejected? ==> o.token == reauth.accessToken
    ensures link.Granted? && !TruthyString(link.accessToken) ==>
      o.notices == [ConnectionFailed(NoTokenMessage)]
    ensures link.Rejected? && link.code == PopupClosed ==> o == ConnectOutcome(None, [])
    ensures link.Rejected? && link.code !in {CredentialInUse, RequiresRecentLogin, PopupClosed} ==>
      o == ConnectOutcome(None, [ConnectionFailed(link.message)])
  {
    match link
    case Granted(_, t) =>
      if TruthyString(t) then ConnectOutcome(t, [Connected])
      else ConnectOutcome(None, [ConnectionFailed(NoTokenMessage)])
    case Rejected(code, message) =>
      if code == CredentialInUse then
        match reauth
        case Granted(u, t) =>
          if u.Some? && TruthyString(t) then ConnectOutcome(t, [Reauthenticating, Refreshed])
          else ConnectOutcome(None, [Reauthenticating])
        case Rejected(_, _) => ConnectOutcome(None, [Reauthenticating, RefreshFailed])
      else if code == RequiresRecentLogin then
        match reauth
        case Granted(_, t) =>
          if TruthyString(t) then ConnectOutcome(t, [SecurityCheck, Connected])
          else ConnectOutcome(None, [SecurityCheck])
        case Rejected(_, _) => ConnectOutcome(None, [SecurityCheck, ReauthFailed])
      else if code != PopupClosed then ConnectOutcome(None, [ConnectionFailed(message)])
      else ConnectOutcome(None, [])
  }

  /** The re-authentication popup is consulted only for the two fallback codes. */
  lemma ReauthOnlyOnFallback(link: Popup, reauth1: Popup, reauth2: Popup)
    requires !(link.Rejected? && link.code in {CredentialInUse, RequiresRecentLogin})
    ensures Connection(link, reauth1) == Connection(link, reauth2)
  {
  }

  // ---------------------------------------------------------------------
  // The session

  class Session {
    /** Whether the Firebase configuration is present. */
    const configured: bool
    var user: Option<User>
    var loading: bool
    var fitToken: Option<string>
    var isConnectingFit: bool

    /** A stored token is never empty. */
    ghost predicate Valid()
      reads this
    {
      fitToken.Some? ==> fitToken.value != ""
    }

    constructor (configured: bool)
      ensures Valid() && this.configured == configured
      ensures user == None && loading && fitToken == None && !isConnectingFit
    {
      this.configured := configured;
      user, loading, fitToken, isConnectingFit := None, true, None, false;
    }

    /** The mount effect: without configuration there is no session to wait for. */
    method Mount()
      requires Valid()
      modifies this`loading
      ensures Valid()
      ensures loading == (old(loading) && configured)
    {
      if !configured {
        loading := false;
      }
    }

    /** The auth-state listener (registered only when configured). */
    method OnAuthStateChanged(u: Option<User>)
      requires Valid() && configured
      modifies this`user, this`fitToken, this`loading
      ensures Valid()
      ensures user == u && !loading
      ensures fitToken == if u.None? then None else old(fitToken)
    {
      user := u;
      if u.None? {
        fitToken := None;
      }
      loading := false;
    }

    /** The redirects the guard effect makes on this path. */
    function RouteRedirects(path: string): (r: seq<string>)
      reads this
      ensures loading ==> r == []
      ensures |r| <= 1
    {
      Redirects(user.Some?, loading, configured, path)
    }

    /** `signInWithGoogle`: keeps the popup's access token when it has one,
        then provisions the profile. */
    method SignInWithGoogle(popup: Popup, profiles: ProfileTable, now: int) returns (r: Result<User, string>)
      requires Valid()
      modifies this`fitToken, profiles
      ensures Valid()
      ensures !configured ==>
        r == Err(NotConfiguredMessage) && fitToken == old(fitToken) && profiles.docs == old(profiles.docs)
      ensures configured && popup.Rejected? ==>
        r == Err(popup.message) && fitToken == old(fitToken) && profiles.docs == old(profiles.docs)
      ensures configured && popup.Granted? ==>
        fitToken == (if TruthyString(popup.accessToken) then popup.accessToken else old(fitToken))
      ensures configured && popup.Granted? && popup.user.Some? ==>
        r == Ok(popup.user.value) &&
        profiles.docs == (if popup.user.value.uid in old(profiles.docs) then old(profiles.docs)
                          else old(profiles.docs)[popup.user.value.uid := NewProfile(popup.user.value, now)])
      ensures configured && popup.Granted? && popup.user.None? ==>
        r.Err? && profiles.docs == old(profiles.docs)
    {
      if !configured {
        return Err(NotConfiguredMessage);
      }
      match popup
      case Rejected(_, message) =>
        r := Err(message);
      case Granted(u, t) =>
        if TruthyString(t) {
          fitToken := t;
        }
        if u.None? {
          r := Err("TypeError");
        } else {
          profiles.Provision(u.value, now);
          r := Ok(u.value);
        }
    }

    /** `signUpWithEmail`: the account the provider created gets the chosen
        display name and a provisioned profile. */
    method SignUpWithEmail(name: string, created: Result<User, string>, profiles: ProfileTable, now: int)
      returns (r: Result<User, string>)
      requires Valid()
      modifies profiles
      ensures !configured ==> r == Err(NotConfiguredMessage) && profiles.docs == old(profiles.docs)
      ensures configured && created.Err? ==> r == Err(created.error) && profiles.docs == old(profiles.docs)
      ensures configured && created.Ok? ==>
        var u := created.value.(displayName := Some(name));
        r == Ok(u) &&
        profiles.docs == (if u.uid in old(profiles.docs) then old(profiles.docs)
                          else old(profiles.docs)[u.uid := NewProfile(u, now)])
    {
      if !configured {
        return Err(NotConfiguredMessage);
      }
      match created
      case Err(e) =>
        r := Err(e);
      case Ok(account) =>
        var u := account.(displayName := Some(name));
        profiles.Provision(u, now);
        r := Ok(u);
    }

    /** `connectGoogleFit`: links the provider, falls back to
        re-authentication for the two codes that call for it, and is never
        left connecting. */
    method ConnectGoogleFit(link: Popup, reauth: Popup) returns (notices: seq<Notice>)
      requires Valid()
      modifies this`fitToken, this`isConnectingFit
      ensures Valid()
      ensures !configured || user.None? ==>
        notices == [MustBeLoggedIn] && fitToken == old(fitToken) && isConnectingFit == old(isConnectingFit)
      ensures configured && user.Some? ==>
        !isConnectingFit
      ensures configured && user.Some? ==> notices == Connection(link, reauth).notices
      ensures configured && user.Some? ==>
        fitToken == (if Connection(link, reauth).token.Some? then Connection(link, reauth).token else old(fitToken))
    {
      if !configured || user.None? {
        return [MustBeLoggedIn];
      }
      isConnectingFit := true;
      notices := [];
      match link {
        case Granted(_, t) =>
          if TruthyString(t) {
            fitToken := t;
            notices := [Connected];
          } else {
            notices := [ConnectionFailed(NoTokenMessage)];
          }
        case Rejected(code, message) =>
          if code == CredentialInUse {
            notices := [Reauthenticating];
            match reauth
            case Granted(u, t) =>
              if u.Some? && TruthyString(t) {
                fitToken := t;
                notices := [Reauthenticating, Refreshed];
              }
            case Rejected(_, _) =>
              notices := [Reauthenticating, RefreshFailed];
          } else if code == RequiresRecentLogin {
            notices := [SecurityCheck];
            match reauth
            case Granted(_, t) =>
              if TruthyString(t) {
                fitToken := t;
                notices := [SecurityCheck, Connected];
              }
            case Rejected(_, _) =>
              notices := [SecurityCheck, ReauthFailed];
          } else if code != PopupClosed {
            notices := [ConnectionFailed(message)];
          }
      }
      isConnectingFit := false;
    }

    /** `disconnectGoogleFit`: whatever the revocation request does, the
        token is gone afterwards. */
    method DisconnectGoogleFit(revokeOk: bool) returns (notices: seq<Notice>)
      requires Valid()
      modifies this`fitToken
      ensures Valid()
      ensures old(fitToken).None? ==> fitToken == None && notices == []
      ensures old(fitToken).Some? ==> fitToken == None && notices == [Disconnected]
    {
      if fitToken.None? {
        return [];
      }
      // the revocation outcome is only logged
      fitToken := None;
      notices := [Disconnected];
    }

    /** `signOut`: the listener then clears the session, and the page is
        reloaded at the landing path. */
    method SignOut() returns (navigation: Option<string>)
      requires Valid()
      modifies this`user, this`fitToken, this`loading
      ensures Valid()
      ensures !configured ==>
        navigation == None && user == old(user) && fitToken == old(fitToken) && loading == old(loading)
      ensures configured ==>
        navigation == Some(LandingPath) && user == None && fitToken == None && !loading
    {
      if !configured {
        return None;
      }
      OnAuthStateChanged(None);
      navigation := Some(LandingPath);
    }
  }
}
