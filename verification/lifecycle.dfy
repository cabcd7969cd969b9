/**
 The session's life across the two screens: login writes the 'jwt'
 slot, the patient screen's guard reads it, logout (or a rejected token)
 clears it.
 */
module Lifecycle {
  import opened Wrappers
  import opened Platform
  import Login
  import Patients

  /**
   After a successful login, the patient screen's guard finds the issued
   token, and when its claims pass it fetches the list with that very
   token, takes the role from the first claim, and renders the records
   the server returned.
   */
  lemma LoginThenActivate(
    ls: Login.LoginScreen, d: Device, token: string,
    decode: string -> Option<Patients.Payload>, nowMs: int, fetched: Patients.FetchResult)
    requires ls.username != [] && ls.password != [] && token != []
    requires decode(token).Some? && Patients.Admits(decode(token).value, nowMs)
    ensures var signedIn := Login.HandleLogin(ls, d, Login.TokenIssued(token), true);
            var g := Patients.Guard(Patients.Initial, signedIn.device, true, decode, nowMs, fetched);
            && signedIn.device.route == Some(PatientsRoute)
            && g.screen.token == Some(token)
            && g.requests == [Patients.ListPatients(token)]
            && g.screen.userRole == Patients.FirstRole(decode(token).value.roles.value)
            && g.device.jwt == Some(token)
            && (fetched.Fetched? ==>
                  Patients.Render(g.screen) == Patients.ListView(fetched.data, g.screen.userRole == Some(Patients.RoleAdmin)))
  {
  }

  /**
   After a successful login whose token has already expired, the guard
   clears the slot the login just wrote and sends the user back.
   */
  lemma LoginWithExpiredToken(
    ls: Login.LoginScreen, d: Device, token: string,
    decode: string -> Option<Patients.Payload>, nowMs: int, fetched: Patients.FetchResult)
    requires ls.username != [] && ls.password != [] && token != []
    requires decode(token).Some? && Patients.Expired(decode(token).value, nowMs)
    ensures var signedIn := Login.HandleLogin(ls, d, Login.TokenIssued(token), true);
            var g := Patients.Guard(Patients.Initial, signedIn.device, true, decode, nowMs, fetched);
            && g.device == SignedOut
            && g.requests == []
            && g.screen.userRole.None?
  {
  }

  /**
   A server reply whose token is the empty string is stored and
   navigated on by the login screen, but the guard reads it as no
   token and sends the user straight back to `/Login`.
   */
  lemma EmptyTokenBouncesBack(
    ls: Login.LoginScreen, d: Device,
    decode: string -> Option<Patients.Payload>, nowMs: int, fetched: Patients.FetchResult)
    requires ls.username != [] && ls.password != []
    ensures var signedIn := Login.HandleLogin(ls, d, Login.TokenIssued(""), true);
            var g := Patients.Guard(Patients.Initial, signedIn.device, true, decode, nowMs, fetched);
            && signedIn.device == Device(Some(""), Some(PatientsRoute))
            && g.device == Device(Some(""), Some(LoginRoute))
            && g.screen.token.None?
            && g.requests == []
  {
  }

  /**
   Whatever the screen held, a logout whose storage removal succeeds
   leaves nothing for the next activation to admit: the guard redirects
   to `/Login` without decoding or fetching, and the screen renders no list.
   */
  lemma LogoutThenActivate(
    s: Patients.Screen, d: Device,
    decode: string -> Option<Patients.Payload>, nowMs: int, fetched: Patients.FetchResult)
    ensures var out := Patients.Logout(s, d, true);
            var g := Patients.Guard(out.screen, out.device, true, decode, nowMs, fetched);
            && out.device.jwt.None?
            && g.device == SignedOut
            && g.requests == []
            && g.screen.token.None? && g.screen.userRole.None?
            && !Patients.Render(g.screen).ListView?
  {
  }
}
