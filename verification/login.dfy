/**
 The login screen (app/Login.tsx). Pressing the button validates the two
 fields, raises the `loading` flag and posts the credentials; the reply
 either stores the issued token in the 'jwt' slot and redirects to
 `/Patients`, or shows an error message chosen from the failure. Either
 way the `finally` clause lowers `loading` again.

 The attempt is split at its only suspension point: `Start` is everything
 before the `await axios.post(...)`, `Finish` is everything after it, and
 `HandleLogin` is the whole handler.
 */
module Login {
  import opened Wrappers
  import opened Platform

  datatype LoginScreen = LoginScreen(username: string, password: string, loading: bool)

  /** The body of the `POST /auth/login` request. */
  datatype Credentials = Credentials(username: string, password: string)

  /**
   What the `catch` clause receives: an axios error (with the server's
   `response.data.message`, if the reply had one, and the error's own
   `message`), or anything else, such as a failed storage write.
   */
  datatype LoginError =
    | AxiosError(serverMessage: Option<string>, message: string)
    | OtherError

  /** What `await axios.post(...)` produced. */
  datatype LoginReply = TokenIssued(token: string) | RequestFailed(error: LoginError)

  /** The screen and device after a step, with the alert shown and the request sent, if any. */
  datatype LoginOut = LoginOut(screen: LoginScreen, device: Device, alert: Option<Alert>, request: Option<Credentials>)

  const MissingFieldsAlert := Alert("Erreur", "Veuillez remplir tous les champs")
  const DefaultLoginError := "Erreur de connexion"

  /** The login button: disabled, and titled accordingly, while an attempt is in flight. */
  function ButtonTitle(s: LoginScreen): (title: string)
    ensures s.loading <==> title == "Connexion en cours..."
  {
    if s.loading then "Connexion en cours..." else "Se connecter"
  }

  /**
   The message shown for a failed attempt: for an axios error, the
   server's message when it is a non-empty string (`||` skips the empty
   one) and the error's own message otherwise; for anything else, the
   fixed connection-error text.
   */
  function ErrorMessage(e: LoginError): (m: string)
    ensures e.OtherError? ==> m == DefaultLoginError
    ensures e.AxiosError? ==> (m == e.message || Truthy(e.serverMessage))
    ensures e.AxiosError? && Truthy(e.serverMessage) ==> m == e.serverMessage.value
  {
    match e
    case OtherError => DefaultLoginError
    case AxiosError(server, message) => if Truthy(server) then server.value else message
  }

  /**
   The handler up to the request: with either field empty it alerts and
   stops without touching `loading`; otherwise it raises `loading` and
   sends the credentials. Storage and navigation are not touched yet.
   */
  function Start(s: LoginScreen, d: Device): (r: LoginOut)
    ensures r.device == d
    ensures r.screen.username == s.username && r.screen.password == s.password
    ensures (s.username == [] || s.password == []) <==> r.request.None?
    ensures r.request.None? ==> r.screen == s && r.alert == Some(MissingFieldsAlert)
    ensures r.request.Some? ==>
              && r.request.value == Credentials(s.username, s.password)
              && r.screen.loading
              && r.alert.None?
  {
    if s.username == [] || s.password == [] then
      LoginOut(s, d, Some(MissingFieldsAlert), None)
    else
      LoginOut(s.(loading := true), d, None, Some(Credentials(s.username, s.password)))
  }

  /**
   The handler after the request. A token whose storage write succeeds
   (`writeOk`) lands in the 'jwt' slot and redirects to `/Patients`; a
   failed request, or a failed write, leaves slot and route as they were
   and alerts the selected message. `loading` ends false on every path.
   */
  function Finish(s: LoginScreen, d: Device, reply: LoginReply, writeOk: bool): (r: LoginOut)
    ensures !r.screen.loading
    ensures r.screen.username == s.username && r.screen.password == s.password
    ensures r.request.None?
    ensures reply.TokenIssued? && writeOk ==>
              r.device == Device(Some(reply.token), Some(PatientsRoute)) && r.alert.None?
    ensures reply.RequestFailed? ==>
              r.device == d && r.alert == Some(Alert("Erreur", ErrorMessage(reply.error)))
    ensures reply.TokenIssued? && !writeOk ==>
              r.device == d && r.alert == Some(Alert("Erreur", DefaultLoginError))
  {
    var done := s.(loading := false);
    match reply
    case TokenIssued(token) =>
      if writeOk then LoginOut(done, Device(Some(token), Some(PatientsRoute)), None, None)
      else LoginOut(done, d, Some(Alert("Erreur", ErrorMessage(OtherError))), None)
    case RequestFailed(e) =>
      LoginOut(done, d, Some(Alert("Erreur", ErrorMessage(e))), None)
  }

  /**
   `handleLogin` as a whole. The 'jwt' slot is written, and navigation
   happens, exactly when validation passes, the server issues a token
   and the write succeeds; then the slot holds that token and the route
   is `/Patients`. A validated attempt always ends with `loading` false.
   */
  function HandleLogin(s: LoginScreen, d: Device, reply: LoginReply, writeOk: bool): (r: LoginOut)
    ensures (s.username == [] || s.password == []) ==>
              r.screen == s && r.device == d && r.request.None? && r.alert == Some(MissingFieldsAlert)
    ensures s.username != [] && s.password != [] ==>
              r.request == Some(Credentials(s.username, s.password)) && !r.screen.loading
    ensures s.username != [] && s.password != [] && reply.TokenIssued? && writeOk ==>
              r.device == Device(Some(reply.token), Some(PatientsRoute)) && r.alert.None?
    ensures !(s.username != [] && s.password != [] && reply.TokenIssued? && writeOk) ==>
              r.device == d && r.alert.Some?
  {
    var started := Start(s, d);
    if started.request.None? then started
    else
      var finished := Finish(started.screen, d, reply, writeOk);
      finished.(request := started.request)
  }
}
