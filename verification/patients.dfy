/**
 The patient screen (app/Patients.tsx). On activation a guard reads the
 'jwt' slot, decodes the token, rejects it when expired, records the
 first role and fetches the patient list; admins additionally see a
 form that posts a new patient; a logout button clears the session.

 Every call into the outside world is an outcome handed in by the
 caller: whether the storage read succeeded, what `jwtDecode` makes of a
 token (`decode`), the clock in milliseconds, and what the GET and POST
 requests returned.
 */
module Patients {
  import opened Wrappers
  import opened Platform

  datatype Patient = Patient(id: int, nom: string, prenom: string, cin: string, codeAssure: string)

  /** The body of `POST /patients`: a patient without its server-assigned id. */
  datatype NewPatient = NewPatient(nom: string, prenom: string, cin: string, codeAssure: string)

  /**
   The decoded claims. A claim the token lacks is None: a missing `exp`
   makes `exp < now` false, and a missing `roles` makes `roles[0]` throw.
   Times are whole seconds since the epoch.
   */
  datatype Payload = Payload(sub: string, roles: Option<seq<string>>, exp: Option<int>, iat: int)

  const RoleAdmin := "ROLE_ADMIN"

  /** The screen's React state. */
  datatype Screen = Screen(
    nom: string, prenom: string, cin: string, codeAssure: string,
    patients: seq<Patient>,
    token: Option<string>,
    userRole: Option<string>,
    isLoading: bool)

  const Initial := Screen("", "", "", "", [], None, None, true)

  /** Requests sent to the patient endpoint, each with its bearer token. */
  datatype Request = ListPatients(bearer: string) | CreatePatient(bearer: string, body: NewPatient)

  /** The outcome of `GET /patients`: the parsed list, or any failure (non-2xx, network, bad JSON). */
  datatype FetchResult = Fetched(data: seq<Patient>) | FetchFailed

  /**
   The outcome of `POST /patients`: success; a non-2xx reply whose JSON
   body has the given `message`; or a thrown error (network failure, or
   an error body that is not JSON).
   */
  datatype PostResult = Created | Refused(message: Option<string>) | PostFailed

  /** The screen and device after a step, with the alerts shown and requests sent, in order. */
  datatype Out = Out(screen: Screen, device: Device, alerts: seq<Alert>, requests: seq<Request>)

  const LoadFailedAlert := Alert("Erreur", "Impossible de charger les données")
  const FetchFailedAlert := Alert("Erreur", "Impossible de charger les patients")
  const MissingFieldsAlert := Alert("Champs requis", "Veuillez remplir tous les champs.")
  const AuthRequiredAlert := Alert("Erreur", "Authentification requise")
  const CreatedAlert := Alert("Succès", "Patient ajouté avec succès !")
  const DefaultRefusal := "Échec de l'ajout du patient."
  const PostFailedAlert := Alert("Erreur", "Une erreur est survenue lors de l'ajout du patient.")
  const LoggedOutAlert := Alert("Déconnexion", "Vous avez été déconnecté avec succès")
  const LogoutFailedAlert := Alert("Erreur", "Problème lors de la déconnexion")

  /**
   `decoded.exp < Date.now() / 1000` with the clock in milliseconds:
   strictly earlier only, and never true when the claim is missing.
   */
  predicate Expired(p: Payload, nowMs: int) {
    p.exp.Some? && p.exp.value * 1000 < nowMs
  }

  /**
   Expiry in milliseconds is the source's comparison in seconds: an
   integral `exp` is before `nowMs / 1000`, computed exactly, iff
   `exp * 1000 < nowMs`; and an expired token stays expired as the
   clock advances.
   */
  lemma ExpiredMatchesClock(p: Payload, nowMs: int, laterMs: int)
    requires nowMs <= laterMs
    ensures Expired(p, nowMs) <==> p.exp.Some? && (p.exp.value as real) < (nowMs as real) / 1000.0
    ensures Expired(p, nowMs) ==> Expired(p, laterMs)
  {
  }

  /** `roles[0]`: None (JavaScript's `undefined`) for an empty list. */
  function FirstRole(roles: seq<string>): (r: Option<string>)
    ensures r.Some? <==> |roles| > 0
    ensures r.Some? ==> r.value == roles[0]
  {
    if |roles| > 0 then Some(roles[0]) else None
  }

  /** The guard lets a decoded token through: unexpired, with a `roles` claim to index. */
  predicate Admits(p: Payload, nowMs: int) {
    !Expired(p, nowMs) && p.roles.Some?
  }

  /**
   `fetchPatients(authToken)`: one GET carrying the token; a success
   replaces the list wholesale, a failure keeps it and alerts. Nothing
   but the list changes.
   */
  function FetchPatients(s: Screen, d: Device, authToken: string, result: FetchResult): (r: Out)
    ensures r.requests == [ListPatients(authToken)] && r.device == d
    ensures r.screen.(patients := s.patients) == s
    ensures result.Fetched? ==> r.screen.patients == result.data && r.alerts == []
    ensures result.FetchFailed? ==> r.screen.patients == s.patients && r.alerts == [FetchFailedAlert]
  {
    match result
    case Fetched(data) => Out(s.(patients := data), d, [], [ListPatients(authToken)])
    case FetchFailed => Out(s, d, [FetchFailedAlert], [ListPatients(authToken)])
  }

  /**
   `loadTokenAndRole`, run once on activation.
   - A failed storage read alerts and goes nowhere.
   - No token (null or empty) redirects to `/Login` without decoding or fetching.
   - Otherwise the in-memory token is set first. A token that does not
     decode, is expired, or has no `roles` claim is removed from storage
     and the screen redirects to `/Login`, with no role and no fetch.
   - An admitted token sets the role to the first listed role and fetches with it.
   `isLoading` is false afterwards on every path.
   */
  function Guard(s: Screen, d: Device, readOk: bool, decode: string -> Option<Payload>, nowMs: int, fetched: FetchResult): (r: Out)
    ensures !r.screen.isLoading
    ensures r.screen.nom == s.nom && r.screen.prenom == s.prenom
    ensures r.screen.cin == s.cin && r.screen.codeAssure == s.codeAssure
    ensures !readOk ==>
              && r.screen == s.(isLoading := false) && r.device == d
              && r.alerts == [LoadFailedAlert] && r.requests == []
    ensures readOk && !Truthy(d.jwt) ==>
              && r.screen == s.(isLoading := false) && r.device == d.(route := Some(LoginRoute))
              && r.alerts == [] && r.requests == []
    ensures readOk && Truthy(d.jwt) ==> r.screen.token == d.jwt
    ensures readOk && Truthy(d.jwt) ==>
              var t := d.jwt.value;
              (decode(t).Some? && Admits(decode(t).value, nowMs)) <==> r.requests != []
    ensures readOk && Truthy(d.jwt) && r.requests == [] ==>
              && r.device == SignedOut
              && r.screen == s.(token := d.jwt, isLoading := false)
              && r.alerts == []
    ensures r.requests != [] ==>
              && readOk && Truthy(d.jwt) && decode(d.jwt.value).Some?
              && r.requests == [ListPatients(d.jwt.value)]
              && r.device == d
              && r.screen.userRole == FirstRole(decode(d.jwt.value).value.roles.value)
  {
    if !readOk then
      Out(s.(isLoading := false), d, [LoadFailedAlert], [])
    else if !Truthy(d.jwt) then
      Out(s.(isLoading := false), d.(route := Some(LoginRoute)), [], [])
    else
      var stored := d.jwt.value;
      var withToken := s.(token := Some(stored));
      match decode(stored)
      case None =>
        Out(withToken.(isLoading := false), SignedOut, [], [])
      case Some(p) =>
        if !Admits(p, nowMs) then
          Out(withToken.(isLoading := false), SignedOut, [], [])
        else
          var f := FetchPatients(withToken.(userRole := FirstRole(p.roles.value)), d, stored, fetched);
          f.(screen := f.screen.(isLoading := false))
  }

  /** `!nom || !prenom || !cin || !codeAssure`. */
  predicate FieldsMissing(s: Screen) {
    s.nom == [] || s.prenom == [] || s.cin == [] || s.codeAssure == []
  }

  /**
   `addPatient`. Empty fields are checked before the token; either gap
   alerts and sends nothing. Otherwise one POST carries the four fields
   and the token. Success clears the four fields and refetches the list;
   a refusal or a thrown error changes nothing and alerts, a refusal
   with the server's message when it has a non-empty one.
   */
  function AddPatient(s: Screen, d: Device, post: PostResult, fetched: FetchResult): (r: Out)
    ensures r.device == d
    ensures r.screen.token == s.token && r.screen.userRole == s.userRole
    ensures r.screen.isLoading == s.isLoading
    ensures FieldsMissing(s) ==> r == Out(s, d, [MissingFieldsAlert], [])
    ensures !FieldsMissing(s) && !Truthy(s.token) ==> r == Out(s, d, [AuthRequiredAlert], [])
    ensures (forall i :: 0 <= i < |r.requests| ==> !r.requests[i].CreatePatient?) <==>
              (FieldsMissing(s) || !Truthy(s.token))
    ensures r.requests != [] ==>
              r.requests[0] == CreatePatient(s.token.value, NewPatient(s.nom, s.prenom, s.cin, s.codeAssure))
    ensures r.requests != [] && post.Created? ==>
              && r.screen.nom == [] && r.screen.prenom == [] && r.screen.cin == [] && r.screen.codeAssure == []
              && r.requests == [r.requests[0], ListPatients(s.token.value)]
              && |r.alerts| > 0 && r.alerts[0] == CreatedAlert
              && (fetched.Fetched? ==> r.screen.patients == fetched.data)
              && (fetched.FetchFailed? ==> r.screen.patients == s.patients)
    ensures r.requests != [] && !post.Created? ==>
              && r.screen == s && |r.requests| == 1
              && r.alerts == [match post
                              case Refused(m) => Alert("Erreur", if Truthy(m) then m.value else DefaultRefusal)
                              case _ => PostFailedAlert]
  {
    if FieldsMissing(s) then
      Out(s, d, [MissingFieldsAlert], [])
    else if !Truthy(s.token) then
      Out(s, d, [AuthRequiredAlert], [])
    else
      var token := s.token.value;
      var sent := CreatePatient(token, NewPatient(s.nom, s.prenom, s.cin, s.codeAssure));
      match post
      case Created =>
        var cleared := s.(nom := "", prenom := "", cin := "", codeAssure := "");
        var f := FetchPatients(cleared, d, token, fetched);
        var requests := [sent] + f.requests;
        assert requests[0].CreatePatient?;
        Out(f.screen, d, [CreatedAlert] + f.alerts, requests)
      case Refused(m) =>
        Out(s, d, [Alert("Erreur", if Truthy(m) then m.value else DefaultRefusal)], [sent])
      case PostFailed =>
        Out(s, d, [PostFailedAlert], [sent])
  }

  /**
   `handleLogout`. When the storage removal succeeds, the slot, the
   token, the role and the list are all cleared and the screen
   redirects to `/Login`; when it throws, nothing changes but an alert.
   */
  function Logout(s: Screen, d: Device, removeOk: bool): (r: Out)
    ensures r.requests == []
    ensures removeOk ==>
              && r.device == SignedOut
              && r.screen.token.None? && r.screen.userRole.None? && r.screen.patients == []
              && r.screen.(token := s.token, userRole := s.userRole, patients := s.patients) == s
              && r.alerts == [LoggedOutAlert]
    ensures !removeOk ==> r.screen == s && r.device == d && r.alerts == [LogoutFailedAlert]
  {
    if removeOk then
      Out(s.(token := None, userRole := None, patients := []), SignedOut, [LoggedOutAlert], [])
    else
      Out(s, d, [LogoutFailedAlert], [])
  }

  /** What the screen renders: the loading text, the list (with or without the admin form), or a sign-in prompt. */
  datatype View = LoadingView | ListView(patients: seq<Patient>, adminForm: bool) | SignInPrompt

  function Render(s: Screen): (v: View)
    ensures v.LoadingView? <==> s.isLoading
    ensures v.ListView? <==> !s.isLoading && Truthy(s.token)
    ensures v.ListView? ==> v.patients == s.patients
    ensures v.ListView? && v.adminForm <==> !s.isLoading && Truthy(s.token) && s.userRole == Some(RoleAdmin)
  {
    if s.isLoading then LoadingView
    else if Truthy(s.token) then ListView(s.patients, s.userRole == Some(RoleAdmin))
    else SignInPrompt
  }

  /**
   What the user and the runtime can do to a mounted screen: activation
   (with the outcomes the guard will meet), typing into each of the four
   form fields, and pressing the add and logout buttons.
   */
  datatype Event =
    | Activate(readOk: bool, decode: string -> Option<Payload>, nowMs: int, fetched: FetchResult)
    | TypeNom(text: string)
    | TypePrenom(text: string)
    | TypeCin(text: string)
    | TypeCodeAssure(text: string)
    | PressAdd(post: PostResult, fetched: FetchResult)
    | PressLogout(removeOk: bool)

  /** Some request in `requests` is a `POST /patients`. */
  predicate SendsCreate(requests: seq<Request>) {
    exists i :: 0 <= i < |requests| && requests[i].CreatePatient?
  }

  /**
   One event, as the screen is written: the CIN input has no
   `onChangeText`, so typing into it changes nothing. The only writes to
   `cin` are the reset to the empty string after a successful add.
   */
  function Step(s: Screen, d: Device, e: Event): (r: Out)
    ensures r.screen.cin == s.cin || r.screen.cin == []
    ensures e.TypeCin? ==> r == Out(s, d, [], [])
    ensures s.cin == [] ==> !SendsCreate(r.requests)
  {
    match e
    case Activate(readOk, decode, nowMs, fetched) => Guard(s, d, readOk, decode, nowMs, fetched)
    case TypeNom(text) => Out(s.(nom := text), d, [], [])
    case TypePrenom(text) => Out(s.(prenom := text), d, [], [])
    case TypeCin(_) => Out(s, d, [], [])
    case TypeCodeAssure(text) => Out(s.(codeAssure := text), d, [], [])
    case PressAdd(post, fetched) => AddPatient(s, d, post, fetched)
    case PressLogout(removeOk) => Logout(s, d, removeOk)
  }

  /** One event, with the CIN input wired to `setCin` like the other three fields. */
  function FixedStep(s: Screen, d: Device, e: Event): (r: Out)
    ensures e.TypeCin? ==> && r.screen.cin == e.text && r.screen.(cin := s.cin) == s && r.device == d
                           && r.alerts == [] && r.requests == []
    ensures e.PressAdd? ==> (SendsCreate(r.requests) <==> !FieldsMissing(s) && Truthy(s.token))
  {
    match e
    case TypeCin(text) => Out(s.(cin := text), d, [], [])
    case _ => Step(s, d, e)
  }

  /** `first` followed by `rest`: the final state of `rest`, with alerts and requests in order. */
  function Then(first: Out, rest: Out): (r: Out) {
    Out(rest.screen, rest.device, first.alerts + rest.alerts, first.requests + rest.requests)
  }

  /** Runs `events` in order with `step`, collecting every alert and request. */
  function RunWith(step: (Screen, Device, Event) -> Out, s: Screen, d: Device, events: seq<Event>): (r: Out)
    decreases |events|
  {
    if events == [] then Out(s, d, [], [])
    else
      var first := step(s, d, events[0]);
      Then(first, RunWith(step, first.screen, first.device, events[1..]))
  }

  /** Running `[e] + events` is one step followed by the run of `events`. */
  lemma RunCons(step: (Screen, Device, Event) -> Out, s: Screen, d: Device, e: Event, events: seq<Event>)
    ensures var first := step(s, d, e);
            RunWith(step, s, d, [e] + events) == Then(first, RunWith(step, first.screen, first.device, events))
  {
    assert ([e] + events)[0] == e && ([e] + events)[1..] == events;
  }

  function Run(s: Screen, d: Device, events: seq<Event>): (r: Out) {
    RunWith(Step, s, d, events)
  }

  function FixedRun(s: Screen, d: Device, events: seq<Event>): (r: Out) {
    RunWith(FixedStep, s, d, events)
  }

  /**
   As written, no sequence of events on a screen whose CIN is empty (as
   it is on mount) ever sends `POST /patients`: `addPatient` always
   stops at the missing-fields check.
   */
  lemma {:induction false} NoRunSendsCreate(s: Screen, d: Device, events: seq<Event>)
    requires s.cin == []
    ensures !SendsCreate(Run(s, d, events).requests)
    decreases |events|
  {
    if events != [] {
      var first := Step(s, d, events[0]);
      NoRunSendsCreate(first.screen, first.device, events[1..]);
      var rest := Run(first.screen, first.device, events[1..]);
      assert Run(s, d, events).requests == first.requests + rest.requests;
    }
  }

  /** Typing into each of the four fields in form order, then pressing add. */
  function FillAndPress(nom: string, prenom: string, cin: string, codeAssure: string,
                        post: PostResult, refetched: FetchResult): (es: seq<Event>)
  {
    [TypeNom(nom)] + ([TypePrenom(prenom)] + ([TypeCin(cin)] + ([TypeCodeAssure(codeAssure)] + [PressAdd(post, refetched)])))
  }

  /** An admin session: activation with a token whose claims are admitted, then filling the form and pressing add. */
  function AdminSession(
    decode: string -> Option<Payload>, nowMs: int, listed: FetchResult,
    nom: string, prenom: string, cin: string, codeAssure: string,
    post: PostResult, refetched: FetchResult): (es: seq<Event>)
  {
    [Activate(true, decode, nowMs, listed)] + FillAndPress(nom, prenom, cin, codeAssure, post, refetched)
  }

  /** The facts about an admitted admin token that the session lemmas start from. */
  predicate AdmitsAdmin(token: string, decode: string -> Option<Payload>, nowMs: int) {
    && token != []
    && decode(token).Some? && Admits(decode(token).value, nowMs)
    && |decode(token).value.roles.value| > 0 && decode(token).value.roles.value[0] == RoleAdmin
  }

  /** Activating with an admitted admin token signs the admin in and fetches once. */
  lemma ActivateAsAdmin(token: string, decode: string -> Option<Payload>, nowMs: int, listed: FetchResult)
    requires AdmitsAdmin(token, decode, nowMs)
    ensures var o := Guard(Initial, Device(Some(token), None), true, decode, nowMs, listed);
            && o.screen == Initial.(token := Some(token), userRole := Some(RoleAdmin), isLoading := false,
                                    patients := o.screen.patients)
            && o.device == Device(Some(token), None)
            && o.requests == [ListPatients(token)]
  {
  }

  /** Typing into a field, as written, is one step that edits that field (and, for the CIN, nothing). */
  lemma RunTyping(s: Screen, d: Device, e: Event, rest: seq<Event>)
    ensures e.TypeNom? ==> Run(s, d, [e] + rest) == Run(s.(nom := e.text), d, rest)
    ensures e.TypePrenom? ==> Run(s, d, [e] + rest) == Run(s.(prenom := e.text), d, rest)
    ensures e.TypeCin? ==> Run(s, d, [e] + rest) == Run(s, d, rest)
    ensures e.TypeCodeAssure? ==> Run(s, d, [e] + rest) == Run(s.(codeAssure := e.text), d, rest)
  {
    RunCons(Step, s, d, e, rest);
  }

  /** Typing into a field with the CIN input wired is one step that edits that field. */
  lemma FixedRunTyping(s: Screen, d: Device, e: Event, rest: seq<Event>)
    ensures e.TypeNom? ==> FixedRun(s, d, [e] + rest) == FixedRun(s.(nom := e.text), d, rest)
    ensures e.TypePrenom? ==> FixedRun(s, d, [e] + rest) == FixedRun(s.(prenom := e.text), d, rest)
    ensures e.TypeCin? ==> FixedRun(s, d, [e] + rest) == FixedRun(s.(cin := e.text), d, rest)
    ensures e.TypeCodeAssure? ==> FixedRun(s, d, [e] + rest) == FixedRun(s.(codeAssure := e.text), d, rest)
  {
    RunCons(FixedStep, s, d, e, rest);
  }

  /** Pressing add, as the last event, is the add handler's outcome. */
  lemma RunLastPress(step: (Screen, Device, Event) -> Out, s: Screen, d: Device, post: PostResult, fetched: FetchResult)
    requires step(s, d, PressAdd(post, fetched)) == AddPatient(s, d, post, fetched)
    ensures RunWith(step, s, d, [PressAdd(post, fetched)]) == AddPatient(s, d, post, fetched)
  {
    RunCons(step, s, d, PressAdd(post, fetched), []);
  }

  /** A filled form posted with success: the POST of the four entries, the refetch, and a cleared form. */
  lemma AddCreated(s: Screen, d: Device, refetched: FetchResult)
    requires Truthy(s.token)
    requires s.nom != [] && s.prenom != [] && s.cin != [] && s.codeAssure != []
    ensures var r := AddPatient(s, d, Created, refetched);
            && r.requests == [CreatePatient(s.token.value, NewPatient(s.nom, s.prenom, s.cin, s.codeAssure)), ListPatients(s.token.value)]
            && r.screen.nom == [] && r.screen.prenom == [] && r.screen.cin == [] && r.screen.codeAssure == []
  {
  }

  /** Typing into the four fields, as written, and pressing add on a screen whose CIN is empty. */
  lemma FillAndPressAsWritten(
    s: Screen, d: Device, nom: string, prenom: string, cin: string, codeAssure: string,
    post: PostResult, refetched: FetchResult)
    requires s.cin == []
    ensures Run(s, d, FillAndPress(nom, prenom, cin, codeAssure, post, refetched))
            == Out(s.(nom := nom, prenom := prenom, codeAssure := codeAssure), d, [MissingFieldsAlert], [])
  {
    var press := [PressAdd(post, refetched)];
    var s5 := s.(nom := nom, prenom := prenom, codeAssure := codeAssure);
    assert Run(s5, d, press) == Out(s5, d, [MissingFieldsAlert], []) by {
      RunLastPress(Step, s5, d, post, refetched);
    }
    var r4 := [TypeCodeAssure(codeAssure)] + press;
    var r3 := [TypeCin(cin)] + r4;
    var r2 := [TypePrenom(prenom)] + r3;
    RunTyping(s.(nom := nom, prenom := prenom), d, TypeCodeAssure(codeAssure), press);
    RunTyping(s.(nom := nom, prenom := prenom), d, TypeCin(cin), r4);
    RunTyping(s.(nom := nom), d, TypePrenom(prenom), r3);
    RunTyping(s, d, TypeNom(nom), r2);
  }

  /** The same, with the CIN input wired: one POST of the four entries, then a refetch. */
  lemma FillAndPressFixed(
    s: Screen, d: Device, nom: string, prenom: string, cin: string, codeAssure: string, refetched: FetchResult)
    requires Truthy(s.token)
    requires nom != [] && prenom != [] && cin != [] && codeAssure != []
    ensures var r := FixedRun(s, d, FillAndPress(nom, prenom, cin, codeAssure, Created, refetched));
            && r.requests == [CreatePatient(s.token.value, NewPatient(nom, prenom, cin, codeAssure)), ListPatients(s.token.value)]
            && r.screen.nom == [] && r.screen.prenom == [] && r.screen.cin == [] && r.screen.codeAssure == []
  {
    var press := [PressAdd(Created, refetched)];
    var s5 := s.(nom := nom, prenom := prenom, cin := cin, codeAssure := codeAssure);
    var last := AddPatient(s5, d, Created, refetched);
    assert FixedRun(s5, d, press) == last by {
      RunLastPress(FixedStep, s5, d, Created, refetched);
    }
    AddCreated(s5, d, refetched);
    var r4 := [TypeCodeAssure(codeAssure)] + press;
    var r3 := [TypeCin(cin)] + r4;
    var r2 := [TypePrenom(prenom)] + r3;
    FixedRunTyping(s.(nom := nom, prenom := prenom, cin := cin), d, TypeCodeAssure(codeAssure), press);
    FixedRunTyping(s.(nom := nom, prenom := prenom), d, TypeCin(cin), r4);
    FixedRunTyping(s.(nom := nom), d, TypePrenom(prenom), r3);
    FixedRunTyping(s, d, TypeNom(nom), r2);
  }

  /**
   As written, an admin session sees the add form, yet pressing add
   only reports missing fields and posts nothing, whatever was typed.
   */
  lemma AdminCannotAddAsWritten(
    token: string, decode: string -> Option<Payload>, nowMs: int, listed: FetchResult,
    nom: string, prenom: string, cin: string, codeAssure: string,
    post: PostResult, refetched: FetchResult)
    requires AdmitsAdmin(token, decode, nowMs)
    ensures var r := Run(Initial, Device(Some(token), None),
                         AdminSession(decode, nowMs, listed, nom, prenom, cin, codeAssure, post, refetched));
            && !SendsCreate(r.requests)
            && Render(r.screen).ListView? && Render(r.screen).adminForm
            && r.screen.cin == []
            && |r.alerts| > 0 && r.alerts[|r.alerts| - 1] == MissingFieldsAlert
  {
    var d := Device(Some(token), None);
    var es := AdminSession(decode, nowMs, listed, nom, prenom, cin, codeAssure, post, refetched);
    var activate := Activate(true, decode, nowMs, listed);
    NoRunSendsCreate(Initial, d, es);
    var first := Step(Initial, d, activate);
    assert first == Guard(Initial, d, true, decode, nowMs, listed);
    ActivateAsAdmin(token, decode, nowMs, listed);
    FillAndPressAsWritten(first.screen, d, nom, prenom, cin, codeAssure, post, refetched);
    RunCons(Step, Initial, d, activate, FillAndPress(nom, prenom, cin, codeAssure, post, refetched));
  }

  /**
   With the CIN input wired, the same admin session with four non-empty
   entries sends exactly the POST the form describes, between the initial
   GET and the refetch, and clears the form.
   */
  lemma AdminAddsWithCinHandler(
    token: string, decode: string -> Option<Payload>, nowMs: int, listed: FetchResult,
    nom: string, prenom: string, cin: string, codeAssure: string, refetched: FetchResult)
    requires AdmitsAdmin(token, decode, nowMs)
    requires nom != [] && prenom != [] && cin != [] && codeAssure != []
    ensures var r := FixedRun(Initial, Device(Some(token), None),
                              AdminSession(decode, nowMs, listed, nom, prenom, cin, codeAssure, Created, refetched));
            && r.requests == [ListPatients(token),
                              CreatePatient(token, NewPatient(nom, prenom, cin, codeAssure)),
                              ListPatients(token)]
            && r.screen.nom == [] && r.screen.prenom == [] && r.screen.cin == [] && r.screen.codeAssure == []
  {
    var d := Device(Some(token), None);
    var activate := Activate(true, decode, nowMs, listed);
    var first := FixedStep(Initial, d, activate);
    assert first == Guard(Initial, d, true, decode, nowMs, listed);
    ActivateAsAdmin(token, decode, nowMs, listed);
    FillAndPressFixed(first.screen, d, nom, prenom, cin, codeAssure, refetched);
    RunCons(FixedStep, Initial, d, activate, FillAndPress(nom, prenom, cin, codeAssure, Created, refetched));
  }

  /**
   The expiry check is strict: a decodable token with a `roles` claim is
   turned away exactly when its expiry, in milliseconds, is strictly
   before the clock; a token expiring at this very millisecond is let in.
   */
  lemma GuardExpiryIsStrict(s: Screen, d: Device, decode: string -> Option<Payload>, nowMs: int, fetched: FetchResult)
    requires Truthy(d.jwt)
    requires decode(d.jwt.value).Some? && decode(d.jwt.value).value.roles.Some?
    ensures var r := Guard(s, d, true, decode, nowMs, fetched);
            var p := decode(d.jwt.value).value;
            (r.device == SignedOut && r.requests == []) <==> (p.exp.Some? && p.exp.value * 1000 < nowMs)
  {
  }

  /**
   Without a stored token (or with an empty one) the guard never
   consults the decoder or the clock: its outcome is the same whatever
   `jwtDecode` would have answered and whatever the time is.
   */
  lemma GuardWithoutTokenSkipsDecode(
    s: Screen, d: Device, decode1: string -> Option<Payload>, decode2: string -> Option<Payload>,
    now1: int, now2: int, fetched: FetchResult)
    requires !Truthy(d.jwt)
    ensures Guard(s, d, true, decode1, now1, fetched) == Guard(s, d, true, decode2, now2, fetched)
    ensures Guard(s, d, true, decode1, now1, fetched).device.route == Some(LoginRoute)
  {
  }

  /** A token that expired at second 100, read at second 200, is removed and the screen redirects. */
  lemma ExpiredTokenExample(fetched: FetchResult)
    ensures var decode := (t: string) => Some(Payload("u", Some(["ROLE_USER"]), Some(100), 0));
            var r := Guard(Initial, Device(Some("tok"), None), true, decode, 200_000, fetched);
            && r.device == Device(None, Some(LoginRoute))
            && r.requests == []
            && r.screen.userRole.None?
  {
  }

  /**
   The rendered view after activation: an admitted admin sees the list
   and the form, any other admitted role sees the list only, and a
   rejected token still leaves the in-memory token set behind the
   redirect, so the screen (were it still mounted) would show an empty
   list without the form rather than the sign-in prompt.
   */
  lemma GuardThenRender(d: Device, decode: string -> Option<Payload>, nowMs: int, fetched: FetchResult)
    requires Truthy(d.jwt) && decode(d.jwt.value).Some?
    ensures var r := Guard(Initial, d, true, decode, nowMs, fetched);
            var p := decode(d.jwt.value).value;
            && Render(r.screen).ListView?
            && (Render(r.screen).adminForm <==>
                  Admits(p, nowMs) && |p.roles.value| > 0 && p.roles.value[0] == RoleAdmin)
  {
  }
}
