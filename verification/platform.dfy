/**
 This module holds what the screens share with the device they run on:
 the single persisted storage slot under the key 'jwt', the navigation
 target last passed to `router.replace`, modal alerts, and JavaScript's
 truthiness rule for optional strings.
 */
module Platform {
  import opened Wrappers

  /** The two routes the screens redirect to. */
  datatype Route = LoginRoute | PatientsRoute

  /** A modal `Alert.alert(title, message)`, kept as a label only. */
  datatype Alert = Alert(title: string, message: string)

  /**
   The device-wide state: the persisted 'jwt' slot and the last route
   passed to `router.replace` (None when no redirect has happened).
   */
  datatype Device = Device(jwt: Option<string>, route: Option<Route>)

  /**
   JavaScript truthiness of a `string | null`: null and the empty string
   are both falsy, so `if (!x)` takes the "missing" branch for either.
   */
  predicate Truthy(x: Option<string>) {
    x.Some? && x.value != ""
  }

  /** The device after `AsyncStorage.removeItem('jwt')` and a redirect to `/Login`. */
  const SignedOut := Device(None, Some(LoginRoute))
}
