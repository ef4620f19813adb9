/** Small shared vocabulary of the screens: an optional value and the
    native alert dialog the screens raise to report an outcome. */
module Base {

  datatype Option<+T> = None | Some(value: T)

  /** A dialog as `Alert.alert(title, message, buttons)` shows it.
      `okRoute` is the screen the dialog's OK button navigates to, when the
      dialog has one. */
  datatype Alert = Alert(title: string, message: string, okRoute: Option<string>)

  /** The route both authentication screens push after success. */
  const TabsRoute: string := "/(tabs)"

  /** The dialog a failed form check raises: titled "Error", no buttons. */
  function ErrorAlert(message: string): (a: Alert)
    ensures a.title == "Error" && a.message == message && a.okRoute.None?
  {
    Alert("Error", message, None)
  }

  /** The dialog a finished (simulated) request raises: titled "Success",
      with an OK button that opens the tab screens. */
  function SuccessAlert(message: string): (a: Alert)
    ensures a.title == "Success" && a.message == message && a.okRoute == Some(TabsRoute)
  {
    Alert("Success", message, Some(TabsRoute))
  }
}
