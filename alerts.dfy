/** The alert dialogs the screens show. */
module Alerts {
  /** What pressing the alert's OK button does. */
  datatype AfterOk = Dismiss | GoBack

  /** An `Alert.alert(title, message, buttons)` dialog. */
  datatype Alert = Alert(title: string, message: string, onOk: AfterOk)

  /** The title every validation and backend error alert carries. */
  const ErrorTitle := "Błąd"
}
