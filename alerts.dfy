/** The dialogs the screens raise with `Alert.alert(title, message)`. */
module Alerts {

  datatype Alert = Alert(title: string, message: string)

  /** An alert with the title "Error", the one the forms use to reject input. */
  function Error(message: string): Alert {
    Alert("Error", message)
  }
}
