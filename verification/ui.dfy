/**
 Shared vocabulary of the screens: what a handler shows the user (an alert,
 possibly with buttons) and where it sends the navigator.
 */
module Ui {

  /** A JavaScript value that may be `null`. */
  datatype Option<+T> = None | Some(value: T)

  /** What the navigator is asked to do. */
  datatype Nav =
    | Stay                                   // no navigation call
    | Navigate(route: string)                // navigation.navigate(route)
    | ResetTo(index: nat, routes: seq<string>) // navigation.reset({index, routes})

  /** An alert button; pressing it performs `onPress`. */
  datatype Button = Button(text: string, onPress: Nav)

  /**
   The alert a handler raises. A plain `alert(message)` call, which
   takes only a message, is marked here by an empty title and no buttons;
   the title and OK button the runtime then shows are not modelled.
   */
  datatype Notice =
    | Silent
    | Alert(title: string, message: string, buttons: seq<Button>)

  /** `Alert.alert('Error', message)`: titled 'Error', with the default button. */
  function ErrorNotice(message: string): Notice {
    Alert("Error", message, [])
  }

  /** A geographic position, latitude and longitude in millionths of a degree. */
  datatype Coordinates = Coordinates(latitudeE6: int, longitudeE6: int)

  /** Everything a handler does besides changing component state. */
  datatype Outcome = Outcome(notice: Notice, nav: Nav)

  /** The route every screen falls back to. */
  const ReportRoute: string := "Report"

  /** `alert(message)`: a plain message and nothing else. */
  function PlainAlert(message: string): Outcome {
    Outcome(Alert("", message, []), Stay)
  }

  /** JavaScript truthiness of a string: only the empty string is falsy. */
  predicate Filled(s: string) {
    s != []
  }
}
