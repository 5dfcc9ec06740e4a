/** What a screen handler does to the interface: the alert it raises and the
    navigation it performs. */
module Ui {
  import opened Js

  /** `Alert.alert(title, message)`; the message may be a server value. */
  datatype Alert = Alert(title: string, message: Value)

  /** A fixed alert text. */
  function Notice(title: string, text: string): (a: Alert)
    ensures a.title == title && a.message == Str(text)
  {
    Alert(title, Str(text))
  }

  /** `router.replace(path)`, or staying on the screen. */
  datatype Navigation = Stay | Replace(path: string)
}
