/** The value types shared by the wheel, the app state and the audio log. */
module Types {

  datatype Option<+T> = None | Some(value: T)

  /** One option on the wheel: an opaque id, the text shown (the source calls it `label`, a Dafny keyword) and its slice colour. */
  datatype WheelItem = WheelItem(id: string, text: string, color: string)

  /** What the winner modal shows; the app itself never fills in the optional message. */
  datatype SpinResult = SpinResult(winner: WheelItem, aiMessage: Option<string>)

  datatype GameState = Idle | Spinning | Celebrating

  /** The ids of `items`. */
  function Ids(items: seq<WheelItem>): set<string> {
    set i | 0 <= i < |items| :: items[i].id
  }

  /** No two items share an id. */
  predicate DistinctIds(items: seq<WheelItem>) {
    forall i, j :: 0 <= i < j < |items| ==> items[i].id != items[j].id
  }
}
