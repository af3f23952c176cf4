/** The door PIN checked on the opening screen of the quiz pages. */
module Gate {

  /** The code that opens the door. */
  const DoorCode: string := "442222"

  /** What the opening screen does with the PIN field's value. */
  datatype PinOutcome =
    | Waiting   // fewer or more than six characters: nothing is checked
    | Unlocked  // the door code: the page moves on
    | Rejected  // six characters, but not the code: an error message, no move

  /** The PIN is checked only once it is non-empty and exactly six characters long. */
  function CheckPin(pin: string): (r: PinOutcome)
    ensures r == Unlocked <==> pin == DoorCode
    ensures r == Waiting <==> |pin| != 6
    ensures r == Rejected <==> |pin| == 6 && pin != DoorCode
  {
    if pin != [] && |pin| == 6 then
      if pin == DoorCode then Unlocked else Rejected
    else
      Waiting
  }
}
