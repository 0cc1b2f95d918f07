/**
 * The progress bar of the character resume (src/engine/zone/gui/component.rs):
 * built from a resume item whose value is a percentage and whose classes
 * give the colour and the direction. `show` is the text the source's
 * formatting gives a float, which is not modelled.
 */
module Component {

  import opened Wrappers
  import opened Ints
  import Event

  datatype ProgressBarColor = Green | Yellow | Red

  datatype ProgressBar = ProgressBar(percent: int, color: ProgressBarColor, inverted: bool)

  /**
   * The colour the classes ask for, as the three successive assignments
   * leave it: red wins over yellow, which wins over green.
   */
  function ColorOf(classes: seq<string>): (r: Option<ProgressBarColor>)
    ensures r == Some(Red) <==> "red" in classes
    ensures r == Some(Yellow) <==> "yellow" in classes && "red" !in classes
    ensures r == Some(Green) <==> "green" in classes && "yellow" !in classes && "red" !in classes
    ensures r.None? <==> "green" !in classes && "yellow" !in classes && "red" !in classes
  {
    var afterGreen := if "green" in classes then Some(Green) else None;
    var afterYellow := if "yellow" in classes then Some(Yellow) else afterGreen;
    if "red" in classes then Some(Red) else afterYellow
  }

  /**
   * `ProgressBar::from_item`: the value must be present and within [0, 100],
   * both ends included, and some colour class must be present; the bar has
   * the truncated value, the colour the classes ask for, and is inverted
   * exactly when the classes hold "inverted_percent".
   */
  function FromItem(item: Event.ItemModel, show: real -> string): (r: Result<ProgressBar>)
    ensures item.valueFloat.None? ==> r == Err("no value")
    ensures item.valueFloat.Some? && !(0.0 <= item.valueFloat.value <= 100.0) ==>
      r == Err("value not between 0 and 100 : '" + show(item.valueFloat.value) + "'")
    ensures item.valueFloat.Some? && 0.0 <= item.valueFloat.value <= 100.0 && ColorOf(item.classes).None? ==>
      r == Err("no color")
    ensures r.Ok? <==> item.valueFloat.Some? && 0.0 <= item.valueFloat.value <= 100.0 && ColorOf(item.classes).Some?
    ensures r.Ok? ==>
      && 0 <= r.value.percent <= 100
      && r.value.percent as real <= item.valueFloat.value < r.value.percent as real + 1.0
      && r.value.color == ColorOf(item.classes).value
      && (r.value.inverted <==> "inverted_percent" in item.classes)
  {
    match item.valueFloat
    case None => Err("no value")
    case Some(value) =>
      if !(value >= 0.0 && value <= 100.0) then Err("value not between 0 and 100 : '" + show(value) + "'")
      else
        var inverted := "inverted_percent" in item.classes;
        match ColorOf(item.classes)
        case Some(color) => Ok(ProgressBar(TruncToI32(value), color, inverted))
        case None => Err("no color")
  }
}
