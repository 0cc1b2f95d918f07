/**
 * The buttons of the zone's side panel (src/engine/zone/gui/panel.rs):
 * what each one opens for the player, and where it is laid out. Drawing and
 * mouse hovering are not modelled.
 */
module Panel {

  datatype Button = Card | Actions | World | Inventory | Build | Affinity

  datatype ButtonAction = OpenDescription(url: string) | OpenInventory | OpenWorld

  /** The start of the URLs of the descriptions of a character. */
  function DescribePrefix(playerId: string): string
  {
    "/_describe/character/" + playerId
  }

  /**
   * `Button::action`: three buttons open a description of the player, the
   * affinity button opens the player's affinities, and the world and
   * inventory buttons open their own screens.
   */
  function Action(button: Button, playerId: string): (r: ButtonAction)
    ensures r.OpenDescription? <==> button in {Actions, Card, Build, Affinity}
    ensures r == OpenWorld <==> button == World
    ensures r == OpenInventory <==> button == Inventory
    ensures button == Actions ==> r.url == "/_describe/character/" + playerId + "/main_actions"
    ensures button == Card ==> r.url == "/_describe/character/" + playerId + "/card"
    ensures button == Build ==> r.url == "/_describe/character/" + playerId + "/build_actions"
    ensures button == Affinity ==> r.url == "/affinity/" + playerId
  {
    match button
    case Actions => OpenDescription(DescribePrefix(playerId) + "/main_actions")
    case World => OpenWorld
    case Inventory => OpenInventory
    case Card => OpenDescription(DescribePrefix(playerId) + "/card")
    case Build => OpenDescription(DescribePrefix(playerId) + "/build_actions")
    case Affinity => OpenDescription("/affinity/" + playerId)
  }

  /** For one player, no two buttons open the same thing. */
  lemma ActionsDistinct(b1: Button, b2: Button, playerId: string)
    requires b1 != b2
    ensures Action(b1, playerId) != Action(b2, playerId)
  {
    var r1, r2 := Action(b1, playerId), Action(b2, playerId);
    var n := |DescribePrefix(playerId)| + 1;
    if b1 in {Actions, Card, Build} && b2 in {Actions, Card, Build} {
      // The same prefix, then endings that start with different letters.
      assert r1.url[n] != r2.url[n];
    } else if r1.OpenDescription? && r2.OpenDescription? {
      // One URL starts with "/affinity/", the other with "/_describe/".
      assert r1.url[1] != r2.url[1];
    }
  }

  /** The buttons in the order `draw_buttons` lays them out. */
  const BUTTONS: seq<Button> := [Actions, Card, World, Inventory, Build, Affinity]

  /** The row and column of the `i`th button: three buttons to a row. */
  function Cell(i: nat): (r: (nat, nat))
    ensures r.1 < 3 && i == 3 * r.0 + r.1
  {
    (i / 3, i % 3)
  }

  /** Where the first button is drawn, and the drawn size of a button and the gap after it. */
  const START_DRAWING_BUTTONS_X: real := 23.0
  const START_DRAWING_BUTTONS_Y: real := 175.0
  const DISPLAY_BUTTON_SIZE: real := 64.0
  const BUTTON_MARGIN: real := 5.0

  /**
   * Where the `i`th button is drawn: one button size and one margin per
   * column and per row; the button lies in the band of the three columns,
   * at or below the first row.
   */
  function DrawPosition(i: nat): (r: (real, real))
    ensures r == (23.0 + 69.0 * Cell(i).1 as real, 175.0 + 69.0 * Cell(i).0 as real)
    ensures START_DRAWING_BUTTONS_X <= r.0
    ensures r.0 + DISPLAY_BUTTON_SIZE <= START_DRAWING_BUTTONS_X + 3.0 * DISPLAY_BUTTON_SIZE + 2.0 * BUTTON_MARGIN
    ensures START_DRAWING_BUTTONS_Y <= r.1
  {
    var cell := Cell(i);
    (START_DRAWING_BUTTONS_X + (DISPLAY_BUTTON_SIZE + BUTTON_MARGIN) * cell.1 as real,
     START_DRAWING_BUTTONS_Y + (DISPLAY_BUTTON_SIZE + BUTTON_MARGIN) * cell.0 as real)
  }

  /** Two different positions in the list get two different cells. */
  lemma CellsDistinct(i: nat, j: nat)
    requires i != j
    ensures Cell(i) != Cell(j)
  {
  }

  /**
   * No button hides another: the squares drawn for two different
   * positions are apart in x or in y, because one step of the grid is a
   * button size plus a margin.
   */
  lemma ButtonsDoNotOverlap(i: nat, j: nat)
    requires i != j
    ensures var (xi, yi) := DrawPosition(i);
            var (xj, yj) := DrawPosition(j);
            xi + DISPLAY_BUTTON_SIZE <= xj || xj + DISPLAY_BUTTON_SIZE <= xi
            || yi + DISPLAY_BUTTON_SIZE <= yj || yj + DISPLAY_BUTTON_SIZE <= yi
  {
    CellsDistinct(i, j);
  }

  /** The six buttons fill two rows of three. */
  lemma PanelLayout()
    ensures |BUTTONS| == 6
    ensures forall i | 0 <= i < |BUTTONS| :: Cell(i).0 < 2
    ensures Cell(0) == (0, 0) && Cell(2) == (0, 2) && Cell(3) == (1, 0) && Cell(5) == (1, 2)
    ensures forall b: Button :: b in BUTTONS
  {
    forall b: Button
      ensures b in BUTTONS
    {
      var i := match b
        case Actions => 0 case Card => 1 case World => 2 case Inventory => 3 case Build => 4 case Affinity => 5;
      assert BUTTONS[i] == b;
    }
  }
}
