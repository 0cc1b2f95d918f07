/**
 * How the zone engine takes a server event (src/engine/zone/event.rs): a
 * new list of quick actions replaces the old one, and the armed action is
 * re-chosen among them by its URL. `Action::from_quick_action` is not part
 * of this model and is a parameter.
 */
module ZoneEngine {

  import opened Wrappers
  import Actions
  import Event

  /** The position of the first quick action whose base URL is `url`, if any. */
  function FirstWithBaseUrl(quickActions: seq<Actions.QuickAction>, url: string): (r: Option<nat>)
    ensures r.Some? ==>
      && r.value < |quickActions| && quickActions[r.value].baseUrl == url
      && forall j | 0 <= j < r.value :: quickActions[j].baseUrl != url
    ensures r.None? <==> forall j | 0 <= j < |quickActions| :: quickActions[j].baseUrl != url
    decreases |quickActions|
  {
    if quickActions == [] then None
    else if quickActions[0].baseUrl == url then Some(0)
    else
      var rest := FirstWithBaseUrl(quickActions[1..], url);
      if rest.Some? then Some(rest.value + 1) else None
  }

  /** The armed action and the selected quick action after re-choosing among `quickActions`. */
  datatype Selection = Selection(currentAction: Option<Actions.Action>, selectedQuickAction: Option<nat>)

  /**
   * `update_current_action_according_new_quick_actions` on values: with no
   * armed action nothing changes; otherwise the first quick action whose
   * base URL is the armed action's URL is armed and selected, and when there
   * is none both are cleared.
   */
  function Reselect(quickActions: seq<Actions.QuickAction>, current: Selection,
                    fromQuickAction: Actions.QuickAction -> Actions.Action): (r: Selection)
    ensures current.currentAction.None? ==> r == current
    ensures current.currentAction.Some? ==>
      (r.selectedQuickAction.Some? <==> exists j | 0 <= j < |quickActions| :: quickActions[j].baseUrl == current.currentAction.value.postUrl)
    ensures current.currentAction.Some? && r.selectedQuickAction.Some? ==>
      var i := r.selectedQuickAction.value;
      && i < |quickActions|
      && quickActions[i].baseUrl == current.currentAction.value.postUrl
      && (forall j | 0 <= j < i :: quickActions[j].baseUrl != quickActions[i].baseUrl)
      && r.currentAction == Some(fromQuickAction(quickActions[i]))
    ensures current.currentAction.Some? && r.selectedQuickAction.None? ==> r.currentAction.None?
  {
    if current.currentAction.Some? then
      var found := FirstWithBaseUrl(quickActions, current.currentAction.value.postUrl);
      if found.Some? then
        var quickAction := quickActions[found.value];
        Selection(Some(fromQuickAction(quickAction)), FirstWithBaseUrl(quickActions, quickAction.baseUrl))
      else Selection(None, None)
    else current
  }

  /**
   * When the built action posts to its quick action's base URL, choosing
   * again among the same quick actions keeps the choice.
   */
  lemma ReselectIsStable(quickActions: seq<Actions.QuickAction>, current: Selection,
                         fromQuickAction: Actions.QuickAction -> Actions.Action)
    requires forall q :: fromQuickAction(q).postUrl == q.baseUrl
    ensures var once := Reselect(quickActions, current, fromQuickAction);
      Reselect(quickActions, once, fromQuickAction) == once
  {
    var once := Reselect(quickActions, current, fromQuickAction);
    if once.currentAction.Some? && current.currentAction.Some? {
      var i := once.selectedQuickAction.value;
      assert once.currentAction.value.postUrl == quickActions[i].baseUrl;
    }
  }

  class Engine {
    var quickActions: seq<Actions.QuickAction>
    var currentAction: Option<Actions.Action>
    var selectedQuickAction: Option<nat>

    constructor (quickActions: seq<Actions.QuickAction>, currentAction: Option<Actions.Action>,
                 selectedQuickAction: Option<nat>)
      ensures this.quickActions == quickActions && this.currentAction == currentAction
      ensures this.selectedQuickAction == selectedQuickAction
    {
      this.quickActions := quickActions;
      this.currentAction := currentAction;
      this.selectedQuickAction := selectedQuickAction;
    }

    function CurrentSelection(): Selection
      reads this
    {
      Selection(currentAction, selectedQuickAction)
    }

    /**
     * `event`: a `ThereIsAround` event replaces the quick actions and
     * re-chooses the armed action; every other event changes nothing.
     */
    method Event(event: Event.ZoneEvent, fromQuickAction: Actions.QuickAction -> Actions.Action)
      modifies this
      ensures event.eventType.ThereIsAround? ==>
        && quickActions == event.eventType.quickActions
        && CurrentSelection() == Reselect(quickActions, old(CurrentSelection()), fromQuickAction)
      ensures !event.eventType.ThereIsAround? ==>
        quickActions == old(quickActions) && CurrentSelection() == old(CurrentSelection())
    {
      if event.eventType.ThereIsAround? {
        quickActions := event.eventType.quickActions;
        UpdateCurrentActionAccordingNewQuickActions(fromQuickAction);
      }
    }

    /** `update_current_action_according_new_quick_actions`. */
    method UpdateCurrentActionAccordingNewQuickActions(fromQuickAction: Actions.QuickAction -> Actions.Action)
      modifies this
      ensures quickActions == old(quickActions)
      ensures CurrentSelection() == Reselect(quickActions, old(CurrentSelection()), fromQuickAction)
    {
      if currentAction.Some? {
        var found := FirstWithBaseUrl(quickActions, currentAction.value.postUrl);
        if found.Some? {
          var quickAction := quickActions[found.value];
          currentAction := Some(fromQuickAction(quickAction));
          // `position(..).unwrap()` finds the same quick action again, so it cannot panic.
          var position := FirstWithBaseUrl(quickActions, quickAction.baseUrl);
          selectedQuickAction := Some(position.value);
        } else {
          currentAction := None;
          selectedQuickAction := None;
        }
      }
    }
  }
}
