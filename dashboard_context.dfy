/**
 * The dashboard view state holder (src/context/DashboardContext.tsx): the
 * selected rating category, the active tab, and two records of per-id
 * expansion flags. Every handler replaces the state by a copy with one field
 * changed; a missing flag reads as "not expanded".
 */
module DashboardContext {
  import opened Wrappers
  import opened Types

  /** No category, the details tab, nothing expanded. */
  function DefaultDashboardState(): DashboardState
  {
    DashboardState(None, Details, map[], map[])
  }

  /** `!!flags[id]`: an id is expanded when its flag is present and true. */
  predicate Expanded(flags: map<int, bool>, id: int)
  {
    id in flags && flags[id]
  }

  /**
   * `{ ...flags, [id]: !flags[id] }`: the flag of `id` flips (a missing flag
   * counts as false) and is now present; every other flag stays as it was.
   */
  function Toggled(flags: map<int, bool>, id: int): (r: map<int, bool>)
    ensures r.Keys == flags.Keys + {id}
    ensures Expanded(r, id) <==> !Expanded(flags, id)
    ensures forall k :: k in flags && k != id ==> r[k] == flags[k]
  {
    flags[id := !Expanded(flags, id)]
  }

  /** The `DashboardProvider` component's state cell and its handlers. */
  class DashboardProvider {
    var dashboardState: DashboardState

    constructor()
      ensures dashboardState == DefaultDashboardState()
    {
      dashboardState := DefaultDashboardState();
    }

    method SetSelectedCategory(category: Option<string>)
      modifies this
      ensures dashboardState == old(dashboardState).(selectedCategory := category)
    {
      dashboardState := dashboardState.(selectedCategory := category);
    }

    method SetActiveTab(tab: Tab)
      modifies this
      ensures dashboardState == old(dashboardState).(activeTab := tab)
    {
      dashboardState := dashboardState.(activeTab := tab);
    }

    method ToggleFeedbackExpansion(feedbackId: int)
      modifies this
      ensures dashboardState == old(dashboardState).(expandedFeedbacks := Toggled(old(dashboardState).expandedFeedbacks, feedbackId))
    {
      var flags := dashboardState.expandedFeedbacks;
      dashboardState := dashboardState.(expandedFeedbacks := flags[feedbackId := !(feedbackId in flags && flags[feedbackId])]);
    }

    method ToggleConversationExpansion(ratingId: int)
      modifies this
      ensures dashboardState == old(dashboardState).(expandedConversations := Toggled(old(dashboardState).expandedConversations, ratingId))
    {
      var flags := dashboardState.expandedConversations;
      dashboardState := dashboardState.(expandedConversations := flags[ratingId := !(ratingId in flags && flags[ratingId])]);
    }
  }

  // ---------------------------------------------------------------------
  // Proofs
  // ---------------------------------------------------------------------

  /** Toggling an id twice gives it back its expansion and leaves every other flag as it was. */
  lemma ToggleTwice(flags: map<int, bool>, id: int)
    ensures Expanded(Toggled(Toggled(flags, id), id), id) == Expanded(flags, id)
    ensures forall k :: k != id ==> (Expanded(Toggled(Toggled(flags, id), id), k) <==> Expanded(flags, k))
  {
  }

  /** Toggling one id does not change whether any other id is expanded. */
  lemma ToggleOthersUnchanged(flags: map<int, bool>, id: int, k: int)
    requires k != id
    ensures Expanded(Toggled(flags, id), k) <==> Expanded(flags, k)
  {
  }

  /** From the initial state, toggling an id once expands it and toggling it again collapses it. */
  lemma ToggleFromDefault(id: int)
    ensures Expanded(Toggled(DefaultDashboardState().expandedFeedbacks, id), id)
    ensures !Expanded(Toggled(Toggled(DefaultDashboardState().expandedFeedbacks, id), id), id)
    ensures !Expanded(Toggled(Toggled(DefaultDashboardState().expandedConversations, id), id), id)
  {
  }

  /** Toggles on ids that differ commute. */
  lemma TogglesCommute(flags: map<int, bool>, a: int, b: int)
    requires a != b
    ensures Toggled(Toggled(flags, a), b) == Toggled(Toggled(flags, b), a)
  {
  }
}
