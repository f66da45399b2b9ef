/** The server actions over the alert table: an asynchronous lookup by state
    and a second copy of the sorted state list. Both read the same table as
    the constants module and give the same answers. */
module HealthAlertActions {
  import opened Wrappers
  import opened Strings
  import opened HealthAlertTable

  /** `getHealthAlertsByStateAsync`: the state's list, or [] when the table
      has no such state; the same answer as `getHealthAlertsByState`. */
  method GetHealthAlertsByStateAsync(state: string) returns (alerts: seq<HealthAlert>)
    ensures alerts == GetHealthAlertsByState(state)
    ensures state in GetIndianStates() <==> alerts != []
    ensures forall i :: 0 <= i < |StateHealthAlerts| && StateHealthAlerts[i].0 == state ==>
      alerts == StateHealthAlerts[i].1
  {
    match Find(StateHealthAlerts, state) {
      case Some(found) => alerts := found;
      case None => alerts := [];
    }
    LookupByState(state);
  }

  /** This module's `getIndianStates`: the table's keys sorted, the same list
      as the constants module gives, without duplicates and with one entry
      per key. */
  method GetStates() returns (states: seq<string>)
    ensures states == HealthAlertTable.GetIndianStates()
    ensures Sorted(states) && NoDuplicates(states)
    ensures |states| == |StateHealthAlerts|
    ensures forall i :: 0 <= i < |StateHealthAlerts| ==> StateHealthAlerts[i].0 in states
  {
    states := Sort(Keys(StateHealthAlerts));
    StatesSortedWithoutDuplicates();
    forall i | 0 <= i < |StateHealthAlerts| ensures StateHealthAlerts[i].0 in states {
      assert states[i] == StateHealthAlerts[i].0;
    }
  }
}
