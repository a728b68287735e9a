/** The control row of a ticket (`src/components/tickets/TicketActions.tsx`):
    the status picker and its Save button, the assignment control for each
    role, and the escalation button. A pending status is one of the four
    options of the picker, or none. */
module TicketActions {
  import opened Base
  import opened Types

  /** `pendingStatus || status`: the value the picker shows. */
  function PickerValue(pending: Option<Status>, status: Status): (r: Status)
    ensures pending.Some? ==> r == pending.value
    ensures pending.None? ==> r == status
  {
    pending.GetOr(status)
  }

  /** `pendingStatus && pendingStatus !== status`: Save is offered exactly
      when the picker shows something other than the stored status. */
  predicate ShowsSave(pending: Option<Status>, status: Status)
    ensures ShowsSave(pending, status) <==> PickerValue(pending, status) != status
  {
    pending.Some? && pending.value != status
  }

  /** Save is hidden once `handleStatusSave` has cleared the pending
      status, and picking a status brings it back exactly when the pick
      differs from the stored one. */
  lemma SaveHiddenAfterSave(status: Status, picked: Status)
    ensures !ShowsSave(None, status)
    ensures ShowsSave(Some(picked), status) <==> picked != status
  {
  }

  /** The assignment control: an admin's picker holds the option values,
      '' for 'Unassigned' first and then one per available agent; an agent
      gets 'Assign to Me'; anyone else nothing. */
  datatype AssignControl = AssigneePicker(value: string, options: seq<string>)
                         | AssignToMe
                         | NoAssignControl

  function AgentIds(agents: seq<User>): (r: seq<string>)
    ensures |r| == |agents|
    ensures forall i :: 0 <= i < |agents| ==> r[i] == agents[i].id
  {
    if agents == [] then [] else [agents[0].id] + AgentIds(agents[1..])
  }

  function AssignControlFor(role: Role, assignedToId: Option<string>, agents: seq<User>): (r: AssignControl)
    ensures role == Admin ==>
              r == AssigneePicker(if IsUnassigned(assignedToId) then "" else assignedToId.value,
                                  [""] + AgentIds(agents))
    ensures role == Agent ==> (r == AssignToMe <==> IsUnassigned(assignedToId))
    ensures role != Admin && role != Agent ==> r == NoAssignControl
    ensures r.AssignToMe? ==> role == Agent
  {
    if role == Admin then
      AssigneePicker(if IsUnassigned(assignedToId) then "" else assignedToId.value, [""] + AgentIds(agents))
    else if role == Agent && IsUnassigned(assignedToId) then AssignToMe
    else NoAssignControl
  }

  /** The user id the assignment control passes to `onAssign`: the chosen
      option of the picker (the 'Unassigned' option passes ''), or the
      current user for 'Assign to Me'. */
  function AssignTarget(c: AssignControl, chosen: string, currentUserId: string): (r: Option<string>)
    ensures c.AssigneePicker? ==> r == Some(chosen)
    ensures c.AssignToMe? ==> r == Some(currentUserId)
    ensures c.NoAssignControl? ==> r == None
  {
    match c
    case AssigneePicker(_, _) => Some(chosen)
    case AssignToMe => Some(currentUserId)
    case NoAssignControl => None
  }

  /** 'Escalate to Admin': only an agent gets it, and never on a resolved
      ticket. */
  predicate ShowsEscalate(role: Role, status: Status)
    ensures ShowsEscalate(role, status) ==> role == Agent && status != Resolved
    ensures role == Agent && status in {New, InProgress, Pending} ==> ShowsEscalate(role, status)
  {
    role == Agent && status != Resolved
  }

  /** A customer (or an unrecognised role) gets neither assignment nor
      escalation controls; an admin never gets the escalation button. */
  lemma NonStaffGetNoControls(role: Role, assignedToId: Option<string>, agents: seq<User>, status: Status)
    ensures role != Admin && role != Agent ==>
              AssignControlFor(role, assignedToId, agents) == NoAssignControl && !ShowsEscalate(role, status)
    ensures role == Admin ==> !ShowsEscalate(role, status)
  {
  }
}
