// What the timeline logs, the filters find: the two sides agree on the payloads
// of changes.

module TimelineFilters {
  import opened Prelude
  import opened FilterDsl
  import opened FilterSql
  import opened FilterCompiler
  import opened FilterMeaning
  import opened FilterProofs
  import opened FilterLaws
  import Timeline

  /** The row of the action table that a log entry is, as the filters read it. */
  function AsAction(e: Timeline.Entry, workspace: Id): Action {
    Action(e.lead, workspace, e.kind, e.actionType, None, e.payload, e.performedAt)
  }

  /** A logged reassignment is found by exactly the "assignee changed" filters that name its old
      assignee, its new one, both, or neither. */
  lemma ReassignmentIsFound(c: Compiler, lead: Lead, entry: Timeline.Entry, changeset: Id,
                            was: Option<Id>, next: Option<Id>, now: int, from: Option<Id>, to: Option<Id>)
    requires Lawful(c.platform)
    requires entry == Timeline.AssignmentEntry(lead.id, changeset, was, next, now)
    ensures Selects(c, lead, [AsAction(entry, lead.workspace)], AssigneeChanged(from, to, None))
       <==> (from.Some? ==> was == from) && (to.Some? ==> next == to)
  {
    hide Lawful, Selects, Moved;
    var node := AssigneeChanged(from, to, None);
    SelectsMeans(c, lead, [AsAction(entry, lead.workspace)], node);
    PayloadSays(c.platform, AsAction(entry, lead.workspace), was, next);
    MovedUnfolds(c, lead, from, to, AsAction(entry, lead.workspace));
  }

  lemma PayloadSays(p: Platform, a: Action, was: Option<Id>, next: Option<Id>)
    requires a.payload == Timeline.AssignmentPayload(was, next)
    ensures PayloadText(p, a, "old_assignee_id") == was && PayloadText(p, a, "new_assignee_id") == next
  {}

  lemma MovedUnfolds(c: Compiler, lead: Lead, from: Option<Id>, to: Option<Id>, a: Action)
    ensures Moved(c, lead, AssignmentChange, "old_assignee_id", from, "new_assignee_id", to, None, a)
       <==> && OnLead(lead, a) && a.kind == AssignmentChange
            && (from.Some? ==> PayloadText(c.platform, a, "old_assignee_id") == from)
            && (to.Some? ==> PayloadText(c.platform, a, "new_assignee_id") == to)
  {}
}
