// The three condition lists that the compiler grows step by step, and what the
// rows they keep have in common.

module FilterBuilders {
  import opened Prelude
  import opened FilterDsl
  import opened FilterSql
  import opened FilterCompiler
  import opened FilterMeaning
  import opened FilterProofs

  /** The window as the source builds it, bound by bound. */
  method BuildWindow(c: Compiler, within: Option<Within>) returns (bounds: seq<Condition>)
    ensures bounds == WindowConditions(c, within)
    ensures Lawful(c.platform) ==> forall lead, a ::
      EvalConditions(c.platform, lead, a, bounds) == Yes <==> InWindow(c, within, a.performedAt)
  {
    if Lawful(c.platform) {
      forall lead, a { WindowMeans(c, lead, a, within); }
    }
    bounds := [];
    if within.None? {
      return;
    }
    if within.value.lastDays.Some? {
      return [PerformedFrom(c.now - within.value.lastDays.value * DAY)];
    }
    if within.value.from.Some? {
      bounds := bounds + [PerformedFrom(c.platform.midnight(within.value.from.value))];
    }
    if within.value.until.Some? {
      bounds := bounds + [PerformedBefore(c.platform.midnight(within.value.until.value + 1))];
    }
  }

  /** The conditions on one timeline row, as the source lists them. */
  method BuildActionConditions(c: Compiler, q: ActionQuery) returns (conditions: seq<Condition>)
    ensures conditions == ActionConditions(c, q)
    ensures Lawful(c.platform) ==> forall lead, a ::
      EvalConditions(c.platform, lead, a, conditions) == Yes <==> Answers(c, lead, q, a)
  {
    hide Lawful, EvalConditions, Answers, InWindow, WindowConditions, PayloadConditions;
    if Lawful(c.platform) {
      forall lead, a { AnswersMeans(c, lead, a, q); }
    }
    conditions := [SameLead, SameWorkspace];
    if q.kind.Some? {
      conditions := conditions + [KindIs(q.kind.value)];
    }
    if q.actionType.Some? {
      conditions := conditions + [TypeIs(q.actionType.value)];
    }
    if q.actor.Some? {
      conditions := conditions + [ActorIs(q.actor.value)];
    }
    conditions := conditions + PayloadConditions(c.platform, q.payloadMatch);
    var bounds := BuildWindow(c, q.within);
    conditions := conditions + bounds;
  }

  /** The EXISTS of a stage or assignee change. */
  method BuildTransition(
    c: Compiler, kind: ActionKind, oldKey: string, oldId: Option<Id>, newKey: string, newId: Option<Id>,
    within: Option<Within>) returns (sql: Sql)
    ensures sql == Exists(TransitionConditions(c, kind, oldKey, oldId, newKey, newId, within))
    ensures Lawful(c.platform) ==> forall lead, log ::
      Eval(c.platform, lead, log, sql)
      == Known(exists a :: a in log && Moved(c, lead, kind, oldKey, oldId, newKey, newId, within, a))
  {
    hide Lawful, Moved, EvalConditions, InWindow, WindowConditions;
    if Lawful(c.platform) {
      forall lead, log { TransitionPreserved(c, lead, log, kind, oldKey, oldId, newKey, newId, within); }
    }
    var conditions := [SameLead, SameWorkspace, KindIs(kind)];
    if oldId.Some? {
      conditions := conditions + [PayloadIs(oldKey, oldId.value)];
    }
    if newId.Some? {
      conditions := conditions + [PayloadIs(newKey, newId.value)];
    }
    var bounds := BuildWindow(c, within);
    sql := Exists(conditions + bounds);
  }
}
