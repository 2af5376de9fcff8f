// What "in the last n days" selects, and when these are days of the workspace.

module FilterWindows {
  import opened Prelude
  import opened FilterDsl
  import opened FilterSql
  import opened FilterCompiler
  import opened FilterMeaning
  import opened FilterProofs
  import opened FilterLawful

  /** The compiled window keeps the rows performed on local day `first` or later. */
  ghost predicate StartsWithDay(c: Compiler, n: int, first: int) {
    forall lead, a :: EvalConditions(c.platform, lead, a, WindowConditions(c, Some(Within(Some(n), None, None)))) == Yes
                      <==> c.platform.localDay(a.performedAt) >= first
  }

  function SampleAction(instant: int): Action { Action("", "", Note, None, None, map[], instant) }

  /** The relative window is made of whole local days exactly when n times 24 hours ago was a local
      midnight; in particular, of today and the n days before exactly when that midnight was theirs. */
  lemma RelativeIsLocalDays(c: Compiler, n: int, first: int)
    requires Lawful(c.platform)
    ensures StartsWithDay(c, n, first) <==> c.platform.midnight(first) == c.now - n * DAY
  {
    var within := Some(Within(Some(n), None, None));
    forall lead, a { WindowMeans(c, lead, a, within); }
    if StartsWithDay(c, n, first) {
      var lead := Lead("", "", map[]);
      var low, high := SampleAction(c.now - n * DAY), SampleAction(c.platform.midnight(first));
      WindowMeans(c, lead, low, within);
      WindowMeans(c, lead, high, within);
      assert EvalConditions(c.platform, lead, low, WindowConditions(c, within)) == Yes;
      assert c.platform.localDay(high.performedAt) >= first;
    }
  }

  /** The rows on which the two readings differ lie between that instant and that midnight. */
  lemma WhereReadingsDiffer(c: Compiler, n: int, first: int, lead: Lead, a: Action)
    requires Lawful(c.platform)
    ensures var start, midnight := c.now - n * DAY, c.platform.midnight(first);
      (EvalConditions(c.platform, lead, a, WindowConditions(c, Some(Within(Some(n), None, None)))) == Yes
       <==> c.platform.localDay(a.performedAt) >= first)
      <==> !(Min(start, midnight) <= a.performedAt < Max(start, midnight))
  {
    WindowMeans(c, lead, a, Some(Within(Some(n), None, None)));
  }

  const HOUR := 3_600_000_000

  /** At noon, yesterday's eight o'clock is among the rows since yesterday, and not within the last day. */
  lemma YesterdayMorningIsMissed(c: Compiler, lead: Lead)
    requires c.platform == SAMPLE && c.now == 12 * HOUR
    ensures Lawful(c.platform)
    ensures var a := SampleAction(8 * HOUR - DAY);
      && c.platform.localDay(a.performedAt) == c.Today() - 1
      && EvalConditions(c.platform, lead, a, WindowConditions(c, Some(Within(None, Some(c.Today() - 1), None)))) == Yes
      && EvalConditions(c.platform, lead, a, WindowConditions(c, Some(Within(Some(1), None, None)))) != Yes
  {
    LawfulIsPossible();
    var a := SampleAction(8 * HOUR - DAY);
    WindowMeans(c, lead, a, Some(Within(None, Some(c.Today() - 1), None)));
    WindowMeans(c, lead, a, Some(Within(Some(1), None, None)));
  }
}
