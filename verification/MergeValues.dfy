// Filling the blanks of one lead from others: what ends up in each field, and
// the list of changes that leads there and back.

module MergeValues {
  import opened Prelude
  import opened Timeline

  type Values = map<string, Json>

  /** What a lead shows for a key; absent and null are the same. */
  function Get(values: Values, key: string): Json { if key in values then values[key] else Null }

  ghost predicate SameValues(a: Values, b: Values) { forall key :: Get(a, key) == Get(b, key) }

  predicate Blank(v: Json) { v in {Null, Str(""), Arr([]), Obj(map[])} }

  /** What a merged record may contribute. An empty list or object counts, although it is blank. */
  predicate Offered(v: Json) { v != Null && v != Str("") }

  // --- the log of changes ----------------------------------------------------------

  function Redo(values: Values, deltas: seq<FieldDelta>): Values {
    if deltas == [] then values
    else
      var last := deltas[|deltas| - 1];
      Redo(values, deltas[..|deltas| - 1])[last.key := last.after]
  }

  function Undo(values: Values, deltas: seq<FieldDelta>): Values
    decreases |deltas|
  {
    if deltas == [] then values
    else
      var last := deltas[|deltas| - 1];
      Undo(values[last.key := last.before], deltas[..|deltas| - 1])
  }

  /** Every change found a blank, says which one, and put something offered there. */
  ghost predicate FillsBlanks(values: Values, deltas: seq<FieldDelta>) {
    deltas == [] ||
    (var last := deltas[|deltas| - 1];
     && FillsBlanks(values, deltas[..|deltas| - 1])
     && last.before == Get(Redo(values, deltas[..|deltas| - 1]), last.key)
     && Blank(last.before) && Offered(last.after))
  }

  lemma {:induction false} UndoSame(a: Values, b: Values, deltas: seq<FieldDelta>)
    requires SameValues(a, b)
    ensures SameValues(Undo(a, deltas), Undo(b, deltas))
    decreases |deltas|
  {
    if deltas != [] {
      var last := deltas[|deltas| - 1];
      var a', b' := a[last.key := last.before], b[last.key := last.before];
      assert forall key :: Get(a', key) == if key == last.key then last.before else Get(a, key);
      assert forall key :: Get(b', key) == if key == last.key then last.before else Get(b, key);
      UndoSame(a', b', deltas[..|deltas| - 1]);
    }
  }

  /** Undoing a merge's changes in reverse shows the original values again. */
  lemma {:induction false} UndoRestores(values: Values, deltas: seq<FieldDelta>)
    requires FillsBlanks(values, deltas)
    ensures SameValues(Undo(Redo(values, deltas), deltas), values)
  {
    if deltas != [] {
      var last, init := deltas[|deltas| - 1], deltas[..|deltas| - 1];
      UndoRestores(values, init);
      UndoSame(Redo(values, deltas)[last.key := last.before], Redo(values, init), init);
    }
  }

  /** The key sets differ only by filled keys, so undoing key by key can also drop what was absent. */
  lemma {:induction false} RedoKeys(values: Values, deltas: seq<FieldDelta>)
    ensures Redo(values, deltas).Keys == values.Keys + set d | d in deltas :: d.key
  {
    if deltas != [] {
      var last, init := deltas[|deltas| - 1], deltas[..|deltas| - 1];
      RedoKeys(values, init);
      assert deltas == init + [last];
    }
  }

  // --- what each field ends up as --------------------------------------------------

  function Fill(current: Json, offer: Json): Json { if Blank(current) && Offered(offer) then offer else current }

  /** Null, the empty text, list and object give way to an offer; null and the empty text are none. */
  lemma FillsBlanksOnly(current: Json, offer: Json)
    ensures current in {Null, Str(""), Arr([]), Obj(map[])} && offer !in {Null, Str("")} ==>
      Fill(current, offer) == offer
    ensures current !in {Null, Str(""), Arr([]), Obj(map[])} || offer in {Null, Str("")} ==>
      Fill(current, offer) == current
  {}

  function Filled(current: Json, sources: seq<Values>, key: string): Json {
    if sources == [] then current
    else Fill(Filled(current, sources[..|sources| - 1], key), Get(sources[|sources| - 1], key))
  }

  ghost predicate FirstNonBlank(sources: seq<Values>, key: string, i: nat) {
    && i < |sources|
    && !Blank(Get(sources[i], key))
    && forall j | 0 <= j < i :: Blank(Get(sources[j], key))
  }

  /** The primary's own data wins; otherwise the first record in order that has something. */
  lemma {:induction false} FirstNonBlankWins(current: Json, sources: seq<Values>, key: string)
    ensures !Blank(current) ==> Filled(current, sources, key) == current
    ensures Blank(current) ==>
      forall i: nat :: FirstNonBlank(sources, key, i) ==> Filled(current, sources, key) == Get(sources[i], key)
    ensures Blank(current) && (forall i | 0 <= i < |sources| :: Blank(Get(sources[i], key))) ==>
      Blank(Filled(current, sources, key))
  {
    if sources != [] {
      var init, last := sources[..|sources| - 1], sources[|sources| - 1];
      FirstNonBlankWins(current, init, key);
      forall i: nat | Blank(current) && FirstNonBlank(sources, key, i)
        ensures Filled(current, sources, key) == Get(sources[i], key)
      {
        if i < |init| {
          assert FirstNonBlank(init, key, i);
        }
      }
    }
  }

  /** With nothing but blanks around, the last empty list or object offered stands. */
  lemma {:induction false} LastBlankOffer(current: Json, sources: seq<Values>, key: string)
    requires Blank(current) && forall i | 0 <= i < |sources| :: Blank(Get(sources[i], key))
    ensures Filled(current, sources, key) != current ==>
      exists i | 0 <= i < |sources| ::
        && Filled(current, sources, key) == Get(sources[i], key) && Offered(Get(sources[i], key))
        && forall j | i < j < |sources| :: !Offered(Get(sources[j], key))
  {
    hide Blank, Offered;
    if sources != [] {
      var init, last := sources[..|sources| - 1], sources[|sources| - 1];
      LastBlankOffer(current, init, key);
      FirstNonBlankWins(current, init, key);
      if Offered(Get(last, key)) {
        assert Filled(current, sources, key) == Get(sources[|init|], key);
      } else if Filled(current, sources, key) != current {
        var i :| 0 <= i < |init| && Filled(current, init, key) == Get(init[i], key) && Offered(Get(init[i], key))
                 && forall j | i < j < |init| :: !Offered(Get(init[j], key));
        assert Filled(current, sources, key) == Get(sources[i], key);
      }
    }
  }

  /** Values and changes after taking the sources in, one after the other. */
  ghost predicate ValuesFolded(start: Values, sources: seq<Values>, merged: Values, deltas: seq<FieldDelta>) {
    && merged == Redo(start, deltas) && FillsBlanks(start, deltas)
    && forall key :: Get(merged, key) == Filled(Get(start, key), sources, key)
  }

  /** What a merge promises about values: the log leads there and back, data the primary had stays,
      and each blank gets the first non-blank value in order, if there is one. */
  lemma MergePromises(start: Values, sources: seq<Values>, merged: Values, deltas: seq<FieldDelta>)
    requires ValuesFolded(start, sources, merged, deltas)
    ensures Redo(start, deltas) == merged
    ensures SameValues(Undo(merged, deltas), start)
    ensures forall key | !Blank(Get(start, key)) ::
      Get(merged, key) == Get(start, key) && forall d | d in deltas :: d.key != key
    ensures forall key, i: nat | Blank(Get(start, key)) && FirstNonBlank(sources, key, i) ::
      Get(merged, key) == Get(sources[i], key)
    ensures forall key | Blank(Get(start, key)) && (forall i | 0 <= i < |sources| :: Blank(Get(sources[i], key))) ::
      Blank(Get(merged, key))
  {
    hide Blank, Redo, Undo, FillsBlanks, Filled, FirstNonBlank;
    UndoRestores(start, deltas);
    forall key | !Blank(Get(start, key))
      ensures Get(merged, key) == Get(start, key) && forall d | d in deltas :: d.key != key
    {
      FirstNonBlankWins(Get(start, key), sources, key);
      NeverTouched(start, deltas, key);
    }
    forall key, i: nat | Blank(Get(start, key)) && FirstNonBlank(sources, key, i)
      ensures i < |sources| && Get(merged, key) == Get(sources[i], key)
    {
      FirstNonBlankWins(Get(start, key), sources, key);
      InRange(sources, key, i);
    }
    forall key | Blank(Get(start, key)) && forall i | 0 <= i < |sources| :: Blank(Get(sources[i], key))
      ensures Blank(Get(merged, key))
    {
      FirstNonBlankWins(Get(start, key), sources, key);
    }
  }

  lemma InRange(sources: seq<Values>, key: string, i: nat)
    requires FirstNonBlank(sources, key, i)
    ensures i < |sources|
  {}

  lemma {:induction false} NeverTouched(start: Values, deltas: seq<FieldDelta>, key: string)
    requires FillsBlanks(start, deltas) && !Blank(Get(start, key))
    ensures Get(Redo(start, deltas), key) == Get(start, key) && forall d | d in deltas :: d.key != key
  {
    if deltas != [] {
      NeverTouched(start, deltas[..|deltas| - 1], key);
      assert deltas == deltas[..|deltas| - 1] + [deltas[|deltas| - 1]];
    }
  }

  // --- the loop over one record's values ---------------------------------------------

  lemma FillOne(start: Values, merged: Values, deltas: seq<FieldDelta>, key: string, offer: Json)
    requires merged == Redo(start, deltas) && FillsBlanks(start, deltas)
    requires Blank(Get(merged, key)) && Offered(offer)
    ensures var log := deltas + [FieldDelta(key, Get(merged, key), offer)];
      merged[key := offer] == Redo(start, log) && FillsBlanks(start, log)
  {
    var log := deltas + [FieldDelta(key, Get(merged, key), offer)];
    assert log[..|log| - 1] == deltas;
  }

  lemma NullIsNoOffer()
    ensures !Offered(Null)
  {}

  lemma NothingFolded(start: Values)
    ensures ValuesFolded(start, [], start, [])
  {}

  lemma OnLog(start: Values, sources: seq<Values>, merged: Values, deltas: seq<FieldDelta>)
    requires ValuesFolded(start, sources, merged, deltas)
    ensures merged == Redo(start, deltas) && FillsBlanks(start, deltas)
  {}

  lemma FoldedOne(start: Values, sources: seq<Values>, merged: Values, deltas: seq<FieldDelta>, source: Values,
                  filled: Values, log: seq<FieldDelta>)
    requires ValuesFolded(start, sources, merged, deltas)
    requires filled == Redo(start, log) && FillsBlanks(start, log)
    requires forall key :: Get(filled, key) == Fill(Get(merged, key), Get(source, key))
    ensures ValuesFolded(start, sources + [source], filled, log)
  {
    assert (sources + [source])[..|sources|] == sources;
  }

  /** Takes one record's values in, in whatever order its keys come. */
  method FillFrom(start: Values, ghost sources: seq<Values>, merged: Values, deltas: seq<FieldDelta>, source: Values)
    returns (filled: Values, log: seq<FieldDelta>)
    requires ValuesFolded(start, sources, merged, deltas)
    ensures ValuesFolded(start, sources + [source], filled, log)
    ensures deltas <= log
  {
    hide ValuesFolded, Redo, FillsBlanks, Blank, Offered;
    NullIsNoOffer();
    OnLog(start, sources, merged, deltas);
    filled, log := merged, deltas;
    var todo := source.Keys;
    while todo != {}
      invariant todo <= source.Keys
      invariant filled == Redo(start, log) && FillsBlanks(start, log)
      invariant forall key ::
        Get(filled, key) == if key in todo then Get(merged, key) else Fill(Get(merged, key), Get(source, key))
      invariant deltas <= log
      decreases |todo|
    {
      var key :| key in todo;
      if Blank(Get(filled, key)) && Offered(source[key]) {
        FillOne(start, filled, log, key, source[key]);
        log := log + [FieldDelta(key, Get(filled, key), source[key])];
        filled := filled[key := source[key]];
      }
      todo := todo - {key};
    }
    FoldedOne(start, sources, merged, deltas, source, filled, log);
  }
}
