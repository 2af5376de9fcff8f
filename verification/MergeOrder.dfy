// When the merged values do not depend on the order in which the merged records
// come out of the database.

module MergeOrder {
  import opened Prelude
  import opened MergeValues

  /** The records that have something agree on it; or, when none has, those that offer an empty list
      or object do. */
  predicate OrderFree(current: Json, sources: seq<Values>, key: string) {
    !Blank(current)
    || (forall a, b | a in sources && b in sources && Filling(sources, a, key) && Filling(sources, b, key) ::
          Get(a, key) == Get(b, key))
  }

  predicate SomeNonBlank(sources: seq<Values>, key: string) { exists a | a in sources :: !Blank(Get(a, key)) }

  /** A record that could have the last word on the key. */
  predicate Filling(sources: seq<Values>, source: Values, key: string) {
    if SomeNonBlank(sources, key) then !Blank(Get(source, key)) else Offered(Get(source, key))
  }

  lemma NonBlankIsOffered(v: Json)
    ensures !Blank(v) ==> Offered(v)
  {}

  /** A blank ends up as what some filling record has, if there is one. */
  lemma {:induction false} FilledFromFilling(current: Json, sources: seq<Values>, key: string)
    requires Blank(current)
    ensures (exists a | a in sources :: Filling(sources, a, key)) ==>
      exists a | a in sources :: Filling(sources, a, key) && Filled(current, sources, key) == Get(a, key)
    ensures !(exists a | a in sources :: Filling(sources, a, key)) ==> Filled(current, sources, key) == current
    ensures Blank(Filled(current, sources, key)) <==> !SomeNonBlank(sources, key)
  {
    hide Blank, Offered;
    if sources != [] {
      var init, last := sources[..|sources| - 1], sources[|sources| - 1];
      FilledFromFilling(current, init, key);
      assert sources == init + [last];
      NonBlankIsOffered(Get(last, key));
      assert SomeNonBlank(sources, key) <==> SomeNonBlank(init, key) || !Blank(Get(last, key));
      assert !SomeNonBlank(sources, key) ==> forall a :: Filling(sources, a, key) <==> Filling(init, a, key);
      assert SomeNonBlank(sources, key) ==> exists a | a in sources :: Filling(sources, a, key);
      if !exists a | a in sources :: Filling(sources, a, key) {
        assert !Filling(sources, last, key);
        assert forall a | a in init :: a in sources && !Filling(sources, a, key);
      }
    }
  }

  lemma SameRecords(sources: seq<Values>, other: seq<Values>)
    requires multiset(sources) == multiset(other)
    ensures forall a :: a in sources <==> a in other
  {
    forall a
      ensures a in sources <==> a in other
    {
      assert a in sources <==> a in multiset(sources);
      assert a in other <==> a in multiset(other);
    }
  }

  lemma SameFilling(sources: seq<Values>, other: seq<Values>, key: string)
    requires forall a :: a in sources <==> a in other
    ensures forall a :: Filling(sources, a, key) <==> Filling(other, a, key)
  {
    assert SomeNonBlank(sources, key) <==> SomeNonBlank(other, key);
  }

  /** The records with one of them moved to the front, or to the end. */
  function Without(sources: seq<Values>, i: nat): seq<Values>
    requires i < |sources|
  {
    sources[..i] + sources[i + 1..]
  }

  lemma Moved(sources: seq<Values>, i: nat)
    requires i < |sources|
    ensures multiset([sources[i]] + Without(sources, i)) == multiset(sources)
    ensures multiset(Without(sources, i) + [sources[i]]) == multiset(sources)
  {
    assert sources == sources[..i] + [sources[i]] + sources[i + 1..];
  }

  /** Some order lets any filling record have the last word. */
  lemma OrderFor(current: Json, sources: seq<Values>, key: string, source: Values) returns (order: seq<Values>)
    requires Blank(current) && source in sources && Filling(sources, source, key)
    ensures multiset(order) == multiset(sources) && Filled(current, order, key) == Get(source, key)
  {
    var i :| 0 <= i < |sources| && sources[i] == source;
    var rest := Without(sources, i);
    Moved(sources, i);
    if SomeNonBlank(sources, key) {
      order := [source] + rest;
      assert FirstNonBlank(order, key, 0);
      FirstNonBlankWins(current, order, key);
    } else {
      order := rest + [source];
      assert forall a | a in rest :: a in sources;
      FilledFromFilling(current, rest, key);
      assert order[..|order| - 1] == rest;
    }
  }

  /** A field of the merged lead is the same for every order of the merged records exactly if the
      primary has its own value or the filling records agree. */
  lemma OrderMattersUnlessFree(current: Json, sources: seq<Values>, key: string)
    ensures (forall order | multiset(order) == multiset(sources) ::
               Filled(current, order, key) == Filled(current, sources, key))
       <==> OrderFree(current, sources, key)
  {
    hide Filled, Blank, Offered, Filling;
    if !Blank(current) {
      forall order { FirstNonBlankWins(current, order, key); }
    } else if OrderFree(current, sources, key) {
      forall order | multiset(order) == multiset(sources)
        ensures Filled(current, order, key) == Filled(current, sources, key)
      {
        SameRecords(sources, order);
        SameFilling(sources, order, key);
        FilledFromFilling(current, sources, key);
        FilledFromFilling(current, order, key);
      }
    } else {
      var a, b :| a in sources && b in sources && Filling(sources, a, key) && Filling(sources, b, key)
                  && Get(a, key) != Get(b, key);
      var first := OrderFor(current, sources, key, a);
      var second := OrderFor(current, sources, key, b);
    }
  }

  /** All of the merged values are the same for every order exactly if each key is order-free. */
  lemma MergedInAnyOrderIff(start: Values, sources: seq<Values>)
    ensures (forall order, key | multiset(order) == multiset(sources) ::
               Filled(Get(start, key), order, key) == Filled(Get(start, key), sources, key))
       <==> forall key :: OrderFree(Get(start, key), sources, key)
  {
    hide Filled, OrderFree;
    if forall key :: OrderFree(Get(start, key), sources, key) {
      forall order, key | multiset(order) == multiset(sources)
        ensures Filled(Get(start, key), order, key) == Filled(Get(start, key), sources, key)
      {
        OrderMattersUnlessFree(Get(start, key), sources, key);
      }
    } else {
      var key :| !OrderFree(Get(start, key), sources, key);
      OrderMattersUnlessFree(Get(start, key), sources, key);
    }
  }
}
