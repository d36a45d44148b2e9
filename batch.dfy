/**
 * The shape every processing loop in the cleaners and crawlers shares: each item is handled
 * on its own, a failing item is reported and dropped, and the successful results are kept in
 * input order.
 */
module Batch {
  import opened Wrappers
  import opened Json

  /** The values of the successful outcomes, in input order. */
  function Successes<T>(rs: seq<Result<T>>): (vs: seq<T>)
    ensures |vs| <= |rs|
    decreases |rs|
  {
    if rs == [] then []
    else Successes(rs[..|rs| - 1]) + (if rs[|rs| - 1].Ok? then [rs[|rs| - 1].value] else [])
  }

  lemma {:induction false} SuccessesConcat<T>(a: seq<Result<T>>, b: seq<Result<T>>)
    ensures Successes(a + b) == Successes(a) + Successes(b)
    decreases |b|
  {
    if b == [] {
      assert a + b == a;
    } else {
      assert (a + b)[..|a + b| - 1] == a + b[..|b| - 1];
      SuccessesConcat(a, b[..|b| - 1]);
    }
  }

  /** A failing item contributes nothing and does not disturb the items around it. */
  lemma {:induction false} SuccessesDropFailure<T>(a: seq<Result<T>>, e: PyError, b: seq<Result<T>>)
    ensures Successes(a + [Raised(e)] + b) == Successes(a) + Successes(b)
  {
    SuccessesConcat(a + [Raised(e)], b);
    SuccessesConcat(a, [Raised(e)]);
    var f: seq<Result<T>> := [Raised(e)];
    assert f[..0] == [];
    assert Successes(f) == [];
  }

  /** A successful item contributes its value at its place. */
  lemma {:induction false} SuccessesKeep<T>(a: seq<Result<T>>, v: T, b: seq<Result<T>>)
    ensures Successes(a + [Ok(v)] + b) == Successes(a) + [v] + Successes(b)
  {
    SuccessesConcat(a + [Ok(v)], b);
    SuccessesConcat(a, [Ok(v)]);
    var k: seq<Result<T>> := [Ok(v)];
    assert k[..0] == [];
    assert Successes(k) == [v];
  }

  /** When nothing fails, every value is kept, position for position. */
  lemma {:induction false} SuccessesAllOk<T>(rs: seq<Result<T>>)
    requires forall i :: 0 <= i < |rs| ==> rs[i].Ok?
    ensures |Successes(rs)| == |rs|
    ensures forall i :: 0 <= i < |rs| ==> Successes(rs)[i] == rs[i].value
    decreases |rs|
  {
    if rs != [] {
      SuccessesAllOk(rs[..|rs| - 1]);
    }
  }

  /** Every kept value comes from a successful item, and every successful item's value is kept. */
  lemma {:induction false} SuccessesMember<T>(rs: seq<Result<T>>, v: T)
    ensures v in Successes(rs) <==> exists i :: 0 <= i < |rs| && rs[i] == Ok(v)
    decreases |rs|
  {
    if rs != [] {
      var init := rs[..|rs| - 1];
      SuccessesMember(init, v);
      if v in Successes(init) {
        var i :| 0 <= i < |init| && init[i] == Ok(v);
        assert rs[i] == init[i];
      }
      forall i | 0 <= i < |init| && rs[i] == Ok(v) ensures v in Successes(init) {
        assert init[i] == rs[i];
      }
    }
  }

  /** `[f(x) for x in xs]`; for a cleaner, the outcome of processing each item on its own. */
  function Map<T, U>(f: T -> U, xs: seq<T>): (ys: seq<U>)
    ensures |ys| == |xs| && forall i :: 0 <= i < |xs| ==> ys[i] == f(xs[i])
  {
    seq(|xs|, i requires 0 <= i < |xs| => f(xs[i]))
  }

  lemma MapConcat<T>(f: Json -> Result<T>, a: seq<Json>, b: seq<Json>)
    ensures Map(f, a + b) == Map(f, a) + Map(f, b)
  {
  }

  /** One more item processed: its value is kept at the end exactly when it succeeds. */
  lemma SuccessesSnoc<T>(f: Json -> Result<T>, xs: seq<Json>, i: nat)
    requires i < |xs|
    ensures Successes(Map(f, xs[..i + 1])) ==
      Successes(Map(f, xs[..i])) + (if f(xs[i]).Ok? then [f(xs[i]).value] else [])
  {
    var rs := Map(f, xs[..i + 1]);
    assert rs[..i] == Map(f, xs[..i]);
  }

  /** A failing item contributes nothing; the items around it keep their values, in order. */
  lemma MapDropFailure<T>(f: Json -> Result<T>, a: seq<Json>, p: Json, b: seq<Json>)
    requires f(p).Raised?
    ensures Successes(Map(f, a + [p] + b)) == Successes(Map(f, a)) + Successes(Map(f, b))
  {
    MapConcat(f, a + [p], b);
    MapConcat(f, a, [p]);
    assert Map(f, [p]) == [Raised(f(p).error)];
    SuccessesDropFailure(Map(f, a), f(p).error, Map(f, b));
  }

  /**
   * What a cleaner's `main` saves: every item is processed in turn and its record kept when
   * processing succeeds. An item that is not a dict always fails, and then the `except`
   * handler's own `item.get(...)` raises AttributeError, which ends the whole run.
   */
  function Run<T>(f: Json -> Result<T>, xs: seq<Json>): (r: Result<seq<T>>)
    ensures r.Raised? <==> exists i :: 0 <= i < |xs| && !xs[i].JObj?
  {
    if exists i :: 0 <= i < |xs| && !xs[i].JObj? then Raised(AttributeError)
    else Ok(Successes(Map(f, xs)))
  }

  /** The loop of a cleaner's `main`, appending each successful record to `processed`. */
  method RunLoop<T>(f: Json -> Result<T>, xs: seq<Json>) returns (r: Result<seq<T>>)
    requires forall x :: f(x).Ok? ==> x.JObj?
    ensures r == Run(f, xs)
  {
    var processed: seq<T> := [];
    for i := 0 to |xs|
      invariant forall j :: 0 <= j < i ==> xs[j].JObj?
      invariant processed == Successes(Map(f, xs[..i]))
    {
      SuccessesSnoc(f, xs, i);
      var doc := f(xs[i]);
      if doc.Raised? {
        if !xs[i].JObj? {
          return Raised(AttributeError);
        }
        continue;
      }
      processed := processed + [doc.value];
    }
    assert xs[..|xs|] == xs;
    return Ok(processed);
  }

  /**
   * What a cleaner's `main` saves when some items are skipped with `continue`: an item whose
   * processing gives `Ok(None)` is passed over, and otherwise the run is that of `Run`.
   */
  function RunSkipping<T>(f: Json -> Result<Option<T>>, xs: seq<Json>): (r: Result<seq<T>>)
    ensures r.Raised? <==> exists i :: 0 <= i < |xs| && !xs[i].JObj?
  {
    match Run(f, xs)
    case Raised(e) => Raised(e)
    case Ok(os) => Ok(Present(os))
  }

  /** A saved record is exactly the record of some item that was neither skipped nor failed. */
  lemma RunSkippingMember<T>(f: Json -> Result<Option<T>>, xs: seq<Json>, v: T)
    requires RunSkipping(f, xs).Ok?
    ensures v in RunSkipping(f, xs).value <==> exists i :: 0 <= i < |xs| && f(xs[i]) == Ok(Some(v))
  {
    var rs := Map(f, xs);
    PresentMember(Successes(rs), v);
    SuccessesMember(rs, Some(v));
  }

  /** A failing item is dropped from a run; the items around it keep their records, in order. */
  lemma RunDropFailure<T>(f: Json -> Result<T>, a: seq<Json>, p: Json, b: seq<Json>)
    requires forall i :: 0 <= i < |a + [p] + b| ==> (a + [p] + b)[i].JObj?
    requires f(p).Raised?
    ensures Run(f, a + [p] + b) == Ok(Successes(Map(f, a)) + Successes(Map(f, b)))
  {
    MapDropFailure(f, a, p, b);
  }

  /** The same with skipped items: a failing item is dropped and the others keep their records. */
  lemma RunSkippingDropFailure<T>(f: Json -> Result<Option<T>>, a: seq<Json>, p: Json, b: seq<Json>)
    requires forall i :: 0 <= i < |a + [p] + b| ==> (a + [p] + b)[i].JObj?
    requires f(p).Raised?
    ensures RunSkipping(f, a + [p] + b) ==
      Ok(Present(Successes(Map(f, a))) + Present(Successes(Map(f, b))))
  {
    MapDropFailure(f, a, p, b);
    PresentConcat(Successes(Map(f, a)), Successes(Map(f, b)));
  }

  /** The loop of a cleaner's `main` that skips some items, appending each kept record to `processed`. */
  method RunSkipLoop<T>(f: Json -> Result<Option<T>>, xs: seq<Json>) returns (r: Result<seq<T>>)
    requires forall x :: f(x).Ok? ==> x.JObj?
    ensures r == RunSkipping(f, xs)
  {
    var processed: seq<T> := [];
    for i := 0 to |xs|
      invariant forall j :: 0 <= j < i ==> xs[j].JObj?
      invariant processed == Present(Successes(Map(f, xs[..i])))
    {
      SuccessesSnoc(f, xs, i);
      var doc := f(xs[i]);
      if doc.Raised? {
        if !xs[i].JObj? {
          return Raised(AttributeError);
        }
        assert Successes(Map(f, xs[..i])) + [] == Successes(Map(f, xs[..i]));
        continue;
      }
      ghost var done := Successes(Map(f, xs[..i]));
      assert Successes(Map(f, xs[..i + 1])) == done + [doc.value];
      PresentConcat(done, [doc.value]);
      var one := [doc.value];
      assert one[..0] == [];
      assert Present(one) == if doc.value.Some? then [doc.value.value] else [];
      if doc.value.None? {
        continue;
      }
      processed := processed + [doc.value.value];
    }
    assert xs[..|xs|] == xs;
    return Ok(processed);
  }

  /** `[f(x) for x in xs if p(x)]`. */
  function MapFilter<T, U>(p: T -> bool, f: T -> U, xs: seq<T>): (ys: seq<U>)
    ensures |ys| <= |xs|
    ensures ys == [] <==> forall i :: 0 <= i < |xs| ==> !p(xs[i])
    decreases |xs|
  {
    if xs == [] then []
    else
      assert forall i :: 1 <= i < |xs| ==> xs[1..][i - 1] == xs[i];
      (if p(xs[0]) then [f(xs[0])] else []) + MapFilter(p, f, xs[1..])
  }

  /** A value is listed exactly when some kept element maps to it. */
  lemma {:induction false} MapFilterMember<T, U>(p: T -> bool, f: T -> U, xs: seq<T>, y: U)
    ensures y in MapFilter(p, f, xs) <==> exists i :: 0 <= i < |xs| && p(xs[i]) && y == f(xs[i])
    decreases |xs|
  {
    if xs != [] {
      var tail := xs[1..];
      MapFilterMember(p, f, tail, y);
      if y in MapFilter(p, f, tail) {
        var i :| 0 <= i < |tail| && p(tail[i]) && y == f(tail[i]);
        assert xs[i + 1] == tail[i];
      }
      forall i | 1 <= i < |xs| && p(xs[i]) && y == f(xs[i])
        ensures y in MapFilter(p, f, tail)
      {
        assert tail[i - 1] == xs[i];
      }
    }
  }

  /** The values of the present options, in order. */
  function Present<T>(xs: seq<Option<T>>): (vs: seq<T>)
    ensures |vs| <= |xs|
    decreases |xs|
  {
    if xs == [] then []
    else Present(xs[..|xs| - 1]) + (if xs[|xs| - 1].Some? then [xs[|xs| - 1].value] else [])
  }

  lemma {:induction false} PresentConcat<T>(a: seq<Option<T>>, b: seq<Option<T>>)
    ensures Present(a + b) == Present(a) + Present(b)
    decreases |b|
  {
    if b == [] {
      assert a + b == a;
    } else {
      assert (a + b)[..|a + b| - 1] == a + b[..|b| - 1];
      PresentConcat(a, b[..|b| - 1]);
    }
  }

  lemma {:induction false} PresentMember<T>(xs: seq<Option<T>>, v: T)
    ensures v in Present(xs) <==> Some(v) in xs
    decreases |xs|
  {
    if xs != [] {
      PresentMember(xs[..|xs| - 1], v);
      assert xs == xs[..|xs| - 1] + [xs[|xs| - 1]];
    }
  }

  /** Mapping one more element appends its image. */
  lemma MapSnoc<T, U>(f: T -> U, xs: seq<T>, x: T)
    ensures Map(f, xs + [x]) == Map(f, xs) + [f(x)]
  {
  }

  /** One more option: the image of its value is appended when it holds one. */
  lemma MapPresentSnoc<T, U>(f: T -> U, xs: seq<Option<T>>, i: nat)
    requires i < |xs|
    ensures Map(f, Present(xs[..i + 1])) == Map(f, Present(xs[..i])) + (if xs[i].Some? then [f(xs[i].value)] else [])
  {
    assert xs[..i + 1][..i] == xs[..i];
    var a := Present(xs[..i]);
    if xs[i].Some? {
      MapSnoc(f, a, xs[i].value);
    } else {
      assert a + [] == a;
    }
  }

  /** A value is listed exactly when some element maps to it. */
  lemma MapMember<T, U>(f: T -> U, xs: seq<T>, y: U)
    ensures y in Map(f, xs) <==> exists i :: 0 <= i < |xs| && y == f(xs[i])
  {
    if exists i :: 0 <= i < |xs| && y == f(xs[i]) {
      var i :| 0 <= i < |xs| && y == f(xs[i]);
      assert Map(f, xs)[i] == y;
    }
  }

  /** `[y for x in xs for y in f(x)]`: the lists of the elements, one after another. */
  function FlatMap<T, U>(f: T -> seq<U>, xs: seq<T>): seq<U>
    decreases |xs|
  {
    if xs == [] then [] else FlatMap(f, xs[..|xs| - 1]) + f(xs[|xs| - 1])
  }

  /** Flattening one more element appends its list. */
  lemma FlatMapSnoc<T, U>(f: T -> seq<U>, xs: seq<T>, x: T)
    ensures FlatMap(f, xs + [x]) == FlatMap(f, xs) + f(x)
  {
    assert (xs + [x])[..|xs|] == xs;
  }

  /** A value is listed exactly when it is in the list of some element. */
  lemma {:induction false} FlatMapMember<T, U>(f: T -> seq<U>, xs: seq<T>, y: U)
    ensures y in FlatMap(f, xs) <==> exists i :: 0 <= i < |xs| && y in f(xs[i])
    decreases |xs|
  {
    if xs != [] {
      var init := xs[..|xs| - 1];
      FlatMapMember(f, init, y);
      if y in FlatMap(f, init) {
        var i :| 0 <= i < |init| && y in f(init[i]);
        assert xs[i] == init[i];
      }
      forall i | 0 <= i < |init| && y in f(xs[i])
        ensures y in FlatMap(f, init)
      {
        assert init[i] == xs[i];
      }
    }
  }

  /** The images of the present options are exactly the images of the values they hold. */
  lemma MapPresentMember<T, U>(f: T -> U, xs: seq<Option<T>>, y: U)
    ensures y in Map(f, Present(xs)) <==> exists x :: Some(x) in xs && y == f(x)
  {
    MapMember(f, Present(xs), y);
    if y in Map(f, Present(xs)) {
      var i :| 0 <= i < |Present(xs)| && y == f(Present(xs)[i]);
      PresentMember(xs, Present(xs)[i]);
    }
    if exists x :: Some(x) in xs && y == f(x) {
      var x :| Some(x) in xs && y == f(x);
      PresentMember(xs, x);
      var i :| 0 <= i < |Present(xs)| && Present(xs)[i] == x;
    }
  }

  /** `if xs: save_json(xs, path)`: a file is written only for a list with entries. */
  function SaveIfAny<T>(xs: seq<T>): (r: Option<seq<T>>)
    ensures r.None? <==> xs == []
    ensures r.Some? ==> r.value == xs
  {
    if xs != [] then Some(xs) else None
  }

  /**
   * A crawler's loop that extends one list with each item's list, in item order; the first
   * item that raises ends the loop with its exception.
   */
  function Chain<T>(f: Json -> Result<seq<T>>, xs: seq<Json>): Result<seq<T>>
    decreases |xs|
  {
    if xs == [] then Ok([])
    else
      match Chain(f, xs[..|xs| - 1])
      case Raised(e) => Raised(e)
      case Ok(done) =>
        match f(xs[|xs| - 1])
        case Raised(e) => Raised(e)
        case Ok(more) => Ok(done + more)
  }

  /** One more item: its list is appended, or its exception ends the loop. */
  lemma ChainSnoc<T>(f: Json -> Result<seq<T>>, xs: seq<Json>, i: nat, done: seq<T>)
    requires i < |xs| && Chain(f, xs[..i]) == Ok(done)
    ensures Chain(f, xs[..i + 1]) == if f(xs[i]).Ok? then Ok(done + f(xs[i]).value) else Raised(f(xs[i]).error)
  {
    assert xs[..i + 1][..i] == xs[..i];
  }

  /** The loop gets through exactly when no item raises. */
  lemma {:induction false} ChainOk<T>(f: Json -> Result<seq<T>>, xs: seq<Json>)
    ensures Chain(f, xs).Ok? <==> forall i :: 0 <= i < |xs| ==> f(xs[i]).Ok?
    decreases |xs|
  {
    if xs != [] {
      var init := xs[..|xs| - 1];
      ChainOk(f, init);
      assert forall i :: 0 <= i < |init| ==> init[i] == xs[i];
    }
  }

  /** The lists of consecutive runs come one after the other. */
  lemma {:induction false} ChainConcat<T>(f: Json -> Result<seq<T>>, a: seq<Json>, b: seq<Json>)
    requires Chain(f, a).Ok? && Chain(f, b).Ok?
    ensures Chain(f, a + b) == Ok(Chain(f, a).value + Chain(f, b).value)
    decreases |b|
  {
    if b == [] {
      assert a + b == a;
      assert Chain(f, a).value + [] == Chain(f, a).value;
    } else {
      var init, last := b[..|b| - 1], b[|b| - 1];
      assert (a + b)[..|a + b| - 1] == a + init;
      assert (a + b)[|a + b| - 1] == last;
      assert Chain(f, init).Ok? && f(last).Ok?;
      ChainConcat(f, a, init);
      var x, y, z := Chain(f, a).value, Chain(f, init).value, f(last).value;
      assert Chain(f, a + b) == Ok(x + y + z);
      assert x + y + z == x + (y + z);
    }
  }

  /** An item that raises after a run without exceptions ends the loop with its exception. */
  lemma ChainStops<T>(f: Json -> Result<seq<T>>, xs: seq<Json>, i: nat)
    requires i < |xs| && Chain(f, xs[..i]).Ok? && f(xs[i]).Raised?
    ensures Chain(f, xs) == Raised(f(xs[i]).error)
  {
    ChainOk(f, xs[..i]);
    assert forall j :: 0 <= j < i ==> xs[..i][j] == xs[j];
    ChainFirstFailure(f, xs, i);
  }

  /** The first item that raises ends the loop with its exception, whatever comes after it. */
  lemma {:induction false} ChainFirstFailure<T>(f: Json -> Result<seq<T>>, xs: seq<Json>, i: nat)
    requires i < |xs| && f(xs[i]).Raised?
    requires forall j :: 0 <= j < i ==> f(xs[j]).Ok?
    ensures Chain(f, xs) == Raised(f(xs[i]).error)
    decreases |xs|
  {
    var init := xs[..|xs| - 1];
    if i < |init| {
      assert init[i] == xs[i];
      assert forall j :: 0 <= j < i ==> init[j] == xs[j];
      ChainFirstFailure(f, init, i);
    } else {
      assert forall j :: 0 <= j < |init| ==> init[j] == xs[j];
      ChainOk(f, init);
    }
  }

  /** A value is listed exactly when it is in the list of some item. */
  lemma {:induction false} ChainMember<T>(f: Json -> Result<seq<T>>, xs: seq<Json>, v: T)
    requires Chain(f, xs).Ok?
    ensures v in Chain(f, xs).value <==> exists i :: 0 <= i < |xs| && f(xs[i]).Ok? && v in f(xs[i]).value
    decreases |xs|
  {
    if xs != [] {
      var init := xs[..|xs| - 1];
      ChainMember(f, init, v);
      assert forall i :: 0 <= i < |init| ==> init[i] == xs[i];
    }
  }
}
