/** Building a list by visiting items in order and appending what each one
    yields, as the bot's `for ...: if ...: xs.append(...)` loops and list
    comprehensions do. Visiting an item may raise, which aborts the whole
    list. */
module Collect {
  import opened PyValues

  function OptionToSeq<U>(o: Option<U>): seq<U> {
    match o
    case None => []
    case Some(u) => [u]
  }

  /** The list built from `xs` when item `x` contributes `f(x)`: nothing
      (`None`), one value (`Some`), or an exception. */
  function FilterMap<T, U>(xs: seq<T>, f: T -> Result<Option<U>>): Result<seq<U>>
    decreases |xs|
  {
    if xs == [] then Ok([])
    else
      var head :- f(xs[0]);
      var tail :- FilterMap(xs[1..], f);
      Ok(OptionToSeq(head) + tail)
  }

  /** Two lists built one after the other; an exception in either wins. */
  function Concat<U>(a: Result<seq<U>>, b: Result<seq<U>>): Result<seq<U>> {
    if a.Ok? && b.Ok? then Ok(a.value + b.value) else Raised
  }

  /** Order is preserved: the list for `xs + ys` is the list for `xs`
      followed by the list for `ys`. */
  lemma {:induction false} FilterMapConcat<T, U>(xs: seq<T>, ys: seq<T>, f: T -> Result<Option<U>>)
    ensures FilterMap(xs + ys, f) == Concat(FilterMap(xs, f), FilterMap(ys, f))
    decreases |xs|
  {
    if xs == [] {
      assert xs + ys == ys;
      if FilterMap(ys, f).Ok? {
        assert [] + FilterMap(ys, f).value == FilterMap(ys, f).value;
      }
    } else {
      assert (xs + ys)[0] == xs[0];
      assert (xs + ys)[1..] == xs[1..] + ys;
      FilterMapConcat(xs[1..], ys, f);
      if f(xs[0]).Ok? {
        var head := OptionToSeq(f(xs[0]).value);
        var a, b := FilterMap(xs[1..], f), FilterMap(ys, f);
        if a.Ok? && b.Ok? {
          assert head + (a.value + b.value) == (head + a.value) + b.value;
        }
      }
    }
  }

  /** Visiting one more item: the list grows by what that item contributes,
      unless the item raises. */
  lemma FilterMapSnoc<T, U>(xs: seq<T>, x: T, f: T -> Result<Option<U>>)
    requires FilterMap(xs, f).Ok? && f(x).Ok?
    ensures FilterMap(xs + [x], f) == Ok(FilterMap(xs, f).value + OptionToSeq(f(x).value))
  {
    FilterMapConcat(xs, [x], f);
    assert [x][1..] == [];
    assert OptionToSeq(f(x).value) + [] == OptionToSeq(f(x).value);
  }

  /** Every value in the list was contributed by some item. */
  lemma {:induction false} FilterMapSound<T, U>(xs: seq<T>, f: T -> Result<Option<U>>, out: seq<U>)
    requires FilterMap(xs, f) == Ok(out)
    ensures forall u :: u in out ==> exists k :: 0 <= k < |xs| && f(xs[k]) == Ok(Some(u))
    decreases |xs|
  {
    if xs != [] {
      var head := f(xs[0]).value;
      var tail := FilterMap(xs[1..], f).value;
      FilterMapSound(xs[1..], f, tail);
      assert out == OptionToSeq(head) + tail;
      forall u | u in out
        ensures exists k :: 0 <= k < |xs| && f(xs[k]) == Ok(Some(u))
      {
        if u in tail {
          var k :| 0 <= k < |xs[1..]| && f(xs[1..][k]) == Ok(Some(u));
          assert f(xs[k + 1]) == Ok(Some(u));
        } else {
          assert f(xs[0]) == Ok(Some(u));
        }
      }
    }
  }

  /** No item raised, and every value an item contributes is in the list. */
  lemma {:induction false} FilterMapComplete<T, U>(xs: seq<T>, f: T -> Result<Option<U>>, out: seq<U>)
    requires FilterMap(xs, f) == Ok(out)
    ensures forall k :: 0 <= k < |xs| ==> f(xs[k]).Ok?
    ensures forall k :: 0 <= k < |xs| && f(xs[k]).Ok? && f(xs[k]).value.Some? ==> f(xs[k]).value.value in out
    decreases |xs|
  {
    if xs != [] {
      var head := f(xs[0]).value;
      var tail := FilterMap(xs[1..], f).value;
      FilterMapComplete(xs[1..], f, tail);
      assert out == OptionToSeq(head) + tail;
      forall k | 0 <= k < |xs|
        ensures f(xs[k]).Ok?
        ensures f(xs[k]).Ok? && f(xs[k]).value.Some? ==> f(xs[k]).value.value in out
      {
        if k > 0 {
          assert xs[k] == xs[1..][k - 1];
        }
      }
    }
  }

  /** The list raises exactly when some item raises. */
  lemma {:induction false} FilterMapRaised<T, U>(xs: seq<T>, f: T -> Result<Option<U>>)
    ensures FilterMap(xs, f).Raised? <==> exists k :: 0 <= k < |xs| && f(xs[k]).Raised?
    decreases |xs|
  {
    if xs != [] {
      FilterMapRaised(xs[1..], f);
      if exists k :: 0 <= k < |xs[1..]| && f(xs[1..][k]).Raised? {
        var k :| 0 <= k < |xs[1..]| && f(xs[1..][k]).Raised?;
        assert f(xs[k + 1]).Raised?;
      }
      if exists k :: 0 <= k < |xs| && f(xs[k]).Raised? {
        var k :| 0 <= k < |xs| && f(xs[k]).Raised?;
        if k > 0 {
          assert f(xs[1..][k - 1]).Raised?;
        }
      }
    }
  }

  /** When no item is skipped, the list has one value per item, in order. */
  lemma {:induction false} FilterMapEach<T, U>(xs: seq<T>, f: T -> Result<Option<U>>, out: seq<U>)
    requires FilterMap(xs, f) == Ok(out)
    requires forall k :: 0 <= k < |xs| && f(xs[k]).Ok? ==> f(xs[k]).value.Some?
    ensures |out| == |xs|
    ensures forall k :: 0 <= k < |xs| ==> f(xs[k]) == Ok(Some(out[k]))
    decreases |xs|
  {
    if xs != [] {
      var tail := FilterMap(xs[1..], f).value;
      FilterMapEach(xs[1..], f, tail);
      assert out == [f(xs[0]).value.value] + tail;
      forall k | 0 <= k < |xs|
        ensures f(xs[k]) == Ok(Some(out[k]))
      {
        if k > 0 {
          assert xs[k] == xs[1..][k - 1];
        }
      }
    }
  }
}
