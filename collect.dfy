/** The two shapes of the inspector's listing loops, as functions on sequences:
    skip the entries that do not convert, or give up on the first one. */
module Collect {
  import opened Task

  function Kept<B>(o: Option<B>): seq<B>
  {
    if o.Some? then [o.value] else []
  }

  /** The converted entries of `xs` that `f` accepts, in their original order. */
  function FilterMap<A, B>(xs: seq<A>, f: A -> Option<B>): (r: seq<B>)
    ensures |r| <= |xs|
  {
    if xs == [] then []
    else FilterMap(xs[..|xs| - 1], f) + Kept(f(xs[|xs| - 1]))
  }

  /** Skipping distributes over concatenation: the output for `xs + ys` is the
      output for `xs` followed by the output for `ys`, so order is kept. */
  lemma {:induction false} FilterMapConcat<A, B>(xs: seq<A>, ys: seq<A>, f: A -> Option<B>)
    ensures FilterMap(xs + ys, f) == FilterMap(xs, f) + FilterMap(ys, f)
  {
    if ys == [] {
      assert xs + ys == xs;
    } else {
      var zs, init, last := xs + ys, ys[..|ys| - 1], ys[|ys| - 1];
      assert zs[..|zs| - 1] == xs + init;
      assert zs[|zs| - 1] == last;
      FilterMapConcat(xs, init, f);
      calc {
        FilterMap(zs, f);
        FilterMap(xs + init, f) + Kept(f(last));
        FilterMap(xs, f) + FilterMap(init, f) + Kept(f(last));
        FilterMap(xs, f) + FilterMap(ys, f);
      }
    }
  }

  /** An entry that does not convert is dropped and changes nothing around it. */
  lemma FilterMapSkips<A, B>(xs: seq<A>, bad: A, ys: seq<A>, f: A -> Option<B>)
    requires f(bad).None?
    ensures FilterMap(xs + [bad] + ys, f) == FilterMap(xs, f) + FilterMap(ys, f)
  {
    var head := xs + [bad];
    assert head[..|head| - 1] == xs && head[|head| - 1] == bad;
    assert FilterMap(head, f) == FilterMap(xs, f);
    FilterMapConcat(head, ys, f);
  }

  /** When every entry converts, nothing is skipped: entry `i` of the output is
      the conversion of entry `i` of the input. */
  lemma {:induction false} FilterMapKeepsAll<A, B>(xs: seq<A>, f: A -> Option<B>)
    requires forall i | 0 <= i < |xs| :: f(xs[i]).Some?
    ensures |FilterMap(xs, f)| == |xs|
    ensures forall i | 0 <= i < |xs| :: FilterMap(xs, f)[i] == f(xs[i]).value
  {
    if xs != [] {
      var init := xs[..|xs| - 1];
      FilterMapKeepsAll(init, f);
    }
  }

  /** Nothing is invented: every output is the conversion of some input entry. */
  lemma {:induction false} FilterMapSound<A, B>(xs: seq<A>, f: A -> Option<B>)
    ensures forall y | y in FilterMap(xs, f) :: exists x | x in xs :: f(x) == Some(y)
  {
    if xs != [] {
      var init, last := xs[..|xs| - 1], xs[|xs| - 1];
      FilterMapSound(init, f);
      forall y | y in FilterMap(xs, f) ensures exists x | x in xs :: f(x) == Some(y) {
        if y in FilterMap(init, f) {
          var x :| x in init && f(x) == Some(y);
          assert x in xs;
        } else {
          assert last in xs && f(last) == Some(y);
        }
      }
    }
  }

  /** When no entry converts, the output is empty. */
  lemma {:induction false} FilterMapDropsAll<A, B>(xs: seq<A>, f: A -> Option<B>)
    requires forall i | 0 <= i < |xs| :: f(xs[i]).None?
    ensures FilterMap(xs, f) == []
  {
    if xs != [] {
      FilterMapDropsAll(xs[..|xs| - 1], f);
    }
  }

  /** All entries converted, in order, or nothing at all. */
  function AllOrNothing<A, B>(xs: seq<A>, f: A -> Option<B>): (r: Option<seq<B>>)
    ensures r.Some? <==> forall i | 0 <= i < |xs| :: f(xs[i]).Some?
    ensures r.Some? ==>
              |r.value| == |xs| && forall i | 0 <= i < |xs| :: r.value[i] == f(xs[i]).value
  {
    if xs == [] then Some([])
    else
      match AllOrNothing(xs[..|xs| - 1], f)
      case None => None
      case Some(init) =>
        match f(xs[|xs| - 1])
        case None => None
        case Some(y) => Some(init + [y])
  }
}
