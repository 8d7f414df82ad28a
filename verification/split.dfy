/** Splitting a sequence at separator elements, and putting it back together.

    One concept serves four loops of the source: the quote splitter cuts text at `"`,
    the tag builder cuts content at a single space, the stylesheet parser's `split`
    cuts a token run at one separator token, and the rule splitter cuts it at braces.
    Every piece keeps the elements between two consecutive separators; empty pieces
    are kept, so there is always exactly one more piece than there are separators. */
module Split {

  /** The separators of `xs`, in order. */
  function Filter<T>(xs: seq<T>, seps: set<T>): (r: seq<T>)
    ensures |r| <= |xs|
    ensures forall i :: 0 <= i < |r| ==> r[i] in seps
  {
    if |xs| == 0 then []
    else
      var init := Filter(xs[..|xs| - 1], seps);
      if xs[|xs| - 1] in seps then init + [xs[|xs| - 1]] else init
  }

  /** The elements of `xs` that are not separators, in order. */
  function Remove<T>(xs: seq<T>, seps: set<T>): (r: seq<T>)
    ensures |r| + |Filter(xs, seps)| == |xs|
    ensures forall i :: 0 <= i < |r| ==> r[i] !in seps
  {
    if |xs| == 0 then []
    else
      var init := Remove(xs[..|xs| - 1], seps);
      if xs[|xs| - 1] in seps then init else init + [xs[|xs| - 1]]
  }

  /** The pieces of `xs` between separators, built one element at a time the way the
      source's loops build them: a separator closes the current buffer, anything else
      is pushed onto it. */
  function SplitBy<T>(xs: seq<T>, seps: set<T>): (r: seq<seq<T>>)
    ensures |r| == |Filter(xs, seps)| + 1
    ensures forall i, j :: 0 <= i < |r| && 0 <= j < |r[i]| ==> r[i][j] !in seps
  {
    if |xs| == 0 then [[]]
    else
      var init := SplitBy(xs[..|xs| - 1], seps);
      var x := xs[|xs| - 1];
      if x in seps then init + [[]]
      else init[..|init| - 1] + [init[|init| - 1] + [x]]
  }

  /** Interleaves `pieces` with `between`: pieces[0], between[0], pieces[1], ... */
  function Weave<T>(pieces: seq<seq<T>>, between: seq<T>): seq<T>
    requires |pieces| == |between| + 1
  {
    if |between| == 0 then pieces[0]
    else Weave(pieces[..|pieces| - 1], between[..|between| - 1])
         + [between[|between| - 1]] + pieces[|pieces| - 1]
  }

  /** Concatenation of all pieces. */
  function Flatten<T>(pieces: seq<seq<T>>): seq<T>
  {
    if |pieces| == 0 then [] else Flatten(pieces[..|pieces| - 1]) + pieces[|pieces| - 1]
  }

  /** Splitting loses nothing: weaving the pieces with the separators gives back the input. */
  lemma {:induction false} WeaveSplit<T>(xs: seq<T>, seps: set<T>)
    ensures Weave(SplitBy(xs, seps), Filter(xs, seps)) == xs
    decreases |xs|
  {
    if |xs| > 0 {
      var init := xs[..|xs| - 1];
      var x := xs[|xs| - 1];
      assert xs == init + [x];
      WeaveSplit(init, seps);
      var p := SplitBy(init, seps);
      var f := Filter(init, seps);
      if x in seps {
        SplitAppendSep(init, x, seps);
        var q := p + [[]];
        var g := f + [x];
        assert q[..|q| - 1] == p;
        assert g[..|g| - 1] == f;
        assert Weave(q, g) == Weave(p, f) + [x] + [];
      } else {
        SplitAppendOther(init, x, seps);
        WeaveExtendLast(p, f, x);
      }
    }
  }

  /** Appending an element to the last piece appends it to the weave. */
  lemma {:induction false} WeaveExtendLast<T>(pieces: seq<seq<T>>, between: seq<T>, x: T)
    requires |pieces| == |between| + 1
    ensures Weave(pieces[..|pieces| - 1] + [pieces[|pieces| - 1] + [x]], between)
            == Weave(pieces, between) + [x]
  {
    var q := pieces[..|pieces| - 1] + [pieces[|pieces| - 1] + [x]];
    if |between| > 0 {
      assert q[..|q| - 1] == pieces[..|pieces| - 1];
    }
  }

  /** Splitting loses only the separators: the pieces concatenated are the input with
      every separator removed. */
  lemma {:induction false} FlattenSplit<T>(xs: seq<T>, seps: set<T>)
    ensures Flatten(SplitBy(xs, seps)) == Remove(xs, seps)
    decreases |xs|
  {
    if |xs| > 0 {
      var init := xs[..|xs| - 1];
      var x := xs[|xs| - 1];
      FlattenSplit(init, seps);
      var p := SplitBy(init, seps);
      if x in seps {
        assert (p + [[]])[..|p|] == p;
      } else {
        var q := p[..|p| - 1] + [p[|p| - 1] + [x]];
        assert q[..|q| - 1] == p[..|p| - 1];
        FlattenInit(p);
        assert Flatten(q) == Flatten(p[..|p| - 1]) + p[|p| - 1] + [x];
      }
    }
  }

  /** A non-empty sequence is its prefix followed by its last element. */
  lemma Snoc<T>(xs: seq<T>)
    requires |xs| > 0
    ensures xs[..|xs| - 1] + [xs[|xs| - 1]] == xs
  {
  }

  lemma FlattenInit<T>(p: seq<seq<T>>)
    requires |p| > 0
    ensures Flatten(p) == Flatten(p[..|p| - 1]) + p[|p| - 1]
  {
  }

  predicate AllIn<T>(xs: seq<T>, seps: set<T>)
  {
    forall i :: 0 <= i < |xs| ==> xs[i] in seps
  }

  /** No piece contains a separator. */
  predicate Clean<T>(pieces: seq<seq<T>>, seps: set<T>)
  {
    forall i, j :: 0 <= i < |pieces| && 0 <= j < |pieces[i]| ==> pieces[i][j] !in seps
  }

  /** The split is the only way to cut `xs` into separator-free pieces: any pieces and
      separators that weave back to `xs` are exactly the split and the filter. */
  lemma {:induction false} SplitUnique<T>(xs: seq<T>, seps: set<T>, pieces: seq<seq<T>>, between: seq<T>)
    requires |pieces| == |between| + 1
    requires AllIn(between, seps) && Clean(pieces, seps)
    requires Weave(pieces, between) == xs
    ensures pieces == SplitBy(xs, seps)
    ensures between == Filter(xs, seps)
    decreases |xs|, |pieces[|pieces| - 1]|
  {
    var last := pieces[|pieces| - 1];
    if |last| > 0 {
      // xs ends in the last element of the last piece, which is no separator
      var shorter := ShrinkLast(pieces, between, seps);
      var x := last[|last| - 1];
      var init := Weave(shorter, between);
      SplitUnique(init, seps, shorter, between);
      SplitAppendOther(init, x, seps);
    } else if |between| > 0 {
      // xs ends in the last separator
      DropSeparator(pieces, between, seps);
      var x := between[|between| - 1];
      var init := Weave(pieces[..|pieces| - 1], between[..|between| - 1]);
      SplitUnique(init, seps, pieces[..|pieces| - 1], between[..|between| - 1]);
      SplitAppendSep(init, x, seps);
    } else {
      assert xs == pieces[0] == [];
    }
  }

  /** Taking the last element off the last piece. */
  lemma ShrinkLast<T>(pieces: seq<seq<T>>, between: seq<T>, seps: set<T>) returns (shorter: seq<seq<T>>)
    requires |pieces| == |between| + 1 && Clean(pieces, seps)
    requires |pieces[|pieces| - 1]| > 0
    ensures var last := pieces[|pieces| - 1];
      && shorter == pieces[..|pieces| - 1] + [last[..|last| - 1]]
      && |shorter| == |pieces| && Clean(shorter, seps)
      && last[|last| - 1] !in seps
      && Weave(pieces, between) == Weave(shorter, between) + [last[|last| - 1]]
      && shorter[..|shorter| - 1] + [shorter[|shorter| - 1] + [last[|last| - 1]]] == pieces
  {
    var last := pieces[|pieces| - 1];
    var x := last[|last| - 1];
    shorter := pieces[..|pieces| - 1] + [last[..|last| - 1]];
    assert shorter[..|shorter| - 1] == pieces[..|pieces| - 1];
    assert shorter[|shorter| - 1] + [x] == last;
    assert shorter[..|shorter| - 1] + [shorter[|shorter| - 1] + [x]] == pieces;
    WeaveExtendLast(shorter, between, x);
  }

  /** Taking the empty last piece and the last separator off. */
  lemma DropSeparator<T>(pieces: seq<seq<T>>, between: seq<T>, seps: set<T>)
    requires |pieces| == |between| + 1 && AllIn(between, seps) && Clean(pieces, seps)
    requires |pieces[|pieces| - 1]| == 0 && |between| > 0
    ensures AllIn(between[..|between| - 1], seps) && Clean(pieces[..|pieces| - 1], seps)
    ensures between[|between| - 1] in seps
    ensures Weave(pieces, between)
         == Weave(pieces[..|pieces| - 1], between[..|between| - 1]) + [between[|between| - 1]]
    ensures pieces == pieces[..|pieces| - 1] + [[]]
  {
    assert pieces == pieces[..|pieces| - 1] + [pieces[|pieces| - 1]];
  }

  /** Extending the input by a separator opens a new, empty piece. */
  lemma SplitAppendSep<T>(xs: seq<T>, x: T, seps: set<T>)
    requires x in seps
    ensures SplitBy(xs + [x], seps) == SplitBy(xs, seps) + [[]]
    ensures Filter(xs + [x], seps) == Filter(xs, seps) + [x]
  {
    assert (xs + [x])[..|xs|] == xs;
  }

  /** Extending the input by a non-separator extends the last piece. */
  lemma SplitAppendOther<T>(xs: seq<T>, x: T, seps: set<T>)
    requires x !in seps
    ensures var p := SplitBy(xs, seps);
            SplitBy(xs + [x], seps) == p[..|p| - 1] + [p[|p| - 1] + [x]]
    ensures Filter(xs + [x], seps) == Filter(xs, seps)
  {
    assert (xs + [x])[..|xs|] == xs;
  }

  /** The first piece is the longest separator-free prefix: it is followed by a
      separator, or it is the whole input and the only piece. */
  lemma {:induction false} SplitFirst<T>(xs: seq<T>, seps: set<T>)
    ensures var p := SplitBy(xs, seps);
      && p[0] <= xs
      && (|p[0]| < |xs| ==> xs[|p[0]|] in seps)
      && (|p[0]| == |xs| <==> |p| == 1)
    decreases |xs|
  {
    if |xs| > 0 {
      var init := xs[..|xs| - 1];
      var x := xs[|xs| - 1];
      assert xs == init + [x];
      SplitFirst(init, seps);
      var p := SplitBy(init, seps);
      if x in seps {
        SplitAppendSep(init, x, seps);
      } else {
        SplitAppendOther(init, x, seps);
        if |p| == 1 {
          assert p[0] == init;
        }
      }
    }
  }

  /** Every element of a weave comes from a piece or from the separators between them. */
  lemma {:induction false} WeaveElements<T>(pieces: seq<seq<T>>, between: seq<T>, x: T)
    requires |pieces| == |between| + 1 && x in Weave(pieces, between)
    ensures x in between || exists i :: 0 <= i < |pieces| && x in pieces[i]
    decreases |between|
  {
    if |between| > 0 {
      var p := pieces[..|pieces| - 1];
      var b := between[..|between| - 1];
      var last := pieces[|pieces| - 1];
      if x in Weave(p, b) {
        WeaveElements(p, b, x);
        if exists i :: 0 <= i < |p| && x in p[i] {
          var i :| 0 <= i < |p| && x in p[i];
          assert pieces[i] == p[i];
        } else {
          assert x in between;
        }
      } else if x in last {
        assert x in pieces[|pieces| - 1];
      }
    }
  }
}
