/** The greedy window both tokenizers scan with.

    From a cursor `pos`, the window `rest[pos..offset]` starts as the whole remainder
    and shrinks from the right one character at a time; the first window the grammar's
    classifier accepts is emitted and the cursor jumps to the window's end. So every
    item comes from the LONGEST accepted window anchored at the cursor. The scan stops
    at the end of the text or at the first cursor from which no window is accepted;
    what each grammar does with such a stranded cursor is up to the grammar. */
module Window {
  import opened Results

  /** The end and the item of the longest window `rest[pos..e]`, `pos < e <= off`,
      that `classify` accepts; `None` when it accepts none of them. */
  function Longest<T>(classify: string -> Option<T>, rest: string, pos: nat, off: nat): (r: Option<(nat, T)>)
    requires pos <= off <= |rest|
    ensures r.Some? ==> pos < r.value.0 <= off && classify(rest[pos..r.value.0]) == Some(r.value.1)
    ensures r.Some? ==> forall e :: r.value.0 < e <= off ==> classify(rest[pos..e]).None?
    ensures r.None? <==> forall e :: pos < e <= off ==> classify(rest[pos..e]).None?
    decreases off
  {
    if off <= pos then None
    else match classify(rest[pos..off])
      case Some(item) => Some((off, item))
      case None => Longest(classify, rest, pos, off - 1)
  }

  /** The items emitted from cursor `pos` on, and the cursor where scanning stopped:
      the end of the text, or a cursor from which no window is accepted. */
  function Scan<T>(classify: string -> Option<T>, rest: string, pos: nat): (r: (seq<T>, nat))
    requires pos <= |rest|
    ensures pos <= r.1 <= |rest|
    ensures r.1 < |rest| ==> Longest(classify, rest, r.1, |rest|).None?
    ensures |r.0| <= r.1 - pos
    decreases |rest| - pos
  {
    if pos >= |rest| then ([], pos)
    else match Longest(classify, rest, pos, |rest|)
      case Some((end, item)) =>
        var (items, stop) := Scan(classify, rest, end);
        ([item] + items, stop)
      case None => ([], pos)
  }

  /** The scan stops where it stands at the end of the text or at a stranded cursor. */
  lemma ScanHere<T>(classify: string -> Option<T>, rest: string, pos: nat)
    requires pos <= |rest|
    requires pos == |rest| || Longest(classify, rest, pos, |rest|).None?
    ensures Scan(classify, rest, pos) == ([], pos)
  {
  }

  /** Every item satisfies whatever every accepted window satisfies. */
  lemma {:induction false} ScanItems<T>(classify: string -> Option<T>, ok: T -> bool, rest: string, pos: nat)
    requires pos <= |rest|
    requires forall w :: classify(w).Some? ==> ok(classify(w).value)
    ensures forall i :: 0 <= i < |Scan(classify, rest, pos).0| ==> ok(Scan(classify, rest, pos).0[i])
    decreases |rest| - pos
  {
    if pos < |rest| {
      match Longest(classify, rest, pos, |rest|)
      case Some((end, item)) =>
        ScanItems(classify, ok, rest, end);
        assert ok(item);
      case None =>
    }
  }

  /** Longest match: when the window `rest[pos..e]` is accepted and every longer one is
      rejected, the scan from `pos` emits that window's item and goes on from `e`. */
  lemma ScanLongest<T>(classify: string -> Option<T>, rest: string, pos: nat, e: nat)
    requires pos < e <= |rest|
    requires classify(rest[pos..e]).Some?
    requires forall e' :: e < e' <= |rest| ==> classify(rest[pos..e']).None?
    ensures Scan(classify, rest, pos)
            == ([classify(rest[pos..e]).value] + Scan(classify, rest, e).0, Scan(classify, rest, e).1)
  {
    var l := Longest(classify, rest, pos, |rest|);
    assert l.Some?;
    assert l.value.0 == e;
  }

  // The loop invariant of both tokenizers, and one lemma per loop transition.

  /** Loop state of a tokenizer inside one span: `result` has been emitted, the cursor
      is `pos`, every window longer than `rest[pos..offset]` has been rejected, and the
      scan from the span's start continues as the scan from `pos`. */
  ghost predicate Scanning<T>(classify: string -> Option<T>, rest: string, pos: nat, offset: nat, result: seq<T>)
  {
    && pos <= offset <= |rest|
    && (pos < |rest| ==> Longest(classify, rest, pos, |rest|) == Longest(classify, rest, pos, offset))
    && Scan(classify, rest, 0) == (result + Scan(classify, rest, pos).0, Scan(classify, rest, pos).1)
  }

  lemma ScanningStart<T>(classify: string -> Option<T>, rest: string)
    ensures Scanning(classify, rest, 0, |rest|, [])
  {
    assert [] + Scan(classify, rest, 0).0 == Scan(classify, rest, 0).0;
  }

  /** At the end of the text, or with every window at the cursor rejected, the loop
      has computed the scan. */
  lemma ScanningStop<T>(classify: string -> Option<T>, rest: string, pos: nat, offset: nat, result: seq<T>)
    requires Scanning(classify, rest, pos, offset, result)
    requires pos == |rest| || offset == pos
    ensures Scan(classify, rest, 0) == (result, pos)
  {
    ScanHere(classify, rest, pos);
    assert result + [] == result;
  }

  /** A rejected window: the search goes on with the next shorter one. */
  lemma ScanningReject<T>(classify: string -> Option<T>, rest: string, pos: nat, offset: nat, result: seq<T>)
    requires Scanning(classify, rest, pos, offset, result) && pos < offset
    requires classify(rest[pos..offset]).None?
    ensures Scanning(classify, rest, pos, offset - 1, result)
  {
  }

  /** An accepted window: its item is emitted, the cursor jumps to its end and the
      window is reset to the whole remainder. */
  lemma ScanningAccept<T>(classify: string -> Option<T>, rest: string, pos: nat, offset: nat, result: seq<T>)
    requires Scanning(classify, rest, pos, offset, result) && pos < offset
    requires classify(rest[pos..offset]).Some?
    ensures Scanning(classify, rest, offset, |rest|, result + [classify(rest[pos..offset]).value])
  {
    var item := classify(rest[pos..offset]).value;
    var tail := Scan(classify, rest, offset).0;
    assert Scan(classify, rest, pos).0 == [item] + tail;
    assert result + ([item] + tail) == (result + [item]) + tail;
  }

  /** The scanning loop shared by both tokenizers: a cursor `pos` and a window end
      `offset` that starts at the end of the input and shrinks one character at a time
      until the window is accepted; an accepted window moves the cursor to its end and
      resets `offset`. The loop stops at the end of the input, when the window has
      shrunk to nothing at the cursor, or when `offset` reaches zero. */
  method GreedyScan<T>(classify: string -> Option<T>, rest: string) returns (result: seq<T>, stop: nat)
    ensures (result, stop) == Scan(classify, rest, 0)
  {
    result := [];
    var length: nat := |rest|;
    var pos: nat := 0;
    var offset: nat := length;
    ScanningStart(classify, rest);
    while offset >= 1
      invariant Scanning(classify, rest, pos, offset, result)
      invariant offset == 0 ==> pos == 0
      decreases length - pos, offset
    {
      if pos >= length || offset - pos <= 0 {
        break;
      }
      ghost var end := offset;
      var item := classify(rest[pos..offset]);
      offset := offset - 1;
      if item.Some? {
        ScanningAccept(classify, rest, pos, end, result);
        result := result + [item.value];
      } else {
        ScanningReject(classify, rest, pos, end, result);
        continue;
      }
      pos := offset + 1;
      offset := length;
      assert pos == end;
    }
    ScanningStop(classify, rest, pos, offset, result);
    return result, pos;
  }
}
