/** The pool's streaming readers, as generators: one call of Next is one resumption. */
module Streams {
  import opened TaskStates
  import opened Retry
  import opened WorkItems
  import opened Consumers

  /** What one resumption gives. */
  datatype Step = Yields(value: Value) | Stops | Raises(error: PoolError)

  /** The values that have completed and are not among the first n of the input. */
  function HeldFrom(m: map<nat, Value>, n: nat): map<nat, Value> {
    map i | i in m && i >= n :: m[i]
  }

  /** out is the longest run of consecutive values from index 0 that m holds. */
  ghost predicate MaximalPrefix(out: seq<Value>, m: map<nat, Value>) {
    && (forall j :: 0 <= j < |out| ==> j in m && m[j] == out[j])
    && |out| !in m
  }

  /** The completions us are split between what was emitted, a prefix of the input, and what is held,
      which is all of the rest. */
  ghost predicate Balanced(us: seq<Item>, held: map<nat, Value>, emitted: seq<Value>) {
    && AllSucceed(us)
    && held == HeldFrom(Completed(us), |emitted|)
    && forall j :: 0 <= j < |emitted| ==> j in Completed(us) && Completed(us)[j] == emitted[j]
  }

  lemma EmittingBalances(us: seq<Item>, held: map<nat, Value>, emitted: seq<Value>)
    requires Balanced(us, held, emitted) && |emitted| in held
    ensures Balanced(us, held - {|emitted|}, emitted + [held[|emitted|]])
  {
  }

  lemma {:induction false} HoldingBalances(us: seq<Item>, it: Item, held: map<nat, Value>, emitted: seq<Value>)
    requires Balanced(us, held, emitted) && |emitted| !in held
    requires Succeeds(it) && forall k :: 0 <= k < |us| ==> us[k].index != it.index
    ensures |emitted| !in Completed(us)
    ensures Balanced(us + [it], held[it.index := it.value.value], emitted)
  {
    CompletedSnoc(us, it);
    NewIndexIsMissing(us, it.index);
    assert it.index >= |emitted|;
    HeldGrows(Completed(us), |emitted|, it.index, it.value.value);
    assert AllSucceed(us + [it]);
  }

  lemma {:induction false} NewIndexIsMissing(us: seq<Item>, i: nat)
    requires forall k :: 0 <= k < |us| ==> us[k].index != i
    ensures i !in Completed(us)
  {
    OnlySuccessesComplete(us);
    assert CompletedBy(us, i) ==> false;
  }

  lemma HeldGrows(m: map<nat, Value>, n: nat, i: nat, v: Value)
    requires i >= n
    ensures HeldFrom(m[i := v], n) == HeldFrom(m, n)[i := v]
  {
  }

  /** imap: results in input order, as soon as everything before them has completed. */
  class OrderedStream {
    const ws: seq<Item>
    const end: End
    var pulled: nat
    var held: map<nat, Value>
    var nextIndex: nat
    var suspended: bool
    var finished: bool
    ghost var emitted: seq<Value>

    ghost predicate Valid()
      reads this
    {
      && Promised(ws, end)
      && pulled <= |ws|
      && (!finished ==>
            && |emitted| == nextIndex + (if suspended then 1 else 0)
            && Balanced(ws[..pulled], held, emitted))
    }

    constructor (ws: seq<Item>, end: End)
      requires Promised(ws, end)
      ensures Valid() && this.ws == ws && this.end == end
      ensures emitted == [] && pulled == 0 && !finished
    {
      this.ws, this.end := ws, end;
      pulled, held, nextIndex, suspended, finished, emitted := 0, map[], 0, false, false, [];
    }

    /** Why an error may be raised: the pool was closed; or the completion just pulled failed; or the
        stream ended with it. In the last two cases the longest possible prefix has been yielded. */
    ghost predicate MayRaise(e: PoolError, poolOpen: bool)
      reads this
    {
      || (e == PoolClosed && !poolOpen)
      || (&& 0 < pulled <= |ws| && FirstFailure(ws, pulled - 1)
          && RaisedFor(ws[pulled - 1], e)
          && MaximalPrefix(emitted, Completed(ws[..pulled - 1])))
      || (end == Raising(e) && AllSucceed(ws) && MaximalPrefix(emitted, Completed(ws)))
    }

    /** The stream simply ends only when the whole input was yielded in order. */
    ghost predicate MayStop()
      reads this
    {
      end == Exhausted && AllSucceed(ws) && |emitted| == |ws| && emitted == InOrder(Completed(ws), |ws|)
    }

    /** One resumption, up to the next yield. */
    method Next(poolOpen: bool) returns (r: Step)
      requires Valid()
      modifies this
      ensures Valid()
      ensures old(finished) ==> r == Stops && finished && emitted == old(emitted) && pulled == old(pulled)
      ensures old(pulled) <= pulled
      ensures r.Yields? ==>
                && !finished && emitted == old(emitted) + [r.value]
                && (pulled > old(pulled) ==> |old(emitted)| !in Completed(ws[..pulled - 1]))
      ensures !r.Yields? ==> finished && emitted == old(emitted)
      ensures r.Stops? && !old(finished) ==> MayStop()
      ensures r.Raises? ==> MayRaise(r.error, poolOpen) && r.error != InternalError
      ensures !poolOpen && !old(finished) ==> r == Raises(PoolClosed) && pulled == old(pulled)
    {
      if finished {
        return Stops;
      }
      if suspended {
        nextIndex := nextIndex + 1;
        suspended := false;
      }
      r := Seek(poolOpen);
    }

    /** The loop: while nothing is yielded, the completions pulled lack the next index of the input. */
    method Seek(poolOpen: bool) returns (r: Step)
      requires Valid() && !finished && !suspended
      modifies this
      ensures Valid() && old(pulled) <= pulled
      ensures r.Yields? ==>
                && !finished && emitted == old(emitted) + [r.value]
                && (pulled > old(pulled) ==> |old(emitted)| !in Completed(ws[..pulled - 1]))
      ensures !r.Yields? ==> finished && emitted == old(emitted)
      ensures r.Stops? ==> MayStop()
      ensures r.Raises? ==> MayRaise(r.error, poolOpen) && r.error != InternalError
      ensures !poolOpen ==> r == Raises(PoolClosed) && pulled == old(pulled)
    {
      while true
        invariant Valid() && !finished && !suspended
        invariant old(pulled) <= pulled && emitted == old(emitted)
        invariant pulled > old(pulled) ==> |emitted| !in Completed(ws[..pulled - 1]) && poolOpen
        decreases |ws| - pulled
      {
        if !poolOpen {
          finished := true;
          return Raises(PoolClosed);
        }
        if nextIndex in held {
          var v := Emit();
          return Yields(v);
        }
        if pulled == |ws| {
          break;
        }
        var v := PullCompletion();
        if v.Err? {
          return Raises(v.error);
        }
      }
      r := Finish();
    }

    /** The next value of the input leaves the buffer; the stream is suspended at its yield. */
    method Emit() returns (v: Value)
      requires Valid() && !finished && !suspended && nextIndex in held
      modifies this
      ensures Valid() && !finished && suspended
      ensures pulled == old(pulled) && emitted == old(emitted) + [v]
    {
      v := held[nextIndex];
      EmittingBalances(ws[..pulled], held, emitted);
      held := held - {nextIndex};
      suspended := true;
      emitted := emitted + [v];
    }

    /** Take the next completion: its value is held, a failure ends the stream at once. */
    method PullCompletion() returns (v: Result<Value>)
      requires Valid() && !finished && !suspended && nextIndex !in held && pulled < |ws|
      modifies this
      ensures Valid() && pulled == old(pulled) + 1 && emitted == old(emitted)
      ensures if v.Ok? then ws[pulled - 1].value == Some(v.value) else RaisedFor(ws[pulled - 1], v.error)
      ensures v != Err(InternalError)
      ensures |emitted| !in Completed(ws[..pulled - 1])
      ensures v.Ok? ==> !finished && !suspended
      ensures v.Err? ==>
                finished && FirstFailure(ws, pulled - 1) && MaximalPrefix(emitted, Completed(ws[..pulled - 1]))
    {
      var work := ws[pulled];
      pulled := pulled + 1;
      v := SuccessfulValue(work);
      DefinitiveItemsAreNoInternalErrors(work);
      if v.Err? {
        finished := true;
        return;
      }
      assert ws[..pulled] == ws[..pulled - 1] + [work];
      HoldingBalances(ws[..pulled - 1], work, held, emitted);
      held := held[work.index := v.value];
    }

    /** All completions were pulled, and the next index is not among them. */
    method Finish() returns (r: Step)
      requires Valid() && !finished && !suspended && nextIndex !in held && pulled == |ws|
      modifies this
      ensures Valid() && finished && emitted == old(emitted) && pulled == old(pulled)
      ensures AllSucceed(ws)
      ensures end == Exhausted ==> r == Stops && MayStop()
      ensures end.Raising? ==> r == Raises(end.error) && MaximalPrefix(emitted, Completed(ws))
    {
      assert ws[..pulled] == ws;
      finished := true;
      if end.Raising? {
        return Raises(end.error);
      }
      NothingIsHeldAtTheEnd(ws, emitted);
      if held != map[] {
        return Raises(InternalError);
      }
      return Stops;
    }
  }

  /** When the last completion of a contiguous stream has been pulled and the next index has not
      completed, everything was yielded. */
  lemma {:induction false} NothingIsHeldAtTheEnd(ws: seq<Item>, out: seq<Value>)
    requires Promised(ws, Exhausted) && AllSucceed(ws) && MaximalPrefix(out, Completed(ws))
    ensures |out| == |ws| && out == InOrder(Completed(ws), |ws|)
    ensures HeldFrom(Completed(ws), |out|) == map[]
  {
    EveryIndexCompleted(ws);
    assert |out| <= |ws| || |ws| in Completed(ws);
  }

  /** list(pool.imap(...)): exactly what map returns, and exactly what map raises. */
  method DrainOrdered(ws: seq<Item>, end: End) returns (out: seq<Value>, last: Step)
    requires Promised(ws, end)
    ensures AllSucceed(ws) && end == Exhausted ==> last == Stops && out == InOrder(Completed(ws), |ws|)
    ensures AllSucceed(ws) && end.Raising? ==> last == Raises(end.error) && MaximalPrefix(out, Completed(ws))
    ensures !AllSucceed(ws) ==> exists k: nat ::
              && FirstFailure(ws, k)
              && last.Raises? && RaisedFor(ws[k], last.error)
              && MaximalPrefix(out, Completed(ws[..k]))
  {
    var stream := new OrderedStream(ws, end);
    out := [];
    last := stream.Next(true);
    while last.Yields?
      invariant fresh(stream) && stream.Valid() && stream.ws == ws && stream.end == end
      invariant last.Yields? ==> !stream.finished && stream.emitted == out + [last.value]
      invariant !last.Yields? ==> stream.emitted == out
      invariant last.Stops? ==>
                  end == Exhausted && AllSucceed(ws) && out == InOrder(Completed(ws), |ws|)
      invariant last.Raises? ==>
                  || (&& 0 < stream.pulled && FirstFailure(ws, stream.pulled - 1)
                      && RaisedFor(ws[stream.pulled - 1], last.error)
                      && MaximalPrefix(out, Completed(ws[..stream.pulled - 1])))
                  || (end == Raising(last.error) && AllSucceed(ws) && MaximalPrefix(out, Completed(ws)))
      decreases last.Yields?, |ws| - |out|
    {
      PrefixFits(ws[..stream.pulled], stream.emitted);
      out := out + [last.value];
      last := stream.Next(true);
    }
  }

  /** A prefix of values completed by some items is no longer than the items. */
  lemma {:induction false} PrefixFits(us: seq<Item>, out: seq<Value>)
    requires forall j, k :: 0 <= j < k < |us| ==> us[j].index != us[k].index
    requires AllSucceed(us) && forall j :: 0 <= j < |out| ==> j in Completed(us)
    ensures |out| <= |us|
  {
    CompletedHoldsSuccesses(us);
    AtLeast(Completed(us), |out|);
  }

  lemma {:induction false} AtLeast(m: map<nat, Value>, n: nat)
    requires forall j :: 0 <= j < n ==> j in m
    ensures |m| >= n
  {
    if n > 0 {
      AtLeast(m - {n - 1}, n - 1);
    }
  }

  /** imap_unordered: the values in the order of completion, up to the first item that is no success. */
  method DrainUnordered(ws: seq<Item>, end: End) returns (out: seq<Value>, last: Step)
    requires Promised(ws, end)
    ensures |out| <= |ws| && AllSucceed(ws[..|out|])
    ensures forall k :: 0 <= k < |out| ==> ws[k].value == Some(out[k])
    ensures if |out| < |ws| then FirstFailure(ws, |out|) && last.Raises? && RaisedFor(ws[|out|], last.error)
            else last == (if end.Raising? then Raises(end.error) else Stops)
  {
    out := [];
    while |out| < |ws|
      invariant |out| <= |ws| && AllSucceed(ws[..|out|])
      invariant forall k :: 0 <= k < |out| ==> ws[k].value == Some(out[k])
    {
      var v := SuccessfulValue(ws[|out|]);
      DefinitiveItemsAreNoInternalErrors(ws[|out|]);
      if v.Err? {
        last := Raises(v.error);
        return;
      }
      assert ws[..|out| + 1] == ws[..|out|] + [ws[|out|]];
      out := out + [v.value];
    }
    last := if end.Raising? then Raises(end.error) else Stops;
  }
}
