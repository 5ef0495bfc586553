/**
 What the packet-number-indexed queue holds after any sequence of operations, told from
 the operations alone (congestion_meta2/packet_number_indexed_queue.go:54-139).
 */
module QueueHistory {
  import opened Wrappers
  import opened PacketQueues

  datatype Op<T> = Emplace(packetNumber: nat, entry: T) | Remove(packetNumber: nat) | RemoveUpTo(leastKept: int)

  function Apply<T>(v: View<T>, op: Op<T>): View<T> {
    match op
    case Emplace(p, entry) => EmplaceView(v, p, entry)
    case Remove(p) => RemoveView(v, p)
    case RemoveUpTo(p) => RemoveUpToView(v, p)
  }

  function Run<T>(ops: seq<Op<T>>): View<T> {
    if ops == [] then EmptyView() else Apply(Run(ops[..|ops| - 1]), ops[|ops| - 1])
  }

  /** The operation takes packet number p out of a queue that holds it. */
  predicate Deletes<T>(op: Op<T>, p: int) {
    match op
    case Emplace(_, _) => false
    case Remove(q) => p == q
    case RemoveUpTo(q) => p < q
  }

  /** Operation i is an insertion, and the queue takes it. */
  ghost predicate Inserted<T>(ops: seq<Op<T>>, i: nat) {
    i < |ops| && ops[i].Emplace? && Accepts(Run(ops[..i]), ops[i].packetNumber)
  }

  /** Operation i inserts p, and no later operation deletes it. */
  ghost predicate Survives<T>(ops: seq<Op<T>>, p: int, i: nat) {
    && Inserted(ops, i)
    && ops[i].packetNumber == p
    && forall k :: i < k < |ops| ==> !Deletes(ops[k], p)
  }

  lemma {:induction false} RunPrefix<T>(ops: seq<Op<T>>, op: Op<T>)
    ensures Run(ops + [op]) == Apply(Run(ops), op)
  {
    assert (ops + [op])[..|ops|] == ops;
  }

  lemma {:induction false} ExtendInserted<T>(ops: seq<Op<T>>, op: Op<T>, i: nat)
    requires i <= |ops|
    ensures Inserted(ops + [op], i) <==> if i < |ops| then Inserted(ops, i)
                                         else op.Emplace? && Accepts(Run(ops), op.packetNumber)
  {
    assert (ops + [op])[..i] == ops[..i];
    assert ops[..|ops|] == ops;
  }

  /** No entry is numbered above the last one, so an accepted number is never live already. */
  lemma {:induction false} LastIsHighest<T>(ops: seq<Op<T>>)
    ensures forall p :: p in Run(ops).live ==> 0 <= p <= Run(ops).last
    ensures Run(ops).last == INVALID_PACKET_NUMBER <==> Run(ops).live == map[]
  {
    if ops != [] {
      LastIsHighest(ops[..|ops| - 1]);
      var op := ops[|ops| - 1];
      if op.Emplace? {
        assert op.packetNumber in Run(ops[..|ops| - 1]).live[op.packetNumber := op.entry];
      }
    }
  }

  /** A lookup finds exactly the surviving insertion: live entries are the ones put in and not taken out. */
  lemma {:induction false} LiveIsInsertedAndKept<T>(ops: seq<Op<T>>, p: int)
    ensures p in Run(ops).live <==> exists i: nat :: Survives(ops, p, i)
    ensures forall i: nat :: Survives(ops, p, i) ==> Lookup(Run(ops), p) == Some(ops[i].entry)
    decreases |ops|
  {
    if ops != [] {
      var init, op := ops[..|ops| - 1], ops[|ops| - 1];
      assert ops == init + [op];
      LiveIsInsertedAndKept(init, p);
      LastIsHighest(init);
      RunPrefix(init, op);
      forall i: nat | i <= |init|
        ensures Survives(ops, p, i) <==>
          if i < |init| then Survives(init, p, i) && !Deletes(op, p)
          else op.Emplace? && op.packetNumber == p && Accepts(Run(init), p)
      {
        ExtendInserted(init, op, i);
        if i < |init| { SurvivesExtended(init, op, p, i); }
      }
      if p in Run(ops).live {
        if p in Run(init).live {
          var i: nat :| Survives(init, p, i);
          assert Survives(ops, p, i);
        } else {
          assert Survives(ops, p, |init|);
        }
      }
    }
  }

  lemma {:induction false} SurvivesExtended<T>(ops: seq<Op<T>>, op: Op<T>, p: int, i: nat)
    requires i < |ops|
    ensures Survives(ops + [op], p, i) <==> Survives(ops, p, i) && !Deletes(op, p)
  {
    ExtendInserted(ops, op, i);
    assert (ops + [op])[|ops|] == op;
    if Survives(ops + [op], p, i) {
      forall k | i < k < |ops| ensures !Deletes(ops[k], p) {
        assert (ops + [op])[k] == ops[k];
      }
    }
  }

  /**
   The threshold for insertion is the last accepted number since the queue was last empty:
   a non-empty queue's last accepted insertion carries that number.
   */
  lemma {:induction false} LastIsLatestInsertion<T>(ops: seq<Op<T>>) returns (i: nat)
    requires Run(ops).live != map[]
    ensures Inserted(ops, i) && ops[i].packetNumber == Run(ops).last
    ensures forall j: nat :: j > i ==> !Inserted(ops, j)
    ensures forall n :: i < n <= |ops| ==> Run(ops[..n]).live != map[]
    decreases |ops|
  {
    var init, op := ops[..|ops| - 1], ops[|ops| - 1];
    assert ops == init + [op];
    RunPrefix(init, op);
    assert ops[..|ops|] == ops;
    ExtendInserted(init, op, |init|);
    if Inserted(ops, |init|) {
      i := |init|;
    } else {
      i := LastIsLatestInsertion(init);
      ExtendInserted(init, op, i);
      forall j: nat | j > i ensures !Inserted(ops, j) {
        if j < |init| { ExtendInserted(init, op, j); }
      }
      forall n | i < n <= |ops| ensures Run(ops[..n]).live != map[] {
        if n < |ops| { assert ops[..n] == init[..n]; }
      }
    }
  }
}
