/**
 What a flush of the staging manager does to each byte, who sees what afterwards, which of its barriers are needed,
 and what it leaves behind where it stops.
 */
module StagingMeaning {
  import opened DiscardPool
  import opened Staging

  // ---------------------------------------------------------------- byte by byte

  /** The operation writes byte i of buffer b. */
  predicate Writes(op: Operation, b: nat, i: nat) {
    op.dst == b && i < |op.data|
  }

  /** Operation k is the last of the list to write byte i of buffer b. */
  ghost predicate LastWriter(ops: seq<Operation>, b: nat, i: nat, k: nat) {
    k < |ops| && Writes(ops[k], b, i) && forall j: nat | k < j < |ops| :: !Writes(ops[j], b, i)
  }

  ghost predicate Unwritten(ops: seq<Operation>, b: nat, i: nat) {
    forall k: nat | k < |ops| :: !Writes(ops[k], b, i)
  }

  /** `now` is what the operations make of the bytes `was` of buffer b. */
  ghost predicate BytesWritten(was: Bytes, now: Bytes, ops: seq<Operation>, b: nat) {
    && LongEnough(was, now, ops, b)
    && (|now| == |was| || exists k: nat :: k < |ops| && ops[k].dst == b && |ops[k].data| == |now|)
    && forall i: nat | i < |now| ::
         && (Unwritten(ops, b, i) ==> i < |was| && now[i] == was[i])
         && (forall k: nat | LastWriter(ops, b, i, k) :: now[i] == ops[k].data[i])
  }

  ghost predicate LongEnough(was: Bytes, now: Bytes, ops: seq<Operation>, b: nat) {
    |was| <= |now| && forall k: nat | k < |ops| && ops[k].dst == b :: |ops[k].data| <= |now|
  }

  lemma OverlayBytes(was: Bytes, data: Bytes, i: nat)
    ensures |Overlay(was, data)| == if |data| <= |was| then |was| else |data|
    ensures i < |Overlay(was, data)| ==> Overlay(was, data)[i] == if i < |data| then data[i] else was[i]
  {
  }

  lemma {:induction false} LayeredLength(was: Bytes, ops: seq<Operation>, b: nat)
    ensures LongEnough(was, Layered(was, ops, b), ops, b)
    ensures |Layered(was, ops, b)| == |was|
         || exists k: nat :: k < |ops| && ops[k].dst == b && |ops[k].data| == |Layered(was, ops, b)|
    decreases |ops|
  {
    if ops != [] {
      var next := if ops[0].dst == b then Overlay(was, ops[0].data) else was;
      OverlayBytes(was, ops[0].data, 0);
      LayeredLength(next, ops[1..], b);
      var now := Layered(was, ops, b);
      forall k: nat | k < |ops| && ops[k].dst == b ensures |ops[k].data| <= |now| {
        if k > 0 { assert ops[k] == ops[1..][k - 1]; }
      }
      if |now| != |was| && |now| != |next| {
        var k: nat :| k < |ops[1..]| && ops[1..][k].dst == b && |ops[1..][k].data| == |now|;
        assert ops[k + 1] == ops[1..][k];
      }
    }
  }

  lemma {:induction false} LayeredByte(was: Bytes, ops: seq<Operation>, b: nat, i: nat)
    requires i < |Layered(was, ops, b)|
    ensures Unwritten(ops, b, i) ==> i < |was| && Layered(was, ops, b)[i] == was[i]
    ensures forall k: nat | LastWriter(ops, b, i, k) :: Layered(was, ops, b)[i] == ops[k].data[i]
    decreases |ops|
  {
    if ops != [] {
      var next := if ops[0].dst == b then Overlay(was, ops[0].data) else was;
      var now := Layered(was, ops, b);
      OverlayBytes(was, ops[0].data, i);
      LayeredByte(next, ops[1..], b, i);
      assert forall k: nat | k < |ops| - 1 :: ops[1..][k] == ops[k + 1];
      forall k: nat | LastWriter(ops, b, i, k) ensures now[i] == ops[k].data[i] {
        if k > 0 {
          assert LastWriter(ops[1..], b, i, k - 1);
        } else {
          assert Unwritten(ops[1..], b, i);
        }
      }
    }
  }

  /**
   The flush, byte by byte, for every buffer that existed before it: its length never shrinks and grows only to fit
   some operation's data; each byte is the one the last operation that reaches it gives it, and a byte that none
   reaches is what it was.
   */
  lemma FlushWritesBytes(r: Recording, ops: seq<Operation>, order: seq<nat>, m: Memory, b: nat)
    requires Flushed(r, ops, order).0.Done? && Below(ops, r.next) && b < r.next
    requires m.contents == StageAll(r, ops).1.contents
    ensures BytesWritten(At(r.contents, b), At(ExecuteAll(m, Stream(r, ops, order)).contents, b), ops, b)
  {
    FlushContents(r, ops, order, m, b);
    ApplyLayers(r.contents, ops, b);
    var was := At(r.contents, b);
    LayeredLength(was, ops, b);
    forall i: nat | i < |Layered(was, ops, b)|
      ensures Unwritten(ops, b, i) ==> i < |was| && Layered(was, ops, b)[i] == was[i]
      ensures forall k: nat | LastWriter(ops, b, i, k) :: Layered(was, ops, b)[i] == ops[k].data[i]
    {
      LayeredByte(was, ops, b, i);
    }
  }

  // ---------------------------------------------------------------- every barrier is needed

  lemma {:induction false} EmittedSplit(ops: seq<Operation>, next: nat, k: nat)
    requires k < |ops|
    ensures |Emitted(ops, next)| == 2 * |ops|
    ensures Emitted(ops, next)[..2 * k] == Emitted(ops[..k], next)
    ensures Emitted(ops, next)[2 * k] == HostToTransfer(next + k, |ops[k].data|)
    ensures Emitted(ops, next)[2 * k + 1..]
            == [Copy(next + k, ops[k].dst, |ops[k].data|)] + Emitted(ops[k + 1..], next + k + 1)
    decreases |ops|
  {
    EmittedLength(ops, next);
    var pair := [HostToTransfer(next, |ops[0].data|), Copy(next, ops[0].dst, |ops[0].data|)];
    var tail := Emitted(ops[1..], next + 1);
    assert Emitted(ops, next) == pair + tail;
    if k == 0 {
      assert ops[..0] == [];
    } else {
      EmittedSplit(ops[1..], next + 1, k - 1);
      assert ops[1..][..k - 1] == ops[..k][1..] && ops[1..][k..] == ops[k + 1..];
      assert (pair + tail)[..2 * k] == pair + tail[..2 * (k - 1)];
      assert (pair + tail)[2 * k + 1..] == tail[2 * (k - 1) + 1..];
    }
  }

  lemma {:induction false} EmittedLength(ops: seq<Operation>, next: nat)
    ensures |Emitted(ops, next)| == 2 * |ops|
  {
    if ops != [] {
      EmittedLength(ops[1..], next + 1);
    }
  }

  lemma {:induction false} EmittedReadies(m: Memory, ops: seq<Operation>, next: nat, b: nat)
    requires b >= next + |ops|
    ensures var m' := ExecuteAll(m, Emitted(ops, next));
      (b in m'.ready <==> b in m.ready) && (b in m.ready ==> m'.ready[b] == m.ready[b])
    decreases |ops|
  {
    if ops != [] {
      FirstExecutes(m, ops, next);
      EmittedReadies(Written(m, ops[0], next), ops[1..], next + 1, b);
    }
  }

  /** Without its barrier the k-th copy, and it alone, reads data the host's writes were not made visible for. */
  lemma HostBarrierNeeded(m: Memory, ops: seq<Operation>, next: nat, k: nat)
    requires k < |ops| && next + k !in m.ready
    ensures |Emitted(ops, next)| == 2 * |ops|
    ensures ExecuteAll(m, Emitted(ops, next)[..2 * k] + Emitted(ops, next)[2 * k + 1..]).hazards == m.hazards + 1
  {
    EmittedSplit(ops, next, k);
    var copy := Copy(next + k, ops[k].dst, |ops[k].data|);
    var rest := Emitted(ops[k + 1..], next + k + 1);
    ExecuteConcat(m, Emitted(ops[..k], next), [copy] + rest);
    var m1 := ExecuteAll(m, Emitted(ops[..k], next));
    EmittedSafe(m, ops[..k], next);
    EmittedReadies(m, ops[..k], next, next + k);
    assert ([copy] + rest)[1..] == rest;
    EmittedSafe(Execute(m1, copy), ops[k + 1..], next + k + 1);
  }

  // ---------------------------------------------------------------- who sees what afterwards

  /** A reader of a buffer: the buffer, its stage and access, and how many bytes. */
  type Reader = (nat, nat, nat, nat)

  /** The reader an operation names. */
  function ReaderOf(op: Operation): Reader {
    (op.dst, op.stage, op.access, |op.data|)
  }

  ghost predicate WritesTo(ops: seq<Operation>, b: nat) {
    exists k: nat :: k < |ops| && ops[k].dst == b
  }

  lemma WritesToTail(ops: seq<Operation>, b: nat)
    requires ops != []
    ensures WritesTo(ops, b) <==> ops[0].dst == b || WritesTo(ops[1..], b)
  {
    assert forall k: nat | k < |ops| - 1 :: ops[1..][k] == ops[k + 1];
    if k: nat :| k < |ops| && ops[k].dst == b {
      if k > 0 { assert ops[1..][k - 1].dst == b; }
    }
  }

  lemma {:induction false} EmittedHides(m: Memory, ops: seq<Operation>, next: nat, v: Reader)
    ensures v in ExecuteAll(m, Emitted(ops, next)).visible <==> v in m.visible && !WritesTo(ops, v.0)
    decreases |ops|
  {
    if ops != [] {
      FirstExecutes(m, ops, next);
      EmittedHides(Written(m, ops[0], next), ops[1..], next + 1, v);
      WritesToTail(ops, v.0);
    }
  }

  ghost predicate Shown(barriers: map<nat, seq<Barrier>>, v: Reader) {
    v.1 in barriers && Barrier(v.0, v.2, v.3) in barriers[v.1]
  }

  lemma {:induction false} GroupedShowsExactly(m: Memory, barriers: map<nat, seq<Barrier>>, order: seq<nat>, v: Reader)
    ensures v in ExecuteAll(m, Grouped(barriers, order)).visible <==>
              v in m.visible || (v.1 in order && Shown(barriers, v))
    decreases |order|
  {
    if order != [] {
      var tail := Grouped(barriers, order[1..]);
      if order[0] in barriers && barriers[order[0]] != [] {
        var command := TransferToStage(order[0], barriers[order[0]]);
        assert ([command] + tail)[1..] == tail;
        GroupedShowsExactly(Execute(m, command), barriers, order[1..], v);
        var group := barriers[order[0]];
        assert v in Execute(m, command).visible <==> v in m.visible || (v.1 == order[0] && Shown(barriers, v)) by {
          if v.1 == order[0] && Shown(barriers, v) {
            var i: nat :| i < |group| && group[i] == Barrier(v.0, v.2, v.3);
          }
        }
      } else {
        assert [] + tail == tail;
        GroupedShowsExactly(m, barriers, order[1..], v);
      }
    }
  }

  ghost predicate Names(ops: seq<Operation>, v: Reader) {
    exists k: nat :: k < |ops| && ReaderOf(ops[k]) == v
  }

  lemma {:induction false} NeededExactly(ops: seq<Operation>, v: Reader)
    ensures Barrier(v.0, v.2, v.3) in Needed(ops, v.1) <==> Names(ops, v)
  {
    if ops != [] {
      NeededExactly(ops[1..], v);
      assert forall k: nat | k < |ops| - 1 :: ops[1..][k] == ops[k + 1];
      if k: nat :| k < |ops| && ReaderOf(ops[k]) == v {
        if k > 0 { assert ReaderOf(ops[1..][k - 1]) == v; }
      }
      if Names(ops[1..], v) {
        var k: nat :| k < |ops[1..]| && ReaderOf(ops[1..][k]) == v;
        assert ReaderOf(ops[k + 1]) == v;
      }
    }
  }

  /**
   Who sees a buffer's bytes after the flush: exactly the readers its operations name, and those that saw a buffer
   before which no operation wrote. No visibility is granted beyond that, and none survives a later copy.
   */
  lemma FlushShowsExactly(r: Recording, ops: seq<Operation>, order: seq<nat>, m: Memory, v: Reader)
    requires StageAll(r, ops).0.Done? && NothingPending(r.barriers) && Iterates(order, r.barriers)
    ensures v in ExecuteAll(m, Stream(r, ops, order)).visible <==>
              Names(ops, v) || (v in m.visible && !WritesTo(ops, v.0))
  {
    var barriers := StageAll(r, ops).1.barriers;
    ExecuteConcat(m, Emitted(ops, r.next), Grouped(barriers, order));
    EmittedHides(m, ops, r.next, v);
    GroupedShowsExactly(ExecuteAll(m, Emitted(ops, r.next)), barriers, order, v);
    ShownExactly(r, ops, order, v);
  }

  /** The groups hold exactly the barriers of the readers the operations name. */
  lemma ShownExactly(r: Recording, ops: seq<Operation>, order: seq<nat>, v: Reader)
    requires StageAll(r, ops).0.Done? && NothingPending(r.barriers) && Iterates(order, r.barriers)
    ensures v.1 in order && Shown(StageAll(r, ops).1.barriers, v) <==> Names(ops, v)
  {
    StagedBarriers(r, ops, v.1);
    NeededExactly(ops, v);
    NamedIsKnown(r, ops, v);
    if v.1 in r.barriers {
      assert r.barriers[v.1] + Needed(ops, v.1) == Needed(ops, v.1);
    }
  }

  lemma NamedIsKnown(r: Recording, ops: seq<Operation>, v: Reader)
    requires StageAll(r, ops).0.Done?
    ensures Names(ops, v) ==> v.1 in r.barriers
  {
    StagesExactly(r, ops);
    if k: nat :| k < |ops| && ReaderOf(ops[k]) == v {
      assert Accepted(r, ops[k]);
    }
  }

  // ---------------------------------------------------------------- what a later copy may overwrite

  /** The operation's own barrier orders its copy before later ones: its stage covers transfers, its access writes. */
  predicate Ordering(op: Operation) {
    (op.stage == 4096 || op.stage == 65536) && ((op.access / 4096) % 2 == 1 || (op.access / 65536) % 2 == 1)
  }

  lemma {:induction false} EmittedUnorders(m: Memory, ops: seq<Operation>, next: nat, b: nat)
    ensures b in ExecuteAll(m, Emitted(ops, next)).unordered <==> b in m.unordered || WritesTo(ops, b)
    decreases |ops|
  {
    if ops != [] {
      FirstExecutes(m, ops, next);
      EmittedUnorders(Written(m, ops[0], next), ops[1..], next + 1, b);
      WritesToTail(ops, b);
    }
  }

  /** Some group holds a barrier on b that orders copies. */
  ghost predicate Ordered(barriers: map<nat, seq<Barrier>>, order: seq<nat>, b: nat) {
    exists stage: nat, access: nat, size: nat ::
      stage in order && OrdersCopies(stage, access) && Shown(barriers, (b, stage, access, size))
  }

  lemma OneGroupOrders(m: Memory, stage: nat, group: seq<Barrier>, b: nat)
    ensures b in Execute(m, TransferToStage(stage, group)).unordered <==>
              b in m.unordered && !(exists x | x in group :: x.buffer == b && OrdersCopies(stage, x.access))
  {
  }

  lemma {:induction false} GroupedOrders(m: Memory, barriers: map<nat, seq<Barrier>>, order: seq<nat>, b: nat)
    ensures b in ExecuteAll(m, Grouped(barriers, order)).unordered <==>
              b in m.unordered && !Ordered(barriers, order, b)
    decreases |order|
  {
    if order != [] {
      var tail := Grouped(barriers, order[1..]);
      OrderedTail(barriers, order, b);
      if order[0] in barriers && barriers[order[0]] != [] {
        var command := TransferToStage(order[0], barriers[order[0]]);
        assert ([command] + tail)[1..] == tail;
        OneGroupOrders(m, order[0], barriers[order[0]], b);
        GroupedOrders(Execute(m, command), barriers, order[1..], b);
      } else {
        assert [] + tail == tail;
        GroupedOrders(m, barriers, order[1..], b);
      }
    }
  }

  lemma OrderedTail(barriers: map<nat, seq<Barrier>>, order: seq<nat>, b: nat)
    requires order != []
    ensures Ordered(barriers, order, b) <==>
      || Ordered(barriers, order[1..], b)
      || (order[0] in barriers
          && exists x | x in barriers[order[0]] :: x.buffer == b && OrdersCopies(order[0], x.access))
  {
    if stage: nat, access: nat, size: nat :|
        stage in order && OrdersCopies(stage, access) && Shown(barriers, (b, stage, access, size)) {
      if stage !in order[1..] {
        assert stage == order[0] && Barrier(b, access, size) in barriers[stage];
      }
    }
    if order[0] in barriers {
      if x :| x in barriers[order[0]] && x.buffer == b && OrdersCopies(order[0], x.access) {
        assert Shown(barriers, (b, order[0], x.access, x.size));
      }
    }
  }

  /**
   A flush leaves a buffer open to being overwritten out of order by the next one exactly if some copy to it, of
   this flush or before, is not ordered by a barrier of this flush. The copies of one flush may share a barrier.
   */
  lemma FlushOrdersExactly(r: Recording, ops: seq<Operation>, order: seq<nat>, m: Memory, b: nat)
    requires StageAll(r, ops).0.Done? && NothingPending(r.barriers) && Iterates(order, r.barriers)
    ensures b in ExecuteAll(m, Stream(r, ops, order)).unordered <==>
              && (b in m.unordered || WritesTo(ops, b))
              && forall k: nat | k < |ops| && ops[k].dst == b :: !Ordering(ops[k])
  {
    var barriers := StageAll(r, ops).1.barriers;
    ExecuteConcat(m, Emitted(ops, r.next), Grouped(barriers, order));
    EmittedUnorders(m, ops, r.next, b);
    GroupedOrders(ExecuteAll(m, Emitted(ops, r.next)), barriers, order, b);
    if k: nat :| k < |ops| && ops[k].dst == b && Ordering(ops[k]) {
      ShownExactly(r, ops, order, ReaderOf(ops[k]));
    }
    if stage: nat, access: nat, size: nat :|
        stage in order && OrdersCopies(stage, access) && Shown(barriers, (b, stage, access, size)) {
      ShownExactly(r, ops, order, (b, stage, access, size));
      var k: nat :| k < |ops| && ReaderOf(ops[k]) == (b, stage, access, size);
      assert Ordering(ops[k]);
    }
  }

  // ---------------------------------------------------------------- where a flush stops

  /** The first k operations are recorded, the next one is not. */
  ghost predicate StopsAt(r: Recording, ops: seq<Operation>, k: nat) {
    && k < |ops| && k <= r.budget && (forall i: nat | i < k :: Accepted(r, ops[i]))
    && (k == r.budget || !Accepted(r, ops[k]))
  }

  /**
   A flush that does not come to its end stops at the first operation that cannot be recorded. It exits without a
   trace of that operation if there is no memory for it or its id is taken, except that the buffer which was made
   for a taken id is used up; it throws if the stage is unknown, and then the copy is recorded without the barrier
   that would make it visible, and the staging buffer stays in the map.
   */
  lemma FlushStops(r: Recording, ops: seq<Operation>, k: nat)
    requires StopsAt(r, ops, k)
    ensures var (status, r') := StageAll(r, ops);
      var taken := ops[k].id in r.buffers;
      && status == (if k == r.budget || taken then Exited else Thrown)
      && r'.commands == r.commands + Emitted(ops[..if status.Thrown? then k + 1 else k], r.next)
      && r'.discarded == r.discarded + Discards(r.timeline, r.next, k)
      && r'.buffers == (if status.Thrown? then r.buffers[ops[k].id := r.next + k] else r.buffers)
      && r'.next == r.next + k + (if k == r.budget then 0 else 1)
      && r'.budget == r.budget - k - (if k == r.budget then 0 else 1)
  {
    var r1 := StageAll(r, ops[..k]).1;
    StopsAfter(r, ops, k);
    StagedCommands(r, ops[..k]);
    StagedBarriers(r, ops[..k], ops[k].stage);
    LastPair(r1, ops[k]);
    EmittedNext(ops, r.next, k);
    AppendTwice(r.commands, Emitted(ops[..k], r.next), [HostToTransfer(r1.next, |ops[k].data|),
                Copy(r1.next, ops[k].dst, |ops[k].data|)]);
  }

  /** What the operation that stops a flush has recorded. */
  lemma LastPair(r: Recording, op: Operation)
    ensures var (status, r') := Stage(r, op);
      !status.Done? ==>
        && r'.commands == r.commands + (if status.Thrown? then
             [HostToTransfer(r.next, |op.data|), Copy(r.next, op.dst, |op.data|)] else [])
        && r'.discarded == r.discarded
        && r'.buffers == (if status.Thrown? then r.buffers[op.id := r.next] else r.buffers)
  {
  }

  lemma {:induction false} EmittedNext(ops: seq<Operation>, next: nat, k: nat)
    requires k < |ops|
    ensures Emitted(ops[..k + 1], next)
            == Emitted(ops[..k], next)
               + [HostToTransfer(next + k, |ops[k].data|), Copy(next + k, ops[k].dst, |ops[k].data|)]
    decreases k
  {
    if k == 0 {
      assert ops[..1] == [ops[0]] && ops[..1][1..] == [];
    } else {
      EmittedNext(ops[1..], next + 1, k - 1);
      assert ops[..k + 1][1..] == ops[1..][..k] && ops[..k][1..] == ops[1..][..k - 1];
    }
  }

  lemma {:induction false} StopsAfter(r: Recording, ops: seq<Operation>, k: nat)
    requires StopsAt(r, ops, k)
    ensures StageAll(r, ops[..k]).0.Done? && StageAll(r, ops) == Stage(StageAll(r, ops[..k]).1, ops[k])
    decreases |ops|
  {
    var r1 := Stage(r, ops[0]).1;
    if k == 0 {
      assert ops[..0] == [];
    } else {
      assert Accepted(r, ops[0]);
      assert forall op: Operation :: Accepted(r1, op) <==> Accepted(r, op);
      assert forall i: nat | i < |ops| - 1 :: ops[1..][i] == ops[i + 1];
      StopsAfter(r1, ops[1..], k - 1);
      assert ops[..k][0] == ops[0] && ops[..k][1..] == ops[1..][..k - 1];
    }
  }

  /** It stops somewhere exactly if it does not come to its end. */
  lemma {:induction false} StopsExactly(r: Recording, ops: seq<Operation>)
    ensures (exists k: nat :: StopsAt(r, ops, k)) <==> !StageAll(r, ops).0.Done?
    decreases |ops|
  {
    if k: nat :| StopsAt(r, ops, k) {
      FlushStops(r, ops, k);
    } else if ops != [] {
      var (status, r1) := Stage(r, ops[0]);
      if !status.Done? {
        assert StopsAt(r, ops, 0);
      } else {
        assert forall op: Operation :: Accepted(r1, op) <==> Accepted(r, op);
        assert forall i: nat | i < |ops| - 1 :: ops[1..][i] == ops[i + 1];
        forall k: nat ensures !StopsAt(r1, ops[1..], k) {
          if StopsAt(r1, ops[1..], k) {
            assert StopsAt(r, ops, k + 1);
          }
        }
        StopsExactly(r1, ops[1..]);
      }
    }
  }

  // ---------------------------------------------------------------- the table of stages

  function Bit(i: nat): nat {
    if i == 0 then 1 else 2 * Bit(i - 1)
  }

  /** The table has the stages of the seventeen lowest bits, and no other. */
  lemma StagesAreBits(i: nat)
    requires i < 17
    ensures |STAGES| == 17 && STAGES[i] == Bit(i)
    decreases i
  {
    if i > 0 {
      StagesAreBits(i - 1);
      assert STAGES[i] == 2 * STAGES[i - 1];
    }
  }
}
