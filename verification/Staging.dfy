/**
 Uploads: a list of pending operations is compiled into a command stream with barriers.

 Each operation copies host data into a next staging buffer and records a barrier and a copy; the barriers
 that make the destinations visible to their readers are grouped by pipeline stage and recorded at the end,
 in whatever order the table of stages is iterated. The stream is given its meaning by an interpreter over
 buffer contents and visibility.
 */
module Staging {
  import opened DiscardPool

  type Bytes = seq<bv8>

  /** Write data to buffer dst, for readers with this access in this stage, by way of staging buffer id. */
  datatype Operation = Operation(dst: nat, data: Bytes, id: nat, stage: nat, access: nat)

  datatype Barrier = Barrier(buffer: nat, access: nat, size: nat)

  datatype Command =
    | HostToTransfer(buffer: nat, size: nat)
    | Copy(src: nat, dst: nat, size: nat)
    | TransferToStage(stage: nat, barriers: seq<Barrier>)

  /** The seventeen stages of the table, as the bits the Vulkan headers give them. */
  const STAGES: seq<nat> := [0x1, 0x2, 0x4, 0x8, 0x10, 0x20, 0x40, 0x80, 0x100, 0x200, 0x400, 0x800, 0x1000, 0x2000,
    0x4000, 0x8000, 0x10000]

  // ---------------------------------------------------------------- what a command stream means

  /**
   Buffer contents, which buffers' host writes transfers see, and who sees the last write to a buffer. A hazard
   is a copy that reads stale data; an overwrite is a copy to a buffer whose last copy no barrier orders before it.
   */
  datatype Memory = Memory(
    contents: map<nat, Bytes>, ready: map<nat, nat>, visible: set<(nat, nat, nat, nat)>, hazards: nat,
    unordered: set<nat>, overwrites: nat)

  /** The first bytes of a buffer replaced; a copy never runs over the end of a valid destination. */
  function Overlay(was: Bytes, data: Bytes): Bytes {
    if |data| <= |was| then data + was[|data|..] else data
  }

  function Prefix(data: Bytes, size: nat): Bytes {
    if size <= |data| then data[..size] else data
  }

  function At(contents: map<nat, Bytes>, buffer: nat): Bytes {
    if buffer in contents then contents[buffer] else []
  }

  /** A barrier to this stage and access orders an earlier copy before a later one. */
  predicate OrdersCopies(stage: nat, access: nat) {
    (stage == 0x1000 || stage == 0x10000) && ((access / 0x1000) % 2 == 1 || (access / 0x10000) % 2 == 1)
  }

  /**
   A copy needs the host's writes to its source made visible to transfers, and makes the destination
   invisible to everyone until the next barrier. Two copies with no such barrier between them may run in any
   order; the contents given here are those of the recorded order.
   */
  function Execute(m: Memory, c: Command): Memory {
    match c
    case HostToTransfer(buffer, size) => m.(ready := m.ready[buffer := size])
    case Copy(src, dst, size) =>
      m.(contents := m.contents[dst := Overlay(At(m.contents, dst), Prefix(At(m.contents, src), size))],
         visible := (set v | v in m.visible && v.0 != dst),
         hazards := if src in m.ready && m.ready[src] >= size then m.hazards else m.hazards + 1,
         unordered := m.unordered + {dst},
         overwrites := if dst in m.unordered then m.overwrites + 1 else m.overwrites)
    case TransferToStage(stage, barriers) =>
      m.(visible := m.visible +
        (set i: nat | i < |barriers| :: (barriers[i].buffer, stage, barriers[i].access, barriers[i].size)),
        unordered := m.unordered -
          (set i: nat | i < |barriers| && OrdersCopies(stage, barriers[i].access) :: barriers[i].buffer))
  }

  function ExecuteAll(m: Memory, commands: seq<Command>): Memory
    decreases |commands|
  {
    if commands == [] then m else ExecuteAll(Execute(m, commands[0]), commands[1..])
  }

  lemma {:induction false} ExecuteConcat(m: Memory, a: seq<Command>, b: seq<Command>)
    ensures ExecuteAll(m, a + b) == ExecuteAll(ExecuteAll(m, a), b)
    decreases |a|
  {
    if a == [] {
      assert a + b == b;
    } else {
      assert (a + b)[1..] == a[1..] + b;
      ExecuteConcat(Execute(m, a[0]), a[1..], b);
    }
  }

  /** What the operations are for: each in turn overwrites its destination. */
  function Apply(contents: map<nat, Bytes>, ops: seq<Operation>): map<nat, Bytes>
    decreases |ops|
  {
    if ops == [] then contents
    else Apply(contents[ops[0].dst := Overlay(At(contents, ops[0].dst), ops[0].data)], ops[1..])
  }

  // ---------------------------------------------------------------- recording

  datatype Status = Done | Exited | Thrown

  /** The manager, the buffer manager it uses, and the command buffer, while recording. */
  datatype Recording = Recording(
    commands: seq<Command>,
    barriers: map<nat, seq<Barrier>>,      // pending, by stage
    buffers: map<nat, nat>,                // the buffer manager's map from ids to buffers
    contents: map<nat, Bytes>,
    discarded: seq<Stamped<nat>>,
    timeline: nat,
    next: nat,                            // the next buffer to be created
    budget: nat)                           // how many allocations will still succeed

  /**
   One operation. The program exits when the buffer cannot be allocated or its id is taken, and throws when
   the stage is not in the table.
   */
  function Stage(r: Recording, op: Operation): (Status, Recording) {
    if r.budget == 0 then (Exited, r)
    else if op.id in r.buffers then (Exited, r.(next := r.next + 1, budget := r.budget - 1))
    else
      var b, n := r.next, |op.data|;
      var r1 := r.(next := b + 1, budget := r.budget - 1, contents := r.contents[b := op.data],
                   commands := r.commands + [HostToTransfer(b, n), Copy(b, op.dst, n)]);
      if op.stage !in r.barriers then (Thrown, r1.(buffers := r.buffers[op.id := b]))
      else
        (Done, r1.(barriers := r.barriers[op.stage := r.barriers[op.stage] + [Barrier(op.dst, op.access, n)]],
                   discarded := r.discarded + [Stamped(r.timeline, b)]))
  }

  function StageAll(r: Recording, ops: seq<Operation>): (Status, Recording)
    decreases |ops|
  {
    if ops == [] then (Done, r)
    else
      var (status, r') := Stage(r, ops[0]);
      if status.Done? then StageAll(r', ops[1..]) else (status, r')
  }

  /** The grouped barriers, in the order the table is iterated; stages without any are skipped. */
  function Grouped(barriers: map<nat, seq<Barrier>>, order: seq<nat>): seq<Command> {
    if order == [] then []
    else Group(barriers, order[0]) + Grouped(barriers, order[1..])
  }

  function Group(barriers: map<nat, seq<Barrier>>, stage: nat): seq<Command> {
    if stage in barriers && barriers[stage] != [] then [TransferToStage(stage, barriers[stage])] else []
  }

  function Cleared(barriers: map<nat, seq<Barrier>>): map<nat, seq<Barrier>> {
    map stage | stage in barriers :: []
  }

  /** The order is some iteration over the table. */
  ghost predicate Iterates(order: seq<nat>, barriers: map<nat, seq<Barrier>>) {
    && (forall stage: nat :: stage in order <==> stage in barriers)
    && (forall i: nat, j: nat | i < j < |order| :: order[i] != order[j])
  }

  // ---------------------------------------------------------------- when it succeeds, and what it records

  ghost predicate Accepted(r: Recording, op: Operation) {
    op.id !in r.buffers && op.stage in r.barriers
  }

  /** The two commands of each operation, from staging buffers numbered in order. */
  function Emitted(ops: seq<Operation>, next: nat): seq<Command> {
    if ops == [] then []
    else [HostToTransfer(next, |ops[0].data|), Copy(next, ops[0].dst, |ops[0].data|)] + Emitted(ops[1..], next + 1)
  }

  /** The barriers the operations of one stage need, in order. */
  function Needed(ops: seq<Operation>, stage: nat): seq<Barrier> {
    if ops == [] then []
    else
      (if ops[0].stage == stage then [Barrier(ops[0].dst, ops[0].access, |ops[0].data|)] else [])
      + Needed(ops[1..], stage)
  }

  /**
   Recording succeeds exactly when every allocation does, no id is taken and every stage is in the table;
   ids may repeat among the operations themselves, since each staging buffer is discarded at once.
   */
  lemma {:induction false} StagesExactly(r: Recording, ops: seq<Operation>)
    ensures StageAll(r, ops).0.Done? <==> |ops| <= r.budget && forall i: nat | i < |ops| :: Accepted(r, ops[i])
    decreases |ops|
  {
    if ops != [] {
      var (status, r') := Stage(r, ops[0]);
      if status.Done? {
        StagesExactly(r', ops[1..]);
        assert forall op: Operation :: Accepted(r', op) <==> Accepted(r, op);
        assert forall i: nat | 0 < i < |ops| :: ops[i] == ops[1..][i - 1];
      } else {
        assert r.budget > 0 ==> !Accepted(r, ops[0]);
      }
    }
  }

  /** The staging buffers, discarded with the time of the flush. */
  function Discards(timeline: nat, next: nat, n: nat): seq<Stamped<nat>>
    decreases n
  {
    if n == 0 then [] else [Stamped(timeline, next)] + Discards(timeline, next + 1, n - 1)
  }

  /** What it records then, and what it leaves behind. */
  lemma {:induction false} StagedCommands(r: Recording, ops: seq<Operation>)
    requires StageAll(r, ops).0.Done?
    ensures var r' := StageAll(r, ops).1;
      && r'.commands == r.commands + Emitted(ops, r.next)
      && r'.discarded == r.discarded + Discards(r.timeline, r.next, |ops|)
      && r'.buffers == r.buffers && r'.timeline == r.timeline
      && r'.next == r.next + |ops| && r'.budget == r.budget - |ops|
    decreases |ops|
  {
    if ops != [] {
      var r1 := Stage(r, ops[0]).1;
      StagedCommands(r1, ops[1..]);
      assert r1.commands + Emitted(ops[1..], r1.next) == r.commands + Emitted(ops, r.next);
      assert r1.discarded + Discards(r.timeline, r1.next, |ops| - 1)
          == r.discarded + Discards(r.timeline, r.next, |ops|);
    }
  }

  /** Every stage collects the barriers its operations need, in order. */
  lemma {:induction false} StagedBarriers(r: Recording, ops: seq<Operation>, stage: nat)
    requires StageAll(r, ops).0.Done?
    ensures var r' := StageAll(r, ops).1;
      && (stage in r'.barriers <==> stage in r.barriers)
      && (stage in r.barriers ==> r'.barriers[stage] == r.barriers[stage] + Needed(ops, stage))
    decreases |ops|
  {
    if ops != [] {
      var r1 := Stage(r, ops[0]).1;
      StagedBarriers(r1, ops[1..], stage);
      if stage == ops[0].stage {
        var x := Barrier(ops[0].dst, ops[0].access, |ops[0].data|);
        assert r.barriers[stage] + [x] + Needed(ops[1..], stage) == r.barriers[stage] + ([x] + Needed(ops[1..], stage));
      } else {
        assert [] + Needed(ops[1..], stage) == Needed(ops[1..], stage);
      }
    }
  }

  /** Each staging buffer holds its operation's data, and no other buffer is touched by the host. */
  lemma {:induction false} StagedContents(r: Recording, ops: seq<Operation>, b: nat)
    requires StageAll(r, ops).0.Done?
    ensures var r' := StageAll(r, ops).1;
      At(r'.contents, b) == if r.next <= b < r.next + |ops| then ops[b - r.next].data else At(r.contents, b)
    decreases |ops|
  {
    if ops != [] {
      var r1 := Stage(r, ops[0]).1;
      StagedContents(r1, ops[1..], b);
    }
  }

  // ---------------------------------------------------------------- the stream means the operations

  /** The staging buffers from `next` on hold the data of the operations. */
  ghost predicate Loaded(contents: map<nat, Bytes>, ops: seq<Operation>, next: nat) {
    forall i: nat | i < |ops| :: At(contents, next + i) == ops[i].data
  }

  ghost predicate Below(ops: seq<Operation>, next: nat) {
    forall i: nat | i < |ops| :: ops[i].dst < next
  }

  /** The memory after one operation's barrier and copy. */
  function Written(m: Memory, op: Operation, src: nat): Memory {
    Execute(Execute(m, HostToTransfer(src, |op.data|)), Copy(src, op.dst, |op.data|))
  }

  lemma PairExecutes(m: Memory, op: Operation, src: nat, rest: seq<Command>)
    ensures ExecuteAll(m, [HostToTransfer(src, |op.data|), Copy(src, op.dst, |op.data|)] + rest)
            == ExecuteAll(Written(m, op, src), rest)
  {
    var pair := [HostToTransfer(src, |op.data|), Copy(src, op.dst, |op.data|)];
    assert (pair + rest)[1..] == [Copy(src, op.dst, |op.data|)] + rest;
    assert ([Copy(src, op.dst, |op.data|)] + rest)[1..] == rest;
  }

  lemma FirstExecutes(m: Memory, ops: seq<Operation>, next: nat)
    requires ops != []
    ensures ExecuteAll(m, Emitted(ops, next)) == ExecuteAll(Written(m, ops[0], next), Emitted(ops[1..], next + 1))
  {
    PairExecutes(m, ops[0], next, Emitted(ops[1..], next + 1));
  }

  /** One operation, when its staging buffer holds its data. */
  lemma WrittenApplies(m: Memory, op: Operation, src: nat, b: nat)
    requires At(m.contents, src) == op.data
    ensures At(Written(m, op, src).contents, b) ==
      if b == op.dst then Overlay(At(m.contents, b), op.data) else At(m.contents, b)
    ensures Written(m, op, src).hazards == m.hazards
  {
    assert op.data[..|op.data|] == op.data;
  }

  lemma LoadedAfter(m: Memory, ops: seq<Operation>, next: nat, first: nat)
    requires ops != [] && first <= next && Below(ops, first) && Loaded(m.contents, ops, next)
    ensures Below(ops[1..], first) && Loaded(Written(m, ops[0], next).contents, ops[1..], next + 1)
  {
    assert At(m.contents, next + 0) == ops[0].data;
    forall i: nat | i < |ops[1..]|
      ensures At(Written(m, ops[0], next).contents, next + 1 + i) == ops[1..][i].data && ops[1..][i].dst < first
    {
      assert ops[1..][i] == ops[i + 1] && At(m.contents, next + (i + 1)) == ops[i + 1].data;
      WrittenApplies(m, ops[0], next, next + 1 + i);
    }
  }

  /** What becomes of one buffer's bytes. */
  function Layered(was: Bytes, ops: seq<Operation>, b: nat): Bytes
    decreases |ops|
  {
    if ops == [] then was
    else Layered(if ops[0].dst == b then Overlay(was, ops[0].data) else was, ops[1..], b)
  }

  lemma {:induction false} ApplyLayers(contents: map<nat, Bytes>, ops: seq<Operation>, b: nat)
    ensures At(Apply(contents, ops), b) == Layered(At(contents, b), ops, b)
    decreases |ops|
  {
    if ops != [] {
      ApplyLayers(contents[ops[0].dst := Overlay(At(contents, ops[0].dst), ops[0].data)], ops[1..], b);
    }
  }

  lemma {:induction false} EmittedLayers(m: Memory, ops: seq<Operation>, next: nat, first: nat, b: nat)
    requires first <= next && Below(ops, first) && Loaded(m.contents, ops, next) && b < first
    ensures At(ExecuteAll(m, Emitted(ops, next)).contents, b) == Layered(At(m.contents, b), ops, b)
    decreases |ops|
  {
    if ops != [] {
      FirstExecutes(m, ops, next);
      LoadedAfter(m, ops, next, first);
      assert At(m.contents, next + 0) == ops[0].data;
      WrittenApplies(m, ops[0], next, b);
      EmittedLayers(Written(m, ops[0], next), ops[1..], next + 1, first, b);
    }
  }

  /**
   Executing the recorded copies has the effect of applying the operations in order, on every buffer that is
   not a staging buffer.
   */
  lemma EmittedApplies(m: Memory, ops: seq<Operation>, next: nat, first: nat, b: nat, contents: map<nat, Bytes>)
    requires first <= next && Below(ops, first) && Loaded(m.contents, ops, next) && b < first
    requires At(m.contents, b) == At(contents, b)
    ensures At(ExecuteAll(m, Emitted(ops, next)).contents, b) == At(Apply(contents, ops), b)
  {
    EmittedLayers(m, ops, next, first, b);
    ApplyLayers(contents, ops, b);
  }

  /** No recorded copy reads a source the host's writes have not been made visible for. */
  lemma {:induction false} EmittedSafe(m: Memory, ops: seq<Operation>, next: nat)
    ensures ExecuteAll(m, Emitted(ops, next)).hazards == m.hazards
    decreases |ops|
  {
    if ops != [] {
      FirstExecutes(m, ops, next);
      EmittedSafe(Written(m, ops[0], next), ops[1..], next + 1);
    }
  }

  // ---------------------------------------------------------------- when the order of the copies does not matter

  /** No two operations write the same buffer, and none one that an earlier copy may still be writing. */
  ghost predicate Apart(ops: seq<Operation>, unordered: set<nat>) {
    && (forall i: nat, j: nat | i < j < |ops| :: ops[i].dst != ops[j].dst)
    && (forall i: nat | i < |ops| :: ops[i].dst !in unordered)
  }

  lemma ApartTail(ops: seq<Operation>, unordered: set<nat>)
    requires ops != []
    ensures Apart(ops, unordered) <==> ops[0].dst !in unordered && Apart(ops[1..], unordered + {ops[0].dst})
  {
    assert forall i: nat | i < |ops| - 1 :: ops[1..][i] == ops[i + 1];
    if Apart(ops[1..], unordered + {ops[0].dst}) && ops[0].dst !in unordered {
      forall i: nat, j: nat | i < j < |ops| ensures ops[i].dst != ops[j].dst {
        assert ops[j] == ops[1..][j - 1];
        if i > 0 {
          assert ops[i] == ops[1..][i - 1];
        }
      }
      forall i: nat | i < |ops| ensures ops[i].dst !in unordered {
        if i > 0 {
          assert ops[i] == ops[1..][i - 1];
        }
      }
    }
  }

  /** The recorded copies overwrite nothing unordered exactly when their destinations are all different. */
  lemma {:induction false} EmittedOverwrites(m: Memory, ops: seq<Operation>, next: nat)
    ensures ExecuteAll(m, Emitted(ops, next)).overwrites >= m.overwrites
    ensures ExecuteAll(m, Emitted(ops, next)).overwrites == m.overwrites <==> Apart(ops, m.unordered)
    decreases |ops|
  {
    if ops != [] {
      FirstExecutes(m, ops, next);
      EmittedOverwrites(Written(m, ops[0], next), ops[1..], next + 1);
      ApartTail(ops, m.unordered);
    }
  }

  /** Of operations with different destinations each one's buffer gets its data, and no other buffer changes. */
  lemma {:induction false} ApartApplies(contents: map<nat, Bytes>, ops: seq<Operation>, b: nat)
    requires Apart(ops, {})
    ensures forall k: nat | k < |ops| && ops[k].dst == b ::
      At(Apply(contents, ops), b) == Overlay(At(contents, b), ops[k].data)
    ensures (forall k: nat | k < |ops| :: ops[k].dst != b) ==> At(Apply(contents, ops), b) == At(contents, b)
    decreases |ops|
  {
    if ops != [] {
      var rest := ops[1..];
      var contents1 := contents[ops[0].dst := Overlay(At(contents, ops[0].dst), ops[0].data)];
      assert forall i: nat | i < |rest| :: rest[i] == ops[i + 1];
      ApartApplies(contents1, rest, b);
      forall k: nat | k < |ops| && ops[k].dst == b
        ensures At(Apply(contents, ops), b) == Overlay(At(contents, b), ops[k].data)
      {
        if k > 0 {
          assert rest[k - 1].dst == b;
        }
      }
    }
  }

  /** So operations with different destinations mean the same in whatever order the copies run. */
  lemma AnyOrderApplies(contents: map<nat, Bytes>, ops: seq<Operation>, other: seq<Operation>, b: nat)
    requires Apart(ops, {}) && Apart(other, {}) && forall op: Operation :: op in ops <==> op in other
    ensures At(Apply(contents, other), b) == At(Apply(contents, ops), b)
  {
    ApartApplies(contents, ops, b);
    ApartApplies(contents, other, b);
    if k: nat :| k < |ops| && ops[k].dst == b {
      assert ops[k] in other;
      var i: nat :| i < |other| && other[i] == ops[k];
    } else {
      forall i: nat | i < |other| ensures other[i].dst != b {
        assert other[i] in ops;
      }
    }
  }

  // ---------------------------------------------------------------- the grouped barriers

  /** The barrier lists a stream records for one stage. */
  function GroupsOf(commands: seq<Command>, stage: nat): seq<seq<Barrier>> {
    if commands == [] then []
    else
      (if commands[0].TransferToStage? && commands[0].stage == stage then [commands[0].barriers] else [])
      + GroupsOf(commands[1..], stage)
  }

  /** Whatever the order of the iteration, a stage with barriers gets them all in one command, the others none. */
  lemma {:induction false} GroupedOnce(barriers: map<nat, seq<Barrier>>, order: seq<nat>, stage: nat)
    requires forall i: nat, j: nat | i < j < |order| :: order[i] != order[j]
    ensures GroupsOf(Grouped(barriers, order), stage)
            == if stage in order && stage in barriers && barriers[stage] != [] then [barriers[stage]] else []
  {
    if order != [] {
      GroupedOnce(barriers, order[1..], stage);
      if order[0] in barriers && barriers[order[0]] != [] {
        var command := TransferToStage(order[0], barriers[order[0]]);
        assert ([command] + Grouped(barriers, order[1..]))[1..] == Grouped(barriers, order[1..]);
      } else {
        assert [] + Grouped(barriers, order[1..]) == Grouped(barriers, order[1..]);
      }
    }
  }

  /** Grouped barriers change no contents and take no visibility away. */
  lemma {:induction false} GroupedKeeps(m: Memory, barriers: map<nat, seq<Barrier>>, order: seq<nat>)
    ensures var m' := ExecuteAll(m, Grouped(barriers, order));
      && m'.contents == m.contents && m'.hazards == m.hazards && m.visible <= m'.visible
      && m'.overwrites == m.overwrites
    decreases |order|
  {
    if order != [] {
      var tail := Grouped(barriers, order[1..]);
      if order[0] in barriers && barriers[order[0]] != [] {
        var command := TransferToStage(order[0], barriers[order[0]]);
        assert ([command] + tail)[1..] == tail;
        GroupedKeeps(Execute(m, command), barriers, order[1..]);
      } else {
        assert [] + tail == tail;
        GroupedKeeps(m, barriers, order[1..]);
      }
    }
  }

  lemma {:induction false} GroupedShows(m: Memory, barriers: map<nat, seq<Barrier>>, order: seq<nat>,
        stage: nat, i: nat)
    requires stage in order && stage in barriers && i < |barriers[stage]|
    ensures var x := barriers[stage][i];
      (x.buffer, stage, x.access, x.size) in ExecuteAll(m, Grouped(barriers, order)).visible
    decreases |order|
  {
    var tail := Grouped(barriers, order[1..]);
    if order[0] in barriers && barriers[order[0]] != [] {
      var command := TransferToStage(order[0], barriers[order[0]]);
      assert ([command] + tail)[1..] == tail;
      if order[0] == stage {
        GroupedKeeps(Execute(m, command), barriers, order[1..]);
      } else {
        GroupedShows(Execute(m, command), barriers, order[1..], stage, i);
      }
    } else {
      assert [] + tail == tail;
      GroupedShows(m, barriers, order[1..], stage, i);
    }
  }

  lemma {:induction false} NeededHas(ops: seq<Operation>, k: nat) returns (i: nat)
    requires k < |ops|
    ensures i < |Needed(ops, ops[k].stage)|
    ensures Needed(ops, ops[k].stage)[i] == Barrier(ops[k].dst, ops[k].access, |ops[k].data|)
  {
    if k == 0 {
      i := 0;
    } else {
      i := NeededHas(ops[1..], k - 1);
      if ops[0].stage == ops[k].stage {
        i := i + 1;
      }
    }
  }

  // ---------------------------------------------------------------- the whole flush

  /** A flush: the operations, then the grouped barriers. */
  function Flushed(r: Recording, ops: seq<Operation>, order: seq<nat>): (Status, Recording) {
    var (status, r') := StageAll(r, ops);
    if status.Done? then
      (Done, r'.(commands := r'.commands + Grouped(r'.barriers, order), barriers := Cleared(r'.barriers)))
    else (status, r')
  }

  ghost predicate NothingPending(barriers: map<nat, seq<Barrier>>) {
    forall stage | stage in barriers :: barriers[stage] == []
  }

  /** The commands a flush records: a barrier and a copy for each operation, then the groups. */
  function Stream(r: Recording, ops: seq<Operation>, order: seq<nat>): seq<Command> {
    Emitted(ops, r.next) + Grouped(StageAll(r, ops).1.barriers, order)
  }

  lemma FlushRecords(r: Recording, ops: seq<Operation>, order: seq<nat>)
    requires Flushed(r, ops, order).0.Done?
    ensures Flushed(r, ops, order).1.commands == r.commands + Stream(r, ops, order)
  {
    StagedCommands(r, ops);
    AppendTwice(r.commands, Emitted(ops, r.next), Grouped(StageAll(r, ops).1.barriers, order));
  }

  lemma AppendTwice(a: seq<Command>, b: seq<Command>, c: seq<Command>)
    ensures a + b + c == a + (b + c)
  {
  }

  /** Every stage some operation names gets exactly one group, of exactly what its operations need, in order. */
  lemma FlushGroups(r: Recording, ops: seq<Operation>, order: seq<nat>, stage: nat)
    requires StageAll(r, ops).0.Done? && NothingPending(r.barriers) && Iterates(order, r.barriers)
    ensures GroupsOf(Grouped(StageAll(r, ops).1.barriers, order), stage)
            == if Needed(ops, stage) == [] then [] else [Needed(ops, stage)]
  {
    StagedBarriers(r, ops, stage);
    GroupedOnce(StageAll(r, ops).1.barriers, order, stage);
    if stage in r.barriers {
      assert r.barriers[stage] + Needed(ops, stage) == Needed(ops, stage);
    } else {
      StagesExactly(r, ops);
      forall i: nat | i < |ops| ensures ops[i].stage != stage { assert Accepted(r, ops[i]); }
      NeededNowhere(ops, stage);
    }
  }

  lemma {:induction false} NeededNowhere(ops: seq<Operation>, stage: nat)
    requires forall i: nat | i < |ops| :: ops[i].stage != stage
    ensures Needed(ops, stage) == []
  {
    if ops != [] {
      NeededNowhere(ops[1..], stage);
    }
  }

  lemma FlushContents(r: Recording, ops: seq<Operation>, order: seq<nat>, m: Memory, b: nat)
    requires StageAll(r, ops).0.Done? && Below(ops, r.next) && m.contents == StageAll(r, ops).1.contents && b < r.next
    ensures At(ExecuteAll(m, Stream(r, ops, order)).contents, b) == At(Apply(r.contents, ops), b)
  {
    var barriers := StageAll(r, ops).1.barriers;
    ExecuteConcat(m, Emitted(ops, r.next), Grouped(barriers, order));
    GroupedKeeps(ExecuteAll(m, Emitted(ops, r.next)), barriers, order);
    forall i: nat | i < |ops| ensures At(m.contents, r.next + i) == ops[i].data { StagedContents(r, ops, r.next + i); }
    StagedContents(r, ops, b);
    EmittedApplies(m, ops, r.next, r.next, b, r.contents);
  }

  lemma FlushSafe(r: Recording, ops: seq<Operation>, order: seq<nat>, m: Memory)
    ensures ExecuteAll(m, Stream(r, ops, order)).hazards == m.hazards
  {
    var barriers := StageAll(r, ops).1.barriers;
    ExecuteConcat(m, Emitted(ops, r.next), Grouped(barriers, order));
    GroupedKeeps(ExecuteAll(m, Emitted(ops, r.next)), barriers, order);
    EmittedSafe(m, ops, r.next);
  }

  /** No two copies of a flush race if and only if no two operations write the same buffer. */
  lemma FlushRacesExactly(r: Recording, ops: seq<Operation>, order: seq<nat>, m: Memory)
    requires m.unordered == {}
    ensures ExecuteAll(m, Stream(r, ops, order)).overwrites == m.overwrites <==> Apart(ops, {})
  {
    var barriers := StageAll(r, ops).1.barriers;
    ExecuteConcat(m, Emitted(ops, r.next), Grouped(barriers, order));
    GroupedKeeps(ExecuteAll(m, Emitted(ops, r.next)), barriers, order);
    EmittedOverwrites(m, ops, r.next);
  }

  lemma FlushShows(r: Recording, ops: seq<Operation>, order: seq<nat>, m: Memory, k: nat)
    requires StageAll(r, ops).0.Done? && NothingPending(r.barriers) && Iterates(order, r.barriers) && k < |ops|
    ensures (ops[k].dst, ops[k].stage, ops[k].access, |ops[k].data|) in ExecuteAll(m, Stream(r, ops, order)).visible
  {
    var barriers := StageAll(r, ops).1.barriers;
    ExecuteConcat(m, Emitted(ops, r.next), Grouped(barriers, order));
    StagesExactly(r, ops);
    assert Accepted(r, ops[k]);
    StagedBarriers(r, ops, ops[k].stage);
    var i := NeededHas(ops, k);
    assert r.barriers[ops[k].stage] + Needed(ops, ops[k].stage) == Needed(ops, ops[k].stage);
    GroupedShows(ExecuteAll(m, Emitted(ops, r.next)), barriers, order, ops[k].stage, i);
  }

  lemma FlushLeaves(r: Recording, ops: seq<Operation>, order: seq<nat>)
    requires Flushed(r, ops, order).0.Done?
    ensures var r' := Flushed(r, ops, order).1;
      && r'.buffers == r.buffers && NothingPending(r'.barriers)
      && forall stage: nat :: stage in r'.barriers <==> stage in r.barriers
  {
    StagedCommands(r, ops);
    forall stage: nat ensures stage in StageAll(r, ops).1.barriers <==> stage in r.barriers {
      StagedBarriers(r, ops, stage);
    }
  }

  /**
   The flush preserves the meaning of the operations. Executed after the host's writes, the recorded stream
   leaves every buffer that existed before as applying the operations in order would; no copy reads stale
   data; every destination ends up visible to the reader its operation names, for any order of iteration;
   no two copies race exactly if all destinations are different, and then any order of the copies means the same
   (AnyOrderApplies); and the buffer map is as it was, with nothing pending.
   */
  lemma FlushMeansOperations(r: Recording, ops: seq<Operation>, order: seq<nat>, m: Memory)
    requires Flushed(r, ops, order).0.Done? && NothingPending(r.barriers) && Iterates(order, r.barriers)
    requires Below(ops, r.next) && m.contents == StageAll(r, ops).1.contents
    ensures Flushed(r, ops, order).1.commands == r.commands + Stream(r, ops, order)
    ensures forall b: nat | b < r.next ::
      At(ExecuteAll(m, Stream(r, ops, order)).contents, b) == At(Apply(r.contents, ops), b)
    ensures ExecuteAll(m, Stream(r, ops, order)).hazards == m.hazards
    ensures forall k: nat | k < |ops| ::
      (ops[k].dst, ops[k].stage, ops[k].access, |ops[k].data|) in ExecuteAll(m, Stream(r, ops, order)).visible
    ensures m.unordered == {} ==>
      (ExecuteAll(m, Stream(r, ops, order)).overwrites == m.overwrites <==> Apart(ops, {}))
    ensures Flushed(r, ops, order).1.buffers == r.buffers && NothingPending(Flushed(r, ops, order).1.barriers)
  {
    FlushRecords(r, ops, order);
    if m.unordered == {} {
      FlushRacesExactly(r, ops, order, m);
    }
    forall b: nat | b < r.next
      ensures At(ExecuteAll(m, Stream(r, ops, order)).contents, b) == At(Apply(r.contents, ops), b)
    {
      FlushContents(r, ops, order, m, b);
    }
    FlushSafe(r, ops, order, m);
    forall k: nat | k < |ops|
      ensures (ops[k].dst, ops[k].stage, ops[k].access, |ops[k].data|) in ExecuteAll(m, Stream(r, ops, order)).visible
    {
      FlushShows(r, ops, order, m, k);
    }
    FlushLeaves(r, ops, order);
  }

  // ---------------------------------------------------------------- the manager as the program keeps it

  const SUCCESS: int := 0
  const VULKAN_ERROR: int := -1
  const COLLISION: int := -2

  class StagingManager {
    var pending: seq<Operation>
    var barriersPerStage: map<nat, seq<Barrier>>
    var refreshed: bool
    var timeline: nat

    // the command buffer, the buffer manager and the device it works with
    var commands: seq<Command>
    var bufferMap: map<nat, nat>
    var contents: map<nat, Bytes>
    var discarded: seq<Stamped<nat>>
    var nextBuffer: nat
    var budget: nat

    ghost function View(): Recording reads this {
      Recording(commands, barriersPerStage, bufferMap, contents, discarded, timeline, nextBuffer, budget)
    }

    constructor (budget: nat)
      ensures pending == [] && !refreshed && NothingPending(barriersPerStage)
      ensures forall stage: nat :: stage in barriersPerStage <==> stage in STAGES
      ensures View() == Recording([], barriersPerStage, map[], map[], [], 0, 0, budget)
    {
      pending, refreshed, timeline := [], false, 0;
      commands, bufferMap, contents, discarded, nextBuffer := [], map[], map[], [], 0;
      this.budget := budget;
      barriersPerStage := map stage | stage in STAGES :: [];
    }

    method Enqueue(op: Operation)
      requires refreshed
      modifies this`pending
      ensures pending == old(pending) + [op]
    {
      pending := pending + [op];
    }

    method Refresh(now: nat)
      requires !refreshed
      modifies this`timeline, this`refreshed
      ensures refreshed && timeline == now
    {
      timeline, refreshed := now, true;
    }

    /** A staging buffer under the given id, unless there is no memory or the id is taken. */
    method CreateBufferStaging(id: nat) returns (result: int)
      modifies this`bufferMap, this`nextBuffer, this`budget
      ensures result == if old(budget) == 0 then VULKAN_ERROR else if id in old(bufferMap) then COLLISION else SUCCESS
      ensures if old(budget) == 0 then nextBuffer == old(nextBuffer) && budget == 0
              else nextBuffer == old(nextBuffer) + 1 && budget == old(budget) - 1
      ensures bufferMap == if result == SUCCESS then old(bufferMap)[id := old(nextBuffer)] else old(bufferMap)
    {
      if budget == 0 {
        return VULKAN_ERROR;
      }
      var buffer := nextBuffer;
      nextBuffer, budget := nextBuffer + 1, budget - 1;
      if id in bufferMap {
        return COLLISION;
      }
      bufferMap := bufferMap[id := buffer];
      return SUCCESS;
    }

    method DiscardById(id: nat)
      requires id in bufferMap
      modifies this`bufferMap, this`discarded
      ensures bufferMap == old(bufferMap) - {id}
      ensures discarded == old(discarded) + [Stamped(timeline, old(bufferMap)[id])]
    {
      discarded := discarded + [Stamped(timeline, bufferMap[id])];
      bufferMap := bufferMap - {id};
    }

    /** One operation of the flush. */
    method StageOperation(op: Operation) returns (status: Status)
      modifies this`commands, this`barriersPerStage, this`bufferMap, this`contents, this`discarded,
        this`nextBuffer, this`budget
      ensures (status, View()) == Stage(old(View()), op)
    {
      var result := CreateBufferStaging(op.id);
      if result != SUCCESS {
        return Exited;
      }
      var buffer := bufferMap[op.id];
      contents := contents[buffer := op.data];
      commands := commands + [HostToTransfer(buffer, |op.data|), Copy(buffer, op.dst, |op.data|)];
      if op.stage !in barriersPerStage {
        return Thrown;
      }
      var barrier := Barrier(op.dst, op.access, |op.data|);
      barriersPerStage := barriersPerStage[op.stage := barriersPerStage[op.stage] + [barrier]];
      DiscardById(op.id);
      assert bufferMap == old(bufferMap);
      return Done;
    }

    /** Records everything pending, then the grouped barriers in the order the table is iterated. */
    method Flush(order: seq<nat>) returns (status: Status)
      requires refreshed && Iterates(order, barriersPerStage)
      modifies this
      ensures status == Flushed(old(View()), old(pending), order).0
      ensures var r' := Flushed(old(View()), old(pending), order).1;
        if status.Done? then
          View() == r'.(timeline := UNSET) && pending == [] && !refreshed
        else View() == r' && pending == old(pending) && refreshed
    {
      status := StageEverything();
      if !status.Done? {
        return;
      }
      pending := [];
      RecordGroups(order);
      timeline, refreshed := UNSET, false;
    }

    method StageEverything() returns (status: Status)
      modifies this`commands, this`barriersPerStage, this`bufferMap, this`contents, this`discarded,
        this`nextBuffer, this`budget
      ensures (status, View()) == StageAll(old(View()), pending)
      ensures forall stage: nat :: stage in barriersPerStage <==> stage in old(barriersPerStage)
    {
      ghost var goal := StageAll(View(), pending);
      ghost var table := barriersPerStage;
      var k := 0;
      while k < |pending|
        invariant k <= |pending|
        invariant StageAll(View(), pending[k..]) == goal
        invariant forall stage: nat :: stage in barriersPerStage <==> stage in table
      {
        assert pending[k..][0] == pending[k] && pending[k..][1..] == pending[k + 1..];
        status := StageOperation(pending[k]);
        if !status.Done? {
          return;
        }
        k := k + 1;
      }
      status := Done;
    }

    method RecordGroup(stage: nat)
      requires stage in barriersPerStage
      modifies this`commands, this`barriersPerStage
      ensures commands == old(commands) + Group(old(barriersPerStage), stage)
      ensures barriersPerStage == old(barriersPerStage)[stage := []]
    {
      if barriersPerStage[stage] != [] {
        commands := commands + [TransferToStage(stage, barriersPerStage[stage])];
        barriersPerStage := barriersPerStage[stage := []];
      } else {
        assert barriersPerStage == barriersPerStage[stage := []];
      }
    }

    method RecordGroups(order: seq<nat>)
      requires Iterates(order, barriersPerStage)
      modifies this`commands, this`barriersPerStage
      ensures commands == old(commands) + Grouped(old(barriersPerStage), order)
      ensures barriersPerStage == Cleared(old(barriersPerStage))
    {
      ghost var start := barriersPerStage;
      GroupAllRecords(commands, start, order);
      var k := 0;
      while k < |order|
        invariant k <= |order| && barriersPerStage.Keys == start.Keys
        invariant GroupAll(commands, barriersPerStage, order[k..]) == GroupAll(old(commands), start, order)
      {
        assert order[k..][0] == order[k] && order[k..][1..] == order[k + 1..];
        RecordGroup(order[k]);
        k := k + 1;
      }
    }
  }

  /** The loop over the table: each stage's group is recorded and its list cleared. */
  function GroupAll(commands: seq<Command>, barriers: map<nat, seq<Barrier>>, order: seq<nat>)
    : (seq<Command>, map<nat, seq<Barrier>>)
    decreases |order|
  {
    if order == [] then (commands, barriers)
    else GroupAll(commands + Group(barriers, order[0]), barriers[order[0] := []], order[1..])
  }

  lemma {:induction false} GroupedElsewhere(barriers: map<nat, seq<Barrier>>, stage: nat, order: seq<nat>)
    requires stage !in order
    ensures Grouped(barriers[stage := []], order) == Grouped(barriers, order)
  {
    if order != [] {
      GroupedElsewhere(barriers, stage, order[1..]);
    }
  }

  lemma {:induction false} GroupAllIs(commands: seq<Command>, barriers: map<nat, seq<Barrier>>, order: seq<nat>)
    requires forall i: nat, j: nat | i < j < |order| :: order[i] != order[j]
    requires forall stage: nat | stage in order :: stage in barriers
    ensures GroupAll(commands, barriers, order).0 == commands + Grouped(barriers, order)
    ensures GroupAll(commands, barriers, order).1.Keys == barriers.Keys
    ensures forall stage | stage in barriers ::
      GroupAll(commands, barriers, order).1[stage] == if stage in order then [] else barriers[stage]
    decreases |order|
  {
    if order != [] {
      var stage, rest := order[0], order[1..];
      assert forall i: nat | i < |rest| :: rest[i] == order[i + 1];
      GroupAllIs(commands + Group(barriers, stage), barriers[stage := []], rest);
      GroupedElsewhere(barriers, stage, rest);
      AppendTwice(commands, Group(barriers, stage), Grouped(barriers, rest));
    }
  }

  lemma GroupAllRecords(commands: seq<Command>, barriers: map<nat, seq<Barrier>>, order: seq<nat>)
    requires Iterates(order, barriers)
    ensures GroupAll(commands, barriers, order) == (commands + Grouped(barriers, order), Cleared(barriers))
  {
    GroupAllIs(commands, barriers, order);
    var cleared := GroupAll(commands, barriers, order).1;
    forall stage | stage in cleared ensures cleared[stage] == Cleared(barriers)[stage] {
      assert stage in order;
    }
    assert cleared == Cleared(barriers);
  }

  /** What the program leaves in the field between flushes. */
  const UNSET: nat := 0xFFFF_FFFF_FFFF_FFFF
}
