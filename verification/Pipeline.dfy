/** The broker and the verifier run concurrently and share the set of pending blocks, the record
    of blocks and a queue. Their steps are interleaved in any order; each step is one access to
    what they share. */
module Pipeline {
  import opened OrphanPool

  /** What the status of a block tells the broker. */
  datatype Status = Stored | Invalid | Other

  /** Where the broker is: waiting; having looked whether the parent of `b` is pending; having
      looked at the status of a leader; or with blocks to hand over, the first of which may
      already be marked as pending. */
  datatype Broker =
    | Idle
    | Looked(b: Lonely, pending: bool)
    | AtLeader(leader: Hash, status: Status)
    | Sending(blocks: seq<Lonely>, marked: bool)

  /** Where the verifier is: waiting, at work on a block, or done with one whose mark is still
      to be removed. */
  datatype Verifier = Waiting | Verifying(current: Lonely) | Finished(done: Lonely)

  /** `exts` are the blocks with an ext, `failed` those whose processing ended in failure. */
  datatype State = State(
    exts: set<Hash>,
    failed: set<Hash>,
    pending: set<Hash>,
    queue: seq<Lonely>,
    broker: Broker,
    verifier: Verifier)

  datatype Action =
    | Refuse(h: Hash)
    | Receive(b: Lonely)
    | Decide(status: Status)
    | LookAtLeader(leader: Hash, status: Status)
    | TakeDescendants(blocks: seq<Lonely>)
    | Mark
    | Send
    | Take
    | Conclude(ok: bool)
    | Unmark

  /** A status can only be read if it is so. While a block is received its status may hide that
      it is stored. */
  predicate Readable(s: State, h: Hash, status: Status) {
    match status
    case Stored => h in s.exts
    case Invalid => h in s.failed
    case Other => true
  }

  /** Which steps are possible. A block that is not recorded may be refused, by the checks made
      before it reaches the broker. The descendants of a leader come out of the pool parents first;
      a block can only be accepted when its parent has an ext. */
  ghost predicate Enabled(s: State, a: Action) {
    match a
    case Refuse(h) => h !in s.exts
    case Receive(_) => s.broker.Idle?
    case Decide(status) => s.broker.Looked? && Readable(s, s.broker.b.parent, status)
    case LookAtLeader(leader, status) => s.broker.Idle? && Readable(s, leader, status)
    case TakeDescendants(blocks) => s.broker.AtLeader? && ParentsFirst(s.broker.leader, blocks)
    case Mark => s.broker.Sending? && !s.broker.marked && s.broker.blocks != []
    case Send => s.broker.Sending? && s.broker.marked && s.broker.blocks != []
    case Take => s.verifier.Waiting? && s.queue != []
    case Conclude(ok) => s.verifier.Verifying? && (ok ==> s.verifier.current.parent in s.exts)
    case Unmark => s.verifier.Finished?
  }

  function Handed(blocks: seq<Lonely>): Broker {
    if blocks == [] then Idle else Sending(blocks, false)
  }

  function Step(s: State, a: Action): State {
    match a
    case Refuse(h) => s.(failed := s.failed + {h})
    case Receive(b) => s.(broker := Looked(b, b.parent in s.pending))
    case Decide(status) =>
      if !s.broker.Looked? then s
      else if s.broker.pending || status == Stored then s.(broker := Sending([s.broker.b], false))
      else if status == Invalid then s.(failed := s.failed + {s.broker.b.hash}, broker := Idle)
      else s.(broker := Idle)
    case LookAtLeader(leader, status) => s.(broker := AtLeader(leader, status))
    case TakeDescendants(blocks) =>
      if !s.broker.AtLeader? then s
      else if s.broker.status == Invalid then s.(failed := s.failed + HashSet(blocks), broker := Idle)
      else if s.broker.leader in s.pending || s.broker.status == Stored then s.(broker := Handed(blocks))
      else s.(broker := Idle)
    case Mark =>
      if s.broker.Sending? && s.broker.blocks != [] then
        s.(pending := s.pending + {s.broker.blocks[0].hash}, broker := Sending(s.broker.blocks, true))
      else s
    case Send =>
      if s.broker.Sending? && s.broker.blocks != [] then
        s.(queue := s.queue + [s.broker.blocks[0]], broker := Handed(s.broker.blocks[1..]))
      else s
    case Take =>
      if s.queue == [] then s else s.(queue := s.queue[1..], verifier := Verifying(s.queue[0]))
    case Conclude(ok) =>
      if !s.verifier.Verifying? then s
      else
        var h := s.verifier.current.hash;
        if ok then s.(exts := s.exts + {h}, verifier := Finished(s.verifier.current))
        else s.(failed := s.failed + {h}, verifier := Finished(s.verifier.current))
    case Unmark =>
      if s.verifier.Finished? then s.(pending := s.pending - {s.verifier.done.hash}, verifier := Waiting) else s
  }

  // ----- The invariant -----

  predicate Known(s: State, h: Hash) {
    h in s.exts || h in s.failed
  }

  predicate BeingVerified(s: State, h: Hash) {
    s.verifier.Verifying? && s.verifier.current.hash == h
  }

  predicate QueuedBefore(s: State, h: Hash, n: int) {
    exists j :: 0 <= j < n && j < |s.queue| && s.queue[j].hash == h
  }

  /** `h` is settled, or will be before the block that would be queued next. */
  predicate Ahead(s: State, h: Hash, n: int) {
    Known(s, h) || BeingVerified(s, h) || QueuedBefore(s, h, n)
  }

  /** The parent of every queued block is ahead of it. */
  ghost predicate QueueOk(s: State) {
    forall i :: 0 <= i < |s.queue| ==> Ahead(s, s.queue[i].parent, i)
  }

  ghost predicate VerifierOk(s: State) {
    match s.verifier
    case Waiting => true
    case Verifying(b) => Known(s, b.parent)
    case Finished(b) => Known(s, b.hash)
  }

  /** A pending block is on its way, or settled. */
  ghost predicate PendingOk(s: State) {
    forall h :: h in s.pending ==>
      Ahead(s, h, |s.queue|)
      || (s.broker.Sending? && s.broker.marked && s.broker.blocks != [] && s.broker.blocks[0].hash == h)
  }

  /** The parent of a block that is handed over is ahead, or handed over before it. */
  ghost predicate BrokerOk(s: State) {
    match s.broker
    case Idle => true
    case Looked(b, pending) => pending ==> Ahead(s, b.parent, |s.queue|)
    case AtLeader(leader, status) => status == Stored ==> leader in s.exts
    case Sending(blocks, _) =>
      forall i :: 0 <= i < |blocks| ==>
        Ahead(s, blocks[i].parent, |s.queue|) || exists j :: 0 <= j < i && blocks[j].hash == blocks[i].parent
  }

  ghost predicate Inv(s: State) {
    QueueOk(s) && VerifierOk(s) && PendingOk(s) && BrokerOk(s)
  }

  /** The start: blocks `exts` are recorded, nothing is under way. */
  function Start(exts: set<Hash>): State {
    State(exts, {}, {}, [], Idle, Waiting)
  }

  // ----- Steps -----

  /** Steps that leave queue and verifier alone. */
  lemma SameQueue(s: State, s': State)
    requires s.exts <= s'.exts && s.failed <= s'.failed && s'.queue == s.queue && s'.verifier == s.verifier
    requires QueueOk(s) && VerifierOk(s)
    ensures QueueOk(s') && VerifierOk(s')
    ensures forall h :: Ahead(s, h, |s.queue|) ==> Ahead(s', h, |s.queue|)
  {
    forall i | 0 <= i < |s.queue|
      ensures Ahead(s', s'.queue[i].parent, i)
    {
      assert Ahead(s, s.queue[i].parent, i);
    }
  }

  lemma BrokerKeeps(s: State, a: Action)
    requires Inv(s) && Enabled(s, a)
             && (a.Refuse? || a.Receive? || a.Decide? || a.LookAtLeader? || a.TakeDescendants? || a.Mark?)
    ensures Inv(Step(s, a))
  {
    var s' := Step(s, a);
    SameQueue(s, s');
    hide QueueOk, VerifierOk, Ahead;
    if a.TakeDescendants? && s'.broker.Sending? {
      HandedOk(s, s', a.blocks);
    }
  }

  lemma HandedOk(s: State, s': State, blocks: seq<Lonely>)
    requires s.broker.AtLeader? && PendingOk(s) && BrokerOk(s) && ParentsFirst(s.broker.leader, blocks)
    requires s.broker.leader in s.pending || s.broker.status == Stored
    requires s' == s.(broker := Sending(blocks, false))
    ensures BrokerOk(s')
  {
    assert Ahead(s, s.broker.leader, |s.queue|);
    assert Ahead(s', s.broker.leader, |s.queue|);
    forall i | 0 <= i < |blocks|
      ensures Ahead(s', blocks[i].parent, |s'.queue|) || exists j :: 0 <= j < i && blocks[j].hash == blocks[i].parent
    {
    }
  }

  lemma SendKeeps(s: State)
    requires Inv(s) && Enabled(s, Send)
    ensures Inv(Step(s, Send))
  {
    var s' := Step(s, Send);
    var b, rest := s.broker.blocks[0], s.broker.blocks[1..];
    forall h, n | n <= |s.queue| && Ahead(s, h, n)
      ensures Ahead(s', h, n) && Ahead(s', h, |s'.queue|)
    {
      Longer(s, s', h, n);
    }
    assert s'.queue[|s.queue|] == b;
    assert QueuedBefore(s', b.hash, |s'.queue|);
    assert Ahead(s, b.parent, |s.queue|);
    SentBroker(s, s');
    assert QueueOk(s') && PendingOk(s') by {
      hide BrokerOk;
    }
  }

  lemma Longer(s: State, s': State, h: Hash, n: int)
    requires s' == s.(queue := s'.queue, broker := s'.broker) && s.queue <= s'.queue && n <= |s.queue| && Ahead(s, h, n)
    ensures Ahead(s', h, n) && Ahead(s', h, |s'.queue|)
  {
    if QueuedBefore(s, h, n) {
      var j :| 0 <= j < n && j < |s.queue| && s.queue[j].hash == h;
      assert s'.queue[j].hash == h;
    }
  }

  lemma SentBroker(s: State, s': State)
    requires Inv(s) && Enabled(s, Send) && s' == Step(s, Send)
    ensures BrokerOk(s')
  {
    var blocks, rest := s.broker.blocks, s.broker.blocks[1..];
    assert s'.queue[|s.queue|] == blocks[0];
    forall i | 0 <= i < |rest|
      ensures Ahead(s', rest[i].parent, |s'.queue|) || exists j :: 0 <= j < i && rest[j].hash == rest[i].parent
    {
      var b := blocks[i + 1];
      if Ahead(s, b.parent, |s.queue|) {
        Longer(s, s', b.parent, |s.queue|);
      } else {
        var j :| 0 <= j < i + 1 && blocks[j].hash == b.parent;
        if j == 0 {
          assert QueuedBefore(s', b.parent, |s'.queue|);
        } else {
          assert rest[j - 1].hash == rest[i].parent;
        }
      }
    }
  }

  /** The first of the queue moves to the verifier. */
  lemma Shift(s: State, s': State, h: Hash, n: int)
    requires s.verifier.Waiting? && s.queue != [] && s' == Step(s, Take) && 0 <= n <= |s.queue| && Ahead(s, h, n)
    ensures Ahead(s', h, n - 1)
  {
    if QueuedBefore(s, h, n) {
      var j :| 0 <= j < n && j < |s.queue| && s.queue[j].hash == h;
      if j > 0 {
        assert s'.queue[j - 1].hash == h;
        assert QueuedBefore(s', h, n - 1);
      }
    }
  }

  lemma TakeKeeps(s: State)
    requires Inv(s) && Enabled(s, Take)
    ensures Inv(Step(s, Take))
  {
    var s' := Step(s, Take);
    assert Ahead(s, s.queue[0].parent, 0);
    forall i | 0 <= i < |s'.queue|
      ensures Ahead(s', s'.queue[i].parent, i)
    {
      assert Ahead(s, s.queue[i + 1].parent, i + 1);
      Shift(s, s', s.queue[i + 1].parent, i + 1);
    }
    forall h | Ahead(s, h, |s.queue|)
      ensures Ahead(s', h, |s'.queue|)
    {
      Shift(s, s', h, |s.queue|);
    }
  }

  lemma VerifierKeeps(s: State, a: Action)
    requires Inv(s) && Enabled(s, a) && (a.Conclude? || a.Unmark?)
    ensures Inv(Step(s, a))
  {
    var s' := Step(s, a);
    forall h, n | Ahead(s, h, n)
      ensures Ahead(s', h, n)
    {
      assert QueuedBefore(s, h, n) ==> QueuedBefore(s', h, n);
    }
  }

  lemma StepKeeps(s: State, a: Action)
    requires Inv(s) && Enabled(s, a)
    ensures Inv(Step(s, a))
  {
    hide Inv, Step;
    match a
    case Send => SendKeeps(s);
    case Take => TakeKeeps(s);
    case Conclude(_) => VerifierKeeps(s, a);
    case Unmark => VerifierKeeps(s, a);
    case _ => BrokerKeeps(s, a);
  }

  // ----- Runs -----

  ghost predicate Possible(s: State, actions: seq<Action>)
    decreases |actions|
  {
    actions == [] || (Enabled(s, actions[0]) && Possible(Step(s, actions[0]), actions[1..]))
  }

  function After(s: State, actions: seq<Action>): State
    decreases |actions|
  {
    if actions == [] then s else After(Step(s, actions[0]), actions[1..])
  }

  lemma {:induction false} RunKeeps(s: State, actions: seq<Action>)
    requires Inv(s) && Possible(s, actions)
    ensures Inv(After(s, actions))
    decreases |actions|
  {
    hide Inv, Enabled, Step;
    if actions != [] {
      StepKeeps(s, actions[0]);
      RunKeeps(Step(s, actions[0]), actions[1..]);
    }
  }

  /** In every interleaving, every queued block has a parent that has an ext, whose processing
      failed, that is being verified, or that is ahead of it in the queue. */
  lemma QueueIsOrdered(exts: set<Hash>, actions: seq<Action>, i: nat)
    requires Possible(Start(exts), actions) && i < |After(Start(exts), actions).queue|
    ensures var s := After(Start(exts), actions); Ahead(s, s.queue[i].parent, i)
  {
    hide Possible, After;
    RunKeeps(Start(exts), actions);
  }

  /** A block is rejected for want of its parent's ext only if the parent failed. */
  lemma VerifierIsNeverEarly(exts: set<Hash>, actions: seq<Action>, b: Lonely)
    requires Possible(Start(exts), actions) && After(Start(exts), actions).verifier == Verifying(b)
    ensures b.parent in After(Start(exts), actions).exts || b.parent in After(Start(exts), actions).failed
  {
    hide Possible, After;
    RunKeeps(Start(exts), actions);
  }

  /** The steps that hand a block on to the verifier. */
  function Passing(b: Lonely, status: Status): seq<Action> {
    [Receive(b), Decide(status), Mark, Send]
  }

  lemma BlockPasses(s: State, b: Lonely, status: Status, rest: seq<Action>, last: State)
    requires s.broker == Idle && Readable(s, b.parent, status) && (b.parent in s.pending || status == Stored)
    requires var s' := s.(pending := s.pending + {b.hash}, queue := s.queue + [b]);
             Possible(s', rest) && After(s', rest) == last
    ensures Possible(s, Passing(b, status) + rest) && After(s, Passing(b, status) + rest) == last
  {
    hide Possible, After;
    var actions := Passing(b, status) + rest;
    var s1 := s.(broker := Looked(b, b.parent in s.pending));
    var s2 := s.(broker := Sending([b], false));
    var s3 := s2.(pending := s.pending + {b.hash}, broker := Sending([b], true));
    var s4 := s3.(queue := s.queue + [b], broker := Idle);
    assert actions[4..] == rest;
    Reaches(s3, actions[3..], s4, last);
    Reaches(s2, actions[2..], s3, last);
    Reaches(s1, actions[1..], s2, last);
    Reaches(s, actions, s1, last);
  }

  /** Where the broker hands a child of the first block and its own child on, the verifier has got
      to the one while the other is queued behind it. */
  lemma TwoBlocksPass(genesis: Hash, b: Lonely, child: Lonely, actions: seq<Action>)
    requires b.parent == genesis && child.parent == b.hash
    requires actions == Passing(b, Stored) + (Passing(child, Other) + [Take])
    ensures Possible(Start({genesis}), actions)
    ensures After(Start({genesis}), actions) == State({genesis}, {}, {b.hash, child.hash}, [child], Idle, Verifying(b))
  {
    hide Passing;
    var s4 := State({genesis}, {}, {b.hash}, [b], Idle, Waiting);
    var s8 := State({genesis}, {}, {b.hash, child.hash}, [b, child], Idle, Waiting);
    var last := State({genesis}, {}, {b.hash, child.hash}, [child], Idle, Verifying(b));
    Reaches(s8, [Take], last, last);
    BlockPasses(s4, child, Other, [Take], last);
    assert Start({genesis}).pending + {b.hash} == {b.hash} && Start({genesis}).queue + [b] == [b];
    BlockPasses(Start({genesis}), b, Stored, Passing(child, Other) + [Take], last);
  }

  lemma Reaches(s: State, actions: seq<Action>, next: State, last: State)
    requires actions != [] && Enabled(s, actions[0]) && Step(s, actions[0]) == next
    requires Possible(next, actions[1..]) && After(next, actions[1..]) == last
    ensures Possible(s, actions) && After(s, actions) == last
  {
  }

  // ----- What the broker and the verifier get done -----

  /** The steps that hand `n` blocks on. */
  function HandingOn(n: nat): seq<Action> {
    if n == 0 then [] else [Mark, Send] + HandingOn(n - 1)
  }

  lemma {:induction false} BlocksAreHandedOn(s: State, blocks: seq<Lonely>, last: State)
    requires s.broker == Handed(blocks)
    requires last == s.(pending := s.pending + HashSet(blocks), queue := s.queue + blocks, broker := Idle)
    ensures Possible(s, HandingOn(|blocks|)) && After(s, HandingOn(|blocks|)) == last
    decreases |blocks|
  {
    if blocks == [] {
      assert last == s;
    } else {
      hide Possible, After;
      var b, rest, actions := blocks[0], blocks[1..], HandingOn(|blocks|);
      var s1 := s.(pending := s.pending + {b.hash}, broker := Sending(blocks, true));
      var s2 := s1.(queue := s.queue + [b], broker := Handed(rest));
      assert actions[1..][1..] == HandingOn(|rest|);
      assert s.queue + [b] + rest == s.queue + blocks;
      assert blocks == [b] + rest;
      assert s.pending + {b.hash} + HashSet(rest) == s.pending + HashSet(blocks);
      BlocksAreHandedOn(s2, rest, last);
      Reaches(s1, actions[1..], s2, last);
      Reaches(s, actions, s1, last);
    }
  }

  /** What an idle broker makes of a leader and its descendants, by the status it reads. If the
      leader is stored or pending, every descendant is marked and queued, in order; if it is
      invalid, every descendant fails; otherwise they are left alone. */
  lemma LeaderIsServed(s: State, leader: Hash, status: Status, blocks: seq<Lonely>, actions: seq<Action>)
    requires s.broker.Idle? && Readable(s, leader, status) && ParentsFirst(leader, blocks)
    requires actions == [LookAtLeader(leader, status), TakeDescendants(blocks)]
                        + if status != Invalid && (leader in s.pending || status == Stored) then HandingOn(|blocks|)
                          else []
    ensures Possible(s, actions)
    ensures After(s, actions)
            == if status == Invalid then s.(failed := s.failed + HashSet(blocks))
               else if leader in s.pending || status == Stored then
                 s.(pending := s.pending + HashSet(blocks), queue := s.queue + blocks)
               else s
  {
    hide Possible, After;
    var last := if status == Invalid then s.(failed := s.failed + HashSet(blocks))
                else if leader in s.pending || status == Stored then
                  s.(pending := s.pending + HashSet(blocks), queue := s.queue + blocks)
                else s;
    var s1 := s.(broker := AtLeader(leader, status));
    var s2 := Step(s1, TakeDescendants(blocks));
    var rest := actions[1..][1..];
    assert actions[1..][0] == TakeDescendants(blocks);
    if status != Invalid && (leader in s.pending || status == Stored) {
      assert rest == HandingOn(|blocks|);
      BlocksAreHandedOn(s2, blocks, last);
    } else {
      assert rest == [];
      Stays(s2);
    }
    Reaches(s1, actions[1..], s2, last);
    Reaches(s, actions, s1, last);
  }

  lemma Stays(s: State)
    ensures Possible(s, []) && After(s, []) == s
  {
  }

  /** What becomes of a block that reaches an idle broker, by the status of its parent: it is
      marked and queued if the parent is pending or stored, fails if the parent is invalid, and is
      left to the pool otherwise. */
  lemma BlockIsDecided(s: State, b: Lonely, status: Status, actions: seq<Action>)
    requires s.broker.Idle? && Readable(s, b.parent, status)
    requires actions == [Receive(b), Decide(status)]
                        + if b.parent in s.pending || status == Stored then [Mark, Send] else []
    ensures Possible(s, actions)
    ensures After(s, actions)
            == if b.parent in s.pending || status == Stored then
                 s.(pending := s.pending + {b.hash}, queue := s.queue + [b])
               else if status == Invalid then s.(failed := s.failed + {b.hash})
               else s
  {
    hide Possible, After;
    var pending := b.parent in s.pending;
    if pending || status == Stored {
      var last := s.(pending := s.pending + {b.hash}, queue := s.queue + [b]);
      Stays(last);
      BlockPasses(s, b, status, [], last);
      assert actions == Passing(b, status) + [];
    } else {
      var s1 := s.(broker := Looked(b, pending));
      var s2 := if status == Invalid then s.(failed := s.failed + {b.hash}) else s;
      assert actions[1..] == [Decide(status)] && actions[1..][1..] == [];
      Stays(s2);
      Reaches(s1, actions[1..], s2, s2);
      Reaches(s, actions, s1, s2);
    }
  }

  /** The steps by which the verifier gets through the queue, where it accepts the blocks of `good`
      whose parent has an ext. */
  function Verifications(queue: seq<Lonely>, exts: set<Hash>, good: set<Hash>): seq<Action> {
    if queue == [] then []
    else
      var ok := queue[0].hash in good && queue[0].parent in exts;
      [Take, Conclude(ok), Unmark]
      + Verifications(queue[1..], if ok then exts + {queue[0].hash} else exts, good)
  }

  /** The blocks of `queue` that are accepted one after the other. */
  function Accepted(queue: seq<Lonely>, exts: set<Hash>, good: set<Hash>): set<Hash> {
    if queue == [] then exts
    else if queue[0].hash in good && queue[0].parent in exts then
      Accepted(queue[1..], exts + {queue[0].hash}, good)
    else Accepted(queue[1..], exts, good)
  }

  /** The state once the first block of the queue has been accepted or has failed. */
  function Concluded(s: State, ok: bool): State
    requires s.queue != []
  {
    var h := s.queue[0].hash;
    s.(queue := s.queue[1..], exts := if ok then s.exts + {h} else s.exts,
       failed := if ok then s.failed else s.failed + {h}, pending := s.pending - {h})
  }

  lemma FirstIsVerified(s: State, ok: bool, rest: seq<Action>)
    requires s.verifier.Waiting? && s.queue != [] && (ok ==> s.queue[0].parent in s.exts)
    requires Possible(Concluded(s, ok), rest)
    ensures Possible(s, [Take, Conclude(ok), Unmark] + rest)
    ensures After(s, [Take, Conclude(ok), Unmark] + rest) == After(Concluded(s, ok), rest)
  {
    hide Possible, After;
    var actions, last := [Take, Conclude(ok), Unmark] + rest, After(Concluded(s, ok), rest);
    var s1 := s.(queue := s.queue[1..], verifier := Verifying(s.queue[0]));
    var s2 := Step(s1, Conclude(ok));
    assert actions[1..] == [Conclude(ok), Unmark] + rest && actions[1..][1..] == [Unmark] + rest;
    assert actions[1..][1..][1..] == rest;
    Reaches(s2, actions[1..][1..], Concluded(s, ok), last);
    Reaches(s1, actions[1..], s2, last);
    Reaches(s, actions, s1, last);
  }

  /** An idle verifier can get through the whole queue: every block of it gets an ext or fails, and
      none of them is pending any more. */
  lemma {:induction false} QueueIsVerified(s: State, good: set<Hash>, actions: seq<Action>, last: State)
    requires s.verifier.Waiting? && actions == Verifications(s.queue, s.exts, good) && last == After(s, actions)
    ensures Possible(s, actions)
    ensures last.verifier.Waiting? && last.queue == [] && last.broker == s.broker
    ensures last.exts == Accepted(s.queue, s.exts, good) && last.pending == s.pending - HashSet(s.queue)
    ensures forall i :: 0 <= i < |s.queue| ==> Known(last, s.queue[i].hash)
    ensures s.exts <= last.exts && s.failed <= last.failed <= s.failed + HashSet(s.queue)
    decreases |s.queue|
  {
    if s.queue == [] {
      assert last == s;
    } else {
      hide Possible, After, HashSet;
      var b, rest := s.queue[0], s.queue[1..];
      var ok := b.hash in good && b.parent in s.exts;
      var next := Concluded(s, ok);
      var more := Verifications(rest, next.exts, good);
      QueueIsVerified(next, good, more, After(next, more));
      FirstIsVerified(s, ok, more);
      FirstHash(s.queue);
      forall i | 0 < i < |s.queue|
        ensures Known(last, s.queue[i].hash)
      {
        assert s.queue[i] == rest[i - 1];
      }
    }
  }

  lemma FirstHash(queue: seq<Lonely>)
    requires queue != []
    ensures HashSet(queue) == {queue[0].hash} + HashSet(queue[1..])
  {
    assert queue == [queue[0]] + queue[1..];
  }
}
