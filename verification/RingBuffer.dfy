/**
 The lock-free multi-producer, single-consumer ring buffer, one atomic access per step, in any
 interleaving of any number of producers. Counters are unbounded and steps sequentially consistent;
 a compare-exchange may fail spuriously.
 */
module RingBuffer {
  import opened Arithmetic

  datatype Slot<T> = Slot(sequence: int, data: T)

  /** Where a producer stands inside `try_push`. */
  datatype Producer<T> =
    | Idle
    | Entering(value: T)
    | Loaded(value: T, position: int)
    | Ready(value: T, position: int)
    | Won(value: T, position: int)
    | Written(value: T, position: int)

  /** Where the consumer stands inside `try_pop`. */
  datatype Consumer<T> =
    | Resting
    | Aiming(position: int)
    | Seen(position: int)
    | Holding(position: int, result: T)
    | Released(position: int, result: T)

  /** `pushed` lists the values in the order their producers won the head; `popped` those returned. */
  datatype State<T> = State(
    head: int,
    tail: int,
    slots: seq<Slot<T>>,
    producers: seq<Producer<T>>,
    consumer: Consumer<T>,
    pushed: seq<T>,
    popped: seq<T>)

  datatype Action<T> =
    | Start(producer: nat, value: T)
    | LoadHead(producer: nat)
    | LoadSequence(producer: nat)
    | CompareExchange(producer: nat, spurious: bool)
    | WriteData(producer: nat)
    | Publish(producer: nat)
    | PopLoadTail
    | PopLoadSequence
    | PopReadData
    | PopRelease
    | PopAdvance

  function Capacity<T>(s: State<T>): nat {
    |s.slots|
  }

  function Index<T>(s: State<T>, position: int): (i: int)
    requires Capacity(s) > 0
    ensures 0 <= i < Capacity(s)
  {
    position % Capacity(s)
  }

  function At<T>(s: State<T>, position: int): Slot<T>
    requires Capacity(s) > 0
  {
    s.slots[Index(s, position)]
  }

  function SetProducer<T>(s: State<T>, p: nat, next: Producer<T>): State<T>
    requires p < |s.producers|
  {
    s.(producers := s.producers[p := next])
  }

  function SetSlot<T>(s: State<T>, position: int, slot: Slot<T>): State<T>
    requires Capacity(s) > 0
  {
    s.(slots := s.slots[Index(s, position) := slot])
  }

  /** The test on the slot sequence: free to claim, full, or overtaken. */
  function Judge<T>(s: State<T>, value: T, position: int): Producer<T>
    requires Capacity(s) > 0
  {
    var difference := At(s, position).sequence - position;
    if difference == 0 then Ready(value, position)
    else if difference < 0 then Idle
    else Entering(value)
  }

  function ProducerStep<T>(s: State<T>, p: nat, a: Action<T>): State<T>
    requires p < |s.producers| && Capacity(s) > 0
  {
    match (a, s.producers[p])
    case (Start(_, v), Idle) => SetProducer(s, p, Entering(v))
    case (LoadHead(_), Entering(v)) => SetProducer(s, p, Loaded(v, s.head))
    case (LoadSequence(_), Loaded(v, pos)) => SetProducer(s, p, Judge(s, v, pos))
    case (CompareExchange(_, spurious), Ready(v, pos)) =>
      if s.head == pos && !spurious then
        SetProducer(s, p, Won(v, pos)).(head := pos + 1, pushed := s.pushed + [v])
      else SetProducer(s, p, Loaded(v, s.head))
    case (WriteData(_), Won(v, pos)) =>
      SetProducer(SetSlot(s, pos, At(s, pos).(data := v)), p, Written(v, pos))
    case (Publish(_), Written(v, pos)) =>
      SetProducer(SetSlot(s, pos, At(s, pos).(sequence := pos + 1)), p, Idle)
    case _ => s
  }

  function ConsumerStep<T>(s: State<T>, a: Action<T>): State<T>
    requires Capacity(s) > 0
  {
    match (a, s.consumer)
    case (PopLoadTail, Resting) => s.(consumer := Aiming(s.tail))
    case (PopLoadSequence, Aiming(pos)) =>
      s.(consumer := if At(s, pos).sequence - (pos + 1) < 0 then Resting else Seen(pos))
    case (PopReadData, Seen(pos)) => s.(consumer := Holding(pos, At(s, pos).data))
    case (PopRelease, Holding(pos, v)) =>
      SetSlot(s, pos, At(s, pos).(sequence := pos + Capacity(s))).(consumer := Released(pos, v))
    case (PopAdvance, Released(pos, v)) => s.(consumer := Resting, tail := pos + 1, popped := s.popped + [v])
    case _ => s
  }

  predicate ByConsumer<T>(a: Action<T>) {
    a.PopLoadTail? || a.PopLoadSequence? || a.PopReadData? || a.PopRelease? || a.PopAdvance?
  }

  function Next<T>(s: State<T>, a: Action<T>): State<T>
    requires Capacity(s) > 0
  {
    if ByConsumer(a) then ConsumerStep(s, a)
    else if a.producer < |s.producers| then ProducerStep(s, a.producer, a)
    else s
  }

  lemma NextCapacity<T>(s: State<T>, a: Action<T>)
    requires Capacity(s) > 0
    ensures Capacity(Next(s, a)) == Capacity(s)
  {
  }

  function Init<T>(data: seq<T>, producers: nat): (s: State<T>)
    ensures Capacity(s) == |data|
  {
    State(0, 0, seq(|data|, i requires 0 <= i < |data| => Slot(i, data[i])),
          seq(producers, _ => Idle), Resting, [], [])
  }

  /** `init`: both counters to zero and every slot's sequence to its own index, whatever it holds. */
  method InitBuffer<T>(data: seq<T>, producers: nat) returns (s: State<T>)
    ensures s == Init(data, producers)
  {
    var slots: seq<Slot<T>> := [];
    for i := 0 to |data|
      invariant |slots| == i && forall k :: 0 <= k < i ==> slots[k] == Slot(k, data[k])
    {
      slots := slots + [Slot(i, data[i])];
    }
    s := State(0, 0, slots, seq(producers, _ => Idle), Resting, [], []);
    assert s.slots == Init(data, producers).slots;
  }

  /** The state after a sequence of actions, together with its unchanged capacity. */
  function Run<T>(s: State<T>, actions: seq<Action<T>>): (r: State<T>)
    requires Capacity(s) > 0
    ensures Capacity(r) == Capacity(s)
  {
    if actions == [] then s
    else
      var r := Run(s, actions[..|actions| - 1]);
      NextCapacity(r, actions[|actions| - 1]);
      Next(r, actions[|actions| - 1])
  }

  // ---------------------------------------------------------------- positions and slots

  /** Inside one window of the ring, different positions use different slots. */
  lemma WindowInjective(n: nat, p: int, q: int)
    requires n > 0 && p % n == q % n && p - n < q < p + n
    ensures p == q
  {
    assert p == n * (p / n) + p % n && q == n * (q / n) + q % n;
    assert q - p == n * (q / n - p / n);
    SmallMultiple(n, q / n - p / n);
  }

  /** Some position of the window uses slot `i`. */
  lemma WindowSurjective(n: nat, low: int, i: int) returns (p: int)
    requires n > 0 && 0 <= i < n
    ensures low <= p < low + n && p % n == i
  {
    p := low + (i - low) % n;
    var k := (i - low) / n;
    assert i - low == n * k + (i - low) % n;
    assert p == i + n * (-k);
    ShiftMod(n, i, -k);
  }

  /** One turn of the ring comes back to the same slot. */
  lemma TurnMod(n: nat, p: int)
    requires n > 0
    ensures (p + n) % n == p % n
  {
    assert p == n * (p / n) + p % n;
    assert p + n == p % n + n * (p / n + 1);
    ShiftMod(n, p % n, p / n + 1);
  }

  // ---------------------------------------------------------------- invariant

  /** Positions below this are released to the producers again. */
  function Low<T>(s: State<T>): int {
    if s.consumer.Released? then s.tail + 1 else s.tail
  }

  predicate Owns<T>(x: Producer<T>, position: int) {
    (x.Won? || x.Written?) && x.position == position
  }

  ghost predicate HasOwner<T>(s: State<T>, position: int) {
    exists i :: 0 <= i < |s.producers| && Owns(s.producers[i], position)
  }

  /** A position of the window is free, claimed by a producer, or published with its value. */
  ghost predicate SlotOk<T>(s: State<T>, p: int)
    requires Capacity(s) > 0 && |s.pushed| == s.head
  {
    if p >= s.head then At(s, p).sequence == p
    else if p < 0 then false
    else
      || (At(s, p).sequence == p && HasOwner(s, p))
      || (At(s, p).sequence == p + 1 && At(s, p).data == s.pushed[p])
  }

  ghost predicate ProducerOk<T>(s: State<T>, x: Producer<T>)
    requires Capacity(s) > 0 && |s.pushed| == s.head
  {
    match x
    case Loaded(_, pos) => pos <= s.head
    case Ready(_, pos) => pos <= s.head && pos < Low(s) + Capacity(s)
    case Won(v, pos) => 0 <= Low(s) <= pos < s.head && At(s, pos).sequence == pos && s.pushed[pos] == v
    case Written(v, pos) => 0 <= Low(s) <= pos < s.head && At(s, pos).sequence == pos && s.pushed[pos] == v
        && At(s, pos).data == v
    case _ => true
  }

  ghost predicate ConsumerOk<T>(s: State<T>)
    requires Capacity(s) > 0 && |s.pushed| == s.head
  {
    match s.consumer
    case Resting => true
    case Aiming(pos) => pos == s.tail
    case Seen(pos) => 0 <= pos == s.tail < s.head && At(s, pos).sequence == pos + 1
    case Holding(pos, v) => 0 <= pos == s.tail < s.head && At(s, pos).sequence == pos + 1 && v == s.pushed[pos]
    case Released(pos, v) => 0 <= pos == s.tail < s.head && v == s.pushed[pos]
  }

  ghost predicate Exclusive<T>(ps: seq<Producer<T>>) {
    forall i, j, pos :: 0 <= i < j < |ps| && Owns(ps[i], pos) ==> !Owns(ps[j], pos)
  }

  ghost predicate Inv<T>(s: State<T>) {
    && Capacity(s) >= 2 && |s.pushed| == s.head && |s.popped| == s.tail
    && 0 <= s.tail && Low(s) <= s.head <= Low(s) + Capacity(s)
    && s.popped == s.pushed[..s.tail]
    && (forall p :: Low(s) <= p < Low(s) + Capacity(s) ==> SlotOk(s, p))
    && (forall i :: 0 <= i < |s.producers| ==> ProducerOk(s, s.producers[i]))
    && Exclusive(s.producers)
    && ConsumerOk(s)
  }

  // ---------------------------------------------------------------- what the invariant says

  /**
   The test of `try_push`, decided: the sequence matches exactly when the position is in the window
   and either is the head or has been won and not yet published; it is smaller exactly when the
   position is the head and the buffer is full at this very moment.
   */
  lemma JudgeIsRight<T>(s: State<T>, pos: int)
    requires Inv(s) && pos <= s.head
    ensures At(s, pos).sequence == pos <==>
              Low(s) <= pos < Low(s) + Capacity(s) && (pos == s.head || HasOwner(s, pos))
    ensures At(s, pos).sequence < pos <==> pos == s.head && s.head - Low(s) == Capacity(s)
  {
    var n := Capacity(s);
    if pos >= Low(s) {
      if pos == Low(s) + n {
        TurnMod(n, Low(s));
        assert SlotOk(s, Low(s));
      } else {
        assert SlotOk(s, pos);
      }
    } else {
      var p := WindowSurjective(n, Low(s), Index(s, pos));
      assert SlotOk(s, p);
    }
  }

  /**
   The test of `try_pop`, decided: the sequence has reached the next position exactly when the oldest
   position is published. It is then exactly the next position, and the slot holds the value.
   */
  lemma PopTestIsRight<T>(s: State<T>)
    requires Inv(s) && s.consumer.Aiming?
    ensures s.consumer.position == s.tail
    ensures At(s, s.tail).sequence >= s.tail + 1 <==> s.tail < s.head && !HasOwner(s, s.tail)
    ensures s.tail < s.head && !HasOwner(s, s.tail) ==>
              At(s, s.tail).sequence == s.tail + 1 && At(s, s.tail).data == s.pushed[s.tail]
  {
    assert SlotOk(s, s.tail);
    if HasOwner(s, s.tail) { OwnedIsUnpublished(s, s.tail); }
  }

  lemma OwnedIsUnpublished<T>(s: State<T>, pos: int)
    requires Inv(s) && HasOwner(s, pos)
    ensures At(s, pos).sequence == pos
  {
    var i :| 0 <= i < |s.producers| && Owns(s.producers[i], pos);
    assert ProducerOk(s, s.producers[i]);
  }

  /** Between winning and publishing, the slot belongs to one producer and the consumer is elsewhere. */
  lemma OwnershipIsExclusive<T>(s: State<T>, i: int, pos: int)
    requires Inv(s) && 0 <= i < |s.producers| && Owns(s.producers[i], pos)
    ensures forall j, q :: 0 <= j < |s.producers| && j != i && Owns(s.producers[j], q) ==> Index(s, q) != Index(s, pos)
    ensures s.consumer.Seen? || s.consumer.Holding? ==> Index(s, s.consumer.position) != Index(s, pos)
  {
    var n := Capacity(s);
    assert ProducerOk(s, s.producers[i]);
    forall j, q | 0 <= j < |s.producers| && j != i && Owns(s.producers[j], q)
      ensures Index(s, q) != Index(s, pos)
    {
      assert ProducerOk(s, s.producers[j]);
      assert q != pos;
      if Index(s, q) == Index(s, pos) { WindowInjective(n, q, pos); }
    }
    if s.consumer.Seen? || s.consumer.Holding? {
      if Index(s, s.consumer.position) == Index(s, pos) { WindowInjective(n, s.consumer.position, pos); }
    }
  }

  lemma CountersAreClose<T>(s: State<T>)
    requires Inv(s)
    ensures 0 <= s.head - s.tail <= Capacity(s) + 1
    ensures s.head - s.tail == Capacity(s) + 1 ==> s.consumer.Released?
  {
  }

  // ---------------------------------------------------------------- steps

  lemma Elsewhere<T>(s: State<T>, pos: int)
    requires Inv(s) && Low(s) <= pos < Low(s) + Capacity(s)
    ensures forall p :: Low(s) <= p < Low(s) + Capacity(s) && p != pos ==> Index(s, p) != Index(s, pos)
  {
    forall p | Low(s) <= p < Low(s) + Capacity(s) && p != pos
      ensures Index(s, p) != Index(s, pos)
    {
      if Index(s, p) == Index(s, pos) { WindowInjective(Capacity(s), p, pos); }
    }
  }

  /** Moving a producer that owns nothing before or after changes no slot. */
  lemma MoveKeepsInv<T>(s: State<T>, p: nat, x: Producer<T>)
    requires Inv(s) && p < |s.producers|
    requires !s.producers[p].Won? && !s.producers[p].Written? && !x.Won? && !x.Written?
    requires ProducerOk(s, x)
    ensures Inv(SetProducer(s, p, x))
  {
    var s' := SetProducer(s, p, x);
    forall q | HasOwner(s, q) ensures HasOwner(s', q) {
      var i :| 0 <= i < |s.producers| && Owns(s.producers[i], q);
      assert Owns(s'.producers[i], q);
    }
    forall q | Low(s') <= q < Low(s') + Capacity(s') ensures SlotOk(s', q) { assert SlotOk(s, q); }
    forall i | 0 <= i < |s'.producers| ensures ProducerOk(s', s'.producers[i]) {
      if i != p { assert ProducerOk(s, s.producers[i]); }
    }
    forall i, j, q | 0 <= i < j < |s'.producers| && Owns(s'.producers[i], q) ensures !Owns(s'.producers[j], q) {
      assert i != p ==> Owns(s.producers[i], q);
    }
  }

  lemma WinKeepsInv<T>(s: State<T>, p: nat, v: T, pos: int)
    requires Inv(s) && p < |s.producers| && s.producers[p] == Ready(v, pos) && s.head == pos
    ensures Inv(SetProducer(s, p, Won(v, pos)).(head := pos + 1, pushed := s.pushed + [v]))
  {
    var s' := SetProducer(s, p, Won(v, pos)).(head := pos + 1, pushed := s.pushed + [v]);
    assert ProducerOk(s, s.producers[p]);
    assert SlotOk(s, pos);
    assert Owns(s'.producers[p], pos);
    assert HasOwner(s', pos);
    forall q | HasOwner(s, q) ensures HasOwner(s', q) {
      var i :| 0 <= i < |s.producers| && Owns(s.producers[i], q);
      assert Owns(s'.producers[i], q);
    }
    forall q | Low(s') <= q < Low(s') + Capacity(s') ensures SlotOk(s', q) {
      assert SlotOk(s, q);
      assert At(s', q) == At(s, q);
    }
    forall i | 0 <= i < |s'.producers| ensures ProducerOk(s', s'.producers[i]) {
      if i != p { assert ProducerOk(s, s.producers[i]); }
    }
    forall i, j, q | 0 <= i < j < |s'.producers| && Owns(s'.producers[i], q) ensures !Owns(s'.producers[j], q) {
      assert ProducerOk(s, s.producers[i]) && ProducerOk(s, s.producers[j]);
    }
    assert s'.popped == s'.pushed[..s'.tail];
  }

  lemma WriteKeepsInv<T>(s: State<T>, p: nat, v: T, pos: int)
    requires Inv(s) && p < |s.producers| && s.producers[p] == Won(v, pos)
    ensures Inv(SetProducer(SetSlot(s, pos, At(s, pos).(data := v)), p, Written(v, pos)))
  {
    var s' := SetProducer(SetSlot(s, pos, At(s, pos).(data := v)), p, Written(v, pos));
    assert ProducerOk(s, s.producers[p]);
    assert Owns(s.producers[p], pos);
    Elsewhere(s, pos);
    OwnershipIsExclusive(s, p, pos);
    forall q | HasOwner(s, q) ensures HasOwner(s', q) {
      var i :| 0 <= i < |s.producers| && Owns(s.producers[i], q);
      assert Owns(s'.producers[i], q);
    }
    forall q | Low(s') <= q < Low(s') + Capacity(s') ensures SlotOk(s', q) { assert SlotOk(s, q); }
    forall i | 0 <= i < |s'.producers| ensures ProducerOk(s', s'.producers[i]) {
      if i != p {
        assert ProducerOk(s, s.producers[i]);
        if s.producers[i].Won? || s.producers[i].Written? { assert Owns(s.producers[i], s.producers[i].position); }
      }
    }
    forall i, j, q | 0 <= i < j < |s'.producers| && Owns(s'.producers[i], q) ensures !Owns(s'.producers[j], q) {
      assert Owns(s.producers[i], q);
    }
  }

  lemma PublishKeepsInv<T>(s: State<T>, p: nat, v: T, pos: int)
    requires Inv(s) && p < |s.producers| && s.producers[p] == Written(v, pos)
    ensures Inv(SetProducer(SetSlot(s, pos, At(s, pos).(sequence := pos + 1)), p, Idle))
  {
    var s' := SetProducer(SetSlot(s, pos, At(s, pos).(sequence := pos + 1)), p, Idle);
    assert ProducerOk(s, s.producers[p]);
    assert Owns(s.producers[p], pos);
    Elsewhere(s, pos);
    OwnershipIsExclusive(s, p, pos);
    forall q | HasOwner(s, q) && q != pos ensures HasOwner(s', q) {
      var i :| 0 <= i < |s.producers| && Owns(s.producers[i], q);
      assert Owns(s'.producers[i], q);
    }
    forall q | Low(s') <= q < Low(s') + Capacity(s') ensures SlotOk(s', q) { assert SlotOk(s, q); }
    forall i | 0 <= i < |s'.producers| ensures ProducerOk(s', s'.producers[i]) {
      if i != p {
        assert ProducerOk(s, s.producers[i]);
        if s.producers[i].Won? || s.producers[i].Written? { assert Owns(s.producers[i], s.producers[i].position); }
      }
    }
    forall i, j, q | 0 <= i < j < |s'.producers| && Owns(s'.producers[i], q) ensures !Owns(s'.producers[j], q) {
      assert Owns(s.producers[i], q);
    }
  }

  lemma ProducerAt<T>(s: State<T>, p: nat)
    requires Inv(s) && p < |s.producers|
    ensures Capacity(s) > 0 && |s.pushed| == s.head && ProducerOk(s, s.producers[p])
  {
  }

  lemma ProducerStepKeepsInv<T>(s: State<T>, p: nat, a: Action<T>)
    requires Inv(s) && p < |s.producers|
    ensures Inv(ProducerStep(s, p, a))
  {
    hide Inv;
    ProducerAt(s, p);
    match (a, s.producers[p])
    case (Start(_, v), Idle) => MoveKeepsInv(s, p, Entering(v));
    case (LoadHead(_), Entering(v)) => MoveKeepsInv(s, p, Loaded(v, s.head));
    case (LoadSequence(_), Loaded(v, pos)) =>
      JudgeIsRight(s, pos);
      MoveKeepsInv(s, p, Judge(s, v, pos));
    case (CompareExchange(_, spurious), Ready(v, pos)) =>
      if s.head == pos && !spurious { WinKeepsInv(s, p, v, pos); } else { MoveKeepsInv(s, p, Loaded(v, s.head)); }
    case (WriteData(_), Won(v, pos)) => WriteKeepsInv(s, p, v, pos);
    case (Publish(_), Written(v, pos)) => PublishKeepsInv(s, p, v, pos);
    case _ =>
  }

  /** Steps of the consumer that touch no slot and no counter. */
  lemma AimKeepsInv<T>(s: State<T>, c: Consumer<T>)
    requires Inv(s) && !s.consumer.Released? && !c.Released? && ConsumerOk(s.(consumer := c))
    ensures Inv(s.(consumer := c))
  {
    var s' := s.(consumer := c);
    forall q | HasOwner(s, q) ensures HasOwner(s', q) {}
    forall q | Low(s') <= q < Low(s') + Capacity(s') ensures SlotOk(s', q) { assert SlotOk(s, q); }
    forall i | 0 <= i < |s'.producers| ensures ProducerOk(s', s'.producers[i]) { assert ProducerOk(s, s.producers[i]); }
  }

  lemma ReleaseKeepsInv<T>(s: State<T>, pos: int, v: T)
    requires Inv(s) && s.consumer == Holding(pos, v)
    ensures Inv(SetSlot(s, pos, At(s, pos).(sequence := pos + Capacity(s))).(consumer := Released(pos, v)))
  {
    var n := Capacity(s);
    var s' := SetSlot(s, pos, At(s, pos).(sequence := pos + n)).(consumer := Released(pos, v));
    TurnMod(n, pos);
    Elsewhere(s, pos);
    forall q | HasOwner(s, q) ensures HasOwner(s', q) {}
    forall q | Low(s') <= q < Low(s') + n ensures SlotOk(s', q) {
      if q < pos + n { assert SlotOk(s, q); }
    }
    forall i | 0 <= i < |s'.producers| ensures ProducerOk(s', s'.producers[i]) {
      assert ProducerOk(s, s.producers[i]);
      if s.producers[i].Won? || s.producers[i].Written? {
        assert Owns(s.producers[i], s.producers[i].position);
        OwnershipIsExclusive(s, i, s.producers[i].position);
      }
    }
  }

  lemma AdvanceKeepsInv<T>(s: State<T>, pos: int, v: T)
    requires Inv(s) && s.consumer == Released(pos, v)
    ensures Inv(s.(consumer := Resting, tail := pos + 1, popped := s.popped + [v]))
  {
    var s' := s.(consumer := Resting, tail := pos + 1, popped := s.popped + [v]);
    forall q | HasOwner(s, q) ensures HasOwner(s', q) {}
    forall q | Low(s') <= q < Low(s') + Capacity(s') ensures SlotOk(s', q) { assert SlotOk(s, q); }
    forall i | 0 <= i < |s'.producers| ensures ProducerOk(s', s'.producers[i]) { assert ProducerOk(s, s.producers[i]); }
    assert s.pushed[..pos + 1] == s.pushed[..pos] + [s.pushed[pos]];
  }

  lemma ConsumerStepKeepsInv<T>(s: State<T>, a: Action<T>)
    requires Inv(s)
    ensures Inv(ConsumerStep(s, a))
  {
    match (a, s.consumer)
    case (PopLoadTail, Resting) => AimKeepsInv(s, Aiming(s.tail));
    case (PopLoadSequence, Aiming(pos)) =>
      PopTestIsRight(s);
      AimKeepsInv(s, if At(s, pos).sequence - (pos + 1) < 0 then Resting else Seen(pos));
    case (PopReadData, Seen(pos)) =>
      assert SlotOk(s, pos);
      AimKeepsInv(s, Holding(pos, At(s, pos).data));
    case (PopRelease, Holding(pos, v)) => ReleaseKeepsInv(s, pos, v);
    case (PopAdvance, Released(pos, v)) => AdvanceKeepsInv(s, pos, v);
    case _ =>
  }

  lemma StepKeepsInv<T>(s: State<T>, a: Action<T>)
    requires Inv(s)
    ensures Inv(Next(s, a))
  {
    hide Inv;
    CapacityOf(s);
    if ByConsumer(a) { ConsumerStepKeepsInv(s, a); }
    else if a.producer < |s.producers| { ProducerStepKeepsInv(s, a.producer, a); }
  }

  lemma CapacityOf<T>(s: State<T>)
    requires Inv(s)
    ensures Capacity(s) >= 2
  {
  }

  /** Sequence numbers of slots never go back. */
  lemma SequencesGrow<T>(s: State<T>, a: Action<T>, i: int)
    requires Inv(s) && 0 <= i < Capacity(s)
    ensures Capacity(Next(s, a)) == Capacity(s) && s.slots[i].sequence <= Next(s, a).slots[i].sequence
  {
    if !ByConsumer(a) && a.producer < |s.producers| { assert ProducerOk(s, s.producers[a.producer]); }
  }

  // ---------------------------------------------------------------- runs

  lemma InitKeepsInv<T>(data: seq<T>, producers: nat)
    requires |data| >= 2
    ensures Inv(Init(data, producers))
  {
    var s := Init(data, producers);
    forall p | 0 <= p < |data| ensures SlotOk(s, p) { SmallMod(|data|, p); }
  }

  lemma SmallMod(n: nat, p: int)
    requires 0 <= p < n
    ensures p % n == p
  {
    assert p == p + n * 0;
    ShiftMod(n, p, 0);
  }

  /** The invariant holds after every run of every number of producers. */
  lemma {:induction false} RunKeepsInv<T>(data: seq<T>, producers: nat, actions: seq<Action<T>>)
    requires |data| >= 2
    ensures Inv(Run(Init(data, producers), actions))
  {
    hide Inv, Next, Init;
    if actions == [] {
      InitKeepsInv(data, producers);
    } else {
      RunKeepsInv(data, producers, actions[..|actions| - 1]);
      StepKeepsInv(Run(Init(data, producers), actions[..|actions| - 1]), actions[|actions| - 1]);
    }
  }

  /** The popped values are exactly the first ones in the order their producers won the head. */
  lemma PoppedIsPrefix<T>(data: seq<T>, producers: nat, actions: seq<Action<T>>)
    requires |data| >= 2
    ensures var s := Run(Init(data, producers), actions);
            0 <= s.tail <= s.head == |s.pushed| && s.popped == s.pushed[..s.tail]
  {
    RunKeepsInv(data, producers, actions);
  }

  // ---------------------------------------------------------------- capacity one

  /** No loss, no duplicate, no reordering, for buffers of one capacity. */
  ghost predicate Faithful(capacity: nat)
    requires capacity > 0
  {
    forall data: seq<int>, producers: nat, actions: seq<Action<int>> :: |data| == capacity ==>
      PopsPrefix(Run(Init(data, producers), actions))
  }

  predicate PopsPrefix(s: State<int>) {
    s.popped <= s.pushed
  }

  lemma RunAppend<T>(s: State<T>, actions: seq<Action<T>>, a: Action<T>)
    requires Capacity(s) > 0
    ensures Run(s, actions + [a]) == Next(Run(s, actions), a)
  {
    assert (actions + [a])[..|actions + [a]| - 1] == actions;
  }

  lemma {:induction false} RunConcat<T>(s: State<T>, a: seq<Action<T>>, b: seq<Action<T>>)
    requires Capacity(s) > 0
    ensures Run(s, a + b) == Run(Run(s, a), b)
  {
    if b == [] {
      assert a + b == a;
    } else {
      assert (a + b)[..|a + b| - 1] == a + b[..|b| - 1];
      RunConcat(s, a, b[..|b| - 1]);
    }
  }

  /** Two actions, one after the other. */
  lemma RunTwo<T>(s: State<T>, a: Action<T>, b: Action<T>)
    requires Capacity(s) > 0
    ensures Capacity(Next(s, a)) > 0 && Run(s, [a, b]) == Next(Next(s, a), b)
  {
    NextCapacity(s, a);
    assert Run(s, []) == s;
    RunAppend(s, [], a);
    assert [] + [a] == [a];
    RunAppend(s, [a], b);
    assert [a] + [b] == [a, b];
  }

  /** With one slot, "filled" and "free again" are the same number, so a push is never refused. */
  predicate OneSlot(t: State<int>) {
    Capacity(t) == 1 && t.producers == [Idle] && t.slots[0].sequence == t.head
  }

  function PushActions(value: int): seq<Action<int>> {
    [Start(0, value), LoadHead(0)] + [LoadSequence(0), CompareExchange(0, false)] + [WriteData(0), Publish(0)]
  }

  lemma StartOne(t: State<int>, v: int)
    requires OneSlot(t)
    ensures Next(t, Start(0, v)) == t.(producers := [Entering(v)])
    ensures Next(t.(producers := [Entering(v)]), LoadHead(0)) == t.(producers := [Loaded(v, t.head)])
  {
  }

  lemma TestOne(t: State<int>, v: int)
    requires OneSlot(t)
    ensures Next(t.(producers := [Loaded(v, t.head)]), LoadSequence(0)) == t.(producers := [Ready(v, t.head)])
  {
    hide Index;
  }

  lemma WinOne(t: State<int>, v: int)
    requires OneSlot(t)
    ensures Next(t.(producers := [Ready(v, t.head)]), CompareExchange(0, false)) ==
            t.(producers := [Won(v, t.head)], head := t.head + 1, pushed := t.pushed + [v])
  {
  }

  lemma WriteOne(t: State<int>, v: int, pos: int)
    requires Capacity(t) == 1 && t.producers == [Won(v, pos)]
    ensures Next(t, WriteData(0)) == t.(producers := [Written(v, pos)], slots := [Slot(t.slots[0].sequence, v)])
  {
    hide Index;
  }

  lemma PublishOne(t: State<int>, v: int, pos: int)
    requires Capacity(t) == 1 && t.producers == [Written(v, pos)]
    ensures Next(t, Publish(0)) == t.(producers := [Idle], slots := [Slot(pos + 1, t.slots[0].data)])
  {
    hide Index;
  }

  lemma ClaimOneSlot(t: State<int>, v: int)
    requires OneSlot(t)
    ensures Run(t, [Start(0, v), LoadHead(0)]) == t.(producers := [Loaded(v, t.head)])
    ensures Run(t.(producers := [Loaded(v, t.head)]), [LoadSequence(0), CompareExchange(0, false)]) ==
            t.(producers := [Won(v, t.head)], head := t.head + 1, pushed := t.pushed + [v])
  {
    hide Run, Next;
    StartOne(t, v);
    RunTwo(t, Start(0, v), LoadHead(0));
    TestOne(t, v);
    WinOne(t, v);
    RunTwo(t.(producers := [Loaded(v, t.head)]), LoadSequence(0), CompareExchange(0, false));
  }

  lemma FillOneSlot(t: State<int>, v: int)
    requires Capacity(t) == 1 && t.producers == [Won(v, t.head - 1)]
    ensures Run(t, [WriteData(0), Publish(0)]) == t.(producers := [Idle], slots := [Slot(t.head, v)])
  {
    hide Run, Next;
    WriteOne(t, v, t.head - 1);
    PublishOne(t.(producers := [Written(v, t.head - 1)], slots := [Slot(t.slots[0].sequence, v)]), v, t.head - 1);
    RunTwo(t, WriteData(0), Publish(0));
  }

  lemma PushIntoOneSlot(t: State<int>, v: int)
    requires OneSlot(t)
    ensures Run(t, PushActions(v)) == t.(head := t.head + 1, slots := [Slot(t.head + 1, v)], pushed := t.pushed + [v])
  {
    hide Run;
    var a, b, c := [Start(0, v), LoadHead(0)], [LoadSequence(0), CompareExchange(0, false)], [WriteData(0), Publish(0)];
    ClaimOneSlot(t, v);
    RunConcat(t, a + b, c);
    RunConcat(t, a, b);
    FillOneSlot(t.(producers := [Won(v, t.head)], head := t.head + 1, pushed := t.pushed + [v]), v);
  }

  function PopActions(): seq<Action<int>> {
    [PopLoadTail, PopLoadSequence] + [PopReadData, PopRelease] + [PopAdvance]
  }

  lemma AimOne(t: State<int>)
    requires Capacity(t) == 1 && t.consumer == Resting && t.slots[0].sequence > t.tail
    ensures Next(t, PopLoadTail) == t.(consumer := Aiming(t.tail))
    ensures Next(t.(consumer := Aiming(t.tail)), PopLoadSequence) == t.(consumer := Seen(t.tail))
  {
    hide Index;
  }

  lemma TakeOne(t: State<int>)
    requires Capacity(t) == 1 && t.consumer == Seen(t.tail)
    ensures var v := t.slots[0].data;
            && Next(t, PopReadData) == t.(consumer := Holding(t.tail, v))
            && Next(t.(consumer := Holding(t.tail, v)), PopRelease) ==
               t.(consumer := Released(t.tail, v), slots := [Slot(t.tail + 1, v)])
  {
    hide Index;
  }

  /** A pop then takes whatever the slot holds last. */
  lemma PopFromOneSlot(t: State<int>)
    requires Capacity(t) == 1 && t.consumer == Resting && t.slots[0].sequence > t.tail
    ensures Run(t, PopActions()).pushed == t.pushed && Run(t, PopActions()).popped == t.popped + [t.slots[0].data]
  {
    hide Run;
    var v := t.slots[0].data;
    AimOne(t);
    RunTwo(t, PopLoadTail, PopLoadSequence);
    var u := t.(consumer := Seen(t.tail));
    TakeOne(u);
    RunTwo(u, PopReadData, PopRelease);
    var w := u.(consumer := Released(t.tail, v), slots := [Slot(t.tail + 1, v)]);
    RunConcat(t, [PopLoadTail, PopLoadSequence] + [PopReadData, PopRelease], [PopAdvance]);
    RunConcat(t, [PopLoadTail, PopLoadSequence], [PopReadData, PopRelease]);
    RunOne(w, PopAdvance);
  }

  lemma RunOne<T>(s: State<T>, a: Action<T>)
    requires Capacity(s) > 0
    ensures Run(s, [a]) == Next(s, a)
  {
    RunAppend(s, [], a);
    assert [] + [a] == [a];
  }

  /** Two pushes and one pop on a single slot: the first value is gone. */
  lemma OneSlotLosesValue()
    ensures var s := Run(Init([0], 1), PushActions(1) + PushActions(2) + PopActions());
            s.pushed == [1, 2] && s.popped == [2]
  {
    hide Run, PushActions, PopActions;
    var s := Init([0], 1);
    assert s == State(0, 0, [Slot(0, 0)], [Idle], Resting, [], []);
    PushIntoOneSlot(s, 1);
    var t := State(1, 0, [Slot(1, 1)], [Idle], Resting, [1], []);
    assert Run(s, PushActions(1)) == t;
    PushIntoOneSlot(t, 2);
    var u := State(2, 0, [Slot(2, 2)], [Idle], Resting, [1, 2], []);
    assert Run(t, PushActions(2)) == u;
    PopFromOneSlot(u);
    RunConcat(s, PushActions(1) + PushActions(2), PopActions());
    RunConcat(s, PushActions(1), PushActions(2));
  }

  /** The buffer is faithful exactly for capacities of at least two. */
  lemma FaithfulIff(capacity: nat)
    requires capacity > 0
    ensures Faithful(capacity) <==> capacity >= 2
  {
    if capacity >= 2 {
      forall data: seq<int>, producers: nat, actions: seq<Action<int>> | |data| == capacity
        ensures PopsPrefix(Run(Init(data, producers), actions))
      {
        PoppedIsPrefix(data, producers, actions);
      }
    } else {
      OneSlotLosesValue();
      var actions := PushActions(1) + PushActions(2) + PopActions();
      var s := Run(Init([0], 1), actions);
      assert |[0]| == capacity && s.popped[0] != s.pushed[0];
      assert !PopsPrefix(s);
    }
  }
}
