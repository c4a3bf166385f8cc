/** What a push and a pop of the ring buffer do, step by step and as a whole, in every reachable state. */
module RingLaws {
  import opened RingBuffer

  /** Every slot is claimed or holds a value that is not yet released. */
  predicate Full<T>(s: State<T>) {
    s.head - Low(s) == Capacity(s)
  }

  /** The oldest value is there to be taken. */
  ghost predicate Published<T>(s: State<T>) {
    s.tail < s.head && !HasOwner(s, s.tail)
  }

  /** The position is in the window and is the head, or another producer's that is not yet published. */
  ghost predicate Claimable<T>(s: State<T>, pos: int) {
    Low(s) <= pos < Low(s) + Capacity(s) && (pos == s.head || HasOwner(s, pos))
  }

  // ---------------------------------------------------------------- pushing

  /** It is the producer's turn, and this is what it does next. */
  predicate HasTurn<T>(s: State<T>, p: nat, a: Action<T>) {
    && p < |s.producers| && !ByConsumer(a) && a.producer == p
    && match s.producers[p]
       case Idle => a.Start?
       case Entering(_) => a.LoadHead?
       case Loaded(_, _) => a.LoadSequence?
       case Ready(_, _) => a.CompareExchange?
       case Won(_, _) => a.WriteData?
       case Written(_, _) => a.Publish?
  }

  /** Where its turn takes a producer, told from the counters and from who owns what. */
  ghost predicate Moves<T>(s: State<T>, s': State<T>, p: nat, a: Action<T>)
    requires HasTurn(s, p, a)
  {
    && Capacity(s) == Capacity(s') > 0 && |s.pushed| == s.head && |s'.producers| == |s.producers|
    && var x' := s'.producers[p];
    match s.producers[p]
    case Idle => x' == Entering(a.value)
    case Entering(v) => x' == Loaded(v, s.head)
    case Loaded(v, pos) =>
      x' == if pos == s.head && Full(s) then Idle else if Claimable(s, pos) then Ready(v, pos) else Entering(v)
    case Ready(v, pos) => x' == if pos == s.head && !a.spurious then Won(v, pos) else Loaded(v, s.head)
    case Won(v, pos) => x' == Written(v, pos) && At(s', pos) == Slot(pos, v)
    case Written(v, pos) => x' == Idle && 0 <= pos < s.head && s.pushed[pos] == v && At(s', pos) == Slot(pos + 1, v)
  }

  /** The turn wins the head: the value gets its place in the order. */
  predicate Wins<T>(s: State<T>, p: nat, a: Action<T>) {
    HasTurn(s, p, a) && s.producers[p].Ready? && s.producers[p].position == s.head && !a.spurious
  }

  /**
   A producer moves exactly in its turn, and then as told above. The head moves, and a value is
   added, exactly when a producer wins.
   */
  lemma PushMoves<T>(data: seq<T>, producers: nat, actions: seq<Action<T>>, a: Action<T>, p: nat)
    requires |data| >= 2 && p < |Run(Init(data, producers), actions).producers|
    ensures var s := Run(Init(data, producers), actions);
            var s' := Next(s, a);
            && |s'.producers| == |s.producers|
            && (if HasTurn(s, p, a) then Moves(s, s', p, a) else s'.producers[p] == s.producers[p])
            && (Wins(s, p, a) ==> s'.head == s.head + 1 && s'.pushed == s.pushed + [s.producers[p].value])
            && ((ByConsumer(a) || a.producer == p) && !Wins(s, p, a) ==> s'.head == s.head && s'.pushed == s.pushed)
  {
    RunKeepsInv(data, producers, actions);
    MoveOf(Run(Init(data, producers), actions), p, a);
  }

  lemma MoveOf<T>(s: State<T>, p: nat, a: Action<T>)
    requires Inv(s) && p < |s.producers|
    ensures var s' := Next(s, a);
            && |s'.producers| == |s.producers|
            && (if HasTurn(s, p, a) then Moves(s, s', p, a) else s'.producers[p] == s.producers[p])
            && (Wins(s, p, a) ==> s'.head == s.head + 1 && s'.pushed == s.pushed + [s.producers[p].value])
            && ((ByConsumer(a) || a.producer == p) && !Wins(s, p, a) ==> s'.head == s.head && s'.pushed == s.pushed)
  {
    hide Inv;
    ProducerAt(s, p);
    if HasTurn(s, p, a) {
      TurnMoves(s, p, a);
    }
  }

  lemma TurnMoves<T>(s: State<T>, p: nat, a: Action<T>)
    requires Inv(s) && HasTurn(s, p, a)
    ensures Moves(s, Next(s, a), p, a)
  {
    hide Inv;
    ProducerAt(s, p);
    match s.producers[p]
    case Loaded(_, pos) =>
      JudgeIsRight(s, pos);
    case _ =>
  }

  /**
   A push ends in one of two ways. Either its value is in the buffer, in order and published, or it
   found the head at its position and the buffer full at that very step, and changed nothing.
   */
  lemma PushEnds<T>(data: seq<T>, producers: nat, actions: seq<Action<T>>, a: Action<T>, p: nat)
    requires |data| >= 2 && p < |Run(Init(data, producers), actions).producers|
    requires var s := Run(Init(data, producers), actions);
             !s.producers[p].Idle? && p < |Next(s, a).producers| && Next(s, a).producers[p].Idle?
    ensures var s := Run(Init(data, producers), actions);
            var s' := Next(s, a);
            && Capacity(s') > 0
            && match s.producers[p]
               case Written(v, pos) => 0 <= pos < |s'.pushed| && s'.pushed[pos] == v && At(s', pos) == Slot(pos + 1, v)
               case Loaded(v, pos) => pos == s.head && Full(s) && s' == s.(producers := s.producers[p := Idle])
               case _ => false
  {
    PushMoves(data, producers, actions, a, p);
  }

  // ---------------------------------------------------------------- popping

  /**
   What an action does to the consumer. It gives up exactly when the oldest position is not
   published. Otherwise it reads the value pushed there, releases the slot for the next round, and
   then the value is popped. No other action concerns it.
   */
  ghost predicate Pops<T>(s: State<T>, s': State<T>, a: Action<T>) {
    && 0 <= s.tail && |s.pushed| == s.head && Capacity(s') == Capacity(s) > 0
    && match (a, s.consumer)
       case (PopLoadTail, Resting) => s' == s.(consumer := Aiming(s.tail))
       case (PopLoadSequence, Aiming(_)) => s' == s.(consumer := if Published(s) then Seen(s.tail) else Resting)
       case (PopReadData, Seen(_)) =>
         s.tail < s.head && s' == s.(consumer := Holding(s.tail, s.pushed[s.tail]))
       case (PopRelease, Holding(_, v)) =>
         && s.tail < s.head && v == s.pushed[s.tail]
         && s' == SetSlot(s, s.tail, Slot(s.tail + Capacity(s), v)).(consumer := Released(s.tail, v))
       case (PopAdvance, Released(_, _)) =>
         && s.tail < s.head
         && s' == s.(consumer := Resting, tail := s.tail + 1, popped := s.popped + [s.pushed[s.tail]])
       case _ => s'.consumer == s.consumer && s'.tail == s.tail && s'.popped == s.popped
  }

  lemma PopMoves<T>(data: seq<T>, producers: nat, actions: seq<Action<T>>, a: Action<T>)
    requires |data| >= 2
    ensures var s := Run(Init(data, producers), actions); Pops(s, Next(s, a), a)
  {
    RunKeepsInv(data, producers, actions);
    PopMoveOf(Run(Init(data, producers), actions), a);
  }

  lemma ConsumerAt<T>(s: State<T>)
    requires Inv(s)
    ensures Capacity(s) > 0 && |s.pushed| == s.head && 0 <= s.tail && ConsumerOk(s)
    ensures s.consumer.Seen? || s.consumer.Holding? ==>
              s.tail < s.head && At(s, s.tail) == Slot(s.tail + 1, s.pushed[s.tail])
  {
    assert Low(s) <= s.tail ==> SlotOk(s, s.tail);
  }

  lemma PopMoveOf<T>(s: State<T>, a: Action<T>)
    requires Inv(s)
    ensures Pops(s, Next(s, a), a)
  {
    ConsumerAt(s);
    hide Inv;
    if s.consumer.Aiming? { PopTestIsRight(s); }
  }

  // ---------------------------------------------------------------- refusals

  /**
   Over every run, step by step: a push is refused exactly when it tests a full buffer at its head,
   a pop finds nothing exactly when it tests an unpublished tail, and head and tail are at most a
   capacity apart, or one more between the consumer's two stores.
   */
  lemma RefusalsAreRight<T>(data: seq<T>, producers: nat, actions: seq<Action<T>>, a: Action<T>, p: nat)
    requires |data| >= 2 && p < |Run(Init(data, producers), actions).producers|
    ensures var s := Run(Init(data, producers), actions);
            var s' := Next(s, a);
            && |s'.producers| == |s.producers|
            && (!s.producers[p].Idle? && !s.producers[p].Written? && s'.producers[p].Idle? <==>
                a == LoadSequence(p) && s.producers[p].Loaded? && s.producers[p].position == s.head && Full(s))
            && (s.consumer.Aiming? && s'.consumer.Resting? <==>
                a.PopLoadSequence? && s.consumer.Aiming? && !Published(s))
            && 0 <= s.head - s.tail <= |data| + (if s.consumer.Released? then 1 else 0)
  {
    PushMoves(data, producers, actions, a, p);
    PopMoves(data, producers, actions, a);
    RunKeepsInv(data, producers, actions);
    CountersAreClose(Run(Init(data, producers), actions));
  }

  // ---------------------------------------------------------------- undisturbed

  function PushBy<T>(p: nat, v: T): seq<Action<T>> {
    [Start(p, v), LoadHead(p), LoadSequence(p), CompareExchange(p, false), WriteData(p), Publish(p)]
  }

  function Pop<T>(): seq<Action<T>> {
    [PopLoadTail, PopLoadSequence, PopReadData, PopRelease, PopAdvance]
  }

  lemma RunThree<T>(s: State<T>, a: Action<T>, b: Action<T>, c: Action<T>)
    requires Capacity(s) > 0
    ensures Capacity(Next(s, a)) > 0 && Capacity(Next(Next(s, a), b)) > 0
    ensures Run(s, [a, b, c]) == Next(Next(Next(s, a), b), c)
  {
    hide Next;
    RunTwo(s, a, b);
    NextCapacity(Next(s, a), b);
    RunAppend(s, [a, b], c);
    assert [a, b] + [c] == [a, b, c];
  }

  /** A producer that only moves its own place of work. */
  lemma PlaceAgain<T>(s: State<T>, p: nat, x: Producer<T>, y: Producer<T>)
    requires p < |s.producers|
    ensures SetProducer(SetProducer(s, p, x), p, y) == SetProducer(s, p, y)
  {
    assert s.producers[p := x][p := y] == s.producers[p := y];
  }

  /** Up to the test of the sequence number. */
  lemma SoloTest<T>(s: State<T>, p: nat, v: T)
    requires Inv(s) && p < |s.producers| && s.producers[p].Idle?
    ensures Capacity(s) > 0
    ensures Run(s, [Start(p, v), LoadHead(p), LoadSequence(p)]) ==
            SetProducer(s, p, if Full(s) then Idle else Ready(v, s.head))
  {
    JudgeIsRight(s, s.head);
    CountersAreClose(s);
    hide Inv;
    RunThree(s, Start(p, v), LoadHead(p), LoadSequence(p));
    PlaceAgain(s, p, Entering(v), Loaded(v, s.head));
    PlaceAgain(s, p, Loaded(v, s.head), Judge(s, v, s.head));
    assert Next(s, Start(p, v)) == SetProducer(s, p, Entering(v));
    var t := SetProducer(s, p, Loaded(v, s.head));
    assert Judge(t, v, s.head) == Judge(s, v, s.head);
  }

  /** From a test that was passed to the end. */
  lemma SoloClaim<T>(s: State<T>, p: nat, v: T)
    requires Capacity(s) > 0 && p < |s.producers| && s.producers[p] == Ready(v, s.head)
    ensures Run(s, [CompareExchange(p, false), WriteData(p), Publish(p)]) ==
            SetProducer(SetSlot(s, s.head, Slot(s.head + 1, v)).(head := s.head + 1, pushed := s.pushed + [v]), p, Idle)
  {
    RunThree(s, CompareExchange(p, false), WriteData(p), Publish(p));
    var pos, i := s.head, Index(s, s.head);
    var won := SetProducer(s, p, Won(v, pos)).(head := pos + 1, pushed := s.pushed + [v]);
    assert Next(s, CompareExchange(p, false)) == won;
    var written := SetProducer(SetSlot(won, pos, At(won, pos).(data := v)), p, Written(v, pos));
    assert Next(won, WriteData(p)) == written && At(written, pos) == At(s, pos).(data := v);
    assert s.slots[i := At(s, pos).(data := v)][i := Slot(pos + 1, v)] == s.slots[i := Slot(pos + 1, v)];
    assert s.producers[p := Won(v, pos)][p := Written(v, pos)][p := Idle] == s.producers[p := Idle];
  }

  /** Nobody acts out of turn. */
  lemma OutOfTurn<T>(s: State<T>, a: Action<T>)
    requires Capacity(s) > 0
    requires a.CompareExchange? || a.WriteData? || a.Publish? ==>
               a.producer < |s.producers| && s.producers[a.producer].Idle?
    requires a.PopReadData? || a.PopRelease? || a.PopAdvance? ==> s.consumer.Resting?
    ensures !a.Start? && !a.LoadHead? && !a.LoadSequence? && !a.PopLoadTail? && !a.PopLoadSequence? ==> Next(s, a) == s
  {
  }

  /** After a refusal the rest of the actions find nothing to do. */
  lemma SoloRefused<T>(s: State<T>, p: nat)
    requires Capacity(s) > 0 && p < |s.producers| && s.producers[p].Idle?
    ensures Run(s, [CompareExchange(p, false), WriteData(p), Publish(p)]) == s
  {
    hide Next, Run;
    OutOfTurn(s, CompareExchange(p, false));
    OutOfTurn(s, WriteData(p));
    OutOfTurn(s, Publish(p));
    RunThree(s, CompareExchange(p, false), WriteData(p), Publish(p));
  }

  /**
   A push that nobody disturbs, from any reachable state: refused, with nothing changed, exactly
   when the buffer is full; otherwise the value is published at the head.
   */
  lemma SoloPush<T>(data: seq<T>, producers: nat, actions: seq<Action<T>>, p: nat, v: T)
    requires |data| >= 2 && p < |Run(Init(data, producers), actions).producers|
    requires Run(Init(data, producers), actions).producers[p].Idle?
    ensures var s := Run(Init(data, producers), actions);
            && Capacity(s) > 0
            && Run(s, PushBy(p, v)) ==
               if Full(s) then s
               else SetSlot(s, s.head, Slot(s.head + 1, v)).(head := s.head + 1, pushed := s.pushed + [v])
  {
    hide Run, Init, Next, Inv;
    RunKeepsInv(data, producers, actions);
    var s := Run(Init(data, producers), actions);
    SoloTest(s, p, v);
    var t := SetProducer(s, p, if Full(s) then Idle else Ready(v, s.head));
    if Full(s) { SoloRefused(t, p); } else { SoloClaim(t, p, v); }
    assert s.producers[p := Idle] == s.producers && s.producers[p := Ready(v, s.head)][p := Idle] == s.producers;
    var first := [Start(p, v), LoadHead(p), LoadSequence(p)];
    var second := [CompareExchange(p, false), WriteData(p), Publish(p)];
    assert PushBy(p, v) == first + second;
    RunConcat(s, first, second);
  }

  /** A pop that nobody disturbs: the oldest value if it is published, and otherwise nothing changes. */
  lemma SoloPop<T>(data: seq<T>, producers: nat, actions: seq<Action<T>>)
    requires |data| >= 2 && Run(Init(data, producers), actions).consumer.Resting?
    ensures var s := Run(Init(data, producers), actions);
            && Capacity(s) > 0 && 0 <= s.tail && |s.pushed| == s.head
            && Run(s, Pop()) ==
               if !Published(s) then s
               else SetSlot(s, s.tail, Slot(s.tail + Capacity(s), s.pushed[s.tail]))
                    .(tail := s.tail + 1, popped := s.popped + [s.pushed[s.tail]])
  {
    hide Run, Init, Next, Inv, Pops, Published;
    RunKeepsInv(data, producers, actions);
    var s := Run(Init(data, producers), actions);
    PopTests(s);
    var t := s.(consumer := if Published(s) then Seen(s.tail) else Resting);
    if Published(s) { PopTakes(t); } else { PopSkips(t); }
    var first, second := [PopLoadTail, PopLoadSequence], [PopReadData, PopRelease, PopAdvance];
    assert Pop() == first + second;
    RunConcat(s, first, second);
  }

  lemma PopTests<T>(s: State<T>)
    requires Inv(s) && s.consumer.Resting?
    ensures Capacity(s) > 0 && 0 <= s.tail && |s.pushed| == s.head
    ensures var t := s.(consumer := if Published(s) then Seen(s.tail) else Resting);
            Run(s, [PopLoadTail, PopLoadSequence]) == t && Inv(t)
  {
    hide Run, Next, Inv;
    PopMoveOf(s, PopLoadTail);
    StepKeepsInv(s, PopLoadTail);
    var s1 := Next(s, PopLoadTail);
    PopMoveOf(s1, PopLoadSequence);
    StepKeepsInv(s1, PopLoadSequence);
    RunTwo(s, PopLoadTail, PopLoadSequence);
  }

  lemma PopTakes<T>(s: State<T>)
    requires Inv(s) && s.consumer.Seen?
    ensures Capacity(s) > 0 && 0 <= s.tail < s.head == |s.pushed|
    ensures Run(s, [PopReadData, PopRelease, PopAdvance]) ==
            SetSlot(s, s.tail, Slot(s.tail + Capacity(s), s.pushed[s.tail]))
            .(consumer := Resting, tail := s.tail + 1, popped := s.popped + [s.pushed[s.tail]])
  {
    hide Run, Next, Inv;
    PopMoveOf(s, PopReadData);
    StepKeepsInv(s, PopReadData);
    var s1 := Next(s, PopReadData);
    PopMoveOf(s1, PopRelease);
    StepKeepsInv(s1, PopRelease);
    PopMoveOf(Next(s1, PopRelease), PopAdvance);
    RunThree(s, PopReadData, PopRelease, PopAdvance);
  }

  lemma PopSkips<T>(s: State<T>)
    requires Capacity(s) > 0 && s.consumer.Resting?
    ensures Run(s, [PopReadData, PopRelease, PopAdvance]) == s
  {
    hide Run, Next;
    OutOfTurn(s, PopReadData);
    OutOfTurn(s, PopRelease);
    OutOfTurn(s, PopAdvance);
    RunThree(s, PopReadData, PopRelease, PopAdvance);
  }
}
