/** TipChaser announces new tips through a channel that it never waits for; the follower walks, then
    waits for the channel. Announcements may be dropped, wake-ups may not. */
module Signals {
  import opened BlockTree

  /** lastId: the tip last announced; queued: signals in the channel; walkStart and announced: when the last walk
      started and the last announcement was made. */
  datatype State = State(lastId: Hash, queued: nat, waiting: bool, walkStart: int, announced: int, now: int)

  datatype Event =
    | Tip(id: Hash)    // from Core's notifications, or from polling
    | FinishWalk       // the follower reaches the tip and waits
    | Receive          // it takes a signal and walks again
    | Command          // a resync or restart, or a panic that restarts the service: it walks again

  /** A send that would block is dropped. Without a buffer a send succeeds only if the follower is waiting. */
  function Send(s: State, capacity: nat): State {
    if s.queued < capacity then s.(queued := s.queued + 1)
    else if capacity == 0 && s.waiting then s.(waiting := false, walkStart := s.now)
    else s
  }

  predicate Possible(s: State, e: Event) {
    match e
    case Tip(_) => true
    case FinishWalk => !s.waiting
    case Receive => s.waiting && s.queued > 0
    case Command => true
  }

  function Step(s: State, e: Event, capacity: nat): State
    requires Possible(s, e)
  {
    var t := s.(now := s.now + 1);
    match e
    case Tip(id) => if id == t.lastId then t else Send(t.(lastId := id, announced := t.now), capacity)
    case FinishWalk => t.(waiting := true)
    case Receive => t.(queued := t.queued - 1, waiting := false, walkStart := t.now)
    case Command => t.(waiting := false, walkStart := t.now)
  }

  // The service starts with a walk, before anything was announced.
  const START := State("", 0, false, 0, -1, 0)

  predicate PossibleRun(s: State, run: seq<Event>, capacity: nat)
    decreases |run|
  {
    run == [] || (Possible(s, run[0]) && PossibleRun(Step(s, run[0], capacity), run[1..], capacity))
  }

  function After(s: State, run: seq<Event>, capacity: nat): State
    requires PossibleRun(s, run, capacity)
    decreases |run|
  {
    if run == [] then s else After(Step(s, run[0], capacity), run[1..], capacity)
  }

  /** Blocked with nothing to read, although a tip was announced after the last walk began. */
  predicate Lost(s: State) {
    s.waiting && s.queued == 0 && s.announced >= s.walkStart
  }

  // While nothing is queued, the current or last walk began after the last announcement.
  predicate Awake(s: State) {
    (s.queued == 0 ==> s.announced < s.walkStart) && s.announced <= s.now && s.walkStart <= s.now
  }

  lemma {:induction false} RunAwake(s: State, run: seq<Event>, capacity: nat)
    requires capacity >= 1 && Awake(s) && PossibleRun(s, run, capacity)
    ensures Awake(After(s, run, capacity))
    decreases |run|
  {
    if run != [] {
      RunAwake(Step(s, run[0], capacity), run[1..], capacity);
    }
  }

  /** No run ever loses a wake-up if and only if the channel has room for one signal; more room changes nothing. */
  lemma NoLostWakeUpIff(capacity: nat)
    ensures (forall run: seq<Event> | PossibleRun(START, run, capacity) :: !Lost(After(START, run, capacity))) <==> capacity >= 1
  {
    if capacity >= 1 {
      forall run: seq<Event> | PossibleRun(START, run, capacity) ensures !Lost(After(START, run, capacity)) {
        RunAwake(START, run, capacity);
      }
    } else {
      assert |"a"| == 1;
      var s1 := Step(START, Tip("a"), 0);
      var s2 := Step(s1, FinishWalk, 0);
      var run := [Tip("a"), FinishWalk];
      assert run[1..] == [FinishWalk] && [FinishWalk][1..] == [] && s2 == State("a", 0, true, 0, 1, 2);
      assert PossibleRun(s2, [], 0) && After(s2, [], 0) == s2;
      assert PossibleRun(s1, [FinishWalk], 0) && After(s1, [FinishWalk], 0) == s2;
      assert PossibleRun(START, run, 0) && Lost(After(START, run, 0));
    }
  }

  /** A larger buffer buys nothing: whatever can happen with one slot can happen with more, walk for walk. */
  lemma {:induction false} OneSlotCovers(s: State, t: State, run: seq<Event>, capacity: nat)
    requires capacity >= 1 && PossibleRun(s, run, 1) && s.queued <= t.queued <= capacity
    requires s == t.(queued := s.queued)
    ensures PossibleRun(t, run, capacity) && After(t, run, capacity).(queued := 0) == After(s, run, 1).(queued := 0)
    decreases |run|
  {
    if run != [] {
      OneSlotCovers(Step(s, run[0], 1), Step(t, run[0], capacity), run[1..], capacity);
    }
  }
}
