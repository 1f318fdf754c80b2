/** The collector's supervising loop: the one poll child it may have, when it starts one and what
    it leaves behind. */
module Collector {

  /** What a watcher of the process sees; Began carries the moment on the loop's clock. */
  datatype Event = Began(at: real) | Reaped | SawStop | Ended

  /** One time round the loop. stops: the flag at its three checks. exited: the child had gone by
      itself. check and after: the clock when a start is considered and after one; at: when the
      child began. raises: which call raises, 0 for none. */
  datatype Turn = Turn(stops: (bool, bool, bool), exited: bool, check: real, at: real, after: real, raises: Call)

  datatype Call = None | Drain | Heartbeat | Reap | Clock | Start | ClockAfter | Notifies

  /** The stop flag is never cleared, and the clock never goes back. */
  ghost predicate InOrder(first: real, turns: seq<Turn>) {
    forall i :: 0 <= i < |turns| ==> Follows(first, turns, i)
  }

  predicate Follows(first: real, turns: seq<Turn>, i: nat)
    requires i < |turns|
  {
    && TurnInOrder(turns[i])
    && (if i == 0 then first else turns[i - 1].after) <= turns[i].check
    && (i > 0 && turns[i - 1].stops.2 ==> turns[i].stops.0)
  }

  predicate TurnInOrder(t: Turn) {
    && (t.stops.0 ==> t.stops.1) && (t.stops.1 ==> t.stops.2)
    && t.check <= t.at <= t.after
  }

  /** Children alive after the events, if each reaping and ending is of a live one. */
  function Alive(log: seq<Event>): int {
    if log == [] then 0
    else
      Alive(log[..|log| - 1])
      + match log[|log| - 1] case Began(_) => 1 case SawStop => 0 case _ => -1
  }

  ghost predicate OneAtMost(log: seq<Event>) {
    forall k :: 0 <= k <= |log| ==> 0 <= Alive(log[..k]) <= 1
  }

  ghost predicate Spaced(log: seq<Event>, pollEvery: real) {
    forall i, j :: 0 <= i < j < |log| && log[i].Began? && log[j].Began? ==> log[i].at + pollEvery <= log[j].at
  }

  ghost predicate QuietAfterStop(log: seq<Event>) {
    forall i, j :: 0 <= i < j < |log| && log[i].SawStop? ==> !log[j].Began?
  }

  ghost predicate Safe(log: seq<Event>, pollEvery: real) {
    OneAtMost(log) && Spaced(log, pollEvery) && QuietAfterStop(log)
  }

  ghost predicate Stopped(log: seq<Event>) {
    SawStop in log
  }

  /** Every start so far is at least --poll-every before t. */
  ghost predicate ClearBy(log: seq<Event>, pollEvery: real, t: real) {
    forall i :: 0 <= i < |log| && log[i].Began? ==> log[i].at + pollEvery <= t
  }

  lemma MoreSafe(log: seq<Event>, pollEvery: real, e: Event)
    requires Safe(log, pollEvery)
    requires e.Began? ==> Alive(log) == 0 && !Stopped(log) && ClearBy(log, pollEvery, e.at)
    requires e.Reaped? || e.Ended? ==> Alive(log) == 1
    ensures Safe(log + [e], pollEvery)
    ensures Alive(log + [e]) == Alive(log) + (match e case Began(_) => 1 case SawStop => 0 case _ => -1)
    ensures Stopped(log + [e]) <==> Stopped(log) || e.SawStop?
    ensures !e.Began? ==> forall t :: ClearBy(log, pollEvery, t) ==> ClearBy(log + [e], pollEvery, t)
  {
    var more := log + [e];
    assert more[..|log|] == log;
    forall k | 0 <= k <= |more| ensures 0 <= Alive(more[..k]) <= 1 {
      if k <= |log| {
        assert more[..k] == log[..k];
      } else {
        assert more[..k] == more;
        assert log[..|log|] == log;
        assert 0 <= Alive(log) <= 1;
      }
    }
    if Stopped(log) {
      var i :| 0 <= i < |log| && log[i] == SawStop;
      assert more[i] == SawStop;
    }
    if e.SawStop? {
      assert more[|log|] == SawStop;
    }
    forall i, j | 0 <= i < j < |more| && more[i].SawStop? ensures !more[j].Began? {
      if j == |log| {
        assert log[i] == SawStop;
      }
    }
  }

  /** The poll child as the operating system has it: one that ignores SIGTERM goes on running. */
  class Process {
    var running: bool
    const ignoresTerm: bool

    constructor (ignoresTerm: bool)
      ensures running && this.ignoresTerm == ignoresTerm
    {
      running, this.ignoresTerm := true, ignoresTerm;
    }

    method Exit()
      modifies this
      ensures !running
    {
      running := false;
    }

    method Terminate()
      modifies this
      ensures running == (old(running) && ignoresTerm)
    {
      if !ignoresTerm {
        running := false;
      }
    }

    method Kill()
      modifies this
      ensures !running
    {
      running := false;
    }
  }

  /** _stop_child: terminate, wait, then kill what will not stop. */
  method StopChild(child: Process?)
    modifies child
    ensures child != null ==> !child.running
  {
    if child == null || !child.running {
      return;
    }
    child.Terminate();
    if child.running {
      child.Kill();
    }
  }

  // What the loop does, turn by turn.

  datatype Watch = Watch(log: seq<Event>, child: bool, nextPoll: real, left: bool)

  /** The child that was there and has gone is let go of. */
  function Polled(w: Watch, t: Turn): Watch {
    if w.child && t.exited then w.(log := w.log + [Reaped], child := false) else w
  }

  function Considered(w: Watch, t: Turn, pollEvery: real): Watch {
    if t.stops.1 then w.(log := w.log + [SawStop])
    else if w.child || pollEvery == 0.0 then w
    else if t.raises.Clock? then w.(left := true)
    else if t.check < w.nextPoll then w
    else if t.raises.Start? then w.(left := true)
    else
      var began := w.(log := w.log + [Began(t.at)], child := true);
      if t.raises.ClockAfter? then began.(left := true) else began.(nextPoll := t.after + pollEvery)
  }

  /** One turn; a call that raises leaves the loop where it stands. */
  function Turned(w: Watch, t: Turn, pollEvery: real): Watch {
    if t.stops.0 then w.(log := w.log + [SawStop], left := true)
    else if t.raises.Drain? || t.raises.Heartbeat? || t.raises.Reap? then w.(left := true)
    else
      var c := Considered(Polled(w, t), t, pollEvery);
      if c.left then c
      else if t.stops.2 then c.(log := c.log + [SawStop], left := true)
      else c.(left := !t.raises.None?)
  }

  function Watched(first: real, turns: seq<Turn>, pollEvery: real): Watch {
    if turns == [] then Watch([], false, first, false)
    else
      var w := Watched(first, turns[..|turns| - 1], pollEvery);
      if w.left then w else Turned(w, turns[|turns| - 1], pollEvery)
  }

  lemma {:induction false} LeftIsLast(first: real, turns: seq<Turn>, pollEvery: real, i: nat)
    requires i <= |turns| && Watched(first, turns[..i], pollEvery).left
    ensures Watched(first, turns, pollEvery) == Watched(first, turns[..i], pollEvery)
  {
    hide Turned;
    if i < |turns| {
      assert turns[..|turns| - 1][..i] == turns[..i];
      LeftIsLast(first, turns[..|turns| - 1], pollEvery, i);
    } else {
      assert turns[..i] == turns;
    }
  }

  // One turn and one run, on the log itself.

  function Said(condition: bool, e: Event): seq<Event> {
    if condition then [e] else []
  }

  predicate RaisesEarly(t: Turn) {
    t.raises.Drain? || t.raises.Heartbeat? || t.raises.Reap?
  }

  /** The child is still there when a start is considered. */
  predicate StillHeld(w: Watch, t: Turn) {
    w.child && !t.exited
  }

  /** The clock is read for a start. */
  predicate Considers(w: Watch, t: Turn, pollEvery: real) {
    !t.stops.0 && !RaisesEarly(t) && !t.stops.1 && !StillHeld(w, t) && pollEvery != 0.0
  }

  predicate Starts(w: Watch, t: Turn, pollEvery: real) {
    Considers(w, t, pollEvery) && !t.raises.Clock? && t.check >= w.nextPoll && !t.raises.Start?
  }

  /** A call of the start raises. */
  predicate RaisesAtStart(w: Watch, t: Turn, pollEvery: real) {
    Considers(w, t, pollEvery) && (t.raises.Clock? || (t.check >= w.nextPoll && (t.raises.Start? || t.raises.ClockAfter?)))
  }

  /** A turn, event by event: a held child that has exited is let go of and one that has not is kept; a start
      follows where no child is left, no stop is seen and the time has come; and the loop is left where a stop
      is seen at its first or last check or a call raises. */
  lemma TurnExactly(w: Watch, t: Turn, pollEvery: real)
    requires !w.left
    ensures var after := Turned(w, t, pollEvery);
      var early, starts := t.stops.0 || RaisesEarly(t), Starts(w, t, pollEvery);
      && after.log == w.log
           + Said(t.stops.0, SawStop)
           + Said(!early && w.child && t.exited, Reaped)
           + Said(!early && t.stops.1, SawStop)
           + Said(starts, Began(t.at))
           + Said(!early && !RaisesAtStart(w, t, pollEvery) && t.stops.2, SawStop)
      && after.child == (if early then w.child else StillHeld(w, t) || starts)
      && after.nextPoll == (if starts && !t.raises.ClockAfter? then t.after + pollEvery else w.nextPoll)
      && after.left == (early || RaisesAtStart(w, t, pollEvery) || t.stops.2 || !t.raises.None?)
  {
  }

  /** A child due to be started is started, and its time is the one the next is spaced from. */
  lemma DueIsStarted(w: Watch, t: Turn, pollEvery: real)
    requires !w.left && !t.stops.1 && !t.stops.0 && t.raises.None?
    requires (!w.child || t.exited) && pollEvery != 0.0 && t.check >= w.nextPoll
    ensures var after := Turned(w, t, pollEvery);
      after.child && Began(t.at) in after.log && after.nextPoll == t.after + pollEvery
  {
    hide Turned;
    TurnExactly(w, t, pollEvery);
  }

  /** No stop and no call that raises. */
  predicate Calm(t: Turn) {
    !t.stops.0 && !t.stops.1 && !t.stops.2 && t.raises.None?
  }

  ghost predicate AllCalm(turns: seq<Turn>) {
    forall i :: 0 <= i < |turns| ==> Calm(turns[i])
  }

  lemma CalmTurn(w: Watch, t: Turn, pollEvery: real)
    requires !w.left && Calm(t) && pollEvery != 0.0
    ensures var after := Turned(w, t, pollEvery);
      && !after.left
      && (w.child && !t.exited ==> after == w)
      && (!(w.child && !t.exited) && t.check < w.nextPoll ==> after == Watch(w.log + Said(w.child, Reaped), false, w.nextPoll, false))
      && (!(w.child && !t.exited) && t.check >= w.nextPoll ==>
            after == Watch(w.log + Said(w.child, Reaped) + [Began(t.at)], true, t.after + pollEvery, false))
  {
    hide Turned;
    TurnExactly(w, t, pollEvery);
  }

  lemma {:induction false} CalmIsNotLeft(first: real, turns: seq<Turn>, pollEvery: real)
    requires AllCalm(turns) && pollEvery != 0.0
    ensures !Watched(first, turns, pollEvery).left
  {
    hide Turned, Calm;
    if turns != [] {
      var n := |turns| - 1;
      assert AllCalm(turns[..n]) && Calm(turns[n]);
      CalmIsNotLeft(first, turns[..n], pollEvery);
      CalmTurn(Watched(first, turns[..n], pollEvery), turns[n], pollEvery);
    }
  }

  lemma WatchedStep(first: real, turns: seq<Turn>, pollEvery: real, i: nat)
    requires AllCalm(turns) && pollEvery != 0.0 && i < |turns|
    ensures var w := Watched(first, turns[..i], pollEvery);
      !w.left && Watched(first, turns[..i + 1], pollEvery) == Turned(w, turns[i], pollEvery)
  {
    hide Turned, Calm, Watched;
    assert AllCalm(turns[..i]);
    CalmIsNotLeft(first, turns[..i], pollEvery);
    WatchedNext(first, turns, pollEvery, i);
  }

  /** Between an exit and the time of the next start nothing happens. */
  lemma {:induction false} IdleUntil(first: real, turns: seq<Turn>, pollEvery: real, i: nat, m: nat)
    requires AllCalm(turns) && pollEvery != 0.0 && i < m <= |turns|
    requires var w := Watched(first, turns[..i], pollEvery);
      w.child && turns[i].exited && forall k :: i <= k < m ==> turns[k].check < w.nextPoll
    ensures var w := Watched(first, turns[..i], pollEvery);
      Watched(first, turns[..m], pollEvery) == Watch(w.log + [Reaped], false, w.nextPoll, false)
    decreases m
  {
    hide Turned, Watched;
    WatchedStep(first, turns, pollEvery, m - 1);
    assert Calm(turns[m - 1]);
    if i < m - 1 {
      IdleUntil(first, turns, pollEvery, i, m - 1);
    }
    CalmTurn(Watched(first, turns[..m - 1], pollEvery), turns[m - 1], pollEvery);
  }

  /** Over a run without stops or raises, a child that has exited is followed by a start at the first turn
      whose clock has reached the time of the next one, and by nothing before. */
  lemma ExitIsFollowed(first: real, turns: seq<Turn>, pollEvery: real, i: nat, m: nat)
    requires AllCalm(turns) && pollEvery != 0.0 && i <= m < |turns|
    requires var w := Watched(first, turns[..i], pollEvery);
      w.child && turns[i].exited && turns[m].check >= w.nextPoll && forall k :: i <= k < m ==> turns[k].check < w.nextPoll
    ensures var w := Watched(first, turns[..i], pollEvery);
      Watched(first, turns[..m + 1], pollEvery) ==
        Watch(w.log + [Reaped, Began(turns[m].at)], true, turns[m].after + pollEvery, false)
  {
    hide Turned, Watched;
    var w := Watched(first, turns[..i], pollEvery);
    WatchedStep(first, turns, pollEvery, m);
    assert Calm(turns[m]);
    if i < m {
      IdleUntil(first, turns, pollEvery, i, m);
    }
    CalmTurn(Watched(first, turns[..m], pollEvery), turns[m], pollEvery);
    assert w.log + [Reaped] + [Began(turns[m].at)] == w.log + [Reaped, Began(turns[m].at)];
  }

  /** What every point of a run keeps: the log is safe, it says whether a child is held, and until the
      loop is left the next start is far enough from the last. */
  ghost predicate WatchOk(w: Watch, pollEvery: real) {
    && Safe(w.log, pollEvery) && Alive(w.log) == (if w.child then 1 else 0)
    && (!w.left ==> ClearBy(w.log, pollEvery, w.nextPoll))
    && (pollEvery == 0.0 ==> NoneBegan(w.log))
  }

  ghost predicate NoneBegan(log: seq<Event>) {
    forall i :: 0 <= i < |log| ==> !log[i].Began?
  }

  lemma PolledOk(w: Watch, t: Turn, pollEvery: real)
    requires WatchOk(w, pollEvery)
    ensures WatchOk(Polled(w, t), pollEvery) && (Stopped(Polled(w, t).log) <==> Stopped(w.log))
  {
    hide Safe, Alive, Stopped, ClearBy;
    if w.child && t.exited {
      MoreSafe(w.log, pollEvery, Reaped);
    }
  }

  lemma SeenOk(w: Watch, pollEvery: real)
    requires WatchOk(w, pollEvery)
    ensures WatchOk(w.(log := w.log + [SawStop]), pollEvery)
  {
    hide Safe, Alive, Stopped, ClearBy;
    MoreSafe(w.log, pollEvery, SawStop);
  }

  lemma ConsideredOk(w: Watch, t: Turn, pollEvery: real)
    requires WatchOk(w, pollEvery) && !w.left && TurnInOrder(t) && pollEvery >= 0.0 && (Stopped(w.log) ==> t.stops.1)
    ensures WatchOk(Considered(w, t, pollEvery), pollEvery)
    ensures Stopped(Considered(w, t, pollEvery).log) ==> t.stops.1
  {
    hide Safe, Alive, Stopped, ClearBy;
    if t.stops.1 {
      SeenOk(w, pollEvery);
    } else if !w.child && pollEvery != 0.0 && t.check >= w.nextPoll {
      ClearLater(w.log, pollEvery, w.nextPoll, t.at);
      MoreSafe(w.log, pollEvery, Began(t.at));
      ClearNow(w.log, pollEvery, t.at, t.after);
    }
  }

  lemma TurnedOk(w: Watch, t: Turn, pollEvery: real)
    requires WatchOk(w, pollEvery) && !w.left && TurnInOrder(t) && pollEvery >= 0.0 && (Stopped(w.log) ==> t.stops.0)
    ensures WatchOk(Turned(w, t, pollEvery), pollEvery)
    ensures Stopped(Turned(w, t, pollEvery).log) && !Turned(w, t, pollEvery).left ==> t.stops.2
  {
    hide Safe, Alive, Stopped, ClearBy, NoneBegan, Polled, Considered;
    SeenOk(w, pollEvery);
    PolledOk(w, t, pollEvery);
    PolledStays(w, t);
    ConsideredOk(Polled(w, t), t, pollEvery);
    SeenOk(Considered(Polled(w, t), t, pollEvery), pollEvery);
  }

  lemma PolledStays(w: Watch, t: Turn)
    ensures Polled(w, t).left == w.left
  {
  }

  lemma {:induction false} WatchedOk(first: real, turns: seq<Turn>, pollEvery: real)
    requires InOrder(first, turns) && pollEvery >= 0.0
    ensures var w := Watched(first, turns, pollEvery);
      WatchOk(w, pollEvery) && (Stopped(w.log) && !w.left && turns != [] ==> turns[|turns| - 1].stops.2)
  {
    hide WatchOk, Stopped, Turned;
    if turns == [] {
      EmptyWatch(pollEvery, first);
    } else {
      var n := |turns| - 1;
      assert Follows(first, turns, n);
      EarlierInOrder(first, turns);
      WatchedOk(first, turns[..n], pollEvery);
      var w := Watched(first, turns[..n], pollEvery);
      NothingSeen(first, pollEvery);
      if !w.left {
        TurnedOk(w, turns[n], pollEvery);
      }
    }
  }

  lemma EarlierInOrder(first: real, turns: seq<Turn>)
    requires InOrder(first, turns) && turns != []
    ensures InOrder(first, turns[..|turns| - 1])
  {
    var earlier := turns[..|turns| - 1];
    forall i | 0 <= i < |earlier| ensures Follows(first, earlier, i) {
      assert Follows(first, turns, i);
    }
  }

  lemma EmptyWatch(pollEvery: real, first: real)
    ensures WatchOk(Watch([], false, first, false), pollEvery)
  {
  }

  lemma NothingSeen(first: real, pollEvery: real)
    ensures !Stopped(Watched(first, [], pollEvery).log)
  {
  }

  lemma EndedOk(w: Watch, pollEvery: real)
    requires WatchOk(w, pollEvery) && w.child
    ensures Safe(w.log + [Ended], pollEvery) && Alive(w.log + [Ended]) == 0
    ensures pollEvery == 0.0 ==> NoneBegan(w.log + [Ended])
  {
    hide Safe, Alive, ClearBy;
    MoreSafe(w.log, pollEvery, Ended);
  }

  /** The loop over as many turns as it gets: its log is safe at every point, and once it has been
      left, for whatever reason, no child is alive. --poll-every 0 starts none. */
  method Loop(first: real, turns: seq<Turn>, pollEvery: real, stubborn: bool)
    returns (log: seq<Event>, left: bool)
    requires InOrder(first, turns) && pollEvery >= 0.0
    ensures Safe(log, pollEvery)
    ensures left ==> Alive(log) == 0
    ensures pollEvery == 0.0 ==> NoneBegan(log)
    ensures var w := Watched(first, turns, pollEvery);
      left == w.left && log == if w.left && w.child then w.log + [Ended] else w.log
  {
    hide Alive, Safe, NoneBegan, ClearBy, Watched, InOrder;
    log, left := [], false;
    NothingWatched(first, pollEvery);
    var child: Process? := null;
    var nextPoll := first;
    var i := 0;
    assert turns[..0] == [];
    while i < |turns| && !left
      invariant 0 <= i <= |turns|
      invariant child != null ==> fresh(child)
      invariant Watch(log, child != null, nextPoll, left) == Watched(first, turns[..i], pollEvery)
    {
      var t := turns[i];
      WatchedNext(first, turns, pollEvery, i);
      i := i + 1;
      if t.stops.0 {
        log, left := log + [SawStop], true;
        break;
      }
      if t.raises.Drain? || t.raises.Heartbeat? || t.raises.Reap? {
        left := true;
        break;
      }
      if child != null && t.exited {
        child.Exit();
        log, child := log + [Reaped], null;
      }
      if t.stops.1 {
        log := log + [SawStop];
      } else if child == null && pollEvery != 0.0 {
        if t.raises.Clock? {
          left := true;
          break;
        }
        if t.check >= nextPoll {
          if t.raises.Start? {
            left := true;
            break;
          }
          log := log + [Began(t.at)];
          child := new Process(stubborn);
          if t.raises.ClockAfter? {
            left := true;
            break;
          }
          nextPoll := t.after + pollEvery;
        }
      }
      if t.stops.2 {
        log, left := log + [SawStop], true;
        break;
      }
      if !t.raises.None? {
        left := true;
        break;
      }
    }
    WholeWatch(first, turns, pollEvery, i);
    WatchedOk(first, turns, pollEvery);
    if left && child != null {
      StopChild(child);
      EndedOk(Watched(first, turns, pollEvery), pollEvery);
      log := log + [Ended];
    }
  }

  lemma NothingWatched(first: real, pollEvery: real)
    ensures Watched(first, [], pollEvery) == Watch([], false, first, false)
  {
  }

  lemma WatchedNext(first: real, turns: seq<Turn>, pollEvery: real, i: nat)
    requires i < |turns| && !Watched(first, turns[..i], pollEvery).left
    ensures Watched(first, turns[..i + 1], pollEvery) == Turned(Watched(first, turns[..i], pollEvery), turns[i], pollEvery)
  {
    hide Turned;
    assert turns[..i + 1][..i] == turns[..i];
  }

  lemma WholeWatch(first: real, turns: seq<Turn>, pollEvery: real, i: nat)
    requires i <= |turns| && (i == |turns| || Watched(first, turns[..i], pollEvery).left)
    ensures Watched(first, turns, pollEvery) == Watched(first, turns[..i], pollEvery)
  {
    hide Watched;
    if i == |turns| {
      assert turns[..i] == turns;
    } else {
      LeftIsLast(first, turns, pollEvery, i);
    }
  }

  lemma ClearLater(log: seq<Event>, pollEvery: real, t: real, later: real)
    requires ClearBy(log, pollEvery, t) && t <= later
    ensures ClearBy(log, pollEvery, later)
  {
  }

  lemma ClearNow(log: seq<Event>, pollEvery: real, at: real, after: real)
    requires ClearBy(log, pollEvery, at) && at <= after && pollEvery >= 0.0
    ensures ClearBy(log + [Began(at)], pollEvery, after + pollEvery)
  {
  }
}
