/** One collection pass: which of the due sources it polls, and what its counters say. */
module CollectionPass {

  type Id = int

  /** needs: the wall clock a poll of the source may take. */
  datatype Source = Source(id: Id, needs: real)

  datatype Status = StatusBlocked | StatusRateLimited | StatusOther

  /** What run_once does: one of its refusals, another exception, or a result. */
  datatype Answer =
    | Busy
    | Resting
    | SourceRefused
    | CollectionError
    | OtherException
    | Result(status: Status, error: bool, seen: nat, novel: nat, hits: nat, warnings: nat)

  datatype Decision = TooLong | Deferred | Started(answer: Answer)

  /** The pass's clock when a source is reached, and how its poll would end. */
  datatype Moment = Moment(elapsed: real, answer: Answer)

  datatype Limits = Limits(limit: nat, maxSeconds: real, dryRun: bool)

  /** max_seconds 0 is no limit; the first poll of a pass starts when it fits alone. */
  function Decide(o: Limits, needs: real, started: bool, m: Moment): Decision {
    if o.maxSeconds != 0.0 && needs > o.maxSeconds then TooLong
    else if o.maxSeconds != 0.0 && (m.elapsed >= o.maxSeconds || (started && m.elapsed + needs > o.maxSeconds)) then Deferred
    else Started(m.answer)
  }

  function Selected(o: Limits, due: seq<Source>): (r: seq<Source>)
    ensures r <= due
    ensures |r| == if 0 < o.limit < |due| then o.limit else |due|
  {
    if 0 < o.limit < |due| then due[..o.limit] else due
  }

  function Decisions(o: Limits, sources: seq<Source>, moments: seq<Moment>): (r: seq<Decision>)
    requires |moments| == |sources|
    ensures |r| == |sources|
  {
    if sources == [] then []
    else
      var n := |sources| - 1;
      var before := Decisions(o, sources[..n], moments[..n]);
      before + [Decide(o, sources[n].needs, AnyStarted(before), moments[n])]
  }

  predicate AnyStarted(ds: seq<Decision>) {
    exists i :: 0 <= i < |ds| && ds[i].Started?
  }

  datatype Kind = Polled | Skipped | DeferredKind | Failed | Blocked | RateLimited | TooLongKind

  /** The counter a decision is counted under. */
  function KindOf(d: Decision): Kind {
    match d
    case TooLong => TooLongKind
    case Deferred => DeferredKind
    case Started(answer) =>
      match answer
      case Busy => Skipped
      case Resting => Skipped
      case SourceRefused => Skipped
      case CollectionError => Failed
      case OtherException => Failed
      case Result(status, error, _, _, _, _) =>
        if status.StatusBlocked? then Blocked
        else if status.StatusRateLimited? then RateLimited
        else if error then Failed
        else Polled
  }

  /** The counters in the answers' own terms: a source no pass can hold; one the pass had no time for; nothing
      done because it is held, resting or refused; a failure raised or recorded; a person needed; a wait asked
      for; and the rest, which are polled. */
  lemma KindMeans(d: Decision)
    ensures KindOf(d).TooLongKind? <==> d.TooLong?
    ensures KindOf(d).DeferredKind? <==> d.Deferred?
    ensures KindOf(d).Skipped? <==> d.Started? && (d.answer.Busy? || d.answer.Resting? || d.answer.SourceRefused?)
    ensures KindOf(d).Blocked? <==> d.Started? && d.answer.Result? && d.answer.status == StatusBlocked
    ensures KindOf(d).RateLimited? <==> d.Started? && d.answer.Result? && d.answer.status == StatusRateLimited
    ensures KindOf(d).Failed? <==>
      d.Started? && (d.answer.CollectionError? || d.answer.OtherException? || (d.answer.Result? && d.answer.status == StatusOther && d.answer.error))
    ensures KindOf(d).Polled? <==> d.Started? && d.answer.Result? && d.answer.status == StatusOther && !d.answer.error
    ensures d.Started? && d.answer.Result? ==>
      YieldOf(d).seen == d.answer.seen && YieldOf(d).novel == d.answer.novel
      && YieldOf(d).hits == d.answer.hits && YieldOf(d).warnings == d.answer.warnings
    ensures !(d.Started? && d.answer.Result?) ==> YieldOf(d) == Yield(0, 0, 0, 0)
  {
  }

  function Count(ds: seq<Decision>, kind: Kind): nat {
    if ds == [] then 0
    else Count(ds[..|ds| - 1], kind) + (if KindOf(ds[|ds| - 1]) == kind then 1 else 0)
  }

  /** What the polls that answered brought in. */
  datatype Yield = Yield(seen: nat, novel: nat, hits: nat, warnings: nat)

  function YieldOf(d: Decision): Yield {
    match d
    case Started(Result(_, _, seen, novel, hits, warnings)) => Yield(seen, novel, hits, warnings)
    case _ => Yield(0, 0, 0, 0)
  }

  function Plus(a: Yield, b: Yield): Yield {
    Yield(a.seen + b.seen, a.novel + b.novel, a.hits + b.hits, a.warnings + b.warnings)
  }

  function Yields(ds: seq<Decision>): Yield {
    if ds == [] then Yield(0, 0, 0, 0) else Plus(Yields(ds[..|ds| - 1]), YieldOf(ds[|ds| - 1]))
  }

  /** Every source is counted once: no outcome is lost and none counted twice. */
  lemma {:induction false} EverySourceIsCounted(ds: seq<Decision>)
    ensures Count(ds, Polled) + Count(ds, Skipped) + Count(ds, DeferredKind) + Count(ds, Failed)
          + Count(ds, Blocked) + Count(ds, RateLimited) + Count(ds, TooLongKind) == |ds|
  {
    if ds != [] {
      EverySourceIsCounted(ds[..|ds| - 1]);
    }
  }

  lemma {:induction false} CountsOnlyItsKind(ds: seq<Decision>, kind: Kind)
    ensures Count(ds, kind) > 0 <==> exists i :: 0 <= i < |ds| && KindOf(ds[i]) == kind
  {
    if ds != [] {
      var n := |ds| - 1;
      CountsOnlyItsKind(ds[..n], kind);
      if Count(ds[..n], kind) > 0 {
        var i :| 0 <= i < n && KindOf(ds[..n][i]) == kind;
        assert KindOf(ds[i]) == kind;
      }
      if i :| 0 <= i < |ds| && KindOf(ds[i]) == kind {
        assert i < n ==> KindOf(ds[..n][i]) == kind;
      }
    }
  }

  datatype Counters = Counters(due: nat, selected: nat, held: nat, interrupted: nat,
                               polled: nat, skipped: nat, deferred: nat, failed: nat,
                               blocked: nat, rateLimited: nat, tooLong: nat, items: Yield)

  /** What the counters are before the loop: listed, selected, held and the runs found interrupted. */
  datatype Before = Before(due: nat, selected: nat, held: nat, interrupted: nat)

  /** The counters say of the decisions exactly how many of each kind there were. */
  ghost predicate Tally(c: Counters, b: Before, ds: seq<Decision>) {
    c == Counters(b.due, b.selected, b.held, b.interrupted,
                  Count(ds, Polled), Count(ds, Skipped), Count(ds, DeferredKind), Count(ds, Failed),
                  Count(ds, Blocked), Count(ds, RateLimited), Count(ds, TooLongKind), Yields(ds))
  }

  /** counters[...] += 1 */
  method Add(c: Counters, kind: Kind, added: Yield, ghost b: Before, ghost ds: seq<Decision>, ghost d: Decision) returns (r: Counters)
    requires Tally(c, b, ds) && kind == KindOf(d) && added == YieldOf(d)
    ensures Tally(r, b, ds + [d])
  {
    hide KindOf, YieldOf, Count, Yields, Plus;
    Tallied(ds, d);
    match kind {
      case Polled => r := c.(polled := c.polled + 1);
      case Skipped => r := c.(skipped := c.skipped + 1);
      case DeferredKind => r := c.(deferred := c.deferred + 1);
      case Failed => r := c.(failed := c.failed + 1);
      case Blocked => r := c.(blocked := c.blocked + 1);
      case RateLimited => r := c.(rateLimited := c.rateLimited + 1);
      case TooLongKind => r := c.(tooLong := c.tooLong + 1);
    }
    r := r.(items := Plus(c.items, added));
  }

  /** The exit says that a person is needed or a source cannot fit. */
  predicate NeedsAttention(d: Decision) {
    || d.TooLong?
    || (d.Started? &&
          (|| d.answer.CollectionError? || d.answer.OtherException?
           || (d.answer.Result? && (d.answer.status.StatusBlocked? || (d.answer.status.StatusOther? && d.answer.error)))))
  }

  lemma AttentionIs(d: Decision)
    ensures NeedsAttention(d) <==> KindOf(d) == Failed || KindOf(d) == Blocked || KindOf(d) == TooLongKind
  {
  }

  lemma AttentionCounted(ds: seq<Decision>)
    ensures (exists i :: 0 <= i < |ds| && NeedsAttention(ds[i])) <==>
      Count(ds, Failed) > 0 || Count(ds, Blocked) > 0 || Count(ds, TooLongKind) > 0
  {
    hide KindOf, Count, NeedsAttention;
    forall i | 0 <= i < |ds| ensures NeedsAttention(ds[i]) <==> KindOf(ds[i]) == Failed || KindOf(ds[i]) == Blocked || KindOf(ds[i]) == TooLongKind {
      AttentionIs(ds[i]);
    }
    CountsOnlyItsKind(ds, Failed);
    CountsOnlyItsKind(ds, Blocked);
    CountsOnlyItsKind(ds, TooLongKind);
  }

  /** The loop of a pass: what it decides for each selected source, counted, and the exit code.
      A dry run decides nothing and marks no interrupted run. */
  method Pass(o: Limits, due: seq<Source>, held: nat, interrupted: nat, moments: seq<Moment>)
    returns (c: Counters, exit: int, ghost ds: seq<Decision>)
    requires |moments| == |Selected(o, due)|
    ensures ds == if o.dryRun then [] else Decisions(o, Selected(o, due), moments)
    ensures Tally(c, Before(|due|, |Selected(o, due)|, held, if o.dryRun then 0 else interrupted), ds)
    ensures !o.dryRun ==> c.polled + c.skipped + c.deferred + c.failed + c.blocked + c.rateLimited + c.tooLong == c.selected
    ensures exit == if exists i :: 0 <= i < |ds| && NeedsAttention(ds[i]) then 1 else 0
  {
    hide KindOf, Decide, Tally, AnyStarted, Decisions, NeedsAttention;
    var sources := Selected(o, due);
    var before := Before(|due|, |sources|, held, if o.dryRun then 0 else interrupted);
    c := Counters(before.due, before.selected, before.held, before.interrupted, 0, 0, 0, 0, 0, 0, 0, Yield(0, 0, 0, 0));
    ds := [];
    NothingTallied(before);
    NothingDecided(o);
    var started := 0;
    var i := 0;
    while i < |sources|
      invariant 0 <= i <= |sources|
      invariant ds == if o.dryRun then [] else Decisions(o, sources[..i], moments[..i])
      invariant (started > 0) == AnyStarted(ds)
      invariant Tally(c, before, ds)
    {
      if !o.dryRun {
        ghost var d := Decide(o, sources[i].needs, AnyStarted(ds), moments[i]);
        DecidedNext(o, sources, moments, i);
        Tallied(ds, d);
        var kind, added, begins := PollOne(o, sources[i].needs, started > 0, moments[i]);
        c := Add(c, kind, added, before, ds, d);
        if begins {
          started := started + 1;
        }
        ds := ds + [d];
      }
      i := i + 1;
    }
    assert sources[..i] == sources && moments[..i] == moments;
    EverySourceIsCounted(ds);
    AttentionCounted(ds);
    Totals(c, before, ds);
    exit := if !o.dryRun && (c.failed > 0 || c.blocked > 0 || c.tooLong > 0) then 1 else 0;
  }

  lemma NothingTallied(b: Before)
    ensures Tally(Counters(b.due, b.selected, b.held, b.interrupted, 0, 0, 0, 0, 0, 0, 0, Yield(0, 0, 0, 0)), b, [])
  {
  }

  lemma NothingDecided(o: Limits)
    ensures Decisions(o, [], []) == [] && !AnyStarted([])
  {
  }

  lemma Totals(c: Counters, b: Before, ds: seq<Decision>)
    requires Tally(c, b, ds)
    ensures c.selected == b.selected
    ensures c.failed == Count(ds, Failed) && c.blocked == Count(ds, Blocked) && c.tooLong == Count(ds, TooLongKind)
    ensures c.polled == Count(ds, Polled) && c.skipped == Count(ds, Skipped)
    ensures c.deferred == Count(ds, DeferredKind) && c.rateLimited == Count(ds, RateLimited)
  {
  }

  /** One turn of the loop: what is counted, what came in, and whether a poll began. */
  method PollOne(o: Limits, needs: real, started: bool, m: Moment) returns (kind: Kind, added: Yield, begins: bool)
    ensures var d := Decide(o, needs, started, m);
      kind == KindOf(d) && begins == d.Started? && added == YieldOf(d)
  {
    var nothing := Yield(0, 0, 0, 0);
    if o.maxSeconds != 0.0 && needs > o.maxSeconds {
      return TooLongKind, nothing, false;
    }
    if o.maxSeconds != 0.0 && (m.elapsed >= o.maxSeconds || (started && m.elapsed + needs > o.maxSeconds)) {
      return DeferredKind, nothing, false;
    }
    match m.answer {
      case Busy => return Skipped, nothing, true;
      case Resting => return Skipped, nothing, true;
      case SourceRefused => return Skipped, nothing, true;
      case CollectionError => return Failed, nothing, true;
      case OtherException => return Failed, nothing, true;
      case Result(status, error, seen, novel, hits, warnings) =>
        var items := Yield(seen, novel, hits, warnings);
        if status.StatusBlocked? {
          return Blocked, items, true;
        } else if status.StatusRateLimited? {
          return RateLimited, items, true;
        } else if error {
          return Failed, items, true;
        }
        return Polled, items, true;
    }
  }

  lemma DecidedNext(o: Limits, sources: seq<Source>, moments: seq<Moment>, i: nat)
    requires |moments| == |sources| && i < |sources|
    ensures var before := Decisions(o, sources[..i], moments[..i]);
      Decisions(o, sources[..i + 1], moments[..i + 1]) == before + [Decide(o, sources[i].needs, AnyStarted(before), moments[i])]
  {
    assert sources[..i + 1][..i] == sources[..i] && moments[..i + 1][..i] == moments[..i];
  }

  lemma Tallied(ds: seq<Decision>, d: Decision)
    ensures forall kind :: Count(ds + [d], kind) == Count(ds, kind) + (if KindOf(d) == kind then 1 else 0)
    ensures Yields(ds + [d]) == Plus(Yields(ds), YieldOf(d))
    ensures AnyStarted(ds + [d]) <==> AnyStarted(ds) || d.Started?
  {
    hide Count, Yields, AnyStarted, KindOf, YieldOf, Plus;
    forall kind ensures Count(ds + [d], kind) == Count(ds, kind) + (if KindOf(d) == kind then 1 else 0) {
      CountedMore(ds, d, kind);
    }
    YieldsMore(ds, d);
    StartedMore(ds, d);
  }

  lemma CountedMore(ds: seq<Decision>, d: Decision, kind: Kind)
    ensures Count(ds + [d], kind) == Count(ds, kind) + (if KindOf(d) == kind then 1 else 0)
  {
    hide KindOf;
    assert (ds + [d])[..|ds|] == ds;
  }

  lemma YieldsMore(ds: seq<Decision>, d: Decision)
    ensures Yields(ds + [d]) == Plus(Yields(ds), YieldOf(d))
  {
    hide YieldOf, Plus;
    assert (ds + [d])[..|ds|] == ds;
  }

  lemma StartedMore(ds: seq<Decision>, d: Decision)
    ensures AnyStarted(ds + [d]) <==> AnyStarted(ds) || d.Started?
  {
    if d.Started? {
      assert (ds + [d])[|ds|].Started?;
    }
    if AnyStarted(ds) {
      var i :| 0 <= i < |ds| && ds[i].Started?;
      assert (ds + [d])[i].Started?;
    }
  }

  /** The decision for a source depends on what came before it only through whether a poll
      had begun. */
  lemma {:induction false} DecidedAt(o: Limits, sources: seq<Source>, moments: seq<Moment>, i: nat)
    requires |moments| == |sources| && i < |sources|
    ensures var ds := Decisions(o, sources, moments);
      ds[i] == Decide(o, sources[i].needs, AnyStarted(ds[..i]), moments[i])
  {
    var n := |sources| - 1;
    var ds := Decisions(o, sources, moments);
    if i < n {
      DecidedAt(o, sources[..n], moments[..n], i);
      assert ds[..i] == Decisions(o, sources[..n], moments[..n])[..i];
    } else {
      assert ds[..n] == Decisions(o, sources[..n], moments[..n]);
    }
  }

  /** When a pass with a time limit may start a poll, exactly. */
  lemma StartsExactly(o: Limits, sources: seq<Source>, moments: seq<Moment>, i: nat)
    requires |moments| == |sources| && i < |sources| && o.maxSeconds > 0.0
    ensures var ds := Decisions(o, sources, moments);
      ds[i].Started? <==>
        && sources[i].needs <= o.maxSeconds && moments[i].elapsed < o.maxSeconds
        && (AnyStarted(ds[..i]) ==> moments[i].elapsed + sources[i].needs <= o.maxSeconds)
    ensures Decisions(o, sources, moments)[i].TooLong? <==> sources[i].needs > o.maxSeconds
    ensures Decisions(o, sources, moments)[i].Started? ==> Decisions(o, sources, moments)[i].answer == moments[i].answer
  {
    DecidedAt(o, sources, moments, i);
  }

  /** With no time limit every source selected is polled. */
  lemma NoLimitStartsAll(o: Limits, sources: seq<Source>, moments: seq<Moment>, i: nat)
    requires |moments| == |sources| && i < |sources| && o.maxSeconds == 0.0
    ensures Decisions(o, sources, moments)[i] == Started(moments[i].answer)
  {
    DecidedAt(o, sources, moments, i);
  }

  /** If every poll keeps its budget, the last one ends before twice --max-seconds. */
  lemma EndsBeforeTwice(o: Limits, sources: seq<Source>, moments: seq<Moment>, i: nat, ended: real)
    requires |moments| == |sources| && i < |sources| && o.maxSeconds > 0.0
    requires Decisions(o, sources, moments)[i].Started?
    requires ended <= moments[i].elapsed + sources[i].needs
    ensures ended < 2.0 * o.maxSeconds
    ensures AnyStarted(Decisions(o, sources, moments)[..i]) ==> ended <= o.maxSeconds
  {
    StartsExactly(o, sources, moments, i);
  }
}
