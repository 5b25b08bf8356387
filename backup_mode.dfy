/**
 * The failure-counting state machine that both checkers run around every
 * probe of the product page: consecutive failed probes are counted, the
 * third one in a row switches to backup mode (one alert, and a cooldown when
 * the failure was a non-200 status), and the next 200 response leaves it
 * (one recovery alert) and resets the counter.
 */
module BackupMode {
  import opened Telegram

  /** Consecutive failures after which backup mode is entered. */
  const Threshold: nat := 3
  /** Seconds slept when a non-200 response makes the checker enter backup mode. */
  const Cooldown: nat := 60

  /** What one HTTP request for a page produced: a status with the page text, or an exception. */
  datatype Reply = Status(code: int, text: string) | Raised

  /**
   * What a probe means to the state machine: `Skip` leaves it alone, `Failure`
   * counts (with `cooldown` when it was a non-200 status), `Success` resets.
   */
  datatype Signal = Skip | Failure(cooldown: bool) | Success

  /** Only status 200 is a success, whatever the page says; any other status or an exception is a failure. */
  function SignalOf(reply: Reply): (sig: Signal)
    ensures sig.Success? <==> reply.Status? && reply.code == 200
    ensures sig == Failure(true) <==> reply.Status? && reply.code != 200
    ensures sig == Failure(false) <==> reply.Raised?
  {
    match reply
    case Raised => Failure(false)
    case Status(code, _) => if code != 200 then Failure(true) else Success
  }

  datatype FailureState = FailureState(failures: nat, backup: bool)

  const Initial: FailureState := FailureState(0, false)

  /** The states the machine can reach: backup mode is on exactly when the counter has reached the threshold. */
  predicate Consistent(s: FailureState)
  {
    s.backup <==> s.failures >= Threshold
  }

  /** A new state with the notifications sent and the sleeps taken on the way to it. */
  datatype Effects = Effects(state: FailureState, notes: seq<Note>, sleeps: seq<nat>)

  /** One probe's effect on the failure counter and the backup flag. */
  function Transition(s: FailureState, sig: Signal): (e: Effects)
    ensures Consistent(s) ==> Consistent(e.state)
    ensures sig.Skip? ==> e == Effects(s, [], [])
    ensures sig.Failure? ==> e.state.failures == s.failures + 1
    ensures sig.Failure? ==> (e.state.backup <==> s.backup || s.failures + 1 >= Threshold)
    ensures sig.Success? ==> e.state == Initial
    ensures |e.notes| <= 1 && forall m :: m in e.notes ==> m == BackupEntered || m == Recovered
    ensures BackupEntered in e.notes <==> sig.Failure? && !s.backup && e.state.backup
    ensures Recovered in e.notes <==> sig.Success? && s.backup
    ensures e.sleeps == (if sig == Failure(true) && BackupEntered in e.notes then [Cooldown] else [])
  {
    match sig
    case Skip => Effects(s, [], [])
    case Failure(cooldown) =>
      var n := s.failures + 1;
      if n >= Threshold && !s.backup then
        Effects(FailureState(n, true), [BackupEntered], if cooldown then [Cooldown] else [])
      else
        Effects(FailureState(n, s.backup), [], [])
    case Success =>
      Effects(Initial, if s.backup then [Recovered] else [], [])
  }

  /** The effects so far, followed by one more probe. */
  function After(e: Effects, sig: Signal): Effects
  {
    var t := Transition(e.state, sig);
    Effects(t.state, e.notes + t.notes, e.sleeps + t.sleeps)
  }

  /** The effects so far, followed by a sequence of probes in order. */
  function Replay(e: Effects, sigs: seq<Signal>): Effects
    decreases |sigs|
  {
    if sigs == [] then e else After(Replay(e, sigs[..|sigs| - 1]), sigs[|sigs| - 1])
  }

  /** A sequence of probes in order from state `s`, with all notifications and sleeps they caused. */
  function Run(s: FailureState, sigs: seq<Signal>): Effects
  {
    Replay(Effects(s, [], []), sigs)
  }

  /** Replaying probes after earlier effects keeps those effects and adds exactly what a fresh run from the same state produces. */
  lemma {:induction false} ReplayExtends(e: Effects, sigs: seq<Signal>)
    ensures Replay(e, sigs) ==
      Effects(Run(e.state, sigs).state, e.notes + Run(e.state, sigs).notes, e.sleeps + Run(e.state, sigs).sleeps)
    decreases |sigs|
  {
    if sigs != [] {
      var init := sigs[..|sigs| - 1];
      ReplayExtends(e, init);
      var r := Run(e.state, init);
      var t := Transition(r.state, sigs[|sigs| - 1]);
      assert Run(e.state, sigs) == After(r, sigs[|sigs| - 1]);
      assert e.notes + r.notes + t.notes == e.notes + (r.notes + t.notes);
      assert e.sleeps + r.sleeps + t.sleeps == e.sleeps + (r.sleeps + t.sleeps);
    }
  }

  /** A run from a consistent state ends in a consistent state. */
  lemma {:induction false} RunConsistent(s: FailureState, sigs: seq<Signal>)
    requires Consistent(s)
    ensures Consistent(Run(s, sigs).state)
    decreases |sigs|
  {
    if sigs != [] {
      RunConsistent(s, sigs[..|sigs| - 1]);
    }
  }

  /** A run sends only backup and recovery alerts, and sleeps only for the cooldown. */
  lemma {:induction false} RunEffectsAreAlerts(s: FailureState, sigs: seq<Signal>)
    ensures forall n :: n in Run(s, sigs).notes ==> n == BackupEntered || n == Recovered
    ensures forall d :: d in Run(s, sigs).sleeps ==> d == Cooldown
    decreases |sigs|
  {
    if sigs != [] {
      RunEffectsAreAlerts(s, sigs[..|sigs| - 1]);
      var prev := Run(s, sigs[..|sigs| - 1]);
      var last := Transition(prev.state, sigs[|sigs| - 1]);
      assert Run(s, sigs) == Effects(last.state, prev.notes + last.notes, prev.sleeps + last.sleeps);
    }
  }

  /** Replaying one more signal, the one at position `i`. */
  lemma ReplayStep(e: Effects, sigs: seq<Signal>, i: nat)
    requires i < |sigs|
    ensures Replay(e, sigs[..i + 1]) == After(Replay(e, sigs[..i]), sigs[i])
  {
    assert sigs[..i + 1][..i] == sigs[..i];
  }

  /**
   * Over any run, the "entering backup" alerts outnumber the "recovered"
   * alerts by exactly the change in the backup flag.
   */
  lemma {:induction false} AlertsBalance(s: FailureState, sigs: seq<Signal>)
    ensures var e := Run(s, sigs);
      Sent(e.notes, BackupEntered) + (if s.backup then 1 else 0)
      == Sent(e.notes, Recovered) + (if e.state.backup then 1 else 0)
    decreases |sigs|
  {
    if sigs != [] {
      var prev := Run(s, sigs[..|sigs| - 1]);
      AlertsBalance(s, sigs[..|sigs| - 1]);
      var last := Transition(prev.state, sigs[|sigs| - 1]);
      assert Run(s, sigs).notes == prev.notes + last.notes;
    }
  }

  /**
   * The two alerts alternate: in every prefix of a run's notifications the
   * "entering backup" alerts, plus one if the run started in backup mode,
   * exceed the "recovered" alerts by 0 or 1, so no alert of either kind is
   * sent twice without the other in between.
   */
  lemma {:induction false} AlertsAlternate(s: FailureState, sigs: seq<Signal>)
    ensures var notes := Run(s, sigs).notes;
      forall j :: 0 <= j <= |notes| ==>
        0 <= Sent(notes[..j], BackupEntered) - Sent(notes[..j], Recovered) + (if s.backup then 1 else 0) <= 1
    decreases |sigs|
  {
    if sigs != [] {
      var init := sigs[..|sigs| - 1];
      AlertsAlternate(s, init);
      AlertsBalance(s, sigs);
      var prev := Run(s, init);
      var last := Transition(prev.state, sigs[|sigs| - 1]);
      var notes := Run(s, sigs).notes;
      assert notes == prev.notes + last.notes;
      forall j | 0 <= j <= |notes|
        ensures 0 <= Sent(notes[..j], BackupEntered) - Sent(notes[..j], Recovered) + (if s.backup then 1 else 0) <= 1
      {
        if j <= |prev.notes| {
          assert notes[..j] == prev.notes[..j];
        } else {
          assert notes[..j] == notes;
        }
      }
    }
  }

  /**
   * Between two 200 responses at most one "entering backup" alert is sent,
   * none if the run starts in backup mode, and no "recovered" alert at all.
   */
  lemma {:induction false} OneAlertPerExcursion(s: FailureState, sigs: seq<Signal>)
    requires forall k :: 0 <= k < |sigs| ==> !sigs[k].Success?
    ensures var e := Run(s, sigs);
      Sent(e.notes, BackupEntered) == (if e.state.backup && !s.backup then 1 else 0) &&
      Sent(e.notes, Recovered) == 0 &&
      (s.backup ==> e.state.backup)
    decreases |sigs|
  {
    if sigs != [] {
      var prev := Run(s, sigs[..|sigs| - 1]);
      OneAlertPerExcursion(s, sigs[..|sigs| - 1]);
      var last := Transition(prev.state, sigs[|sigs| - 1]);
      assert Run(s, sigs).notes == prev.notes + last.notes;
    }
  }

  /**
   * From normal mode, a run of failures counts each one and enters backup
   * mode exactly when the count reaches the threshold, with one alert, and
   * with the cooldown only if the failure that crossed was a non-200 status.
   */
  lemma {:induction false} CrossingThreshold(s: FailureState, sigs: seq<Signal>)
    requires Consistent(s) && !s.backup
    requires forall k :: 0 <= k < |sigs| ==> sigs[k].Failure?
    ensures var e := Run(s, sigs);
      var crossed := s.failures + |sigs| >= Threshold;
      e.state == FailureState(s.failures + |sigs|, crossed) &&
      e.notes == (if crossed then [BackupEntered] else []) &&
      e.sleeps == (if crossed && sigs[Threshold - 1 - s.failures].cooldown then [Cooldown] else [])
    decreases |sigs|
  {
    if sigs != [] {
      var init := sigs[..|sigs| - 1];
      CrossingThreshold(s, init);
      if s.failures + |init| >= Threshold {
        assert init[Threshold - 1 - s.failures] == sigs[Threshold - 1 - s.failures];
      }
    }
  }

  /** Three non-200 responses, a fourth, then a 200: enter once, recover once, one cooldown, back to the start. */
  lemma FourFailuresThenSuccess()
    ensures Run(Initial, [Failure(true), Failure(true), Failure(true), Failure(true), Success])
      == Effects(Initial, [BackupEntered, Recovered], [Cooldown])
  {
    var f := Failure(true);
    var sigs := [f, f, f, f, Success];
    assert sigs[..4] == [f, f, f, f] && sigs[..4][..3] == [f, f, f];
    assert [f, f, f][..2] == [f, f] && [f, f][..1] == [f] && [f][..0] == [];
    var e0 := Effects(Initial, [], []);
    assert Replay(e0, []) == e0;
    assert Replay(e0, [f]) == Effects(FailureState(1, false), [], []);
    assert Replay(e0, [f, f]) == Effects(FailureState(2, false), [], []);
    assert Replay(e0, [f, f, f]) == Effects(FailureState(3, true), [BackupEntered], [Cooldown]);
    assert Replay(e0, [f, f, f, f]) == Effects(FailureState(4, true), [BackupEntered], [Cooldown]);
  }
}
