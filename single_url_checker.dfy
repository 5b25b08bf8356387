/**
 * The older single-URL checker: the same backup-mode state machine around a
 * direct request for one product page (no proxy), a single "not available"
 * marker, and a main loop that sends one message and exits at the first
 * check that finds the product available.
 */
module SingleUrlChecker {
  import opened Wrappers
  import opened Page
  import opened BackupMode
  import opened Telegram

  /**
   * What a check returns: true exactly for a 200 page in which the
   * "not available" marker does not occur; there is no bot-detection test.
   */
  ghost predicate ReplyAvailable(reply: Reply)
  {
    reply.Status? && reply.code == 200 && !Occurs(reply.text, NotAvailableMarker)
  }

  function ReplySignals(replies: seq<Reply>): (sigs: seq<Signal>)
    ensures |sigs| == |replies|
    ensures forall i :: 0 <= i < |replies| ==> sigs[i] == SignalOf(replies[i])
  {
    seq(|replies|, i requires 0 <= i < |replies| => SignalOf(replies[i]))
  }

  /** What the successive checks return. */
  ghost function Verdicts(replies: seq<Reply>): (oks: seq<bool>)
    ensures |oks| == |replies|
    ensures forall i :: 0 <= i < |replies| ==> oks[i] == ReplyAvailable(replies[i])
  {
    seq(|replies|, i requires 0 <= i < |replies| => ReplyAvailable(replies[i]))
  }

  /** The verdicts of the first `k + 1` checks extend those of the first `k`. */
  lemma VerdictsStep(replies: seq<Reply>, k: nat)
    requires k < |replies|
    ensures Verdicts(replies)[..k + 1] == Verdicts(replies)[..k] + [ReplyAvailable(replies[k])]
  {
  }

  /** Position of the first true verdict, if any. */
  function FirstTrue(oks: seq<bool>): (r: Option<nat>)
    ensures r.None? <==> true !in oks
    ensures r.Some? ==> r.value < |oks| && oks[r.value] && true !in oks[..r.value]
    decreases |oks|
  {
    if oks == [] then None
    else if oks[0] then Some(0)
    else
      match FirstTrue(oks[1..])
      case None => None
      case Some(k) =>
        assert oks[..k + 1] == [oks[0]] + oks[1..][..k];
        Some(k + 1)
  }

  /** A true verdict with none before it is the first one. */
  lemma FirstTrueAt(oks: seq<bool>, k: nat)
    requires k < |oks| && oks[k] && true !in oks[..k]
    ensures FirstTrue(oks) == Some(k)
  {
  }

  /**
   * The first check to return true, if any, is at the first reply that is
   * available: none is found exactly when no reply is available, and a
   * found position holds an available reply with none available before it.
   */
  lemma FirstAvailable(replies: seq<Reply>)
    ensures FirstTrue(Verdicts(replies)).None? <==> forall j :: 0 <= j < |replies| ==> !ReplyAvailable(replies[j])
    ensures FirstTrue(Verdicts(replies)).Some? ==>
      ReplyAvailable(replies[FirstTrue(Verdicts(replies)).value]) &&
      forall j :: 0 <= j < FirstTrue(Verdicts(replies)).value ==> !ReplyAvailable(replies[j])
  {
  }

  /** The module-level state of the checker script. */
  class Checker {
    var consecutiveFailures: nat
    var inBackupMode: bool
    /** Telegram messages sent, in order. */
    ghost var notifications: seq<Note>
    /** Seconds slept in the cooldown, in order; the randomised wait between checks is not recorded. */
    ghost var sleeps: seq<nat>

    function State(): FailureState
      reads this
    {
      FailureState(consecutiveFailures, inBackupMode)
    }

    ghost predicate Valid()
      reads this
    {
      Consistent(State())
    }

    /** The state with everything sent and slept so far. */
    ghost function Log(): Effects
      reads this
    {
      Effects(State(), notifications, sleeps)
    }

    constructor ()
      ensures Valid() && State() == Initial && notifications == [] && sleeps == []
    {
      consecutiveFailures := 0;
      inBackupMode := false;
      notifications := [];
      sleeps := [];
    }

    /** `is_available`: one check of the product page. */
    method IsAvailable(reply: Reply) returns (available: bool)
      requires Valid()
      modifies this
      ensures Valid()
      ensures available == ReplyAvailable(reply)
      ensures Log() == After(old(Log()), SignalOf(reply))
    {
      match reply
      case Raised =>
        consecutiveFailures := consecutiveFailures + 1;
        if consecutiveFailures >= Threshold && !inBackupMode {
          notifications := notifications + [BackupEntered];
          inBackupMode := true;
        }
        return false;
      case Status(code, text) =>
        if code != 200 {
          consecutiveFailures := consecutiveFailures + 1;
          if consecutiveFailures >= Threshold && !inBackupMode {
            notifications := notifications + [BackupEntered];
            inBackupMode := true;
            sleeps := sleeps + [Cooldown];
          }
          return false;
        }
        if inBackupMode {
          notifications := notifications + [Recovered];
          inBackupMode := false;
        }
        consecutiveFailures := 0;
        ContainsIffOccurs(text, NotAvailableMarker);
        if Contains(text, NotAvailableMarker) {
          available := false;
        } else {
          available := true;
        }
    }

    /**
     * The checking loop of `main`, fed the replies its successive checks
     * meet: it checks until one reports the product available (`found`) or
     * the replies run out, and `checks` says how many checks were made.
     */
    method CheckUntilAvailable(replies: seq<Reply>) returns (found: bool, checks: nat)
      requires Valid()
      modifies this
      ensures Valid()
      ensures found <==> FirstTrue(Verdicts(replies)).Some?
      ensures checks == if found then FirstTrue(Verdicts(replies)).value + 1 else |replies|
      ensures Log() == Replay(old(Log()), ReplySignals(replies)[..checks])
    {
      ghost var start, sigs := Log(), ReplySignals(replies);
      found, checks := false, 0;
      while checks < |replies| && !found
        invariant checks <= |replies| && Valid()
        invariant found ==> 0 < checks && ReplyAvailable(replies[checks - 1])
        invariant true !in Verdicts(replies)[..checks - (if found then 1 else 0)]
        invariant Log() == Replay(start, sigs[..checks])
        decreases |replies| - checks
      {
        ReplayStep(start, sigs, checks);
        VerdictsStep(replies, checks);
        found := IsAvailable(replies[checks]);
        checks := checks + 1;
      }
      if found {
        FirstTrueAt(Verdicts(replies), checks - 1);
      } else {
        assert Verdicts(replies)[..checks] == Verdicts(replies);
      }
    }

    /**
     * `main`, fed the replies its successive checks meet: it checks until one
     * reports the product available, then sends the availability message
     * once and exits. `exited` is false when the replies ran out first.
     */
    method WatchUntilAvailable(replies: seq<Reply>) returns (exited: bool, checks: nat)
      requires Valid()
      modifies this
      ensures Valid()
      ensures exited <==> FirstTrue(Verdicts(replies)).Some?
      ensures checks == if exited then FirstTrue(Verdicts(replies)).value + 1 else |replies|
      ensures var e := Run(old(State()), ReplySignals(replies)[..checks]);
        State() == e.state && sleeps == old(sleeps) + e.sleeps &&
        notifications == old(notifications) + e.notes + (if exited then [ProductAvailable] else [])
      ensures Sent(notifications, ProductAvailable) == Sent(old(notifications), ProductAvailable) + (if exited then 1 else 0)
    {
      ghost var start := Log();
      exited, checks := CheckUntilAvailable(replies);
      ghost var run := Run(start.state, ReplySignals(replies)[..checks]);
      ReplayExtends(start, ReplySignals(replies)[..checks]);
      RunEffectsAreAlerts(start.state, ReplySignals(replies)[..checks]);
      assert ProductAvailable !in run.notes;
      if exited {
        notifications := notifications + [ProductAvailable];
      }
    }
  }
}
