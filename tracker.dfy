/**
 * The multi-URL tracker: a per-URL availability check that fetches a proxy
 * and runs the backup-mode state machine, a control listener that switches
 * tracking on and off, one iteration of the polling loop, the startup read
 * of the persisted flag and the status reply.
 */
module MultiUrlTracker {
  import opened Wrappers
  import opened Page
  import opened BackupMode
  import opened Telegram

  /** Seconds the loop sleeps when tracking is off. */
  const IdleBackoff: nat := 2

  /** A check's probe: no proxy could be leased, or the page was requested through one. */
  datatype Probe = NoProxy | Proxied(reply: Reply)

  /** A lease failure is skipped; otherwise the reply decides. */
  function ProbeSignal(p: Probe): (sig: Signal)
    ensures sig.Skip? <==> p.NoProxy?
    ensures p.Proxied? ==> sig == SignalOf(p.reply)
  {
    match p
    case NoProxy => Skip
    case Proxied(reply) => SignalOf(reply)
  }

  function ProbeSignals(probes: seq<Probe>): (sigs: seq<Signal>)
    ensures |sigs| == |probes|
    ensures forall i :: 0 <= i < |probes| ==> sigs[i] == ProbeSignal(probes[i])
  {
    seq(|probes|, i requires 0 <= i < |probes| => ProbeSignal(probes[i]))
  }

  datatype PageVerdict = NotAvailable | BotDetected | InStock

  /** The page is tested for the "not available" marker first, then for the bot-detection marker. */
  function ClassifyPage(text: string): (v: PageVerdict)
    ensures v == NotAvailable <==> Occurs(text, NotAvailableMarker)
    ensures v == BotDetected <==> !Occurs(text, NotAvailableMarker) && Occurs(text, BotDetectionMarker)
    ensures v == InStock <==> !Occurs(text, NotAvailableMarker) && !Occurs(text, BotDetectionMarker)
  {
    ContainsIffOccurs(text, NotAvailableMarker);
    ContainsIffOccurs(text, BotDetectionMarker);
    if Contains(text, NotAvailableMarker) then NotAvailable
    else if Contains(text, BotDetectionMarker) then BotDetected
    else InStock
  }

  /** What a check returns: a 200 page that carries neither marker. */
  function ProbeAvailable(p: Probe): (r: bool)
    ensures r <==> p.Proxied? && p.reply.Status? && p.reply.code == 200 &&
                   !Occurs(p.reply.text, NotAvailableMarker) && !Occurs(p.reply.text, BotDetectionMarker)
    ensures r ==> ProbeSignal(p).Success?
  {
    p.Proxied? && p.reply.Status? && p.reply.code == 200 && ClassifyPage(p.reply.text) == InStock
  }

  /** `random.randint(lo, hi)`, with the random source given as `draw`. */
  function RandInt(lo: nat, hi: nat, draw: nat): (r: nat)
    requires lo <= hi
    ensures lo <= r <= hi
    ensures draw < hi - lo + 1 ==> r == lo + draw
  {
    lo + draw % (hi - lo + 1)
  }

  /** Checking one URL of a pass: the check's own effects, its alert if available, then the per-URL delay. */
  function CheckOne(prev: Effects, url: string, probe: Probe, draw: nat): Effects
  {
    var checked := After(prev, ProbeSignal(probe));
    var alert := if ProbeAvailable(probe) then [UrlAvailable(url)] else [];
    Effects(checked.state, checked.notes + alert, checked.sleeps + [RandInt(2, 4, draw)])
  }

  /**
   * The per-URL part of an active loop iteration over `urls`, starting from
   * `start`: each URL is checked with its own probe and followed by a delay
   * picked with its own draw.
   */
  function Pass(start: Effects, urls: seq<string>, probes: seq<Probe>, draws: seq<nat>): (e: Effects)
    requires |probes| == |urls| && |draws| == |urls|
    ensures Consistent(start.state) ==> Consistent(e.state)
    decreases |urls|
  {
    if urls == [] then start
    else
      var n := |urls| - 1;
      CheckOne(Pass(start, urls[..n], probes[..n], draws[..n]), urls[n], probes[n], draws[n])
  }

  /** Extending a pass by the URL at position `i`. */
  lemma PassStep(start: Effects, urls: seq<string>, probes: seq<Probe>, draws: seq<nat>, i: nat)
    requires |probes| == |urls| && |draws| == |urls| && i < |urls|
    ensures Pass(start, urls[..i + 1], probes[..i + 1], draws[..i + 1])
      == CheckOne(Pass(start, urls[..i], probes[..i], draws[..i]), urls[i], probes[i], draws[i])
  {
    assert urls[..i + 1][..i] == urls[..i] && probes[..i + 1][..i] == probes[..i] && draws[..i + 1][..i] == draws[..i];
  }

  predicate Distinct(urls: seq<string>)
  {
    forall i, j :: 0 <= i < j < |urls| ==> urls[i] != urls[j]
  }

  /** Some URL in the pass equals `u` and its check returned true. */
  ghost predicate FoundAvailable(urls: seq<string>, probes: seq<Probe>, u: string)
    requires |probes| == |urls|
  {
    exists i :: 0 <= i < |urls| && urls[i] == u && ProbeAvailable(probes[i])
  }

  /** Splits "found" over the last URL of a pass; with distinct URLs, a URL found earlier is not the last one. */
  lemma FoundAvailableLast(urls: seq<string>, probes: seq<Probe>, u: string)
    requires |probes| == |urls| && urls != []
    ensures var n := |urls| - 1;
      FoundAvailable(urls, probes, u) <==>
        FoundAvailable(urls[..n], probes[..n], u) || (urls[n] == u && ProbeAvailable(probes[n]))
    ensures Distinct(urls) && FoundAvailable(urls[..|urls| - 1], probes[..|urls| - 1], u) ==> urls[|urls| - 1] != u
  {
  }

  /** A pass over distinct URLs sends one "Available" alert for each URL whose check returned true, and none for the others. */
  lemma {:induction false} OneAlertPerAvailableUrl(start: Effects, urls: seq<string>, probes: seq<Probe>, draws: seq<nat>, u: string)
    requires |probes| == |urls| && |draws| == |urls|
    requires Distinct(urls)
    ensures Sent(Pass(start, urls, probes, draws).notes, UrlAvailable(u))
         == Sent(start.notes, UrlAvailable(u)) + if FoundAvailable(urls, probes, u) then 1 else 0
    decreases |urls|
  {
    if urls != [] {
      var n := |urls| - 1;
      assert Distinct(urls[..n]);
      OneAlertPerAvailableUrl(start, urls[..n], probes[..n], draws[..n], u);
      FoundAvailableLast(urls, probes, u);
      var prev := Pass(start, urls[..n], probes[..n], draws[..n]);
      var check := Transition(prev.state, ProbeSignal(probes[n]));
      assert UrlAvailable(u) !in check.notes;
    }
  }

  /**
   * Apart from the "Available" alerts, a pass is the backup-mode state
   * machine run over its probes: same final state, same backup and recovery
   * alerts.
   */
  lemma {:induction false} PassFollowsStateMachine(start: Effects, urls: seq<string>, probes: seq<Probe>, draws: seq<nat>)
    requires |probes| == |urls| && |draws| == |urls|
    ensures var e := Pass(start, urls, probes, draws);
      var run := Run(start.state, ProbeSignals(probes));
      e.state == run.state &&
      Sent(e.notes, BackupEntered) == Sent(start.notes, BackupEntered) + Sent(run.notes, BackupEntered) &&
      Sent(e.notes, Recovered) == Sent(start.notes, Recovered) + Sent(run.notes, Recovered)
    decreases |urls|
  {
    if urls != [] {
      var n := |urls| - 1;
      PassFollowsStateMachine(start, urls[..n], probes[..n], draws[..n]);
      assert ProbeSignals(probes)[..n] == ProbeSignals(probes[..n]);
    }
  }

  /**
   * A pass only appends to the logs, and every delay it adds is either the
   * 60-second cooldown or a per-URL delay in [2, 4].
   */
  lemma {:induction false} PassDelaysBounded(start: Effects, urls: seq<string>, probes: seq<Probe>, draws: seq<nat>)
    requires |probes| == |urls| && |draws| == |urls|
    ensures var e := Pass(start, urls, probes, draws);
      start.notes <= e.notes && start.sleeps <= e.sleeps &&
      forall k :: |start.sleeps| <= k < |e.sleeps| ==> e.sleeps[k] == Cooldown || 2 <= e.sleeps[k] <= 4
    decreases |urls|
  {
    if urls != [] {
      var n := |urls| - 1;
      PassDelaysBounded(start, urls[..n], probes[..n], draws[..n]);
      var prev := Pass(start, urls[..n], probes[..n], draws[..n]);
      var check := Transition(prev.state, ProbeSignal(probes[n]));
      assert forall k :: |prev.sleeps| <= k < |prev.sleeps| + |check.sleeps| ==> (prev.sleeps + check.sleeps)[k] == Cooldown;
    }
  }

  /** A control-channel message: its pub/sub type and its payload. */
  datatype Message = Message(kind: string, data: string)

  /** The flag value a message asks for, if it is a recognised command. */
  function Command(msg: Message): (c: Option<bool>)
    ensures c == Some(true) <==> msg.kind == "message" && msg.data == "start"
    ensures c == Some(false) <==> msg.kind == "message" && msg.data == "stop"
  {
    if msg.kind != "message" then None
    else if msg.data == "start" then Some(true)
    else if msg.data == "stop" then Some(false)
    else None
  }

  /** The last recognised command in a message stream, if any. */
  function LastCommand(msgs: seq<Message>): (c: Option<bool>)
    ensures c.None? <==> forall i :: 0 <= i < |msgs| ==> Command(msgs[i]).None?
    ensures c.Some? ==> exists i :: 0 <= i < |msgs| && Command(msgs[i]) == c &&
                                    forall j :: i < j < |msgs| ==> Command(msgs[j]).None?
    decreases |msgs|
  {
    if msgs == [] then None
    else
      var n := |msgs| - 1;
      match Command(msgs[n])
      case Some(b) => Some(b)
      case None =>
        var c := LastCommand(msgs[..n]);
        assert forall i :: 0 <= i < n ==> msgs[..n][i] == msgs[i];
        c
  }

  /** The tracking flag after a message stream: the last command wins; no command leaves it as it was. */
  function FlagAfter(flag: bool, msgs: seq<Message>): bool
  {
    match LastCommand(msgs)
    case Some(b) => b
    case None => flag
  }

  /** The `/status` reply: the flag, the URL count and, when there are URLs, the URLs. */
  datatype StatusReply = StatusReply(tracking: bool, urlCount: nat, urls: Option<set<string>>)

  /** The process-wide state of the tracker module. */
  class Tracker {
    var consecutiveFailures: nat
    var inBackupMode: bool
    var trackingEnabled: bool
    /** The `tracking_status` key in the shared store, as this process last saw or wrote it. */
    var trackingStatus: Option<string>
    /** Telegram messages sent, in order. */
    ghost var notifications: seq<Note>
    /** Seconds slept, in order. */
    ghost var sleeps: seq<nat>

    function State(): FailureState
      reads this
    {
      FailureState(consecutiveFailures, inBackupMode)
    }

    ghost predicate Valid()
      reads this
    {
      Consistent(State())
    }

    /** State, notifications and sleeps together. */
    ghost function Log(): Effects
      reads this
    {
      Effects(State(), notifications, sleeps)
    }

    /** Process start: the flag is on exactly when the persisted status is "on". */
    constructor (persisted: Option<string>)
      ensures Valid()
      ensures State() == Initial && trackingStatus == persisted
      ensures trackingEnabled <==> persisted == Some("on")
      ensures notifications == [] && sleeps == []
    {
      consecutiveFailures := 0;
      inBackupMode := false;
      trackingEnabled := persisted == Some("on");
      trackingStatus := persisted;
      notifications := [];
      sleeps := [];
    }

    /** `is_product_available`: one check of one URL. */
    method IsProductAvailable(probe: Probe) returns (available: bool)
      requires Valid()
      modifies this`consecutiveFailures, this`inBackupMode, this`notifications, this`sleeps
      ensures Valid()
      ensures available == ProbeAvailable(probe)
      ensures Log() == After(old(Log()), ProbeSignal(probe))
    {
      match probe
      case NoProxy =>
        return false;
      case Proxied(Raised) =>
        consecutiveFailures := consecutiveFailures + 1;
        if consecutiveFailures >= Threshold && !inBackupMode {
          notifications := notifications + [BackupEntered];
          inBackupMode := true;
        }
        return false;
      case Proxied(Status(code, text)) =>
        if code != 200 {
          consecutiveFailures := consecutiveFailures + 1;
          if consecutiveFailures >= Threshold && !inBackupMode {
            notifications := notifications + [BackupEntered];
            inBackupMode := true;
            sleeps := sleeps + [Cooldown];
          }
          return false;
        }
        if inBackupMode {
          notifications := notifications + [Recovered];
          inBackupMode := false;
        }
        consecutiveFailures := 0;
        if Contains(text, NotAvailableMarker) {
          available := false;
        } else if Contains(text, BotDetectionMarker) {
          available := false;
        } else {
          available := true;
        }
        assert ClassifyPage(text) == InStock <==> available;
    }

    /** One message from the control channel. */
    method HandleMessage(msg: Message)
      modifies this`trackingEnabled
      ensures trackingEnabled == FlagAfter(old(trackingEnabled), [msg])
    {
      if msg.kind != "message" {
        return;
      }
      if msg.data == "start" {
        trackingEnabled := true;
      } else if msg.data == "stop" {
        trackingEnabled := false;
      }
    }

    /** `listen_for_commands` over the messages delivered so far, in order. */
    method Listen(msgs: seq<Message>)
      modifies this`trackingEnabled
      ensures trackingEnabled == FlagAfter(old(trackingEnabled), msgs)
    {
      for i := 0 to |msgs|
        invariant trackingEnabled == FlagAfter(old(trackingEnabled), msgs[..i])
      {
        HandleMessage(msgs[i]);
        assert msgs[..i + 1][..i] == msgs[..i];
      }
      assert msgs[..|msgs|] == msgs;
    }

    /** The body of `for url in urls`: check one URL, alert if it is available, then wait. */
    method CheckUrl(url: string, probe: Probe, draw: nat)
      requires Valid()
      modifies this`consecutiveFailures, this`inBackupMode, this`notifications, this`sleeps
      ensures Valid() && Log() == CheckOne(old(Log()), url, probe, draw)
    {
      var available := IsProductAvailable(probe);
      if available {
        notifications := notifications + [UrlAvailable(url)];
      }
      sleeps := sleeps + [RandInt(2, 4, draw)];
    }

    /** The `for url in urls` loop of an active iteration. */
    method CheckUrls(urls: seq<string>, probes: seq<Probe>, draws: seq<nat>)
      requires Valid()
      requires |probes| == |urls| && |draws| == |urls|
      modifies this`consecutiveFailures, this`inBackupMode, this`notifications, this`sleeps
      ensures Valid() && Log() == Pass(old(Log()), urls, probes, draws)
    {
      ghost var start := Log();
      for i := 0 to |urls|
        invariant Valid() && Log() == Pass(start, urls[..i], probes[..i], draws[..i])
      {
        PassStep(start, urls, probes, draws, i);
        CheckUrl(urls[i], probes[i], draws[i]);
      }
      assert urls[..|urls|] == urls && probes[..|urls|] == probes && draws[..|urls|] == draws;
    }

    /**
     * One iteration of `tracker_loop`. `urls` lists the tracked set in any
     * order: the iteration order of the Python set that `smembers` returns,
     * which the model leaves open; `probes[i]` is what checking `urls[i]` meets;
     * `draws[i]` picks the delay after it and `passDraw` the delay after the pass.
     */
    method LoopIteration(urls: seq<string>, probes: seq<Probe>, draws: seq<nat>, passDraw: nat)
      requires Valid()
      requires Distinct(urls)
      requires |probes| == |urls| && |draws| == |urls|
      modifies this
      ensures Valid()
      ensures !old(trackingEnabled) ==>
        State() == old(State()) && !trackingEnabled && trackingStatus == old(trackingStatus) &&
        notifications == old(notifications) && sleeps == old(sleeps) + [IdleBackoff]
      ensures old(trackingEnabled) && urls == [] ==>
        State() == old(State()) && !trackingEnabled && trackingStatus == Some("off") &&
        notifications == old(notifications) && sleeps == old(sleeps)
      ensures old(trackingEnabled) && urls != [] ==>
        var e := Pass(old(Log()), urls, probes, draws);
        State() == e.state && trackingEnabled && trackingStatus == old(trackingStatus) &&
        notifications == e.notes && sleeps == e.sleeps + [RandInt(20, 50, passDraw)]
    {
      if !trackingEnabled {
        sleeps := sleeps + [IdleBackoff];
        return;
      }
      if |urls| == 0 {
        trackingEnabled := false;
        trackingStatus := Some("off");
        return;
      }
      CheckUrls(urls, probes, draws);
      sleeps := sleeps + [RandInt(20, 50, passDraw)];
    }

    /** `status`: what the endpoint reports for the tracked set `urls`. */
    function Status(urls: set<string>): (r: StatusReply)
      reads this
      ensures r.tracking == trackingEnabled && r.urlCount == |urls|
      ensures r.urls.Some? <==> urls != {}
      ensures r.urls.Some? ==> r.urls.value == urls
    {
      if urls == {} then StatusReply(trackingEnabled, 0, None)
      else StatusReply(trackingEnabled, |urls|, Some(urls))
    }
  }
}
