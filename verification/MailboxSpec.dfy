/** One peer's place in the stack's table: mailbox, view and dial, at every step. */
module MailboxSpec {
  import opened Basics

  type Attempt = nat
  type Call = nat

  /** A view; an outbound one belongs to the dial attempt that made it. */
  datatype View = View(conn: nat, attempt: Option<Attempt>)

  /** Work for the supervisor: a view to admit, a Disconnect's drop, or any other request. */
  datatype Request = Admit(view: View) | Drop(call: Call) | Other(n: nat)

  datatype Dial = Dial(attempt: Attempt, disconnected: bool)

  /**
   * open: the table has a supervisor, the incarnation-th. batch: requests taken from the inbox and not yet
   * run. awake: the wake-up was received and the inbox not yet taken. signals: requests appended whose
   * wake-up is still to be sent. The rest is history: what this incarnation accepted and ran, and which
   * Disconnects returned.
   */
  datatype Desk = Desk(
    open: bool, incarnation: nat, inbox: seq<Request>, batch: seq<Request>, wake: bool, awake: bool, signals: nat,
    held: Option<View>, dial: Option<Dial>,
    accepted: seq<Request>, ran: seq<Request>, nextAttempt: Attempt, nextCall: Call, returned: set<Call>)

  const NEW_DESK := Desk(false, 0, [], [], false, false, 0, None, None, [], [], 0, 0, {})

  // ---------------------------------------------------------------------------
  // Operations
  // ---------------------------------------------------------------------------

  function Append(d: Desk, r: Request): Desk {
    d.(inbox := d.inbox + [r], accepted := d.accepted + [r], signals := d.signals + 1)
  }

  /** Start a supervisor when there is none. */
  function Opened(d: Desk): Desk {
    if d.open then d
    else d.(open := true, incarnation := d.incarnation + 1, inbox := [], batch := [], wake := false, awake := false,
        signals := 0, accepted := [], ran := [])
  }

  /** The stack routes a view to the peer's supervisor. */
  function AttachView(d: Desk, v: View): Desk {
    Append(Opened(d), Admit(v))
  }

  /** A request for one incarnation is dropped once that incarnation left the table. */
  function Post(d: Desk, incarnation: nat, r: Request): Desk {
    if d.open && d.incarnation == incarnation then Append(d, r) else d
  }

  function Signal(d: Desk): Desk
    requires d.signals > 0
  {
    d.(signals := d.signals - 1, wake := true)
  }

  function Awaken(d: Desk): Desk {
    d.(wake := false, awake := true)
  }

  function Drain(d: Desk): Desk {
    d.(batch := d.inbox, inbox := [], awake := false)
  }

  /** An outbound view is refused while the peer's dial is marked disconnected. */
  predicate Refused(d: Desk, v: View) {
    v.attempt.Some? && d.dial.Some? && d.dial.value.disconnected
  }

  /** Run the next request; fits says whether admission's other checks pass. */
  function RunOne(d: Desk, fits: bool): Desk
    requires d.batch != []
  {
    var r := d.batch[0];
    var e := d.(batch := d.batch[1..], ran := d.ran + [r]);
    match r
    case Admit(v) => if Refused(d, v) || !fits then e else e.(held := Some(v))
    case Drop(k) => e.(held := None, returned := e.returned + {k})
    case Other(_) => e
  }

  function Exit(d: Desk): Desk {
    d.(open := false)
  }

  function StartDial(d: Desk): Desk {
    d.(dial := Some(Dial(d.nextAttempt, false)), nextAttempt := d.nextAttempt + 1)
  }

  /** Abandon the dial in progress and have the view dropped; without a supervisor there is nothing to wait for. */
  function Disconnect(d: Desk): Desk {
    var k := d.nextCall;
    var e := d.(nextCall := k + 1);
    var f := if d.dial.Some? then e.(dial := Some(d.dial.value.(disconnected := true))) else e;
    if d.open then Append(f, Drop(k)) else f.(returned := f.returned + {k})
  }

  // ---------------------------------------------------------------------------
  // Steps
  // ---------------------------------------------------------------------------

  datatype Step =
    | Attaches(view: View)
    | Posts(incarnation: nat, n: nat)
    | Signals
    | Wakes
    | Drains
    | Runs(fits: bool)
    | Ends
    | Exits
    | Dials
    | DialEnds
    | Disconnects

  ghost predicate Outstanding(d: Desk, r: Request) {
    r in d.batch || r in d.inbox
  }

  /**
   * A dial attempt hands over its views while it is the peer's dial, and is removed only once every one
   * it handed over was answered. The supervisor leaves when it holds no view and its mailbox is empty.
   */
  ghost predicate Enabled(d: Desk, s: Step) {
    match s
    case Attaches(v) => v.attempt.Some? ==> d.dial.Some? && d.dial.value.attempt == v.attempt.value
    case Posts(_, _) => true
    case Signals => d.signals > 0
    case Wakes => d.open && d.wake && !d.awake && d.batch == []
    case Drains => d.open && d.awake
    case Runs(_) => d.open && d.batch != []
    case Ends => true
    case Exits => d.open && d.held.None? && d.batch == [] && !d.awake && d.inbox == []
    case Dials => d.dial.None?
    case DialEnds => d.dial.Some? && forall v :: Outstanding(d, Admit(v)) ==> v.attempt != Some(d.dial.value.attempt)
    case Disconnects => true
  }

  function Take(d: Desk, s: Step): Desk
    requires s.Signals? ==> d.signals > 0
    requires s.Runs? ==> d.batch != []
  {
    match s
    case Attaches(v) => AttachView(d, v)
    case Posts(incarnation, n) => Post(d, incarnation, Other(n))
    case Signals => Signal(d)
    case Wakes => Awaken(d)
    case Drains => Drain(d)
    case Runs(fits) => RunOne(d, fits)
    case Ends => d.(held := None)
    case Exits => Exit(d)
    case Dials => StartDial(d)
    case DialEnds => d.(dial := None)
    case Disconnects => Disconnect(d)
  }

  // ---------------------------------------------------------------------------
  // Nothing accepted is lost
  // ---------------------------------------------------------------------------

  /** What was accepted is what ran, then what is being run, then what waits: in order, each once. */
  ghost predicate Ordered(d: Desk) {
    d.accepted == d.ran + d.batch + d.inbox
  }

  /** A supervisor with mail knows, or is about to be told. */
  ghost predicate Told(d: Desk) {
    d.open && d.inbox != [] ==> d.wake || d.awake || d.signals > 0
  }

  /** The inbox is taken only when the last batch is done; a peer outside the table has nothing. */
  ghost predicate Settled(d: Desk) {
    && (d.awake ==> d.batch == [])
    && (!d.open ==> d.inbox == [] && d.batch == [] && !d.awake && d.held.None?)
  }

  ghost predicate Flows(d: Desk) {
    Ordered(d) && Told(d) && Settled(d)
  }

  lemma AppendFlows(d: Desk, r: Request)
    requires Flows(d) && d.open
    ensures Flows(Append(d, r))
  {
  }

  lemma OpenedFlows(d: Desk)
    requires Flows(d)
    ensures Flows(Opened(d))
  {
  }

  lemma RunFlows(d: Desk, fits: bool)
    requires Flows(d) && d.open && d.batch != []
    ensures Flows(RunOne(d, fits))
  {
    assert d.batch == [d.batch[0]] + d.batch[1..];
  }

  lemma DisconnectFlows(d: Desk)
    requires Flows(d)
    ensures Flows(Disconnect(d))
  {
  }

  lemma StepFlows(d: Desk, s: Step)
    requires Flows(d) && Enabled(d, s)
    ensures Flows(Take(d, s))
  {
    match s
    case Attaches(v) =>
      OpenedFlows(d);
      AppendFlows(Opened(d), Admit(v));
    case Posts(incarnation, n) =>
      if d.open {
        AppendFlows(d, Other(n));
      }
    case Runs(fits) => RunFlows(d, fits);
    case Disconnects => DisconnectFlows(d);
    case Drains => assert d.ran + [] + d.inbox == d.ran + d.inbox + [];
    case Signals =>
    case Wakes =>
    case Ends =>
    case Exits =>
    case Dials =>
    case DialEnds =>
  }

  /** A supervisor leaves the table only after running every request it accepted. */
  lemma ExitRanAll(d: Desk)
    requires Ordered(d) && Enabled(d, Exits)
    ensures d.ran == d.accepted
  {
    assert d.accepted == d.ran + [] + [];
  }

  // ---------------------------------------------------------------------------
  // Disconnect
  // ---------------------------------------------------------------------------

  /** A view waiting to be admitted for an attempt belongs to the peer's dial. */
  ghost predicate Dialing(d: Desk) {
    forall v :: Outstanding(d, Admit(v)) && v.attempt.Some? ==> d.dial.Some? && d.dial.value.attempt == v.attempt.value
  }

  ghost predicate HoldsAttempt(d: Desk, a: Attempt) {
    d.held.Some? && d.held.value.attempt == Some(a)
  }

  /** The attempt is marked while it is the dial, and its view is held only while the drop k is still to run. */
  ghost predicate Barred(d: Desk, a: Attempt, k: Call) {
    && k < d.nextCall && a < d.nextAttempt
    && (d.dial.Some? && d.dial.value.attempt == a ==> d.dial.value.disconnected)
    && (HoldsAttempt(d, a) ==> Outstanding(d, Drop(k)))
  }

  /** A Disconnect that returned has no drop left to run. */
  ghost predicate ReturnedAt(d: Desk, k: Call) {
    && (k in d.returned ==> k < d.nextCall && !Outstanding(d, Drop(k)))
    && (Outstanding(d, Drop(k)) ==> k < d.nextCall)
  }

  /** Each drop is in the mailbox once. */
  ghost predicate Single(d: Desk) {
    var all := d.batch + d.inbox;
    forall i, j :: 0 <= i < j < |all| && all[i].Drop? ==> all[i] != all[j]
  }

  ghost predicate DialOk(d: Desk) {
    d.dial.Some? ==> d.dial.value.attempt < d.nextAttempt
  }

  /** What the Disconnect property needs. */
  ghost predicate Honoured(d: Desk) {
    Dialing(d) && DialOk(d) && Single(d) && forall k :: ReturnedAt(d, k)
  }

  ghost predicate DeskInv(d: Desk) {
    Flows(d) && Honoured(d)
  }

  lemma OutstandingAppend(d: Desk, r: Request, x: Request)
    ensures Outstanding(Append(d, r), x) <==> Outstanding(d, x) || x == r
  {
  }

  lemma SingleAppend(d: Desk, r: Request)
    requires Single(d) && (r.Drop? ==> !Outstanding(d, r))
    ensures Single(Append(d, r))
  {
    var all := d.batch + d.inbox;
    assert d.batch + (d.inbox + [r]) == all + [r];
    assert forall i :: 0 <= i < |all| ==> all[i] in all;
    assert forall x :: x in all ==> Outstanding(d, x);
  }

  lemma AppendHonoured(d: Desk, r: Request)
    requires Honoured(d)
    requires r.Drop? ==> !Outstanding(d, r) && r.call < d.nextCall && r.call !in d.returned
    requires r.Admit? && r.view.attempt.Some? ==> d.dial.Some? && d.dial.value.attempt == r.view.attempt.value
    ensures Honoured(Append(d, r))
  {
    var e := Append(d, r);
    SingleAppend(d, r);
    forall v
      ensures Outstanding(e, Admit(v)) && v.attempt.Some? ==> e.dial.Some? && e.dial.value.attempt == v.attempt.value
    {
      OutstandingAppend(d, r, Admit(v));
    }
    forall k
      ensures ReturnedAt(e, k)
    {
      assert ReturnedAt(d, k);
      OutstandingAppend(d, r, Drop(k));
    }
  }

  lemma OutstandingRun(d: Desk, fits: bool, x: Request)
    requires d.batch != []
    ensures Outstanding(RunOne(d, fits), x) ==> Outstanding(d, x)
    ensures Outstanding(d, x) && x != d.batch[0] ==> Outstanding(RunOne(d, fits), x)
    ensures Single(d) && d.batch[0].Drop? ==> !Outstanding(RunOne(d, fits), d.batch[0])
  {
    var all := d.batch + d.inbox;
    assert d.batch == [d.batch[0]] + d.batch[1..];
    if Single(d) && d.batch[0].Drop? {
      forall y | y in d.batch[1..] || y in d.inbox
        ensures y != d.batch[0]
      {
        assert all[1..] == d.batch[1..] + d.inbox;
        assert y in all[1..];
        var i :| 0 <= i < |all| - 1 && all[1..][i] == y;
        assert all[0] == d.batch[0] && all[i + 1] == y;
      }
    }
  }

  lemma RunSingle(d: Desk, fits: bool)
    requires Single(d) && d.batch != []
    ensures Single(RunOne(d, fits))
  {
    var all := d.batch + d.inbox;
    assert d.batch[1..] + d.inbox == all[1..];
  }

  lemma RunHonoured(d: Desk, fits: bool)
    requires Honoured(d) && d.batch != []
    ensures Honoured(RunOne(d, fits))
  {
    var e, r := RunOne(d, fits), d.batch[0];
    RunSingle(d, fits);
    forall v
      ensures Outstanding(e, Admit(v)) && v.attempt.Some? ==> e.dial.Some? && e.dial.value.attempt == v.attempt.value
    {
      OutstandingRun(d, fits, Admit(v));
    }
    assert r.Admit? ==> Outstanding(d, Admit(r.view));
    forall k
      ensures ReturnedAt(e, k)
    {
      assert ReturnedAt(d, k);
      assert r.Drop? ==> Outstanding(d, Drop(r.call)) && ReturnedAt(d, r.call);
      OutstandingRun(d, fits, Drop(k));
    }
  }

  /** Marking the dial and queueing the drop happen together. */
  lemma DisconnectHonoured(d: Desk)
    requires DeskInv(d)
    ensures Honoured(Disconnect(d))
  {
    var k := d.nextCall;
    var e := d.(nextCall := k + 1);
    assert ReturnedAt(d, k);
    var f := if d.dial.Some? then e.(dial := Some(d.dial.value.(disconnected := true))) else e;
    if d.open {
      DropQueued(d, f);
    } else {
      NothingToDrop(d, f);
    }
  }

  ghost predicate Marked(d: Desk, f: Desk) {
    var e := d.(nextCall := d.nextCall + 1);
    f == if d.dial.Some? then e.(dial := Some(d.dial.value.(disconnected := true))) else e
  }

  lemma DropQueued(d: Desk, f: Desk)
    requires Honoured(d) && Marked(d, f)
    ensures Honoured(Append(f, Drop(d.nextCall)))
  {
    var g := Append(f, Drop(d.nextCall));
    assert ReturnedAt(d, d.nextCall);
    SingleAppend(f, Drop(d.nextCall));
    forall v
      ensures Outstanding(g, Admit(v)) && v.attempt.Some? ==> g.dial.Some? && g.dial.value.attempt == v.attempt.value
    {
      OutstandingAppend(f, Drop(d.nextCall), Admit(v));
      assert Outstanding(f, Admit(v)) <==> Outstanding(d, Admit(v));
    }
    forall k
      ensures ReturnedAt(g, k)
    {
      assert ReturnedAt(d, k);
      OutstandingAppend(f, Drop(d.nextCall), Drop(k));
    }
  }

  lemma NothingToDrop(d: Desk, f: Desk)
    requires DeskInv(d) && !d.open && Marked(d, f)
    ensures Honoured(f.(returned := f.returned + {d.nextCall}))
  {
    var g := f.(returned := f.returned + {d.nextCall});
    assert forall x :: !Outstanding(g, x);
    forall k
      ensures ReturnedAt(g, k)
    {
      assert ReturnedAt(d, k);
    }
  }

  /** Steps that leave the mailbox's contents and the view alone, or drop the view. */
  lemma QuietHonoured(d: Desk, e: Desk)
    requires Honoured(d) && (forall x :: Outstanding(e, x) <==> Outstanding(d, x)) && Single(e)
    requires e.held == d.held || e.held.None?
    requires e.returned == d.returned && e.nextCall == d.nextCall && e.nextAttempt >= d.nextAttempt
    requires DialOk(e) && Dialing(e)
    requires e.dial == d.dial || e.dial.None? || (e.dial.value.attempt >= d.nextAttempt)
    ensures Honoured(e)
  {
    forall k
      ensures ReturnedAt(e, k)
    {
      assert ReturnedAt(d, k);
    }
  }

  lemma StepHonoured(d: Desk, s: Step)
    requires DeskInv(d) && Enabled(d, s)
    ensures Honoured(Take(d, s))
  {
    var e := Take(d, s);
    match s
    case Attaches(v) =>
      OpenedHonoured(d);
      AppendHonoured(Opened(d), Admit(v));
    case Posts(incarnation, n) =>
      if d.open && d.incarnation == incarnation {
        AppendHonoured(d, Other(n));
      }
    case Runs(fits) => RunHonoured(d, fits);
    case Disconnects => DisconnectHonoured(d);
    case Drains => DrainHonoured(d);
    case Signals => QuietHonoured(d, e);
    case Wakes => QuietHonoured(d, e);
    case Ends => QuietHonoured(d, e);
    case Exits => QuietHonoured(d, e);
    case Dials => DialHonoured(d);
    case DialEnds => QuietHonoured(d, e);
  }

  lemma OpenedHonoured(d: Desk)
    requires DeskInv(d)
    ensures Honoured(Opened(d))
  {
    QuietHonoured(d, Opened(d));
  }

  lemma DrainHonoured(d: Desk)
    requires DeskInv(d) && d.open && d.awake
    ensures Honoured(Drain(d))
  {
    assert d.batch + d.inbox == d.inbox + [];
    QuietHonoured(d, Drain(d));
  }

  lemma DialHonoured(d: Desk)
    requires DeskInv(d) && d.dial.None?
    ensures Honoured(StartDial(d))
  {
    assert forall v :: Outstanding(d, Admit(v)) ==> v.attempt.None?;
    QuietHonoured(d, StartDial(d));
  }

  // ---------------------------------------------------------------------------
  // Runs
  // ---------------------------------------------------------------------------

  ghost predicate IsDeskRun(desks: seq<Desk>, steps: seq<Step>) {
    && |desks| == |steps| + 1
    && forall i :: 0 <= i < |steps| ==> Enabled(desks[i], steps[i]) && desks[i + 1] == Take(desks[i], steps[i])
  }

  lemma StepDesk(d: Desk, s: Step)
    requires DeskInv(d) && Enabled(d, s)
    ensures DeskInv(Take(d, s))
  {
    StepFlows(d, s);
    StepHonoured(d, s);
  }

  lemma {:induction false} RunDesk(desks: seq<Desk>, steps: seq<Step>, n: nat)
    requires IsDeskRun(desks, steps) && desks[0] == NEW_DESK && n <= |steps|
    ensures DeskInv(desks[n])
  {
    if n > 0 {
      RunDesk(desks, steps, n - 1);
      StepDesk(desks[n - 1], steps[n - 1]);
    }
  }

  // ---------------------------------------------------------------------------
  // What a run comes to
  // ---------------------------------------------------------------------------

  lemma RunBarred(d: Desk, fits: bool, a: Attempt, k: Call)
    requires Honoured(d) && d.batch != [] && Barred(d, a, k)
    ensures Barred(RunOne(d, fits), a, k)
  {
    var r := d.batch[0];
    OutstandingRun(d, fits, Drop(k));
    assert r.Admit? ==> Outstanding(d, Admit(r.view));
  }

  lemma StepBarred(d: Desk, s: Step, a: Attempt, k: Call)
    requires DeskInv(d) && Enabled(d, s) && Barred(d, a, k)
    ensures Barred(Take(d, s), a, k)
  {
    if s.Runs? {
      RunBarred(d, s.fits, a, k);
    }
  }

  /** Marking the dial and queueing the drop happen together. */
  lemma DisconnectBars(d: Desk)
    requires DeskInv(d) && d.dial.Some?
    ensures Barred(Disconnect(d), d.dial.value.attempt, d.nextCall)
  {
    if d.open {
      OutstandingAppend(d, Drop(d.nextCall), Drop(d.nextCall));
    }
  }

  /** At step i the peer's dial is abandoned. */
  ghost predicate Abandons(desks: seq<Desk>, steps: seq<Step>, i: nat, a: Attempt) {
    i < |steps| && i < |desks| && steps[i].Disconnects? && desks[i].dial.Some? && desks[i].dial.value.attempt == a
  }

  lemma {:induction false} StaysBarred(desks: seq<Desk>, steps: seq<Step>, i: nat, n: nat, a: Attempt)
    requires IsDeskRun(desks, steps) && desks[0] == NEW_DESK && i < n <= |steps| && Abandons(desks, steps, i, a)
    ensures Barred(desks[n], a, desks[i].nextCall)
    decreases n
  {
    RunDesk(desks, steps, n - 1);
    if i == n - 1 {
      DisconnectBars(desks[i]);
    } else {
      StaysBarred(desks, steps, i, n - 1, a);
      StepBarred(desks[n - 1], steps[n - 1], a, desks[i].nextCall);
    }
  }

  /** Over every run: once a Disconnect returned, the peer never holds a view of the attempt it abandoned. */
  lemma DisconnectIsFinal(desks: seq<Desk>, steps: seq<Step>, i: nat, n: nat, a: Attempt)
    requires IsDeskRun(desks, steps) && desks[0] == NEW_DESK && i < n <= |steps| && Abandons(desks, steps, i, a)
    ensures desks[i].nextCall in desks[n].returned ==> !HoldsAttempt(desks[n], a)
  {
    StaysBarred(desks, steps, i, n, a);
    RunDesk(desks, steps, n);
    assert ReturnedAt(desks[n], desks[i].nextCall);
  }

  /** The drop of a Disconnect is to be run, or its call has returned. */
  lemma StepAnswers(d: Desk, s: Step, k: Call)
    requires DeskInv(d) && Enabled(d, s) && k < d.nextCall && (k in d.returned || Outstanding(d, Drop(k)))
    ensures k < Take(d, s).nextCall && (k in Take(d, s).returned || Outstanding(Take(d, s), Drop(k)))
  {
    if s.Runs? {
      OutstandingRun(d, s.fits, Drop(k));
    }
  }

  /**
   * A Disconnect returns exactly when its drop has run or there was no supervisor to run it: until then the
   * drop is in the mailbox, and a supervisor that leaves the table has run it.
   */
  lemma {:induction false} DisconnectIsAnswered(desks: seq<Desk>, steps: seq<Step>, i: nat, n: nat)
    requires IsDeskRun(desks, steps) && desks[0] == NEW_DESK && i < n <= |steps| && steps[i].Disconnects?
    ensures desks[i].nextCall in desks[n].returned <==> !Outstanding(desks[n], Drop(desks[i].nextCall))
    ensures !desks[i].open || !desks[n].open ==> desks[i].nextCall in desks[n].returned
    ensures n == i + 1 && desks[i].open ==> desks[i].nextCall !in desks[n].returned
  {
    Answered(desks, steps, i, n);
    RunDesk(desks, steps, n);
    assert ReturnedAt(desks[n], desks[i].nextCall);
    RunDesk(desks, steps, i);
    assert ReturnedAt(desks[i], desks[i].nextCall);
  }

  lemma {:induction false} Answered(desks: seq<Desk>, steps: seq<Step>, i: nat, n: nat)
    requires IsDeskRun(desks, steps) && desks[0] == NEW_DESK && i < n <= |steps| && steps[i].Disconnects?
    ensures var k := desks[i].nextCall;
            && k < desks[n].nextCall && (k in desks[n].returned || Outstanding(desks[n], Drop(k)))
            && (!desks[i].open ==> k in desks[n].returned)
    decreases n
  {
    if i == n - 1 {
      OutstandingAppend(desks[i], Drop(desks[i].nextCall), Drop(desks[i].nextCall));
    } else {
      Answered(desks, steps, i, n - 1);
      RunDesk(desks, steps, n - 1);
      StepAnswers(desks[n - 1], steps[n - 1], desks[i].nextCall);
    }
  }

  /** The dial in progress was abandoned before state n. */
  ghost predicate WasAbandoned(desks: seq<Desk>, steps: seq<Step>, n: nat, a: Attempt) {
    exists i :: 0 <= i < n && Abandons(desks, steps, i, a)
  }

  /** Attempts are numbered in the order they are made. */
  lemma {:induction false} AttemptsBelow(desks: seq<Desk>, steps: seq<Step>, i: nat, n: nat)
    requires IsDeskRun(desks, steps) && desks[0] == NEW_DESK && i <= n <= |steps|
    ensures desks[i].nextAttempt <= desks[n].nextAttempt
    ensures desks[i].dial.Some? ==> desks[i].dial.value.attempt < desks[n].nextAttempt
    decreases n
  {
    if i < n {
      AttemptsBelow(desks, steps, i, n - 1);
    } else {
      RunDesk(desks, steps, n);
    }
  }

  /** The dial is marked exactly if a Disconnect came while it was in progress. */
  lemma {:induction false} MarkedIff(desks: seq<Desk>, steps: seq<Step>, n: nat)
    requires IsDeskRun(desks, steps) && desks[0] == NEW_DESK && n <= |steps| && desks[n].dial.Some?
    ensures desks[n].dial.value.disconnected <==> WasAbandoned(desks, steps, n, desks[n].dial.value.attempt)
  {
    if n > 0 {
      var a := desks[n].dial.value.attempt;
      assert Take(desks[n - 1], steps[n - 1]) == desks[n];
      if steps[n - 1].Dials? {
        NewIsUnmarked(desks, steps, n);
      } else {
        MarkedIff(desks, steps, n - 1);
        AbandonedBy(desks, steps, n, a);
        DialKept(desks[n - 1], steps[n - 1]);
      }
    }
  }

  lemma AbandonedBy(desks: seq<Desk>, steps: seq<Step>, n: nat, a: Attempt)
    requires n > 0
    ensures WasAbandoned(desks, steps, n, a)
        <==> WasAbandoned(desks, steps, n - 1, a) || Abandons(desks, steps, n - 1, a)
  {
  }

  /** A dial that goes on is the one there was, marked if it was or if this is a Disconnect. */
  lemma DialKept(d: Desk, s: Step)
    requires Enabled(d, s) && !s.Dials? && Take(d, s).dial.Some?
    ensures d.dial.Some? && Take(d, s).dial.value.attempt == d.dial.value.attempt
    ensures Take(d, s).dial.value.disconnected == (d.dial.value.disconnected || s.Disconnects?)
  {
  }

  lemma NewIsUnmarked(desks: seq<Desk>, steps: seq<Step>, n: nat)
    requires IsDeskRun(desks, steps) && desks[0] == NEW_DESK && 0 < n <= |steps| && steps[n - 1].Dials?
    ensures desks[n].dial.Some? && !desks[n].dial.value.disconnected
    ensures !WasAbandoned(desks, steps, n, desks[n].dial.value.attempt)
  {
    assert desks[n] == StartDial(desks[n - 1]);
    forall i | 0 <= i < n
      ensures !Abandons(desks, steps, i, desks[n].dial.value.attempt)
    {
      AttemptsBelow(desks, steps, i, n - 1);
    }
  }

  /**
   * Over every run: running a request to admit a view makes it the view held exactly if it passes the other
   * checks and is not of an attempt abandoned before; otherwise the view held stays.
   */
  lemma AdmittedIff(desks: seq<Desk>, steps: seq<Step>, j: nat, v: View)
    requires IsDeskRun(desks, steps) && desks[0] == NEW_DESK && j < |steps| && steps[j].Runs?
    requires desks[j].batch[0] == Admit(v)
    ensures desks[j + 1].held
        == if steps[j].fits && !(v.attempt.Some? && WasAbandoned(desks, steps, j, v.attempt.value)) then Some(v)
           else desks[j].held
  {
    RunDesk(desks, steps, j);
    assert Outstanding(desks[j], Admit(v));
    if desks[j].dial.Some? {
      MarkedIff(desks, steps, j);
    }
  }

  /** What the steps before n asked of the supervisor now in the table, or last in it. */
  ghost function Mail(desks: seq<Desk>, steps: seq<Step>, n: nat): seq<Request>
    requires |desks| == |steps| + 1 && n <= |steps|
  {
    if n == 0 then []
    else
      var d, before := desks[n - 1], Mail(desks, steps, n - 1);
      match steps[n - 1]
      case Attaches(v) => (if d.open then before else []) + [Admit(v)]
      case Posts(incarnation, x) => if d.open && d.incarnation == incarnation then before + [Other(x)] else before
      case Disconnects => if d.open then before + [Drop(d.nextCall)] else before
      case _ => before
  }

  lemma MailGrows(d: Desk, s: Step)
    requires Enabled(d, s)
    ensures Take(d, s).accepted
        == match s
           case Attaches(v) => (if d.open then d.accepted else []) + [Admit(v)]
           case Posts(incarnation, x) =>
             if d.open && d.incarnation == incarnation then d.accepted + [Other(x)] else d.accepted
           case Disconnects => if d.open then d.accepted + [Drop(d.nextCall)] else d.accepted
           case _ => d.accepted
  {
  }

  /** Over every run: what was asked is what ran, what is being run and what waits, in the order it was asked. */
  lemma {:induction false} MailIsRun(desks: seq<Desk>, steps: seq<Step>, n: nat)
    requires IsDeskRun(desks, steps) && desks[0] == NEW_DESK && n <= |steps|
    ensures desks[n].ran + desks[n].batch + desks[n].inbox == Mail(desks, steps, n) == desks[n].accepted
  {
    RunDesk(desks, steps, n);
    if n > 0 {
      MailIsRun(desks, steps, n - 1);
      MailGrows(desks[n - 1], steps[n - 1]);
    }
  }
}
