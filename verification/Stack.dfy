/** The stack's table: mailboxes, dials and traffic, updated under its mutex. */
module Stack {
  import opened Basics
  import opened MailboxSpec

  type PeerID = nat

  // ---------------------------------------------------------------------------
  // Mailboxes
  // ---------------------------------------------------------------------------

  /** Drain the inbox and run what was in it; admits says which views pass admission's other checks. */
  function RunBatch(d: Desk, admits: View -> bool): Desk
    decreases |d.batch|
  {
    if d.batch == [] then d
    else RunBatch(RunOne(d, d.batch[0].Admit? && admits(d.batch[0].view)), admits)
  }

  lemma {:induction false} RunBatchInv(d: Desk, admits: View -> bool)
    requires DeskInv(d) && d.open
    ensures DeskInv(RunBatch(d, admits))
    decreases |d.batch|
  {
    if d.batch != [] {
      var fits := d.batch[0].Admit? && admits(d.batch[0].view);
      StepDesk(d, Runs(fits));
      RunBatchInv(RunOne(d, fits), admits);
    }
  }

  /** Running a batch runs all of it, in order, and touches nothing of the mailbox. */
  lemma {:induction false} RunBatchKeeps(d: Desk, admits: View -> bool)
    ensures var e := RunBatch(d, admits);
            && e.batch == [] && e.ran == d.ran + d.batch && e.accepted == d.accepted
            && e.open == d.open && e.incarnation == d.incarnation && e.inbox == d.inbox && e.wake == d.wake
                && e.awake == d.awake
            && e.dial == d.dial && e.nextCall == d.nextCall
    decreases |d.batch|
  {
    if d.batch != [] {
      var e := RunOne(d, d.batch[0].Admit? && admits(d.batch[0].view));
      RunOneKeeps(d, d.batch[0].Admit? && admits(d.batch[0].view));
      RunBatchKeeps(e, admits);
    }
  }

  lemma RunOneKeeps(d: Desk, fits: bool)
    requires d.batch != []
    ensures var e := RunOne(d, fits);
            && e.batch == d.batch[1..] && e.ran + e.batch == d.ran + d.batch && e.accepted == d.accepted
            && e.open == d.open && e.incarnation == d.incarnation && e.inbox == d.inbox && e.wake == d.wake
                && e.awake == d.awake
            && e.dial == d.dial && e.nextCall == d.nextCall
  {
    assert d.batch == [d.batch[0]] + d.batch[1..];
    assert d.ran + [d.batch[0]] + d.batch[1..] == d.ran + d.batch;
  }

  /** One peer's entry: its supervisor's mailbox and view, and its dial. */
  class Entry {
    var open: bool
    var incarnation: nat
    var inbox: seq<Request>
    var wake: bool
    var held: Option<View>
    var dial: Option<Dial>
    var nextCall: Call
    ghost var d: Desk

    constructor ()
      ensures Valid() && d == NEW_DESK
    {
      open, incarnation, inbox, wake, held, dial, nextCall := false, 0, [], false, None, None, 0;
      d := NEW_DESK;
    }

    /** Between the supervisor's batches. */
    ghost predicate Valid()
      reads this
    {
      && DeskInv(d) && d.batch == [] && !d.awake
      && open == d.open && incarnation == d.incarnation && inbox == d.inbox && wake == d.wake && held == d.held
          && dial == d.dial
      && nextCall == d.nextCall
    }

    /** Hand a view to the supervisor, starting one when there is none; a closed stack takes none. */
    method Attach(v: View, closed: bool) returns (taken: bool)
      requires Valid() && Enabled(d, Attaches(v))
      modifies this
      ensures Valid() && taken == !closed && d == if closed then old(d) else AttachView(old(d), v)
      ensures taken ==> open && inbox == (if old(open) then old(inbox) else []) + [Admit(v)]
    {
      if closed {
        return false;
      }
      taken := true;
      StepDesk(d, Attaches(v));
      if !open {
        open, incarnation, inbox, wake := true, incarnation + 1, [], false;
      }
      inbox := inbox + [Admit(v)];
      d := AttachView(d, v);
    }

    /** Accept a request unless the supervisor it was for has left. */
    method Post(to: nat, n: nat) returns (accepted: bool)
      requires Valid()
      modifies this
      ensures Valid() && d == MailboxSpec.Post(old(d), to, Other(n))
      ensures accepted == (old(open) && old(incarnation) == to)
      ensures inbox == old(inbox) + if accepted then [Other(n)] else []
      ensures accepted <==> d.accepted == old(d).accepted + [Other(n)]
      ensures !accepted ==> d == old(d)
    {
      StepDesk(d, Posts(to, n));
      accepted := open && incarnation == to;
      if accepted {
        inbox := inbox + [Other(n)];
      } else {
        assert |d.accepted + [Other(n)]| > |d.accepted|;
      }
      d := MailboxSpec.Post(d, to, Other(n));
    }

    method Signal()
      requires Valid() && d.signals > 0
      modifies this
      ensures Valid() && d == MailboxSpec.Signal(old(d))
    {
      StepDesk(d, Signals);
      wake := true;
      d := MailboxSpec.Signal(d);
    }

    /** On a wake-up, take the whole inbox and run it in order. */
    method DrainInbox(admits: View -> bool)
      requires Valid() && open && wake
      modifies this
      ensures Valid() && d == RunBatch(MailboxSpec.Drain(Awaken(old(d))), admits)
      ensures inbox == [] && d.ran == d.accepted == old(d).accepted
    {
      StepDesk(d, Wakes);
      StepDesk(Awaken(d), Drains);
      RunBatchInv(MailboxSpec.Drain(Awaken(d)), admits);
      RunBatchKeeps(MailboxSpec.Drain(Awaken(d)), admits);
      wake := false;
      var batch := inbox;
      inbox := [];
      d := MailboxSpec.Drain(Awaken(d));
      RunRequests(batch, admits);
      assert d.ran + [] + [] == d.ran;
    }

    method RunRequests(batch: seq<Request>, admits: View -> bool)
      requires d.batch == batch && held == d.held && dial == d.dial
      modifies `held, `d
      ensures d == RunBatch(old(d), admits) && held == d.held
    {
      for i := 0 to |batch|
        invariant d.batch == batch[i..] && held == d.held && dial == d.dial
        invariant RunBatch(d, admits) == RunBatch(old(d), admits)
      {
        var r := batch[i];
        assert batch[i..][0] == r && batch[i..][1..] == batch[i + 1..];
        var fits := r.Admit? && admits(r.view);
        match r {
          case Admit(v) =>
            if !(v.attempt.Some? && dial.Some? && dial.value.disconnected) && fits {
              held := Some(v);
            }
          case Drop(_) => held := None;
          case Other(_) =>
        }
        d := RunOne(d, fits);
      }
    }

    /** Leave the table unless work is pending. */
    method TryExit() returns (left: bool)
      requires Valid() && open && held.None?
      modifies this
      ensures Valid() && left == (old(inbox) == [])
      ensures left ==> !open && d == Exit(old(d)) && d.ran == d.accepted
      ensures !left ==> d == old(d)
    {
      if |inbox| != 0 {
        return false;
      }
      StepDesk(d, Exits);
      ExitRanAll(d);
      open := false;
      d := Exit(d);
      left := true;
    }

    /** Mark the dial and queue the drop; waits says whether there is a drop to wait for. */
    method Disconnect() returns (call: Call, waits: bool)
      requires Valid()
      modifies this
      ensures Valid() && d == MailboxSpec.Disconnect(old(d)) && call == old(d).nextCall
      ensures dial == if old(dial).Some? then Some(Dial(old(dial).value.attempt, true)) else None
      ensures waits == old(open) && inbox == old(inbox) + if waits then [Drop(call)] else []
      ensures !waits ==> call in d.returned && held.None?
      ensures waits ==> Outstanding(d, Drop(call))
    {
      StepDesk(d, Disconnects);
      if dial.Some? && !dial.value.disconnected {
        dial := Some(dial.value.(disconnected := true));
      }
      call := nextCall;
      nextCall := nextCall + 1;
      waits := open;
      if open {
        inbox := inbox + [Drop(call)];
        assert inbox[|inbox| - 1] == Drop(call);
      }
      d := MailboxSpec.Disconnect(d);
    }
  }

  // ---------------------------------------------------------------------------
  // Traffic
  // ---------------------------------------------------------------------------

  type Conn = nat

  datatype Stats = Stats(sent: nat, received: nat)

  function SentOf(c: Conn, s: Stats): nat {
    s.sent
  }

  function ReceivedOf(c: Conn, s: Stats): nat {
    s.received
  }

  /** Committed views with their counters now, released ones with their counters at release, and the released total. */
  datatype Book = Book(views: map<Conn, Stats>, released: map<Conn, Stats>, total: Stats)

  /** Each admitted view is counted once: while committed, or from its release on. */
  ghost predicate Counted(b: Book) {
    && b.views.Keys !! b.released.Keys
    && b.total == Stats(MapSum(b.released, SentOf), MapSum(b.released, ReceivedOf))
  }

  ghost function Traffic(b: Book): Stats {
    Stats(b.total.sent + MapSum(b.views, SentOf), b.total.received + MapSum(b.views, ReceivedOf))
  }

  predicate AtLeast(a: Stats, b: Stats) {
    b.sent <= a.sent && b.received <= a.received
  }

  function Commit(b: Book, c: Conn, s: Stats): Book {
    b.(views := b.views[c := s])
  }

  /** Counters only grow. */
  function Grow(b: Book, c: Conn, s: Stats): Book
    requires c in b.views
  {
    b.(views := b.views[c := s])
  }

  function Release(b: Book, c: Conn): Book {
    if c !in b.views then b
    else
      var s := b.views[c];
      b.(views := b.views - {c}, released := b.released[c := s], total := Stats(b.total.sent + s.sent,
          b.total.received + s.received))
  }

  lemma CommitCounts(b: Book, c: Conn, s: Stats)
    requires Counted(b) && c !in b.views && c !in b.released
    ensures Counted(Commit(b, c, s)) && AtLeast(Traffic(Commit(b, c, s)), Traffic(b))
  {
    MapSumUpdate(b.views, SentOf, c, s);
    MapSumUpdate(b.views, ReceivedOf, c, s);
  }

  lemma GrowCounts(b: Book, c: Conn, s: Stats)
    requires Counted(b) && c in b.views && AtLeast(s, b.views[c])
    ensures Counted(Grow(b, c, s)) && AtLeast(Traffic(Grow(b, c, s)), Traffic(b))
  {
    MapSumUpdate(b.views, SentOf, c, s);
    MapSumUpdate(b.views, ReceivedOf, c, s);
    MapSumSplit(b.views, SentOf, c);
    MapSumSplit(b.views, ReceivedOf, c);
    assert Grow(b, c, s).views.Keys == b.views.Keys;
  }

  /** Releasing a view, or one already released, leaves the reported traffic as it was. */
  lemma ReleaseCounts(b: Book, c: Conn)
    requires Counted(b)
    ensures Counted(Release(b, c)) && Traffic(Release(b, c)) == Traffic(b)
    ensures Release(Release(b, c), c) == Release(b, c)
  {
    if c in b.views {
      var s := b.views[c];
      MapSumSplit(b.views, SentOf, c);
      MapSumSplit(b.views, ReceivedOf, c);
      MapSumUpdate(b.released, SentOf, c, s);
      MapSumUpdate(b.released, ReceivedOf, c, s);
    }
  }

  /** The reported traffic is the sum over every view ever admitted, each counted once. */
  lemma TrafficIsEveryView(b: Book)
    requires Counted(b)
    ensures Traffic(b).sent == MapSum(b.views + b.released, SentOf)
    ensures Traffic(b).received == MapSum(b.views + b.released, ReceivedOf)
  {
    MapSumUnion(b.views, b.released, SentOf);
    MapSumUnion(b.views, b.released, ReceivedOf);
  }

  lemma UnionLess(m: map<Conn, Stats>, n: map<Conn, Stats>, k: Conn)
    requires m.Keys !! n.Keys && k in m
    ensures (m + n) - {k} == (m - {k}) + n && k in m + n && (m + n)[k] == m[k]
  {
  }

  lemma {:induction false} MapSumUnion(m: map<Conn, Stats>, n: map<Conn, Stats>, w: (Conn, Stats) -> nat)
    requires m.Keys !! n.Keys
    ensures MapSum(m + n, w) == MapSum(m, w) + MapSum(n, w)
    decreases |m|
  {
    if m == map[] {
      assert m + n == n;
    } else {
      var k :| k in m;
      UnionLess(m, n, k);
      MapSumUnion(m - {k}, n, w);
      UnionSum(m, n, k, w);
    }
  }

  lemma UnionSum(m: map<Conn, Stats>, n: map<Conn, Stats>, k: Conn, w: (Conn, Stats) -> nat)
    requires m.Keys !! n.Keys && k in m
    ensures MapSum(m + n, w) == w(k, m[k]) + MapSum((m - {k}) + n, w)
    ensures MapSum(m, w) == w(k, m[k]) + MapSum(m - {k}, w)
  {
    UnionLess(m, n, k);
    MapSumSplit(m + n, w, k);
    MapSumSplit(m, w, k);
  }

  datatype Movement = Commits(conn: Conn, stats: Stats) | Grows(conn: Conn, stats: Stats) | Releases(conn: Conn)

  ghost predicate Moves(b: Book, m: Movement, after: Book) {
    match m
    case Commits(c, s) => c !in b.views && c !in b.released && after == Commit(b, c, s)
    case Grows(c, s) => c in b.views && AtLeast(s, b.views[c]) && after == Grow(b, c, s)
    case Releases(c) => after == Release(b, c)
  }

  /** Over any run of admissions, traffic and releases, the reported traffic never decreases. */
  lemma {:induction false} TrafficNeverDecreases(books: seq<Book>, moves: seq<Movement>, n: nat)
    requires |books| == |moves| + 1 && Counted(books[0]) && n <= |moves|
    requires forall i :: 0 <= i < |moves| ==> Moves(books[i], moves[i], books[i + 1])
    ensures Counted(books[n]) && AtLeast(Traffic(books[n]), Traffic(books[0]))
  {
    if n > 0 {
      TrafficNeverDecreases(books, moves, n - 1);
      var b := books[n - 1];
      assert Moves(b, moves[n - 1], books[n]);
      match moves[n - 1]
      case Commits(c, s) => CommitCounts(b, c, s);
      case Grows(c, s) => GrowCounts(b, c, s);
      case Releases(c) => ReleaseCounts(b, c);
    }
  }

  /** The counters a view was last seen with, if it was admitted before n. */
  function LastStats(moves: seq<Movement>, n: nat, c: Conn): Option<Stats>
    requires n <= |moves|
  {
    if n == 0 then None
    else
      match moves[n - 1]
      case Commits(x, s) => if x == c then Some(s) else LastStats(moves, n - 1, c)
      case Grows(x, s) => if x == c then Some(s) else LastStats(moves, n - 1, c)
      case Releases(_) => LastStats(moves, n - 1, c)
  }

  function WasReleased(moves: seq<Movement>, n: nat, c: Conn): bool
    requires n <= |moves|
  {
    n > 0 && (WasReleased(moves, n - 1, c) || (moves[n - 1] == Releases(c) && LastStats(moves, n - 1, c).Some?))
  }

  /** Over any run: the views counted are exactly those admitted, with their last counters, released or not. */
  lemma {:induction false} CountedAreAdmitted(books: seq<Book>, moves: seq<Movement>, n: nat, c: Conn)
    requires |books| == |moves| + 1 && books[0] == Book(map[], map[], Stats(0, 0)) && n <= |moves|
    requires forall i :: 0 <= i < |moves| ==> Moves(books[i], moves[i], books[i + 1])
    ensures c in books[n].released <==> WasReleased(moves, n, c)
    ensures c in books[n].views <==> LastStats(moves, n, c).Some? && !WasReleased(moves, n, c)
    ensures c in books[n].views ==> LastStats(moves, n, c) == Some(books[n].views[c])
    ensures c in books[n].released ==> LastStats(moves, n, c) == Some(books[n].released[c])
  {
    if n > 0 {
      CountedAreAdmitted(books, moves, n - 1, c);
      assert Moves(books[n - 1], moves[n - 1], books[n]);
    }
  }

  /** The traffic fields of the stack. */
  class TrafficTable {
    var views: set<Conn>
    var sent: nat
    var received: nat
    ghost var b: Book

    constructor ()
      ensures Valid() && b == Book(map[], map[], Stats(0, 0))
    {
      views, sent, received := {}, 0, 0;
      b := Book(map[], map[], Stats(0, 0));
    }

    ghost predicate Valid()
      reads this
    {
      Counted(b) && views == b.views.Keys && b.total == Stats(sent, received)
    }

    /** An admitted view joins the committed ones. */
    method CommitView(c: Conn, ghost stats: Stats)
      requires Valid() && c !in b.views && c !in b.released
      modifies this
      ensures Valid() && b == Commit(old(b), c, stats)
    {
      CommitCounts(b, c, stats);
      views := views + {c};
      b := Commit(b, c, stats);
    }

    /** A released view's counters are added when it is released, once. */
    method CloseView(c: Conn, stats: Stats)
      requires Valid() && (c in b.views ==> stats == b.views[c])
      modifies this
      ensures Valid() && b == Release(old(b), c) && Traffic(b) == Traffic(old(b))
      ensures views == old(views) - {c}
      ensures var s := if c in old(views) then stats else Stats(0, 0);
              sent == old(sent) + s.sent && received == old(received) + s.received
    {
      ReleaseCounts(b, c);
      if c in views {
        sent := sent + stats.sent;
        received := received + stats.received;
        views := views - {c};
      }
      b := Release(b, c);
    }

    /** Released totals plus the committed views' counters now. */
    method Report(stats: map<Conn, Stats>) returns (total: Stats)
      requires Valid() && stats == b.views
      ensures total == Traffic(b)
    {
      total := Stats(sent, received);
      var left := stats;
      while left != map[]
        invariant total.sent + MapSum(left, SentOf) == sent + MapSum(stats, SentOf)
        invariant total.received + MapSum(left, ReceivedOf) == received + MapSum(stats, ReceivedOf)
        decreases |left|
      {
        var c :| c in left;
        MapSumSplit(left, SentOf, c);
        MapSumSplit(left, ReceivedOf, c);
        total := Stats(total.sent + left[c].sent, total.received + left[c].received);
        left := left - {c};
      }
    }
  }
}
