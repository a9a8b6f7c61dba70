/** The duplicate-connection rule as a protocol between two nodes that dial each other. */
module Duplicate {
  import opened Basics
  import opened SupervisorSpec

  /** The two ends of every connection; Lower has the lower peer ID. */
  datatype Node = Lower | Higher

  function Other(n: Node): Node {
    if n.Lower? then Higher else Lower
  }

  /** Why a node let a connection go. */
  datatype Reason = Rejected | Replaced | ToldGoAway

  datatype Loss = Loss(node: Node, conn: Conn, reason: Reason)

  /**
   * The connections and which of them the lower peer dialed; the view each node holds; the connections
   * each node has still to process; GOAWAYs on their way to a node; and every view let go.
   */
  datatype Net = Net(
    lowerId: nat, higherId: nat, conns: set<Conn>, byLower: set<Conn>,
    held: map<Node, Conn>, waiting: map<Node, set<Conn>>, goAways: set<(Node, Conn)>, lost: seq<Loss>)

  ghost predicate WellFormed(w: Net) {
    && w.lowerId < w.higherId && w.byLower <= w.conns
    && Lower in w.waiting && Higher in w.waiting && w.waiting[Lower] <= w.conns && w.waiting[Higher] <= w.conns
    && (forall n :: n in w.held ==> w.held[n] in w.conns)
  }

  function IdOf(w: Net, n: Node): nat {
    if n.Lower? then w.lowerId else w.higherId
  }

  /** Whether the node dialed the connection. */
  predicate Outbound(w: Net, n: Node, c: Conn) {
    (c in w.byLower) == n.Lower?
  }

  function HeldDirection(w: Net, n: Node): Option<bool> {
    if n in w.held then Some(Outbound(w, n, w.held[n])) else None
  }

  /** The node processes a connection: it takes it, replacing what it held, or rejects it. */
  ghost function Process(w: Net, n: Node, c: Conn): Net
    requires n in w.waiting
  {
    var v := w.(waiting := w.waiting[n := w.waiting[n] - {c}]);
    if Loses(IdOf(w, n), IdOf(w, Other(n)), HeldDirection(w, n), Outbound(w, n, c)) then
      v.(goAways := v.goAways + {(Other(n), c)}, lost := v.lost + [Loss(n, c, Rejected)])
    else if n in w.held then
      v.(held := v.held[n := c], goAways := v.goAways + {(Other(n), w.held[n])},
          lost := v.lost + [Loss(n, w.held[n], Replaced)])
    else v.(held := v.held[n := c])
  }

  /** A GOAWAY ends the connection at a node that holds it, and nothing at one that does not. */
  ghost function Hear(w: Net, n: Node, c: Conn): Net {
    var v := w.(goAways := w.goAways - {(n, c)});
    if n in w.held && w.held[n] == c then v.(held := v.held - {n}, lost := v.lost + [Loss(n, c, ToldGoAway)]) else v
  }

  /** The far end gave the connection up while this one was still being set up. */
  ghost function Abandon(w: Net, n: Node, c: Conn): Net
    requires n in w.waiting
  {
    w.(waiting := w.waiting[n := w.waiting[n] - {c}])
  }

  datatype Move = DoProcess(node: Node, conn: Conn) | DoHear(node: Node, conn: Conn) | DoAbandon(node: Node, conn: Conn)

  ghost predicate CanMove(w: Net, m: Move) {
    match m
    case DoProcess(n, c) => n in w.waiting && c in w.waiting[n]
    case DoHear(n, c) => (n, c) in w.goAways && n in w.waiting && c !in w.waiting[n]
    case DoAbandon(n, c) => (n, c) in w.goAways && n in w.waiting && c in w.waiting[n]
  }

  ghost function Moved(w: Net, m: Move): Net
    requires CanMove(w, m)
  {
    match m
    case DoProcess(n, c) => Process(w, n, c)
    case DoHear(n, c) => Hear(w, n, c)
    case DoAbandon(n, c) => Abandon(w, n, c)
  }

  /** The winner: the only connection the lower peer dialed, or the only connection if it dialed none. */
  ghost predicate Wins(w: Net, winner: Conn) {
    winner in w.conns && (w.byLower == {winner} || (w.byLower == {} && w.conns == {winner}))
  }

  /** A node that processed the winner holds it; nobody ever let it go. */
  ghost predicate Kept(w: Net, winner: Conn) {
    && WellFormed(w) && Wins(w, winner)
    && (forall n :: n in w.waiting && winner !in w.waiting[n] ==> n in w.held && w.held[n] == winner)
    && (forall n :: n in w.waiting && n in w.held ==> w.held[n] !in w.waiting[n])
    && (forall n :: (n, winner) !in w.goAways)
    && (forall i :: 0 <= i < |w.lost| ==> w.lost[i].conn != winner)
  }

  lemma MoveKeeps(w: Net, m: Move, winner: Conn)
    requires Kept(w, winner) && CanMove(w, m)
    ensures Kept(Moved(w, m), winner)
  {
    match m
    case DoProcess(n, c) => ProcessKeeps(w, n, c, winner);
    case DoHear(n, c) =>
    case DoAbandon(n, c) =>
  }

  lemma ProcessKeeps(w: Net, n: Node, c: Conn, winner: Conn)
    requires Kept(w, winner) && n in w.waiting && c in w.waiting[n]
    ensures Kept(Process(w, n, c), winner)
  {
    if c == winner {
      assert n in w.held && Outbound(w, n, w.held[n]) != Outbound(w, n, c) ==> c in w.byLower;
    } else {
      assert n in w.held && w.held[n] == winner ==> Outbound(w, n, winner) != Outbound(w, n, c);
    }
  }

  ghost predicate IsNetRun(nets: seq<Net>, moves: seq<Move>) {
    && |nets| == |moves| + 1
    && forall i :: 0 <= i < |moves| ==> CanMove(nets[i], moves[i]) && nets[i + 1] == Moved(nets[i], moves[i])
  }

  /** Both nodes have every connection still to process. */
  ghost predicate Fresh(w: Net) {
    WellFormed(w) && w.held == map[] && w.goAways == {} && w.lost == []
        && w.waiting == map[Lower := w.conns, Higher := w.conns]
  }

  lemma {:induction false} RunKeeps(nets: seq<Net>, moves: seq<Move>, winner: Conn, n: nat)
    requires IsNetRun(nets, moves) && Fresh(nets[0]) && Wins(nets[0], winner) && n <= |moves|
    ensures Kept(nets[n], winner)
  {
    if n > 0 {
      RunKeeps(nets, moves, winner, n - 1);
      MoveKeeps(nets[n - 1], moves[n - 1], winner);
    }
  }

  /**
   * Whatever the order of arrivals, rejections and GOAWAYs at either end: no node ever lets the winner
   * go, and once both have processed everything both hold exactly it.
   */
  lemma BothKeepTheWinner(nets: seq<Net>, moves: seq<Move>, winner: Conn)
    requires IsNetRun(nets, moves) && Fresh(nets[0]) && Wins(nets[0], winner)
    ensures var w := nets[|moves|];
            && (forall i :: 0 <= i < |w.lost| ==> w.lost[i].conn != winner)
            && (Lower in w.waiting && Higher in w.waiting && w.waiting[Lower] == {} && w.waiting[Higher] == {} ==>
                  w.held == map[Lower := winner, Higher := winner])
  {
    RunKeeps(nets, moves, winner, |moves|);
    var w := nets[|moves|];
    if w.waiting[Lower] == {} && w.waiting[Higher] == {} {
      forall n | n in w.held
        ensures n in {Lower, Higher}
      {
        match n
        case Lower =>
        case Higher =>
      }
      assert w.held.Keys == {Lower, Higher};
    }
  }

  // ---------------------------------------------------------------------------
  // Without a single winner
  // ---------------------------------------------------------------------------

  /** A run leads from w to v. */
  ghost predicate Leads(w: Net, v: Net) {
    exists nets: seq<Net>, moves: seq<Move> :: IsNetRun(nets, moves) && nets[0] == w && nets[|moves|] == v
  }

  lemma Stays(w: Net)
    ensures Leads(w, w)
  {
    assert IsNetRun([w], []);
  }

  lemma LeadsOn(a: Net, b: Net, m: Move)
    requires Leads(a, b) && CanMove(b, m)
    ensures Leads(a, Moved(b, m))
  {
    var nets, moves :| IsNetRun(nets, moves) && nets[0] == a && nets[|moves|] == b;
    assert IsNetRun(nets + [Moved(b, m)], moves + [m]);
  }

  /** A connection of the direction the rule prefers: nobody rejects it. */
  ghost predicate Preferred(w: Net, c: Conn) {
    c in w.conns && (c in w.byLower || w.byLower == {})
  }

  /** The same two nodes and connections. */
  ghost predicate SameNodes(w: Net, v: Net) {
    v.lowerId == w.lowerId && v.higherId == w.higherId && v.conns == w.conns && v.byLower == w.byLower
  }

  /** The node processed some connections; the other node was not touched. */
  ghost predicate OnlyAt(w: Net, v: Net, n: Node, rest: set<Conn>) {
    && WellFormed(v) && SameNodes(w, v) && v.waiting == w.waiting[n := rest] && w.goAways <= v.goAways
    && (Other(n) in v.held <==> Other(n) in w.held) && (Other(n) in w.held ==> v.held[Other(n)] == w.held[Other(n)])
  }

  lemma ProcessAt(w: Net, n: Node, c: Conn)
    requires WellFormed(w) && c in w.waiting[n]
    ensures OnlyAt(w, Process(w, n, c), n, w.waiting[n] - {c})
  {
  }

  /** The node takes a preferred connection, and lets go of what it held. */
  lemma TakesPreferred(w: Net, n: Node, c: Conn)
    requires WellFormed(w) && c in w.waiting[n] && Preferred(w, c)
    ensures var v := Process(w, n, c);
            n in v.held && v.held[n] == c && (n in w.held ==> (Other(n), w.held[n]) in v.goAways)
  {
  }

  lemma AtTrans(a: Net, b: Net, c: Net, n: Node, mid: set<Conn>, rest: set<Conn>)
    requires OnlyAt(a, b, n, mid) && OnlyAt(b, c, n, rest)
    ensures OnlyAt(a, c, n, rest)
  {
  }

  /** The node processes all connections but those kept, in any order. */
  lemma {:induction false} ProcessesAllBut(start: Net, w: Net, n: Node, kept: set<Conn>) returns (v: Net)
    requires Leads(start, w) && WellFormed(w) && kept <= w.waiting[n]
    ensures Leads(start, v) && OnlyAt(w, v, n, kept)
    decreases |w.waiting[n] - kept|
  {
    var todo := w.waiting[n] - kept;
    if todo == {} {
      assert forall c :: c in w.waiting[n] ==> c in todo || c in kept;
      assert w.waiting[n] == kept && w.waiting[n := kept] == w.waiting;
      v := w;
    } else {
      var c :| c in todo;
      var u := Process(w, n, c);
      ProcessAt(w, n, c);
      LeadsOn(start, w, DoProcess(n, c));
      assert u.waiting[n] - kept == todo - {c};
      v := ProcessesAllBut(start, u, n, kept);
      AtTrans(w, u, v, n, u.waiting[n], kept);
    }
  }

  /** The node ends up with last, having told the other that first is gone. */
  lemma KeepsLast(start: Net, w: Net, n: Node, first: Conn, last: Conn) returns (v: Net)
    requires Leads(start, w) && WellFormed(w) && first != last && first in w.waiting[n] && last in w.waiting[n]
    requires Preferred(w, first) && Preferred(w, last)
    ensures Leads(start, v) && OnlyAt(w, v, n, {})
    ensures n in v.held && v.held[n] == last && (Other(n), first) in v.goAways
  {
    var a := ProcessesAllBut(start, w, n, {first, last});
    var b := Process(a, n, first);
    ProcessAt(a, n, first);
    TakesPreferred(a, n, first);
    LeadsOn(start, a, DoProcess(n, first));
    assert {first, last} - {first} == {last} && {last} - {last} == {};
    v := Process(b, n, last);
    ProcessAt(b, n, last);
    TakesPreferred(b, n, last);
    LeadsOn(start, b, DoProcess(n, last));
    AtTrans(w, a, b, n, {first, last}, {last});
    AtTrans(w, b, v, n, {last}, {});
  }

  /** Everything was processed, and what a node still holds the other has given up. */
  ghost predicate Doomed(w: Net) {
    && w.waiting == map[Lower := {}, Higher := {}]
    && forall n :: n in w.held ==> (n, w.held[n]) in w.goAways
  }

  lemma HearDoomed(w: Net, n: Node, c: Conn)
    requires Doomed(w) && (n, c) in w.goAways
    ensures Doomed(Hear(w, n, c)) && Hear(w, n, c).goAways == w.goAways - {(n, c)}
  {
  }

  /** Hearing every GOAWAY on its way leaves both nodes with nothing. */
  lemma {:induction false} HearsAll(start: Net, w: Net) returns (v: Net)
    requires Leads(start, w) && Doomed(w)
    ensures Leads(start, v) && v.held == map[] && v.waiting == map[Lower := {}, Higher := {}] && v.goAways == {}
    decreases |w.goAways|
  {
    if w.goAways == {} {
      v := w;
    } else {
      var g :| g in w.goAways;
      assert g == (g.0, g.1) && (g.0.Lower? || g.0.Higher?);
      HearDoomed(w, g.0, g.1);
      LeadsOn(start, w, DoHear(g.0, g.1));
      v := HearsAll(start, Hear(w, g.0, g.1));
    }
  }

  /**
   * With any two connections in the preferred direction, whatever else there is, there is a run in which
   * each end keeps the one it processed last, tells the other so, and both are left without any.
   */
  lemma SameDirectionMayLoseBoth(w: Net, a: Conn, b: Conn) returns (v: Net)
    requires Fresh(w) && a != b && Preferred(w, a) && Preferred(w, b)
    ensures Leads(w, v) && v.held == map[] && v.waiting == map[Lower := {}, Higher := {}] && v.goAways == {}
  {
    Stays(w);
    var u := KeepsLast(w, w, Lower, a, b);
    var x := KeepsLast(w, u, Higher, b, a);
    assert x.waiting == map[Lower := {}, Higher := {}];
    forall n | n in x.held
      ensures (n, x.held[n]) in x.goAways
    {
      match n
      case Lower =>
      case Higher =>
    }
    v := HearsAll(w, x);
  }

  ghost predicate BothHold(w: Net, c: Conn) {
    w.held == map[Lower := c, Higher := c]
  }

  /** Both nodes are on one and the same connection. */
  ghost predicate Agreed(w: Net) {
    exists c :: BothHold(w, c)
  }

  /** Every run that leaves nothing to process leaves both nodes on one and the same connection. */
  ghost predicate AlwaysAgree(w: Net) {
    forall nets: seq<Net>, moves: seq<Move> ::
      IsNetRun(nets, moves) && nets[0] == w && nets[|moves|].waiting == map[Lower := {}, Higher := {}] ==>
        Agreed(nets[|moves|])
  }

  lemma NoneHeld(w: Net)
    requires w.held == map[]
    ensures !Agreed(w)
  {
    forall c: Conn
      ensures !BothHold(w, c)
    {
      assert Lower in map[Lower := c, Higher := c];
    }
  }

  /** Two nodes with connections between them always come to agree if and only if there is a single winner. */
  lemma AgreeIff(w: Net)
    requires Fresh(w) && w.conns != {}
    ensures AlwaysAgree(w) <==> exists winner :: Wins(w, winner)
  {
    if winner :| Wins(w, winner) {
      forall nets: seq<Net>, moves: seq<Move>
        | IsNetRun(nets, moves) && nets[0] == w && nets[|moves|].waiting == map[Lower := {}, Higher := {}]
        ensures Agreed(nets[|moves|])
      {
        BothKeepTheWinner(nets, moves, winner);
        assert BothHold(nets[|moves|], winner);
      }
    } else {
      var a, b := TwoPreferred(w);
      var v := SameDirectionMayLoseBoth(w, a, b);
      var nets, moves :| IsNetRun(nets, moves) && nets[0] == w && nets[|moves|] == v;
      NoneHeld(v);
    }
  }

  lemma TwoPreferred(w: Net) returns (a: Conn, b: Conn)
    requires WellFormed(w) && w.conns != {} && !exists winner :: Wins(w, winner)
    ensures a != b && Preferred(w, a) && Preferred(w, b)
  {
    var some := if w.byLower == {} then w.conns else w.byLower;
    a :| a in some;
    assert some != {a} by {
      assert !Wins(w, a);
    }
    assert some - {a} != {};
    b :| b in some - {a};
  }
}
