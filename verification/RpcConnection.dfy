/**
 The connection lifecycle of internal/truenas/truenas.go: `Run`, `ensureConnected` and `drop` on one side,
 the reader of each connection on the other, and the one-slot `dead` signal between them.

 A connection's own reader is what takes the version reply off its socket (`ReplyRead`), so that step needs the
 reader alive. Everything else, including when a socket dies and when its reader gets round to saying so, is arbitrary.
 */
module RpcConnection {
  import opened Basics

  /** `Lost`: the read failed but `dead` has not been signalled yet. */
  datatype Socket = Alive | Lost | Gone

  /** Where the `Run` goroutine stands, with the connection it is working on. */
  datatype Pc = Down | LoggingIn(c: nat) | LoggedIn(c: nat) | Checking(c: nat) | Up(c: nat)

  datatype Link = Link(
    pc: Pc,
    conn: Option<nat>,
    readerCancel: Option<nat>,
    dead: bool,
    connected: bool,
    replied: bool,          // the version reply of the connection being checked has been read
    sockets: map<nat, Socket>,
    cancelled: set<nat>)

  datatype Event =
    | Dial(c: nat) | LoginOk | LoginFails | Drain | ReplyRead | CheckOk | CheckFails
    | SocketDies(c: nat) | Signal(c: nat) | TakeDead | PingFails

  const INIT := Link(Down, None, None, false, false, false, map[], {})

  predicate Is(l: Link, c: nat, k: Socket) {
    c in l.sockets && l.sockets[c] == k
  }

  predicate Enabled(l: Link, e: Event) {
    match e
    case Dial(c) => l.pc.Down? && l.conn == None && c !in l.sockets
    case LoginOk => l.pc.LoggingIn?
    case LoginFails => l.pc.LoggingIn?
    case Drain => l.pc.LoggedIn?
    case ReplyRead => l.pc.Checking? && Is(l, l.pc.c, Alive)
    case CheckOk => l.pc.Checking? && l.replied
    case CheckFails => l.pc.Checking?
    case SocketDies(c) => Is(l, c, Alive)
    case Signal(c) => Is(l, c, Lost)
    case TakeDead => l.pc.Up? && l.dead
    case PingFails => l.pc.Up?
  }

  function Dropped(l: Link): Link {
    l.(pc := Down, conn := None, readerCancel := None, connected := false,
       cancelled := l.cancelled + (if l.readerCancel.Some? then {l.readerCancel.value} else {}))
  }

  function Step(l: Link, e: Event): Link
    requires Enabled(l, e)
  {
    match e
    case Dial(c) => l.(pc := LoggingIn(c), readerCancel := Some(c), sockets := l.sockets[c := Alive])
    case LoginOk => l.(pc := LoggedIn(l.pc.c), conn := Some(l.pc.c))
    case LoginFails => Dropped(l)
    case Drain => l.(pc := Checking(l.pc.c), dead := false, replied := false)
    case ReplyRead => l.(replied := true)
    case CheckOk => l.(pc := Up(l.pc.c), connected := true)
    case CheckFails => Dropped(l)
    case SocketDies(c) => l.(sockets := l.sockets[c := Lost])
    case Signal(c) => l.(sockets := l.sockets[c := Gone], dead := true)
    case TakeDead => Dropped(l.(dead := false))
    case PingFails => Dropped(l)
  }

  function Run(l: Link, es: seq<Event>): Link
    decreases |es|
  {
    if es == [] then l
    else Run(if Enabled(l, es[0]) then Step(l, es[0]) else l, es[1..])
  }

  ghost predicate Inv(l: Link) {
    && (forall c :: c in l.sockets ==> c in l.cancelled || l.readerCancel == Some(c))
    && (l.pc.Down? <==> l.readerCancel == None)
    && (!l.pc.Down? ==> l.readerCancel == Some(l.pc.c) && l.pc.c in l.sockets && l.pc.c !in l.cancelled)
    && (forall c :: c in l.cancelled ==> c in l.sockets)
    && l.conn == (if l.pc.Down? || l.pc.LoggingIn? then None else Some(l.pc.c))
    && (l.connected <==> l.pc.Up?)
    && ((l.pc.Checking? && l.replied) || l.pc.Up? ==> !Is(l, l.pc.c, Gone) || l.dead)
  }

  lemma {:induction false} RunKeepsInv(l: Link, es: seq<Event>)
    requires Inv(l)
    ensures Inv(Run(l, es))
    decreases |es|
  {
    if es == [] {
    } else {
      RunKeepsInv(if Enabled(l, es[0]) then Step(l, es[0]) else l, es[1..]);
    }
  }

  /**
   The drain after login can swallow the new connection's own death signal, and still no loss is missed: whenever
   the client reports connected and its reader has finished, `Run` has a signal to act on, and acting on it tears the
   connection down.
   */
  lemma LossIsNeverMissed(es: seq<Event>)
    ensures var l := Run(INIT, es);
            l.connected ==>
              && l.pc.Up? && l.conn == Some(l.pc.c)
              && (Is(l, l.pc.c, Gone) ==>
                  Enabled(l, TakeDead) && Step(l, TakeDead).conn == None && !Step(l, TakeDead).connected)
  {
    RunKeepsInv(INIT, es);
  }

  /** At most one reader is running uncancelled at any time, and it is the one `drop` would cancel. */
  lemma OneUncancelledReader(es: seq<Event>, c: nat)
    ensures var l := Run(INIT, es);
            c in l.sockets && c !in l.cancelled ==> l.readerCancel == Some(c)
    ensures var l := Run(INIT, es);
            l.conn.Some? ==> l.conn == l.readerCancel
  {
    RunKeepsInv(INIT, es);
  }

  /** Every way to lose or refuse a connection leaves nothing installed, its reader cancelled, and a fresh dial next. */
  lemma FailuresDisconnect(es: seq<Event>, e: Event, c: nat)
    requires var l := Run(INIT, es);
             || (e.LoginFails? && l.pc.LoggingIn?) || (e.CheckFails? && l.pc.Checking?)
             || (e.TakeDead? && l.pc.Up? && l.dead) || (e.PingFails? && l.pc.Up?)
    requires c !in Run(INIT, es).sockets
    ensures Enabled(Run(INIT, es), e)
    ensures var l, t := Run(INIT, es), Step(Run(INIT, es), e);
            && t.conn == None && t.readerCancel == None && !t.connected && l.pc.c in t.cancelled
            && Enabled(t, Dial(c))
  {
    RunKeepsInv(INIT, es);
  }

  /** Some reader signals a loss in the run. */
  predicate SignalIn(l: Link, es: seq<Event>)
    decreases |es|
  {
    es != [] &&
    ((es[0].Signal? && Enabled(l, es[0])) || SignalIn(if Enabled(l, es[0]) then Step(l, es[0]) else l, es[1..]))
  }

  /** `Run` is past the drain of connection `c`. */
  predicate Drained(l: Link, c: nat) {
    l.pc == Checking(c) || l.pc == Up(c)
  }

  lemma {:induction false} NeverBack(l: Link, es: seq<Event>, c: nat)
    requires Inv(l) && c in l.sockets && (l.pc.Down? || l.pc.c != c)
    ensures !Drained(Run(l, es), c)
    decreases |es|
  {
    if es == [] {
    } else {
      NeverBack(if Enabled(l, es[0]) then Step(l, es[0]) else l, es[1..], c);
    }
  }

  lemma {:induction false} DeadIffSignalled(l: Link, es: seq<Event>, c: nat)
    requires Inv(l) && Drained(l, c) && Drained(Run(l, es), c)
    ensures Run(l, es).dead <==> l.dead || SignalIn(l, es)
    decreases |es|
  {
    if es == [] {
    } else {
      var t := if Enabled(l, es[0]) then Step(l, es[0]) else l;
      if Drained(t, c) {
        DeadIffSignalled(t, es[1..], c);
      } else {
        NeverBack(t, es[1..], c);
      }
    }
  }

  /**
   The drain keeps a connection safe from stale signals exactly when none comes after it: as long as `Run` stays with a
   connection it has drained for, it has a loss to act on if and only if some reader, of whatever age, has signalled
   since the drain. While the connection's own socket is alive every such signal is another reader's.
   */
  lemma SignalsCountFromTheDrain(before: seq<Event>, after: seq<Event>)
    requires Enabled(Run(INIT, before), Drain)
    requires var l := Step(Run(INIT, before), Drain); Drained(Run(l, after), l.pc.c)
    ensures var l := Step(Run(INIT, before), Drain); Run(l, after).dead <==> SignalIn(l, after)
  {
    RunKeepsInv(INIT, before);
    var l := Step(Run(INIT, before), Drain);
    DeadIffSignalled(l, after, l.pc.c);
  }

  /** One more event of a run. */
  lemma {:induction false} Then(l: Link, es: seq<Event>, s: Link, e: Event) returns (more: seq<Event>, t: Link)
    requires s == Run(l, es) && Enabled(s, e)
    ensures more == es + [e] && t == Step(s, e) == Run(l, more)
    decreases |es|
  {
    more, t := es + [e], Step(s, e);
    if es == [] {
      assert more == [e] && [e][1..] == [];
    } else {
      assert more[1..] == es[1..] + [e];
      var rest, end := Then(if Enabled(l, es[0]) then Step(l, es[0]) else l, es[1..], s, e);
    }
  }

  /** After a refusal or a loss the client gets back to connected from a fresh dial, on the new connection. */
  lemma DialReconnects(es: seq<Event>, c: nat)
    requires Enabled(Run(INIT, es), Dial(c))
    ensures var t := Run(Run(INIT, es), [Dial(c), LoginOk, Drain, ReplyRead, CheckOk]);
            t.connected && t.conn == Some(c) && t.readerCancel == Some(c) && !t.dead
  {
    var down := Run(INIT, es);
    var more, l := Then(down, [], down, Dial(c));
    more, l := Then(down, more, l, LoginOk);
    more, l := Then(down, more, l, Drain);
    more, l := Then(down, more, l, ReplyRead);
    more, l := Then(down, more, l, CheckOk);
    assert more == [Dial(c), LoginOk, Drain, ReplyRead, CheckOk];
  }

  /** And one can: in this run the reader of an abandoned login reports only after the second login is proven good. */
  lemma LateSignalDropsHealthyLink() returns (es: seq<Event>)
    ensures var l := Run(INIT, es);
            && l.connected && l.conn == Some(1) && Is(l, 1, Alive) && Is(l, 0, Lost)
            && Is(Step(l, Signal(0)), 1, Alive) && Enabled(Step(l, Signal(0)), TakeDead)
            && Step(Step(l, Signal(0)), TakeDead).conn == None
  {
    var l := INIT;
    es := [];
    es, l := Then(INIT, es, l, Dial(0));
    es, l := Then(INIT, es, l, LoginFails);
    es, l := Then(INIT, es, l, SocketDies(0));
    es, l := Then(INIT, es, l, Dial(1));
    es, l := Then(INIT, es, l, LoginOk);
    es, l := Then(INIT, es, l, Drain);
    es, l := Then(INIT, es, l, ReplyRead);
    es, l := Then(INIT, es, l, CheckOk);
  }
}
