/** The bridge's subscriptions: the connection tables, the subscriber map and the hub's ids, under the
    socket thread, pump jobs, provider losses and event deliveries in any order. The hub is loose: it may
    drop ids by itself. A disabled action changes nothing. A client id is its dump. */
module BridgeSubscriptions {
  import opened Prelude
  import opened SubscriptionTables

  /** A client id on a connection. */
  datatype Place = Place(conn: nat, key: string)
  datatype Subscriber = Subscriber(place: Place, name: string, event: string)

  /** Where the one socket thread is in the request it handles. */
  datatype Socket =
    | Idle
    | Claiming(sid: nat, sub: Subscriber)     // claimed in the table; not in the subscriber map yet
    | Submitting(sid: nat, place: Place)      // in the map; the hub job not queued yet
    | Unsubscribing(sid: nat, place: Place)   // taken from the table; still in the map
    | Removing(sid: nat)                      // only the hub is left to tell

  datatype Thread =
    | Adding(sid: nat, place: Place)                          // the queued hub.add
    | Abandoning(sid: nat, place: Place)                      // it failed: leave the map next
    | Freeing(sid: nat, place: Place)                         // then the table
    | Losing(sid: nat)                                        // a loss callback
    | Terminating(sid: nat, place: Place)                     // out of the map: leave the table next
    | Noticing(sid: nat, place: Place)                        // then tell the client
    | Delivering(ids: seq<nat>, sent: multiset<Place>)        // one upstream event, frame by frame

  /** `places`: history; where each subscriber id ever belonged. `noticed`: terminations announced. */
  datatype Sys = Sys(tables: map<nat, Table>, open: set<nat>, subs: map<nat, Subscriber>, hub: set<nat>, nextSid: nat,
                     socket: Socket, threads: map<nat, Thread>, next: nat, places: map<nat, Place>, noticed: multiset<nat>)

  const Start := Sys(map[], {}, map[], {}, 1, Idle, map[], 0, map[], multiset{})

  datatype Action =
    | Connect(conn: nat)
    | Subscribe(place: Place, name: string, event: string, limit: nat)
    | Unsubscribe(place: Place)
    | Close(conn: nat)
    | SocketStep(queued: bool)
    | Lose(sid: nat)
    | Forget(lost: set<nat>)
    | Event(ids: seq<nat>)
    | Advance(thread: nat, ok: bool)

  function Spawn(s: Sys, th: Thread): Sys {
    s.(threads := s.threads[s.next := th], next := s.next + 1)
  }

  function Put(s: Sys, t: nat, th: Option<Thread>): Sys {
    s.(threads := if th.Some? then s.threads[t := th.value] else s.threads - {t})
  }

  ghost predicate DistinctIds(ids: seq<nat>) {
    forall x :: multiset(ids)[x] <= 1
  }

  ghost function Step(s: Sys, a: Action): Sys {
    match a
    case Connect(c) => if c in s.tables then s else s.(tables := s.tables[c := map[]], open := s.open + {c})
    case Subscribe(p, m, ev, limit) =>
      if s.socket.Idle? && p.conn in s.open && p.conn in s.tables then Subscribing(s, p, m, ev, limit) else s
    case Unsubscribe(p) =>
      if s.socket.Idle? && p.conn in s.open && p.conn in s.tables && p.key in s.tables[p.conn] then Taking(s, p) else s
    case Close(c) =>
      if s.socket.Idle? then
        s.(open := s.open - {c}, subs := map x | x in s.subs && s.subs[x].place.conn != c :: s.subs[x])
      else s
    case SocketStep(queued) => SocketGo(s, queued)
    case Lose(sid) => if sid in s.hub then Spawn(s.(hub := s.hub - {sid}), Losing(sid)) else s
    case Forget(lost) => s.(hub := s.hub - lost)
    case Event(ids) => if DistinctIds(ids) && (forall x | x in ids :: x in s.hub) then Spawn(s, Delivering(ids, multiset{})) else s
    case Advance(t, ok) => if t in s.threads then Go(s, t, ok) else s
  }

  function Subscribing(s: Sys, p: Place, m: string, ev: string, limit: nat): Sys
    requires p.conn in s.tables
  {
    var table := s.tables[p.conn];
    var sid := s.nextSid;
    var s := s.(nextSid := sid + 1);
    if !ClaimOf(table, p.key, limit).Fresh? then s
    else
      s.(tables := s.tables[p.conn := Claimed(table, p.key, Entry(m, ev, sid), limit)],
         socket := Claiming(sid, Subscriber(p, m, ev)), places := s.places[sid := p])
  }

  function Taking(s: Sys, p: Place): Sys
    requires p.conn in s.tables && p.key in s.tables[p.conn]
  {
    var table := s.tables[p.conn];
    s.(tables := s.tables[p.conn := Taken(table, p.key)], socket := Unsubscribing(table[p.key].owner, p))
  }

  function SocketGo(s: Sys, queued: bool): Sys {
    match s.socket
    case Idle => s
    case Claiming(sid, sub) => s.(subs := s.subs[sid := sub], socket := Submitting(sid, sub.place))
    case Submitting(sid, p) => Spawn(s.(socket := Idle), if queued then Adding(sid, p) else Abandoning(sid, p))
    case Unsubscribing(sid, p) => s.(subs := s.subs - {sid}, socket := Removing(sid))
    case Removing(sid) => s.(hub := s.hub - {sid}, socket := Idle)
  }

  function Go(s: Sys, t: nat, ok: bool): Sys
    requires t in s.threads
  {
    match s.threads[t]
    case Adding(sid, p) => if ok then Put(s.(hub := s.hub + {sid}), t, None) else Put(s, t, Some(Abandoning(sid, p)))
    case Abandoning(sid, p) => Put(s.(subs := s.subs - {sid}), t, Some(Freeing(sid, p)))
    case Freeing(sid, p) => Put(Free(s, sid, p), t, None)
    case Losing(sid) =>
      if sid in s.subs then Put(s.(subs := s.subs - {sid}), t, Some(Terminating(sid, s.subs[sid].place))) else Put(s, t, None)
    case Terminating(sid, p) => Put(Free(s, sid, p), t, Some(Noticing(sid, p)))
    case Noticing(sid, p) => Put(s.(noticed := s.noticed + multiset{sid}), t, None)
    case Delivering(ids, sent) => if ids == [] then Put(s, t, None) else Deliver(s, t)
  }

  function Free(s: Sys, sid: nat, p: Place): Sys {
    if p.conn in s.tables then s.(tables := s.tables[p.conn := Released(s.tables[p.conn], p.key, sid)]) else s
  }

  /** The next subscriber of the event: one frame, if it is still in the map. */
  function Deliver(s: Sys, t: nat): Sys
    requires t in s.threads && s.threads[t].Delivering? && s.threads[t].ids != []
  {
    var th := s.threads[t];
    var sid := th.ids[0];
    Put(s, t, Some(Delivering(th.ids[1..], if sid in s.subs then th.sent + multiset{s.subs[sid].place} else th.sent)))
  }

  // ---------------------------------------------------------------------------
  // What every step keeps
  // ---------------------------------------------------------------------------

  predicate Holds(s: Sys, p: Place, sid: nat) {
    p.conn in s.tables && p.key in s.tables[p.conn] && s.tables[p.conn][p.key].owner == sid
  }

  /** A subscriber in the map holds its client id, unless the socket thread is unsubscribing it. */
  ghost predicate SubOk(s: Sys, sid: nat) {
    sid in s.subs ==>
      && sid in s.places && s.places[sid] == s.subs[sid].place && s.subs[sid].place.conn in s.open
      && (Holds(s, s.subs[sid].place, sid) || s.socket == Unsubscribing(sid, s.subs[sid].place))
  }

  predicate Frees(th: Thread, sid: nat) {
    (th.Freeing? || th.Terminating?) && th.sid == sid
  }

  ghost predicate FreesAt(s: Sys, t: nat, sid: nat) {
    t in s.threads && Frees(s.threads[t], sid)
  }

  /** Whoever holds a client id of an open connection is in the map, or about to enter it or to let go. */
  ghost predicate EntryOk(s: Sys, p: Place, sid: nat) {
    Holds(s, p, sid) ==>
      && sid in s.places && s.places[sid] == p
      && (p.conn in s.open ==>
            sid in s.subs || (s.socket.Claiming? && s.socket.sid == sid) || exists t :: FreesAt(s, t, sid))
  }

  ghost predicate SocketOk(s: Sys) {
    match s.socket
    case Claiming(sid, sub) =>
      sid in s.places && s.places[sid] == sub.place && sid !in s.subs && Holds(s, sub.place, sid) && sub.place.conn in s.open
    case Submitting(sid, p) => Entered(s, sid) && s.places[sid] == p
    case Unsubscribing(sid, p) =>
      sid in s.places && s.places[sid] == p && p.conn in s.tables && p.key !in s.tables[p.conn] && p.conn in s.open
    case _ => true
  }

  /** The id was put in the map once, so it never enters it again. */
  ghost predicate Entered(s: Sys, sid: nat) {
    sid in s.places && !(s.socket.Claiming? && s.socket.sid == sid)
  }

  ghost predicate ThreadOk(s: Sys, t: nat) {
    t in s.threads ==>
      match s.threads[t]
      case Adding(sid, p) => Entered(s, sid) && s.places[sid] == p
      case Abandoning(sid, p) => Entered(s, sid) && s.places[sid] == p
      case Freeing(sid, p) => Entered(s, sid) && s.places[sid] == p && sid !in s.subs
      case Losing(sid) => Entered(s, sid)
      case Terminating(sid, p) => Entered(s, sid) && s.places[sid] == p && sid !in s.subs
      case Noticing(sid, p) => Entered(s, sid) && s.places[sid] == p && sid !in s.subs && !Holds(s, p, sid)
      case Delivering(ids, sent) =>
        && DistinctIds(ids) && (forall x | x in ids :: Entered(s, x))
        && (forall x | x in ids && s.places[x] in sent :: x !in s.subs)
        && (forall p :: sent[p] <= 1)
  }

  ghost predicate Fresh(s: Sys) {
    && (forall x | x in s.places :: x < s.nextSid) && (forall t | t in s.threads :: t < s.next)
    && (forall x | x in s.hub :: Entered(s, x)) && (forall c | c in s.open :: c in s.tables)
  }

  ghost predicate Inv(s: Sys) {
    && Fresh(s) && SocketOk(s)
    && (forall x {:trigger SubOk(s, x)} :: SubOk(s, x))
    && (forall p, x {:trigger EntryOk(s, p, x)} :: EntryOk(s, p, x))
    && (forall t {:trigger ThreadOk(s, t)} :: ThreadOk(s, t))
  }

  /** One client id of a connection is in the map at most once. */
  lemma OnePerPlace(s: Sys, x: nat, y: nat)
    requires SocketOk(s) && SubOk(s, x) && SubOk(s, y) && x in s.subs && y in s.subs && s.subs[x].place == s.subs[y].place
    ensures x == y
  {
  }

  lemma SubscribingSub(s: Sys, p: Place, m: string, ev: string, limit: nat, x: nat)
    requires Fresh(s) && s.socket.Idle? && p.conn in s.tables && SubOk(s, x)
    ensures SubOk(Subscribing(s, p, m, ev, limit), x)
  {
  }

  lemma SubscribingEntry(s: Sys, p: Place, m: string, ev: string, limit: nat, q: Place, x: nat)
    requires Fresh(s) && s.socket.Idle? && p.conn in s.open && p.conn in s.tables && EntryOk(s, q, x)
    ensures EntryOk(Subscribing(s, p, m, ev, limit), q, x)
  {
    SameFrees(s, Subscribing(s, p, m, ev, limit), x);
  }

  lemma SubscribingThread(s: Sys, p: Place, m: string, ev: string, limit: nat, t: nat)
    requires Fresh(s) && s.socket.Idle? && p.conn in s.tables && ThreadOk(s, t)
    ensures ThreadOk(Subscribing(s, p, m, ev, limit), t)
  {
  }

  lemma SubscribingSocket(s: Sys, p: Place, m: string, ev: string, limit: nat)
    requires Fresh(s) && s.socket.Idle? && p.conn in s.open && p.conn in s.tables && SubOk(s, s.nextSid)
    ensures SocketOk(Subscribing(s, p, m, ev, limit)) && Fresh(Subscribing(s, p, m, ev, limit))
  {
  }

  lemma SubscribingKeeps(s: Sys, p: Place, m: string, ev: string, limit: nat)
    requires Inv(s) && s.socket.Idle? && p.conn in s.open && p.conn in s.tables
    ensures Inv(Subscribing(s, p, m, ev, limit))
  {
    hide SubOk, EntryOk, ThreadOk, SocketOk, Fresh, Subscribing;
    var s' := Subscribing(s, p, m, ev, limit);
    assert SubOk(s, s.nextSid);
    SubscribingSocket(s, p, m, ev, limit);
    forall x ensures SubOk(s', x) { assert SubOk(s, x); SubscribingSub(s, p, m, ev, limit, x); }
    forall q, x ensures EntryOk(s', q, x) { assert EntryOk(s, q, x); SubscribingEntry(s, p, m, ev, limit, q, x); }
    forall t ensures ThreadOk(s', t) { assert ThreadOk(s, t); SubscribingThread(s, p, m, ev, limit, t); }
  }

  lemma SameFrees(s: Sys, s': Sys, x: nat)
    requires s'.threads == s.threads
    ensures (exists t :: FreesAt(s, t, x)) <==> (exists t :: FreesAt(s', t, x))
  {
    if exists t :: FreesAt(s, t, x) { var t :| FreesAt(s, t, x); assert FreesAt(s', t, x); }
    if exists t :: FreesAt(s', t, x) { var t :| FreesAt(s', t, x); assert FreesAt(s, t, x); }
  }

  lemma TakingKeeps(s: Sys, p: Place)
    requires Inv(s) && s.socket.Idle? && p.conn in s.open && p.conn in s.tables && p.key in s.tables[p.conn]
    ensures Inv(Taking(s, p))
  {
    var s' := Taking(s, p);
    assert EntryOk(s, p, s.tables[p.conn][p.key].owner);
    forall x ensures SubOk(s', x) { assert SubOk(s, x); }
    forall q, x ensures EntryOk(s', q, x) { assert EntryOk(s, q, x); SameFrees(s, s', x); }
    forall t ensures ThreadOk(s', t) { assert ThreadOk(s, t); }
  }

  lemma CloseKeeps(s: Sys, c: nat)
    requires Inv(s) && s.socket.Idle?
    ensures Inv(Step(s, Close(c)))
  {
    var s' := Step(s, Close(c));
    forall x ensures SubOk(s', x) { assert SubOk(s, x); }
    forall q, x ensures EntryOk(s', q, x) { assert EntryOk(s, q, x) && SubOk(s, x); SameFrees(s, s', x); }
    forall t ensures ThreadOk(s', t) { assert ThreadOk(s, t); }
  }

  lemma ConnectKeeps(s: Sys, c: nat)
    requires Inv(s)
    ensures Inv(Step(s, Connect(c)))
  {
    var s' := Step(s, Connect(c));
    forall x ensures SubOk(s', x) { assert SubOk(s, x); }
    forall q, x ensures EntryOk(s', q, x) { assert EntryOk(s, q, x); SameFrees(s, s', x); }
    forall t ensures ThreadOk(s', t) { assert ThreadOk(s, t); }
  }

  lemma HubKeeps(s: Sys, s': Sys)
    requires Inv(s) && s'.hub <= s.hub && s' == s.(hub := s'.hub)
    ensures Inv(s')
  {
    forall x ensures SubOk(s', x) { assert SubOk(s, x); }
    forall q, x ensures EntryOk(s', q, x) { assert EntryOk(s, q, x); SameFrees(s, s', x); }
    forall t ensures ThreadOk(s', t) { assert ThreadOk(s, t); }
  }

  lemma SpawnFrees(s: Sys, s': Sys, x: nat)
    requires Fresh(s) && (forall t | t in s.threads :: t in s'.threads && s'.threads[t] == s.threads[t])
    ensures (exists t :: FreesAt(s, t, x)) ==> (exists t :: FreesAt(s', t, x))
  {
    if exists t :: FreesAt(s, t, x) { var t :| FreesAt(s, t, x); assert FreesAt(s', t, x); }
  }

  lemma SpawnKeeps(s: Sys, th: Thread)
    requires Inv(s) && ThreadOk(Spawn(s, th), s.next)
    ensures Inv(Spawn(s, th))
  {
    var s' := Spawn(s, th);
    forall x ensures SubOk(s', x) { assert SubOk(s, x); }
    forall q, x ensures EntryOk(s', q, x) { assert EntryOk(s, q, x); SpawnFrees(s, s', x); }
    forall t ensures ThreadOk(s', t) { assert ThreadOk(s, t); }
  }

  lemma SubmitKeeps(s: Sys, queued: bool)
    requires Inv(s) && s.socket.Submitting?
    ensures Inv(SocketGo(s, queued))
  {
    hide SubOk, EntryOk;
    IdleKeeps(s);
    SpawnKeeps(s.(socket := Idle), if queued then Adding(s.socket.sid, s.socket.place) else Abandoning(s.socket.sid, s.socket.place));
  }

  lemma SocketKeeps(s: Sys, queued: bool)
    requires Inv(s)
    ensures Inv(SocketGo(s, queued))
  {
    hide SubOk, EntryOk, ThreadOk, SocketOk;
    var s' := SocketGo(s, queued);
    match s.socket
    case Submitting(_, _) => SubmitKeeps(s, queued);
    case Claiming(sid, sub) => EnterKeeps(s);
    case Unsubscribing(sid, p) => LeaveKeeps(s);
    case Removing(sid) => IdleKeeps(s); HubKeeps(s.(socket := Idle), s');
    case Idle =>
  }

  lemma IdleKeeps(s: Sys)
    requires Inv(s) && (s.socket.Submitting? || s.socket.Removing?)
    ensures Inv(s.(socket := Idle))
  {
    var s' := s.(socket := Idle);
    forall x ensures SubOk(s', x) { assert SubOk(s, x); }
    forall q, x ensures EntryOk(s', q, x) { assert EntryOk(s, q, x); SameFrees(s, s', x); }
    forall t ensures ThreadOk(s', t) { assert ThreadOk(s, t); }
  }

  lemma EnterKeeps(s: Sys)
    requires Inv(s) && s.socket.Claiming?
    ensures Inv(SocketGo(s, true))
  {
    var s' := SocketGo(s, true);
    forall x ensures SubOk(s', x) { assert SubOk(s, x); }
    forall q, x ensures EntryOk(s', q, x) { assert EntryOk(s, q, x); SameFrees(s, s', x); }
    forall t ensures ThreadOk(s', t) { assert ThreadOk(s, t); }
  }

  lemma LeaveKeeps(s: Sys)
    requires Inv(s) && s.socket.Unsubscribing?
    ensures Inv(SocketGo(s, true))
  {
    var s' := SocketGo(s, true);
    forall x ensures SubOk(s', x) { assert SubOk(s, x); }
    forall q, x ensures EntryOk(s', q, x) { assert EntryOk(s, q, x); SameFrees(s, s', x); }
    forall t ensures ThreadOk(s', t) { assert ThreadOk(s, t); }
  }

  lemma GoKeeps(s: Sys, t: nat, ok: bool)
    requires Inv(s) && t in s.threads
    ensures Inv(Go(s, t, ok))
  {
    assert ThreadOk(s, t);
    match s.threads[t]
    case Adding(sid, p) => AddedKeeps(s, t, ok);
    case Abandoning(sid, p) => DropKeeps(s, t, sid, Freeing(sid, p));
    case Freeing(sid, p) => FreeKeeps(s, t, None);
    case Losing(sid) =>
      if sid in s.subs { assert SubOk(s, sid); DropKeeps(s, t, sid, Terminating(sid, s.subs[sid].place)); }
      else { PutKeeps(s, t, None); }
    case Terminating(sid, p) => FreeKeeps(s, t, Some(Noticing(sid, p)));
    case Noticing(sid, p) => NoticedKeeps(s, t);
    case Delivering(ids, sent) => if ids == [] { PutKeeps(s, t, None); } else { DeliverKeeps(s, t); }
  }

  lemma PutFrees(s: Sys, s': Sys, t: nat, x: nat)
    requires t in s.threads && (Frees(s.threads[t], x) ==> FreesAt(s', t, x))
    requires forall u | u in s.threads && u != t :: u in s'.threads && s'.threads[u] == s.threads[u]
    ensures (exists u :: FreesAt(s, u, x)) ==> (exists u :: FreesAt(s', u, x))
  {
    if exists u :: FreesAt(s, u, x) { var u :| FreesAt(s, u, x); assert FreesAt(s', u, x); }
  }

  /** The thread moves on and nothing else does. */
  lemma PutKeeps(s: Sys, t: nat, th: Option<Thread>)
    requires Inv(s) && t in s.threads && !s.threads[t].Freeing? && !s.threads[t].Terminating? && ThreadOk(Put(s, t, th), t)
    ensures Inv(Put(s, t, th))
  {
    var s' := Put(s, t, th);
    forall x ensures SubOk(s', x) { assert SubOk(s, x); }
    forall q, x ensures EntryOk(s', q, x) { assert EntryOk(s, q, x); PutFrees(s, s', t, x); }
    forall u ensures ThreadOk(s', u) { assert ThreadOk(s, u); }
  }

  lemma AddedKeeps(s: Sys, t: nat, ok: bool)
    requires Inv(s) && t in s.threads && s.threads[t].Adding?
    ensures Inv(Go(s, t, ok))
  {
    assert ThreadOk(s, t);
    var (sid, p) := (s.threads[t].sid, s.threads[t].place);
    if ok {
      PutKeeps(s, t, None);
      var u := Put(s, t, None);
      var s' := u.(hub := u.hub + {sid});
      forall x ensures SubOk(s', x) { assert SubOk(u, x); }
      forall q, x ensures EntryOk(s', q, x) { assert EntryOk(u, q, x); SameFrees(u, s', x); }
      forall v ensures ThreadOk(s', v) { assert ThreadOk(u, v); }
    } else {
      PutKeeps(s, t, Some(Abandoning(sid, p)));
    }
  }

  /** The subscriber leaves the map; the thread is to free its client id. */
  lemma DropKeeps(s: Sys, t: nat, sid: nat, th: Thread)
    requires Inv(s) && t in s.threads && Frees(th, sid) && Entered(s, sid) && s.places[sid] == th.place
    requires !s.threads[t].Freeing? && !s.threads[t].Terminating?
    ensures Inv(Put(s.(subs := s.subs - {sid}), t, Some(th)))
  {
    var s' := Put(s.(subs := s.subs - {sid}), t, Some(th));
    assert FreesAt(s', t, sid);
    forall x ensures SubOk(s', x) { assert SubOk(s, x); }
    forall q, x ensures EntryOk(s', q, x) { assert EntryOk(s, q, x); PutFrees(s, s', t, x); }
    forall u ensures ThreadOk(s', u) { assert ThreadOk(s, u); }
  }

  function Freed(s: Sys, t: nat, th: Option<Thread>): Sys
    requires t in s.threads && (s.threads[t].Freeing? || s.threads[t].Terminating?)
  {
    Put(Free(s, s.threads[t].sid, s.threads[t].place), t, th)
  }

  lemma FreeSub(s: Sys, t: nat, th: Option<Thread>, x: nat)
    requires t in s.threads && (s.threads[t].Freeing? || s.threads[t].Terminating?) && ThreadOk(s, t) && SubOk(s, x)
    ensures SubOk(Freed(s, t, th), x)
  {
  }

  lemma FreeThread(s: Sys, t: nat, th: Option<Thread>, u: nat)
    requires t in s.threads && (s.threads[t].Freeing? || s.threads[t].Terminating?) && ThreadOk(s, t) && ThreadOk(s, u)
    requires th == None || th == Some(Noticing(s.threads[t].sid, s.threads[t].place))
    ensures ThreadOk(Freed(s, t, th), u)
  {
  }

  lemma FreeKeeps(s: Sys, t: nat, th: Option<Thread>)
    requires Inv(s) && t in s.threads && (s.threads[t].Freeing? || s.threads[t].Terminating?)
    requires th == None || th == Some(Noticing(s.threads[t].sid, s.threads[t].place))
    ensures Inv(Freed(s, t, th))
  {
    hide SubOk, EntryOk, ThreadOk, SocketOk;
    assert ThreadOk(s, t);
    var s' := Freed(s, t, th);
    forall x ensures SubOk(s', x) { assert SubOk(s, x); FreeSub(s, t, th, x); }
    forall q, x ensures EntryOk(s', q, x) {
      assert EntryOk(s, q, x);
      FreeEntry(s, t, th, q, x);
    }
    forall u ensures ThreadOk(s', u) { assert ThreadOk(s, u); FreeThread(s, t, th, u); }
    FreeSocket(s, s', t);
  }

  lemma FreeEntry(s: Sys, t: nat, th: Option<Thread>, q: Place, x: nat)
    requires t in s.threads && (s.threads[t].Freeing? || s.threads[t].Terminating?)
    requires ThreadOk(s, t) && EntryOk(s, q, x)
    ensures EntryOk(Put(Free(s, s.threads[t].sid, s.threads[t].place), t, th), q, x)
  {
    if x != s.threads[t].sid {
      PutFrees(s, Put(Free(s, s.threads[t].sid, s.threads[t].place), t, th), t, x);
    }
  }

  lemma FreeSocket(s: Sys, s': Sys, t: nat)
    requires Inv(s) && t in s.threads && ThreadOk(s, t) && (s.threads[t].Freeing? || s.threads[t].Terminating?)
    requires s'.socket == s.socket && s'.places == s.places && s'.subs == s.subs && s'.open == s.open
    requires s'.tables == Free(s, s.threads[t].sid, s.threads[t].place).tables
    ensures SocketOk(s')
  {
  }

  lemma NoticedKeeps(s: Sys, t: nat)
    requires Inv(s) && t in s.threads && s.threads[t].Noticing?
    ensures Inv(Go(s, t, true))
  {
    PutKeeps(s, t, None);
    var (u, s') := (Put(s, t, None), Go(s, t, true));
    forall x ensures SubOk(s', x) { assert SubOk(u, x); }
    forall q, x ensures EntryOk(s', q, x) { assert EntryOk(u, q, x); SameFrees(u, s', x); }
    forall v ensures ThreadOk(s', v) { assert ThreadOk(u, v); }
  }

  lemma DistinctTail(ids: seq<nat>)
    requires DistinctIds(ids) && ids != []
    ensures DistinctIds(ids[1..]) && ids[0] !in ids[1..] && forall x | x in ids[1..] :: x in ids
  {
    assert ids == [ids[0]] + ids[1..];
    forall x ensures multiset(ids[1..])[x] <= 1 {
      assert multiset(ids)[x] <= 1;
    }
    assert multiset(ids)[ids[0]] <= 1;
  }

  lemma DeliverKeeps(s: Sys, t: nat)
    requires Inv(s) && t in s.threads && s.threads[t].Delivering? && s.threads[t].ids != []
    ensures Inv(Deliver(s, t))
  {
    var th := s.threads[t];
    var sid := th.ids[0];
    assert ThreadOk(s, t) && SubOk(s, sid);
    DistinctTail(th.ids);
    forall x | x in th.ids[1..] ensures x in s.places && (sid in s.subs && s.places[x] == s.subs[sid].place ==> x !in s.subs) {
      assert SubOk(s, x) && x in th.ids;
      if sid in s.subs && x in s.subs && s.places[x] == s.subs[sid].place {
        OnePerPlace(s, x, sid);
      }
    }
    DeliveredOk(s, t);
    PutKeeps(s, t, Some(Deliver(s, t).threads[t]));
  }

  lemma DeliveredOk(s: Sys, t: nat)
    requires ThreadOk(s, t) && t in s.threads && s.threads[t].Delivering? && s.threads[t].ids != []
    requires SubOk(s, s.threads[t].ids[0])
    requires
      var (ids, sid) := (s.threads[t].ids, s.threads[t].ids[0]);
      forall x | x in ids[1..] :: x in s.places && (sid in s.subs && s.places[x] == s.subs[sid].place ==> x !in s.subs)
    ensures ThreadOk(Deliver(s, t), t)
  {
    var (th, s') := (s.threads[t], Deliver(s, t));
    DistinctTail(th.ids);
    assert forall x | x in th.ids[1..] :: Entered(s, x) && Entered(s', x);
    if th.ids[0] in s.subs {
      var p := s.subs[th.ids[0]].place;
      assert p !in th.sent;
    }
  }

  lemma StepKeeps(s: Sys, a: Action)
    requires Inv(s)
    ensures Inv(Step(s, a))
  {
    hide Inv, Subscribing, Taking, SocketGo, Go;
    match a
    case Connect(c) => ConnectKeeps(s, c);
    case Subscribe(p, m, ev, limit) =>
      if s.socket.Idle? && p.conn in s.open && p.conn in s.tables { SubscribingKeeps(s, p, m, ev, limit); }
    case Unsubscribe(p) =>
      if s.socket.Idle? && p.conn in s.open && p.conn in s.tables && p.key in s.tables[p.conn] { TakingKeeps(s, p); }
    case Close(c) => if s.socket.Idle? { CloseKeeps(s, c); }
    case SocketStep(queued) => SocketKeeps(s, queued);
    case Lose(sid) => if sid in s.hub { LoseKeeps(s, sid); }
    case Forget(lost) => HubKeeps(s, Step(s, a));
    case Event(ids) => EventKeeps(s, ids);
    case Advance(t, ok) => if t in s.threads { GoKeeps(s, t, ok); }
  }

  lemma LoseKeeps(s: Sys, sid: nat)
    requires Inv(s) && sid in s.hub
    ensures Inv(Spawn(s.(hub := s.hub - {sid}), Losing(sid)))
  {
    HubKeeps(s, s.(hub := s.hub - {sid}));
    SpawnKeeps(s.(hub := s.hub - {sid}), Losing(sid));
  }

  lemma EventKeeps(s: Sys, ids: seq<nat>)
    requires Inv(s)
    ensures Inv(Step(s, Event(ids)))
  {
    if DistinctIds(ids) && (forall x | x in ids :: x in s.hub) {
      SpawnKeeps(s, Delivering(ids, multiset{}));
    }
  }

  // ---------------------------------------------------------------------------
  // Runs
  // ---------------------------------------------------------------------------

  ghost function Run(run: seq<Action>): Sys {
    if run == [] then Start else Step(Run(run[..|run| - 1]), run[|run| - 1])
  }

  lemma {:induction false} RunKeeps(run: seq<Action>)
    ensures Inv(Run(run))
  {
    if run == [] {
      forall x ensures SubOk(Start, x) {}
      forall p, x ensures EntryOk(Start, p, x) {}
      forall t ensures ThreadOk(Start, t) {}
    } else {
      RunKeeps(run[..|run| - 1]);
      StepKeeps(Run(run[..|run| - 1]), run[|run| - 1]);
    }
  }

  /** At every moment a client id of a connection stands for at most one subscriber, and holds its entry
      in the connection's table unless the client is just unsubscribing it. */
  lemma {:induction false} OneSubscriberPerClientId(run: seq<Action>, x: nat, y: nat)
    ensures
      var s := Run(run);
      && (x in s.subs && y in s.subs && s.subs[x].place == s.subs[y].place ==> x == y)
      && (x in s.subs ==> Holds(s, s.subs[x].place, x) || s.socket == Unsubscribing(x, s.subs[x].place))
  {
    RunKeeps(run);
    var s := Run(run);
    assert SubOk(s, x) && SubOk(s, y);
  }

  /** One upstream event sends each client id at most one frame, however the lookups interleave with
      unsubscribing, losses and new claims of the same client id. */
  lemma {:induction false} OneFramePerEvent(run: seq<Action>, t: nat, p: Place)
    ensures t in Run(run).threads && Run(run).threads[t].Delivering? ==> Run(run).threads[t].sent[p] <= 1
  {
    RunKeeps(run);
    assert ThreadOk(Run(run), t);
  }

  /** When a termination is announced, the ended subscriber no longer holds its client id and is out of
      the map: a new subscription under it is a fresh one. */
  lemma {:induction false} ReleasedBeforeNotice(run: seq<Action>, t: nat)
    requires t in Run(run).threads && Run(run).threads[t].Noticing?
    ensures var (s, th) := (Run(run), Run(run).threads[t]); !Holds(s, th.place, th.sid) && th.sid !in s.subs
  {
    RunKeeps(run);
    assert ThreadOk(Run(run), t);
  }

  /** No late release frees a newer claim: an entry disappears only by its client's unsubscribe, or freed
      on behalf of the very subscriber that holds it. */
  lemma {:induction false} OnlyOwnReleases(run: seq<Action>, a: Action, p: Place, sid: nat)
    requires Holds(Run(run), p, sid) && !Holds(Step(Run(run), a), p, sid)
    ensures a == Unsubscribe(p) || (a.Advance? && FreesAt(Run(run), a.thread, sid))
  {
    RunKeeps(run);
    var s := Run(run);
    assert EntryOk(s, p, sid);
    assert sid < s.nextSid;
    hide Inv, Go, SocketGo, Subscribing, Taking, Holds;
    match a
    case Advance(t, ok) => if t in s.threads && !FreesAt(s, t, sid) { GoHolds(s, t, ok, p, sid); }
    case SocketStep(queued) => SocketHolds(s, queued); SameTables(s, SocketGo(s, queued), p, sid);
    case Subscribe(q, m, ev, limit) =>
      if s.socket.Idle? && q.conn in s.open && q.conn in s.tables { SubscribeHolds(s, q, m, ev, limit, p, sid); }
    case Unsubscribe(q) => if q != p && q.conn in s.tables && q.key in s.tables[q.conn] { TakeHolds(s, q, p, sid); }
    case Connect(c) => ConnectHolds(s, c, p, sid);
    case Close(_) => SameTables(s, Step(s, a), p, sid);
    case Lose(_) => SameTables(s, Step(s, a), p, sid);
    case Forget(_) => SameTables(s, Step(s, a), p, sid);
    case Event(_) => SameTables(s, Step(s, a), p, sid);
  }

  lemma SameTables(s: Sys, s': Sys, p: Place, sid: nat)
    requires s'.tables == s.tables
    ensures Holds(s', p, sid) == Holds(s, p, sid)
  {
  }

  lemma ConnectHolds(s: Sys, c: nat, p: Place, sid: nat)
    requires Holds(s, p, sid)
    ensures Holds(Step(s, Connect(c)), p, sid)
  {
  }

  lemma SubscribeHolds(s: Sys, q: Place, m: string, ev: string, limit: nat, p: Place, sid: nat)
    requires q.conn in s.tables && Holds(s, p, sid)
    ensures Holds(Subscribing(s, q, m, ev, limit), p, sid)
  {
  }

  lemma TakeHolds(s: Sys, q: Place, p: Place, sid: nat)
    requires q.conn in s.tables && q.key in s.tables[q.conn] && Holds(s, p, sid) && q != p
    ensures Holds(Taking(s, q), p, sid)
  {
  }

  lemma GoHolds(s: Sys, t: nat, ok: bool, p: Place, sid: nat)
    requires t in s.threads && Holds(s, p, sid) && !FreesAt(s, t, sid)
    ensures Holds(Go(s, t, ok), p, sid)
  {
  }

  lemma SocketHolds(s: Sys, queued: bool)
    ensures SocketGo(s, queued).tables == s.tables
  {
  }

  /** With no request and no thread running, on every open connection the table and the map agree. */
  lemma {:induction false} QuiescentAgreement(run: seq<Action>, p: Place, sid: nat)
    requires Run(run).socket.Idle? && Run(run).threads == map[] && p.conn in Run(run).open
    ensures Holds(Run(run), p, sid) <==> sid in Run(run).subs && Run(run).subs[sid].place == p
  {
    RunKeeps(run);
    assert SubOk(Run(run), sid) && EntryOk(Run(run), p, sid);
  }

  // ---------------------------------------------------------------------------
  // Every loss is announced
  // ---------------------------------------------------------------------------

  /** A loss callback takes the subscriber out of the map. */
  predicate Takes(s: Sys, a: Action, sid: nat) {
    a.Advance? && a.thread in s.threads && s.threads[a.thread] == Losing(sid) && sid in s.subs
  }

  ghost predicate TellsAt(s: Sys, t: nat, sid: nat) {
    t in s.threads && (s.threads[t].Terminating? || s.threads[t].Noticing?) && s.threads[t].sid == sid
  }

  ghost predicate Telling(s: Sys, sid: nat) {
    exists t :: TellsAt(s, t, sid)
  }

  /** A subscriber taken by a loss has been announced, or one thread is about to; nobody else is. */
  ghost predicate NoticeOk(s: Sys, sid: nat, taken: bool) {
    && s.noticed[sid] + B(Telling(s, sid)) == B(taken)
    && (forall t, u | TellsAt(s, t, sid) && TellsAt(s, u, sid) :: t == u)
    && (taken ==> sid !in s.subs && Entered(s, sid))
  }

  /** Nothing about notices moved. */
  ghost predicate SameTelling(s: Sys, s': Sys, sid: nat) {
    && s'.noticed[sid] == s.noticed[sid]
    && (forall t {:trigger TellsAt(s', t, sid)} {:trigger TellsAt(s, t, sid)} :: TellsAt(s', t, sid) <==> TellsAt(s, t, sid))
    && (Entered(s, sid) ==> Entered(s', sid) && (sid !in s.subs ==> sid !in s'.subs))
  }

  lemma SameNotice(s: Sys, s': Sys, sid: nat, taken: bool)
    requires NoticeOk(s, sid, taken) && SameTelling(s, s', sid)
    ensures NoticeOk(s', sid, taken)
  {
    if Telling(s, sid) { var t :| TellsAt(s, t, sid); assert TellsAt(s', t, sid); }
    if Telling(s', sid) { var t :| TellsAt(s', t, sid); assert TellsAt(s, t, sid); }
  }

  lemma GoTelling(s: Sys, t: nat, ok: bool, sid: nat)
    requires t in s.threads && !Takes(s, Advance(t, ok), sid) && s.threads[t] != Noticing(sid, NoticePlace(s.threads[t]))
    ensures SameTelling(s, Go(s, t, ok), sid)
  {
  }

  function NoticePlace(th: Thread): Place {
    if th.Noticing? then th.place else Place(0, "")
  }

  lemma TakenTelling(s: Sys, t: nat, ok: bool, sid: nat)
    requires Takes(s, Advance(t, ok), sid) && NoticeOk(s, sid, false) && Entered(s, sid)
    ensures NoticeOk(Go(s, t, ok), sid, true)
  {
    var s' := Go(s, t, ok);
    assert TellsAt(s', t, sid);
    forall u | TellsAt(s', u, sid) ensures u == t {
      if u != t { assert TellsAt(s, u, sid); }
    }
  }

  lemma AnnouncedTelling(s: Sys, t: nat, ok: bool, sid: nat)
    requires t in s.threads && s.threads[t].Noticing? && s.threads[t].sid == sid && NoticeOk(s, sid, true)
    ensures NoticeOk(Go(s, t, ok), sid, true)
  {
    var s' := Go(s, t, ok);
    assert TellsAt(s, t, sid);
    forall u ensures !TellsAt(s', u, sid) {
      if TellsAt(s', u, sid) { assert TellsAt(s, u, sid); }
    }
  }

  lemma OtherTelling(s: Sys, a: Action, sid: nat)
    requires Inv(s) && !a.Advance?
    ensures SameTelling(s, Step(s, a), sid)
  {
    hide SubOk, EntryOk, ThreadOk, SocketOk, Subscribing, Taking, SocketGo, DistinctIds;
    assert Fresh(s);
    match a
    case Subscribe(p, m, ev, limit) =>
      if s.socket.Idle? && p.conn in s.open && p.conn in s.tables { SubscribeTelling(s, p, m, ev, limit, sid); }
    case SocketStep(queued) => SocketTelling(s, queued, sid);
    case Unsubscribe(p) =>
      if s.socket.Idle? && p.conn in s.open && p.conn in s.tables && p.key in s.tables[p.conn] { UnsubscribeTelling(s, p, sid); }
    case _ =>
  }

  lemma SubscribeTelling(s: Sys, p: Place, m: string, ev: string, limit: nat, sid: nat)
    requires Fresh(s) && s.socket.Idle? && p.conn in s.tables
    ensures SameTelling(s, Subscribing(s, p, m, ev, limit), sid)
  {
  }

  lemma UnsubscribeTelling(s: Sys, p: Place, sid: nat)
    requires s.socket.Idle? && p.conn in s.tables && p.key in s.tables[p.conn]
    ensures SameTelling(s, Taking(s, p), sid)
  {
  }

  lemma SocketTelling(s: Sys, queued: bool, sid: nat)
    requires Fresh(s)
    ensures SameTelling(s, SocketGo(s, queued), sid)
  {
  }

  lemma StepNotices(s: Sys, a: Action, sid: nat, taken: bool)
    requires Inv(s) && NoticeOk(s, sid, taken)
    ensures NoticeOk(Step(s, a), sid, taken || Takes(s, a, sid))
  {
    hide Inv, NoticeOk, SameTelling, Go;
    if !a.Advance? {
      OtherTelling(s, a, sid);
      SameNotice(s, Step(s, a), sid, taken);
    } else if a.thread in s.threads {
      AdvanceNotices(s, a.thread, a.ok, sid, taken);
    }
  }

  lemma AdvanceNotices(s: Sys, t: nat, ok: bool, sid: nat, taken: bool)
    requires Inv(s) && NoticeOk(s, sid, taken) && t in s.threads
    ensures NoticeOk(Go(s, t, ok), sid, taken || Takes(s, Advance(t, ok), sid))
  {
    if Takes(s, Advance(t, ok), sid) {
      assert ThreadOk(s, t);
      hide Inv, ThreadOk, Go;
      TakenTelling(s, t, ok, sid);
    } else if s.threads[t].Noticing? && s.threads[t].sid == sid {
      assert TellsAt(s, t, sid);
      hide Inv, Go;
      AnnouncedTelling(s, t, ok, sid);
    } else {
      hide Inv, NoticeOk, SameTelling, Go;
      GoTelling(s, t, ok, sid);
      SameNotice(s, Go(s, t, ok), sid, taken);
    }
  }

  /** Some step of the run took the subscriber out of the map for a loss. */
  ghost predicate EverTaken(run: seq<Action>, sid: nat) {
    exists i | 0 <= i < |run| :: Takes(Run(run[..i]), run[i], sid)
  }

  lemma TakenSplit(before: seq<Action>, a: Action, sid: nat)
    ensures EverTaken(before + [a], sid) <==> EverTaken(before, sid) || Takes(Run(before), a, sid)
  {
    hide Run, Takes;
    var run := before + [a];
    assert run[..|before|] == before && run[|before|] == a;
    assert forall i | 0 <= i < |before| :: run[..i] == before[..i] && run[i] == before[i];
  }

  lemma {:induction false} NoticesKept(run: seq<Action>, sid: nat)
    ensures NoticeOk(Run(run), sid, EverTaken(run, sid))
  {
    if run == [] {
      assert !Telling(Start, sid);
    } else {
      hide NoticeOk, EverTaken, Step, Inv, Takes;
      var (before, a) := (run[..|run| - 1], run[|run| - 1]);
      assert run == before + [a];
      NoticesKept(before, sid);
      RunKeeps(before);
      StepNotices(Run(before), a, sid, EverTaken(before, sid));
      TakenSplit(before, a, sid);
    }
  }

  /** A termination is announced exactly for the subscribers a loss took out of the map, and once each: it has been
      announced, or one thread is about to. */
  lemma {:induction false} NoticedExactlyOnce(run: seq<Action>, sid: nat)
    ensures Run(run).noticed[sid] + B(Telling(Run(run), sid)) == B(EverTaken(run, sid))
  {
    NoticesKept(run, sid);
  }

  // ---------------------------------------------------------------------------
  // Every event reaches its subscribers
  // ---------------------------------------------------------------------------

  /** The subscriber's turn is still to come, it has had its frame, or it has left the map. */
  ghost predicate Reaches(s: Sys, t: nat, sid: nat) {
    && Entered(s, sid)
    && (t in s.threads && s.threads[t].Delivering? ==>
          sid in s.threads[t].ids || s.places[sid] in s.threads[t].sent || sid !in s.subs)
  }

  lemma StepReaches(s: Sys, a: Action, t: nat, sid: nat)
    requires Inv(s) && Reaches(s, t, sid) && t < s.next
    ensures Reaches(Step(s, a), t, sid) && t < Step(s, a).next
  {
    assert SubOk(s, sid) && Fresh(s);
    hide SubOk, EntryOk, ThreadOk, SocketOk, Subscribing, Taking, SocketGo, Go, DistinctIds;
    match a
    case Subscribe(p, m, ev, limit) =>
      if s.socket.Idle? && p.conn in s.open && p.conn in s.tables { SubscribeReaches(s, p, m, ev, limit, t, sid); }
    case SocketStep(queued) => SocketReaches(s, queued, t, sid);
    case Unsubscribe(p) =>
      if s.socket.Idle? && p.conn in s.open && p.conn in s.tables && p.key in s.tables[p.conn] { UnsubscribeReaches(s, p, t, sid); }
    case Advance(u, ok) => if u in s.threads { GoReaches(s, u, ok, t, sid); }
    case _ =>
  }

  lemma SubscribeReaches(s: Sys, p: Place, m: string, ev: string, limit: nat, t: nat, sid: nat)
    requires Fresh(s) && s.socket.Idle? && p.conn in s.tables && Reaches(s, t, sid)
    ensures Reaches(Subscribing(s, p, m, ev, limit), t, sid) && Subscribing(s, p, m, ev, limit).next == s.next
  {
  }

  lemma UnsubscribeReaches(s: Sys, p: Place, t: nat, sid: nat)
    requires s.socket.Idle? && p.conn in s.tables && p.key in s.tables[p.conn] && Reaches(s, t, sid)
    ensures Reaches(Taking(s, p), t, sid) && Taking(s, p).next == s.next
  {
  }

  lemma SocketReaches(s: Sys, queued: bool, t: nat, sid: nat)
    requires Fresh(s) && Reaches(s, t, sid) && t < s.next
    ensures Reaches(SocketGo(s, queued), t, sid) && t < SocketGo(s, queued).next
  {
  }

  lemma GoReaches(s: Sys, u: nat, ok: bool, t: nat, sid: nat)
    requires u in s.threads && Reaches(s, t, sid) && SubOk(s, sid)
    ensures Reaches(Go(s, u, ok), t, sid) && Go(s, u, ok).next == s.next
  {
    if u == t && s.threads[t].Delivering? && s.threads[t].ids != [] {
      DeliverReaches(s, t, sid);
    } else if u == t {
      hide Deliver, SubOk;
    } else {
      OtherGoes(s, u, ok, t, sid);
      hide Go, SubOk;
    }
  }

  lemma OtherGoes(s: Sys, u: nat, ok: bool, t: nat, sid: nat)
    requires u in s.threads && u != t
    ensures
      var s' := Go(s, u, ok);
      && s'.next == s.next && s'.places == s.places && s'.socket == s.socket && (sid in s'.subs ==> sid in s.subs)
      && (t in s'.threads <==> t in s.threads) && (t in s.threads ==> s'.threads[t] == s.threads[t])
  {
    hide Released, Deliver, Free;
    match s.threads[u]
    case Adding(_, _) =>
    case Abandoning(_, _) =>
    case Freeing(x, p) => FreeKeepsRest(s, x, p);
    case Losing(_) =>
    case Terminating(x, p) => FreeKeepsRest(s, x, p);
    case Noticing(_, _) =>
    case Delivering(ids, _) => if ids != [] { DeliverGoes(s, u, t); }
  }

  lemma FreeKeepsRest(s: Sys, x: nat, p: Place)
    ensures Free(s, x, p) == s.(tables := Free(s, x, p).tables)
  {
  }

  lemma DeliverGoes(s: Sys, u: nat, t: nat)
    requires u in s.threads && u != t && s.threads[u].Delivering? && s.threads[u].ids != []
    ensures
      var s' := Deliver(s, u);
      && s' == s.(threads := s'.threads)
      && (t in s'.threads <==> t in s.threads) && (t in s.threads ==> s'.threads[t] == s.threads[t])
  {
  }

  lemma DeliverReaches(s: Sys, t: nat, sid: nat)
    requires t in s.threads && s.threads[t].Delivering? && s.threads[t].ids != [] && Reaches(s, t, sid) && SubOk(s, sid)
    ensures Reaches(Deliver(s, t), t, sid)
  {
    assert s.threads[t].ids == [s.threads[t].ids[0]] + s.threads[t].ids[1..];
  }

  lemma {:induction false} StaysReached(run: seq<Action>, more: seq<Action>, t: nat, sid: nat)
    requires Reaches(Run(run), t, sid) && t < Run(run).next
    ensures Reaches(Run(run + more), t, sid)
    ensures t < Run(run + more).next
  {
    hide Reaches, Step, Inv;
    if more == [] {
      assert run + more == run;
    } else {
      var (rest, a) := (more[..|more| - 1], more[|more| - 1]);
      assert (run + more)[..|run + more| - 1] == run + rest;
      StaysReached(run, rest, t, sid);
      RunKeeps(run + rest);
      StepReaches(Run(run + rest), a, t, sid);
    }
  }

  /** By the time a delivery has gone through its subscribers, each of them has had a frame on its client id, or
      has left the map since: by its client's unsubscribe, a loss, a failed add or the end of its connection. */
  lemma {:induction false} EventReachesAll(run: seq<Action>, ids: seq<nat>, more: seq<Action>, sid: nat)
    requires DistinctIds(ids) && (forall x | x in ids :: x in Run(run).hub) && sid in ids
    requires
      var (t, s) := (Run(run).next, Run(run + [Event(ids)] + more));
      t in s.threads && s.threads[t].Delivering? && s.threads[t].ids == []
    ensures
      var (t, s) := (Run(run).next, Run(run + [Event(ids)] + more));
      sid in s.places && (s.places[sid] in s.threads[t].sent || sid !in s.subs)
  {
    var before := Run(run);
    RunKeeps(run);
    assert (run + [Event(ids)])[..|run|] == run;
    assert Entered(before, sid);
    assert Run(run + [Event(ids)]) == Spawn(before, Delivering(ids, multiset{}));
    assert Reaches(Run(run + [Event(ids)]), before.next, sid);
    hide Inv, Step;
    StaysReached(run + [Event(ids)], more, before.next, sid);
  }

  /** And nobody else has one: a frame goes out only in a delivery's turn for a subscriber that is in the map, on
      that subscriber's own client id. */
  lemma FramesForSubscribers(s: Sys, a: Action, t: nat, p: Place)
    requires Inv(s) && t in s.threads && s.threads[t].Delivering?
    requires t in Step(s, a).threads && Step(s, a).threads[t].Delivering?
    ensures
      var (th, s') := (s.threads[t], Step(s, a));
      s'.threads[t].sent[p] ==
      th.sent[p] + B(a.Advance? && a.thread == t && th.ids != [] && th.ids[0] in s.subs && s.subs[th.ids[0]].place == p)
  {
    assert Fresh(s);
    hide SubOk, EntryOk, ThreadOk, SocketOk, Subscribing, Taking, SocketGo, Go, DistinctIds;
    match a
    case Subscribe(q, m, ev, limit) =>
      if s.socket.Idle? && q.conn in s.open && q.conn in s.tables { SubscribeThreads(s, q, m, ev, limit); }
    case SocketStep(queued) => SocketThreads(s, queued, t);
    case Unsubscribe(q) =>
      if s.socket.Idle? && q.conn in s.open && q.conn in s.tables && q.key in s.tables[q.conn] { TakeThreads(s, q); }
    case Advance(u, ok) => if u in s.threads { GoFrames(s, u, ok, t, p); }
    case _ =>
  }

  lemma GoFrames(s: Sys, u: nat, ok: bool, t: nat, p: Place)
    requires u in s.threads && t in s.threads && s.threads[t].Delivering?
    requires t in Go(s, u, ok).threads && Go(s, u, ok).threads[t].Delivering?
    ensures
      var th := s.threads[t];
      Go(s, u, ok).threads[t].sent[p] ==
      th.sent[p] + B(u == t && th.ids != [] && th.ids[0] in s.subs && s.subs[th.ids[0]].place == p)
  {
    if u != t {
      OtherGoes(s, u, ok, t, 0);
      hide Go;
    }
  }

  lemma SubscribeThreads(s: Sys, p: Place, m: string, ev: string, limit: nat)
    requires p.conn in s.tables
    ensures Subscribing(s, p, m, ev, limit).threads == s.threads
  {
  }

  lemma TakeThreads(s: Sys, p: Place)
    requires p.conn in s.tables && p.key in s.tables[p.conn]
    ensures Taking(s, p).threads == s.threads
  {
  }

  lemma SocketThreads(s: Sys, queued: bool, t: nat)
    requires Fresh(s) && t in s.threads
    ensures t in SocketGo(s, queued).threads && SocketGo(s, queued).threads[t] == s.threads[t]
  {
  }
}
