/**
 The in-process fan-out of freshly indexed certificates: the broadcaster with its channels, and
 the machine of all interleavings of Subscribe, Publish, unsubscribe and receive around its lock.
 */
module Broadcast {
  import opened Domain

  const BUFFER_SIZE := 32

  /** A send in a select with a default: a full buffer drops the event. */
  function Pushed(buffer: seq<Certificate>, e: Certificate): seq<Certificate> {
    if |buffer| < BUFFER_SIZE then buffer + [e] else buffer
  }

  // ---- The broadcaster, changed in place ----

  class Channel {
    var buffer: seq<Certificate>
    var closed: bool

    constructor ()
      ensures buffer == [] && !closed
    {
      buffer, closed := [], false;
    }

    /** A send on a closed channel panics. */
    method TrySend(e: Certificate)
      requires !closed
      modifies this`buffer
      ensures buffer == Pushed(old(buffer), e)
    {
      if |buffer| < BUFFER_SIZE {
        buffer := buffer + [e];
      }
    }

    /** Closing a closed channel panics. */
    method Close()
      requires !closed
      modifies this`closed
      ensures closed
    {
      closed := true;
    }
  }

  class Broadcaster {
    var subs: set<Channel>

    ghost predicate Valid()
      reads this, subs
    {
      forall ch :: ch in subs ==> !ch.closed && |ch.buffer| <= BUFFER_SIZE
    }

    constructor ()
      ensures Valid() && subs == {}
    {
      subs := {};
    }

    method Subscribe() returns (s: Subscription)
      requires Valid()
      modifies this
      ensures fresh(s) && fresh(s.ch) && s.b == this && s.Valid() && !s.once
      ensures s.ch.buffer == [] && subs == old(subs) + {s.ch} && Valid()
    {
      var ch := new Channel();
      subs := subs + {ch};
      s := new Subscription(this, ch);
    }

    method Publish(e: Certificate)
      requires Valid()
      modifies subs
      ensures subs == old(subs) && Valid()
      ensures forall ch :: ch in subs ==> ch.buffer == Pushed(old(ch.buffer), e)
    {
      var todo := subs;
      while todo != {}
        invariant todo <= subs
        invariant forall ch :: ch in subs ==> !ch.closed
        invariant forall ch :: ch in subs ==>
                    ch.buffer == if ch in todo then old(ch.buffer) else Pushed(old(ch.buffer), e)
      {
        var ch :| ch in todo;
        ch.TrySend(e);
        todo := todo - {ch};
      }
    }
  }

  /** What Subscribe hands out: the channel and the unsubscribe closure with its sync.Once. */
  class Subscription {
    const b: Broadcaster
    const ch: Channel
    var once: bool

    ghost predicate Valid()
      reads this, b, ch
    {
      ch.closed == once && (ch in b.subs <==> !once)
    }

    constructor (b: Broadcaster, ch: Channel)
      requires ch in b.subs && !ch.closed
      ensures this.b == b && this.ch == ch && Valid() && !once
    {
      this.b, this.ch, once := b, ch, false;
    }

    method Unsubscribe()
      requires b.Valid() && Valid()
      modifies this`once, b, ch`closed
      ensures Valid() && once && b.Valid()
      ensures b.subs == old(b.subs) - {ch} && ch.buffer == old(ch.buffer)
      ensures old(once) ==> b.subs == old(b.subs)
    {
      if !once {
        once := true;
        b.subs := b.subs - {ch};
        ch.Close();
      }
    }
  }

  // ---- All interleavings ----

  /** One turn of Publish's loop for one channel, and how many events were waiting in its buffer. */
  datatype Offer = Offer(event: Certificate, waiting: nat)

  /** Where a subscriber stands: Subscribe before taking the lock, then the closure's once. */
  datatype Stage = Made | Live | Deleting | Closing | Closed

  datatype Sub = Sub(
    stage: Stage,
    buffer: seq<Certificate>,
    closed: bool,
    received: seq<Certificate>,
    offers: seq<Offer>,
    start: nat)

  datatype Lock = Free | Publishing(event: Certificate, todo: set<nat>)

  /** published lists the events in the order in which Publish took the lock. */
  datatype System = System(
    chans: map<nat, Sub>,
    subs: set<nat>,
    lock: Lock,
    published: seq<Certificate>,
    panicked: bool)

  datatype Action =
    | Make(id: nat)
    | Register(id: nat)
    | Acquire(event: Certificate)
    | Send(id: nat)
    | Release
    | Unsubscribe(id: nat)
    | Delete(id: nat)
    | Close(id: nat)
    | Receive(id: nat)

  const START := System(map[], {}, Free, [], false)

  predicate Enabled(s: System, a: Action) {
    match a
    case Make(id) => id !in s.chans
    case Register(id) => id in s.chans && s.chans[id].stage == Made && s.lock == Free
    case Acquire(_) => s.lock == Free
    case Send(id) => s.lock.Publishing? && id in s.lock.todo && id in s.chans
    case Release => s.lock.Publishing? && s.lock.todo == {}
    case Unsubscribe(id) => id in s.chans && s.chans[id].stage != Made
    case Delete(id) => id in s.chans && s.chans[id].stage == Deleting && s.lock == Free
    case Close(id) => id in s.chans && s.chans[id].stage == Closing
    case Receive(id) => id in s.chans && s.chans[id].buffer != []
  }

  function Offered(c: Sub, e: Certificate): Sub {
    c.(buffer := Pushed(c.buffer, e), offers := c.offers + [Offer(e, |c.buffer|)])
  }

  function With(s: System, id: nat, c: Sub): System {
    s.(chans := s.chans[id := c])
  }

  function Sent(s: System, id: nat): System
    requires s.lock.Publishing? && id in s.chans
  {
    With(s, id, Offered(s.chans[id], s.lock.event))
    .(lock := s.lock.(todo := s.lock.todo - {id}), panicked := s.panicked || s.chans[id].closed)
  }

  function Shut(s: System, id: nat): System
    requires id in s.chans
  {
    With(s, id, s.chans[id].(stage := Closed, closed := true)).(panicked := s.panicked || s.chans[id].closed)
  }

  function Read(c: Sub): Sub
    requires c.buffer != []
  {
    c.(buffer := c.buffer[1..], received := c.received + [c.buffer[0]])
  }

  /** An action that is not enabled waits: nothing changes. */
  function Next(s: System, a: Action): System {
    if !Enabled(s, a) then s
    else
      match a
      case Make(id) => With(s, id, Sub(Made, [], false, [], [], 0))
      case Register(id) => With(s, id, s.chans[id].(stage := Live, start := |s.published|)).(subs := s.subs + {id})
      case Acquire(e) => s.(lock := Publishing(e, s.subs), published := s.published + [e])
      case Send(id) => Sent(s, id)
      case Release => s.(lock := Free)
      case Unsubscribe(id) => if s.chans[id].stage == Live then With(s, id, s.chans[id].(stage := Deleting)) else s
      case Delete(id) => With(s, id, s.chans[id].(stage := Closing)).(subs := s.subs - {id})
      case Close(id) => Shut(s, id)
      case Receive(id) => With(s, id, Read(s.chans[id]))
  }

  function Exec(s: System, actions: seq<Action>): System {
    if actions == [] then s else Next(Exec(s, actions[..|actions| - 1]), actions[|actions| - 1])
  }

  // ---- What every interleaving keeps ----

  function Events(offers: seq<Offer>): seq<Certificate> {
    seq(|offers|, k requires 0 <= k < |offers| => offers[k].event)
  }

  /** The events that found room. */
  function Accepted(offers: seq<Offer>): seq<Certificate> {
    if offers == [] then []
    else
      var last := offers[|offers| - 1];
      Accepted(offers[..|offers| - 1]) + if last.waiting < BUFFER_SIZE then [last.event] else []
  }

  /** What the subscriber has read and what it can still read. */
  function Stream(c: Sub): seq<Certificate> {
    c.received + c.buffer
  }

  /** How many of the published events Publish has not yet brought to this subscriber. */
  function Behind(s: System, id: nat): nat {
    if s.lock.Publishing? && id in s.lock.todo then 1 else 0
  }

  ghost predicate ChanOk(c: Sub) {
    && |c.buffer| <= BUFFER_SIZE
    && (c.closed <==> c.stage == Closed)
    && Stream(c) == Accepted(c.offers)
    && (c.stage == Made ==> c.offers == [])
    && (forall k :: 0 <= k < |c.offers| ==> c.offers[k].waiting <= k)
  }

  /** A subscriber has been offered a stretch of the published events, up to the present while it is subscribed. */
  ghost predicate WindowOk(s: System, id: nat, c: Sub) {
    && (id in s.subs <==> c.stage == Live || c.stage == Deleting)
    && c.start + |c.offers| <= |s.published|
    && Events(c.offers) == s.published[c.start..c.start + |c.offers|]
    && (id in s.subs ==> c.start + |c.offers| == |s.published| - Behind(s, id))
  }

  ghost predicate SubInv(s: System, id: nat, c: Sub) {
    ChanOk(c) && WindowOk(s, id, c)
  }

  ghost predicate Inv(s: System) {
    && !s.panicked
    && s.subs <= s.chans.Keys
    && (forall id :: id in s.chans ==> SubInv(s, id, s.chans[id]))
    && LockOk(s)
  }

  /** Publish works on subscribers, and on the event published last. */
  ghost predicate LockOk(s: System) {
    s.lock.Publishing? ==>
      s.lock.todo <= s.subs && |s.published| > 0 && s.lock.event == s.published[|s.published| - 1]
  }

  lemma {:induction false} AcceptedLength(offers: seq<Offer>)
    ensures |Accepted(offers)| <= |offers|
  {
    if offers != [] {
      AcceptedLength(offers[..|offers| - 1]);
    }
  }

  lemma {:induction false} WindowStays(s: System, s': System, id: nat, c: Sub)
    requires WindowOk(s, id, c) && s'.published == s.published
    requires (id in s.subs <==> id in s'.subs) && (id in s.subs ==> Behind(s', id) == Behind(s, id))
    ensures WindowOk(s', id, c)
  {
  }

  lemma {:induction false} OfferedAppends(offers: seq<Offer>, o: Offer)
    ensures Events(offers + [o]) == Events(offers) + [o.event]
    ensures Accepted(offers + [o]) == Accepted(offers) + if o.waiting < BUFFER_SIZE then [o.event] else []
  {
    assert (offers + [o])[..|offers|] == offers;
  }

  lemma {:induction false} OfferKeeps(c: Sub, e: Certificate)
    requires ChanOk(c) && c.stage != Made
    ensures ChanOk(Offered(c, e)) && Events(Offered(c, e).offers) == Events(c.offers) + [e]
  {
    hide Accepted, Events;
    AcceptedLength(c.offers);
    OfferedAppends(c.offers, Offer(e, |c.buffer|));
    assert c.received + (c.buffer + [e]) == c.received + c.buffer + [e];
    assert c.received + c.buffer + [] == c.received + c.buffer;
  }

  lemma {:induction false} WindowMoves(s: System, s': System, id: nat, c: Sub, e: Certificate)
    requires WindowOk(s, id, c) && id in s.subs && Behind(s, id) == 1 && e == s.published[|s.published| - 1]
    requires s'.published == s.published && s'.subs == s.subs && Behind(s', id) == 0
    ensures WindowOk(s', id, Offered(c, e))
  {
    assert Events(Offered(c, e).offers) == Events(c.offers) + [e];
    assert s.published[c.start..] == s.published[c.start..c.start + |c.offers|] + [e];
  }

  lemma {:induction false} InvAt(s: System, id: nat)
    requires Inv(s)
    ensures !s.panicked && s.subs <= s.chans.Keys && LockOk(s)
    ensures id in s.chans ==> SubInv(s, id, s.chans[id])
  {
  }

  lemma {:induction false} SendKeeps(s: System, id: nat)
    requires Inv(s) && s.lock.Publishing? && id in s.lock.todo && id in s.chans
    ensures Inv(Sent(s, id))
  {
    InvAt(s, id);
    var c, e, s' := s.chans[id], s.lock.event, Sent(s, id);
    assert SubInv(s, id, c) && c.stage != Made && !c.closed;
    hide ChanOk, WindowOk, Offered, Inv;
    OfferKeeps(c, e);
    WindowMoves(s, s', id, c, e);
    OneSubKeeps(s, s', id);
  }

  lemma {:induction false} AcquireKeeps(s: System, e: Certificate)
    requires Inv(s) && Enabled(s, Acquire(e))
    ensures Inv(Next(s, Acquire(e)))
  {
    hide ChanOk, Events;
    var s' := Next(s, Acquire(e));
    forall i | i in s'.chans ensures SubInv(s', i, s'.chans[i]) {
      var c := s.chans[i];
      assert SubInv(s, i, c);
      assert s'.published[c.start..c.start + |c.offers|] == s.published[c.start..c.start + |c.offers|];
    }
  }

  lemma {:induction false} ReleaseKeeps(s: System)
    requires Inv(s) && Enabled(s, Release)
    ensures Inv(Next(s, Release))
  {
    hide ChanOk, Events;
    forall i | i in s.chans ensures SubInv(Next(s, Release), i, s.chans[i]) {
      assert SubInv(s, i, s.chans[i]);
    }
  }

  lemma {:induction false} ReadKeeps(c: Sub)
    requires ChanOk(c) && c.buffer != []
    ensures ChanOk(Read(c)) && Stream(Read(c)) == Stream(c)
  {
    hide Accepted;
    assert c.received + [c.buffer[0]] + c.buffer[1..] == c.received + c.buffer;
  }

  lemma {:induction false} WindowRead(s: System, id: nat)
    requires id in s.chans && s.chans[id].buffer != [] && WindowOk(s, id, s.chans[id])
    ensures WindowOk(With(s, id, Read(s.chans[id])), id, Read(s.chans[id]))
  {
    hide Events;
  }

  lemma {:induction false} ReceiveKeeps(s: System, id: nat)
    requires Inv(s) && id in s.chans && s.chans[id].buffer != []
    ensures Inv(With(s, id, Read(s.chans[id])))
  {
    InvAt(s, id);
    ReadKeeps(s.chans[id]);
    WindowRead(s, id);
    hide Inv, ChanOk, WindowOk, Read;
    OneSubKeeps(s, With(s, id, Read(s.chans[id])), id);
  }

  lemma {:induction false} NextKeeps(s: System, a: Action)
    requires Inv(s)
    ensures Inv(Next(s, a))
  {
    hide Inv, With, Sent, Shut, Read;
    if Enabled(s, a) {
      match a
      case Acquire(e) => AcquireKeeps(s, e);
      case Send(id) => SendKeeps(s, id);
      case Release => ReleaseKeeps(s);
      case Receive(id) => ReceiveKeeps(s, id);
      case Make(id) => MakeKeeps(s, id);
      case Register(id) => RegisterKeeps(s, id);
      case Delete(id) => DeleteKeeps(s, id);
      case Unsubscribe(id) => if s.chans[id].stage == Live { UnsubscribeKeeps(s, id); }
      case Close(id) => CloseKeeps(s, id);
    }
  }

  lemma {:induction false} MakeKeeps(s: System, id: nat)
    requires Inv(s) && Enabled(s, Make(id))
    ensures Inv(Next(s, Make(id)))
  {
    InvAt(s, id);
    hide Inv;
    assert Events([]) == [];
    hide Events, Accepted;
    OneSubKeeps(s, Next(s, Make(id)), id);
  }

  lemma {:induction false} RegisterKeeps(s: System, id: nat)
    requires Inv(s) && Enabled(s, Register(id))
    ensures Inv(Next(s, Register(id)))
  {
    InvAt(s, id);
    hide Inv;
    assert Events([]) == [];
    hide Events, Accepted;
    assert SubInv(s, id, s.chans[id]);
    OneSubKeeps(s, Next(s, Register(id)), id);
  }

  lemma {:induction false} StageChanges(s: System, s': System, id: nat, c: Sub, c': Sub)
    requires SubInv(s, id, c) && c.stage != Made
    requires c' == c.(stage := c'.stage, closed := c'.stage == Closed) && c'.stage != Made
    requires s'.published == s.published
    requires id in s'.subs <==> c'.stage == Live || c'.stage == Deleting
    requires id in s'.subs ==> id in s.subs && Behind(s', id) == Behind(s, id)
    ensures SubInv(s', id, c')
  {
  }

  lemma {:induction false} UnsubscribeKeeps(s: System, id: nat)
    requires Inv(s) && id in s.chans && s.chans[id].stage == Live
    ensures Inv(With(s, id, s.chans[id].(stage := Deleting)))
  {
    InvAt(s, id);
    hide Inv;
    var s' := With(s, id, s.chans[id].(stage := Deleting));
    assert !s.chans[id].closed;
    hide WindowOk, ChanOk;
    StageChanges(s, s', id, s.chans[id], s'.chans[id]);
    OneSubKeeps(s, s', id);
  }

  lemma {:induction false} CloseKeeps(s: System, id: nat)
    requires Inv(s) && id in s.chans && s.chans[id].stage == Closing
    ensures Inv(Shut(s, id))
  {
    InvAt(s, id);
    hide Inv;
    var s' := Shut(s, id);
    assert !s.chans[id].closed && id !in s.subs;
    assert s'.subs == s.subs && !s'.panicked && LockOk(s') && forall i :: Behind(s', i) == Behind(s, i);
    hide WindowOk, ChanOk, LockOk, Behind;
    StageChanges(s, s', id, s.chans[id], s'.chans[id]);
    OneSubKeeps(s, s', id);
  }

  lemma {:induction false} DeleteKeeps(s: System, id: nat)
    requires Inv(s) && id in s.chans && s.chans[id].stage == Deleting && s.lock == Free
    ensures Inv(With(s, id, s.chans[id].(stage := Closing)).(subs := s.subs - {id}))
  {
    InvAt(s, id);
    hide Inv;
    var s' := With(s, id, s.chans[id].(stage := Closing)).(subs := s.subs - {id});
    assert !s.chans[id].closed;
    hide WindowOk, ChanOk;
    StageChanges(s, s', id, s.chans[id], s'.chans[id]);
    OneSubKeeps(s, s', id);
  }

  /** A step that touches one subscriber only. */
  lemma {:induction false} OneSubKeeps(s: System, s': System, id: nat)
    requires Inv(s) && !s'.panicked && LockOk(s') && s'.published == s.published
    requires forall i :: i in s.subs && i != id ==> Behind(s', i) == Behind(s, i)
    requires id in s'.chans && SubInv(s', id, s'.chans[id])
    requires s'.chans.Keys == s.chans.Keys + {id} && (forall i :: i in s.chans && i != id ==> s'.chans[i] == s.chans[i])
    requires s'.subs <= s'.chans.Keys && forall i :: i != id ==> (i in s'.subs <==> i in s.subs)
    ensures Inv(s')
  {
    hide ChanOk, WindowOk;
    forall i | i in s'.chans && i != id ensures SubInv(s', i, s'.chans[i]) {
      assert SubInv(s, i, s.chans[i]);
      WindowStays(s, s', i, s.chans[i]);
    }
  }

  /** No interleaving sends on a closed channel or closes one twice, and no buffer outgrows its bound. */
  lemma {:induction false} ExecKeeps(s: System, actions: seq<Action>)
    requires Inv(s)
    ensures Inv(Exec(s, actions))
  {
    if actions != [] {
      ExecKeeps(s, actions[..|actions| - 1]);
      NextKeeps(Exec(s, actions[..|actions| - 1]), actions[|actions| - 1]);
    }
  }

  lemma {:induction false} NeverPanics(actions: seq<Action>)
    ensures var s := Exec(START, actions);
            && !s.panicked
            && (forall id :: id in s.chans ==> |s.chans[id].buffer| <= 32)
  {
    ExecKeeps(START, actions);
  }

  // ---- What a subscriber gets ----

  /** b arises from a by leaving some elements out. */
  predicate Subsequence(b: seq<Certificate>, a: seq<Certificate>) {
    || b == []
    || (a != [] && Subsequence(b, a[..|a| - 1]))
    || (a != [] && b[|b| - 1] == a[|a| - 1] && Subsequence(b[..|b| - 1], a[..|a| - 1]))
  }

  lemma {:induction false} SubsequenceGrows(b: seq<Certificate>, a: seq<Certificate>, e: Certificate)
    requires Subsequence(b, a)
    ensures Subsequence(b, a + [e]) && Subsequence(b + [e], a + [e])
  {
    assert (a + [e])[..|a|] == a && (b + [e])[..|b|] == b;
  }

  lemma {:induction false} AcceptedIsSubsequence(offers: seq<Offer>)
    ensures Subsequence(Accepted(offers), Events(offers))
  {
    if offers == [] {
      assert Accepted(offers) == [];
    } else {
      hide Subsequence;
      var n := |offers| - 1;
      AcceptedIsSubsequence(offers[..n]);
      assert Accepted(offers) == Accepted(offers[..n])
             + if offers[n].waiting < BUFFER_SIZE then [offers[n].event] else [];
      assert Accepted(offers[..n]) + [] == Accepted(offers[..n]);
      assert Events(offers) == Events(offers[..n]) + [offers[n].event];
      SubsequenceGrows(Accepted(offers[..n]), Events(offers[..n]), offers[n].event);
    }
  }

  /** An event is missing exactly if a full buffer met it. */
  lemma {:induction false} NothingMissingIff(offers: seq<Offer>)
    ensures Accepted(offers) == Events(offers) <==> forall k :: 0 <= k < |offers| ==> offers[k].waiting < 32
  {
    if offers != [] {
      var n := |offers| - 1;
      NothingMissingIff(offers[..n]);
      AcceptedLength(offers[..n]);
      var a, e := Accepted(offers), Events(offers);
      assert e == Events(offers[..n]) + [offers[n].event];
      assert forall k :: 0 <= k < n ==> offers[..n][k] == offers[k];
      if offers[n].waiting < BUFFER_SIZE {
        assert a == e ==> a[..n] == e[..n];
      }
    }
  }

  /** From Register on, a subscriber keeps its starting point; from Delete on, nothing is offered to it. */
  ghost predicate Remembers(s: System, s': System, id: nat) {
    id in s.chans && s.chans[id].stage != Made ==>
      && id in s'.chans
      && s'.chans[id].stage != Made
      && s'.chans[id].start == s.chans[id].start
      && (id !in s.subs ==> id !in s'.subs && s'.chans[id].offers == s.chans[id].offers)
  }

  lemma {:induction false} ExecRemembers(s: System, actions: seq<Action>, id: nat)
    requires Inv(s)
    ensures Remembers(s, Exec(s, actions), id)
    ensures s.published <= Exec(s, actions).published
  {
    if actions != [] {
      hide Next, Enabled, Inv;
      var n := |actions| - 1;
      ExecRemembers(s, actions[..n], id);
      ExecKeeps(s, actions[..n]);
      NextRemembers(Exec(s, actions[..n]), actions[n], id);
    }
  }

  lemma {:induction false} SentRemembers(s: System, i: nat, id: nat)
    requires Inv(s) && s.lock.Publishing? && i in s.lock.todo && i in s.chans
    ensures Remembers(s, Sent(s, i), id) && Sent(s, i).published == s.published
  {
    InvAt(s, i);
    hide Inv, SubInv;
  }

  lemma {:induction false} NextRemembers(s: System, a: Action, id: nat)
    requires Inv(s)
    ensures Remembers(s, Next(s, a), id)
    ensures s.published <= Next(s, a).published
  {
    InvAt(s, id);
    if a.Send? && Enabled(s, a) {
      SentRemembers(s, a.id, id);
    }
    assert id in s.chans ==> (id in s.subs <==> s.chans[id].stage == Live || s.chans[id].stage == Deleting);
    hide Inv, SubInv, Sent, LockOk;
  }

  /**
   Publish offered a subscriber exactly the events that took the lock between its Register and its
   Delete, each once and in order; it got those that found fewer than 32 events waiting.
   */
  lemma {:induction false} StreamIsTheSubscription(before: seq<Action>, during: seq<Action>, after: seq<Action>,
                                                   id: nat)
    requires Enabled(Exec(START, before), Register(id))
    requires Enabled(Exec(Next(Exec(START, before), Register(id)), during), Delete(id))
    ensures var s0 := Exec(START, before);
            var s1 := Exec(Next(s0, Register(id)), during);
            var s2 := Exec(Next(s1, Delete(id)), after);
            && s0.published <= s1.published
            && id in s2.chans
            && Events(s2.chans[id].offers) == s1.published[|s0.published|..]
            && Stream(s2.chans[id]) == Accepted(s2.chans[id].offers)
  {
    hide Exec, Events;
    var s0 := Exec(START, before);
    var s0' := Next(s0, Register(id));
    var s1 := Exec(s0', during);
    var s1' := Next(s1, Delete(id));
    ExecKeeps(START, before);
    RegisterOpens(s0, id);
    NextKeeps(s0, Register(id));
    ExecRemembers(s0', during, id);
    ExecKeeps(s0', during);
    hide Enabled, Next;
    DeleteCloses(s1, id);
    NextKeeps(s1, Delete(id));
    ExecRemembers(s1', after, id);
    ExecKeeps(s1', after);
    hide WindowOk;
    assert SubInv(Exec(s1', after), id, Exec(s1', after).chans[id]);
  }

  lemma {:induction false} RegisterOpens(s: System, id: nat)
    requires Enabled(s, Register(id))
    ensures var s' := Next(s, Register(id));
            && s'.published == s.published
            && id in s'.chans && s'.chans[id].stage == Live && s'.chans[id].start == |s.published|
  {
  }

  lemma {:induction false} DeleteCloses(s: System, id: nat)
    requires Inv(s) && Enabled(s, Delete(id))
    ensures var s' := Next(s, Delete(id));
            && s'.published == s.published
            && s.chans[id].start <= |s.published|
            && Events(s.chans[id].offers) == s.published[s.chans[id].start..]
            && id in s'.chans && id !in s'.subs && s'.chans[id] == s.chans[id].(stage := Closing)
  {
    assert SubInv(s, id, s.chans[id]);
  }

  /** The first 32 events of a subscription are never dropped, however slow the subscriber is. */
  lemma {:induction false} FirstEventsArrive(actions: seq<Action>, id: nat)
    requires id in Exec(START, actions).chans
    ensures var c := Exec(START, actions).chans[id];
            && Subsequence(Stream(c), Events(c.offers))
            && |Stream(c)| >= Min(|c.offers|, 32)
            && Stream(c)[..Min(|c.offers|, 32)] == Events(c.offers)[..Min(|c.offers|, 32)]
  {
    ExecKeeps(START, actions);
    var c := Exec(START, actions).chans[id];
    AcceptedIsSubsequence(c.offers);
    AcceptedStart(c.offers, Min(|c.offers|, BUFFER_SIZE));
  }

  lemma {:induction false} AcceptedStart(offers: seq<Offer>, n: nat)
    requires n <= |offers| && forall k :: 0 <= k < n ==> offers[k].waiting < BUFFER_SIZE
    ensures |Accepted(offers)| >= n && Accepted(offers)[..n] == Events(offers)[..n]
  {
    if n == |offers| {
      NothingMissingIff(offers);
    } else {
      var m := |offers| - 1;
      AcceptedStart(offers[..m], n);
      assert Events(offers)[..n] == Events(offers[..m])[..n];
      assert Accepted(offers)[..n] == Accepted(offers[..m])[..n];
    }
  }

  // ---- Publish on its own ----

  function Sends(order: seq<nat>): seq<Action> {
    seq(|order|, k requires 0 <= k < |order| => Send(order[k]))
  }

  /** All subscribers at once, as the broadcaster's Publish promises. */
  function Everyone(s: System, e: Certificate, done: set<nat>): map<nat, Sub> {
    map id | id in s.chans :: if id in done then Offered(s.chans[id], e) else s.chans[id]
  }

  lemma {:induction false} ExecStep(s: System, actions: seq<Action>, a: Action)
    ensures Exec(s, actions + [a]) == Next(Exec(s, actions), a)
  {
    assert (actions + [a])[..|actions|] == actions;
  }

  predicate Distinct(order: seq<nat>) {
    forall j, k :: 0 <= j < k < |order| ==> order[j] != order[k]
  }

  function Elements(order: seq<nat>): set<nat> {
    set i | i in order
  }

  /** Map iteration has no order, and none matters: the lock makes Publish one broadcast. */
  lemma {:induction false} PublishIsOneBroadcast(s: System, e: Certificate, order: seq<nat>)
    requires Inv(s) && s.lock == Free
    requires forall i :: i in s.subs <==> i in order
    requires Distinct(order)
    ensures Exec(s, [Acquire(e)] + Sends(order) + [Release])
            == s.(chans := Everyone(s, e, s.subs), published := s.published + [e])
  {
    hide Exec, Everyone, Sends, Inv;
    SendsSoFar(s, e, order);
    ExecStep(s, [Acquire(e)] + Sends(order), Release);
    assert Elements(order) == s.subs && s.subs - s.subs == {};
  }

  lemma {:induction false} SendsSoFar(s: System, e: Certificate, order: seq<nat>)
    requires Inv(s) && s.lock == Free
    requires Elements(order) <= s.subs
    requires Distinct(order)
    ensures var done := Elements(order);
            Exec(s, [Acquire(e)] + Sends(order))
            == s.(chans := Everyone(s, e, done), published := s.published + [e], lock := Publishing(e, s.subs - done))
  {
    if order == [] {
      NoSends(s, e);
    } else {
      var n := |order| - 1;
      var last := order[n];
      OneLess(order);
      assert !s.panicked && !s.chans[last].closed by { assert SubInv(s, last, s.chans[last]); }
      assert Sends(order) == Sends(order[..n]) + [Send(last)];
      hide *;
      SendsSoFar(s, e, order[..n]);
      assert [Acquire(e)] + Sends(order) == [Acquire(e)] + Sends(order[..n]) + [Send(last)];
      ExecStep(s, [Acquire(e)] + Sends(order[..n]), Send(last));
      OneMoreSend(s, e, Elements(order[..n]), last);
    }
  }

  lemma {:induction false} NoSends(s: System, e: Certificate)
    requires s.lock == Free
    ensures Exec(s, [Acquire(e)] + Sends([]))
            == s.(chans := Everyone(s, e, Elements([])), published := s.published + [e],
                  lock := Publishing(e, s.subs - Elements([])))
  {
    hide Exec, Everyone;
    assert [Acquire(e)] + Sends([]) == [] + [Acquire(e)];
    ExecStep(s, [], Acquire(e));
    NobodyYet(s, e);
    assert s.subs - Elements([]) == s.subs;
  }

  lemma {:induction false} NobodyYet(s: System, e: Certificate)
    ensures Everyone(s, e, Elements([])) == s.chans && Exec(s, []) == s
  {
  }

  lemma {:induction false} OneLess(order: seq<nat>)
    requires order != [] && Distinct(order)
    ensures Distinct(order[..|order| - 1])
    ensures Elements(order) == Elements(order[..|order| - 1]) + {order[|order| - 1]}
    ensures order[|order| - 1] !in Elements(order[..|order| - 1])
  {
    assert order == order[..|order| - 1] + [order[|order| - 1]];
  }

  lemma {:induction false} OneMoreSend(s: System, e: Certificate, done: set<nat>, id: nat)
    requires id in s.subs && id in s.chans && id !in done && !s.panicked && !s.chans[id].closed
    ensures var before := s.(chans := Everyone(s, e, done), published := s.published + [e],
                             lock := Publishing(e, s.subs - done));
            Next(before, Send(id))
            == before.(chans := Everyone(s, e, done + {id}), lock := Publishing(e, s.subs - (done + {id})))
  {
    assert s.subs - (done + {id}) == s.subs - done - {id};
    assert Everyone(s, e, done + {id}) == Everyone(s, e, done)[id := Offered(s.chans[id], e)];
  }
}
