/**
 * The game-event pump: three queues of timed event records (primary,
 * secondary or delayed, and demand), the drains that run them once per game
 * cycle, and the dispatcher that checks the addressed soldier before calling
 * a gameplay handler.
 *
 * The gameplay handlers are outside the model: a dispatch is recorded as a
 * `HandlerCall` appended to the ghost `trace` of the pump.
 */
module EventPump {
  import opened Wrappers

  type uint16 = x: int | 0 <= x < 0x1_0000
  type uint32 = x: int | 0 <= x < 0x1_0000_0000

  /** The delay value that sends an event to the demand queue instead of the primary one. */
  const DEMAND_EVENT_DELAY: uint16 := 0xFFFF

  // ---------------------------------------------------------------------------
  // Event payloads, soldiers and handler calls
  // ---------------------------------------------------------------------------

  /** The payload of a queued event; one variant per event kind. */
  datatype GameEvent =
    | GetNewPath(soldierId: nat, uniqueId: nat, destGridNo: int, movementAnim: int)
    | SetDesiredDirection(soldierId: nat, uniqueId: nat, desiredDirection: int)
    | BeginFireWeapon(soldierId: nat, uniqueId: nat, targetGridNo: int, targetLevel: int, targetCubeLevel: int)
    | FireWeapon(soldierId: nat, uniqueId: nat, targetGridNo: int, targetLevel: int, targetCubeLevel: int)
    | WeaponHit(soldierId: nat, weaponIndex: int, damage: int, breathLoss: int, direction: int,
                xPos: int, yPos: int, zPos: int, range: int, attackerId: nat, special: int, location: int)
    | Noise(noiseMaker: nat, gridNo: int, level: int, volume: int, noiseType: int)

  /** The part of a soldier slot the dispatcher reads: whether it is in use, and its generation token. */
  datatype Soldier = Soldier(active: bool, uniqueSoldierId: nat)

  /** One call into a gameplay handler, with the arguments it receives. */
  datatype HandlerCall =
    | NewSoldierPath(soldier: nat, destGridNo: int, movementAnim: int)
    | SoldierDesiredDirection(soldier: nat, direction: int)
    | FireSoldierWeapon(soldier: nat, targetGridNo: int, targetLevel: int, targetCubeLevel: int)
    | FireWeaponAt(soldier: nat, targetGridNo: int, targetLevel: int, targetCubeLevel: int)
    | WeaponHitOn(victim: nat, weaponIndex: int, damage: int, breathLoss: int, direction: int,
                  xPos: int, yPos: int, zPos: int, range: int, attacker: nat, special: int, location: int)
    | OurNoise(noiseMaker: nat, gridNo: int, level: int, volume: int, noiseType: int)

  /** The handler call that an event of each kind leads to once its target has been accepted. */
  function HandlerFor(ev: GameEvent): HandlerCall
  {
    match ev
    case GetNewPath(id, _, dest, anim) => NewSoldierPath(id, dest, anim)
    case SetDesiredDirection(id, _, dir) => SoldierDesiredDirection(id, dir)
    case BeginFireWeapon(id, _, grid, level, cube) => FireSoldierWeapon(id, grid, level, cube)
    case FireWeapon(id, _, grid, level, cube) => FireWeaponAt(id, grid, level, cube)
    case WeaponHit(id, weapon, dmg, breath, dir, x, y, z, rng, attacker, special, loc) =>
      WeaponHitOn(id, weapon, dmg, breath, dir, x, y, z, rng, attacker, special, loc)
    case Noise(maker, grid, level, volume, kind) => OurNoise(maker, grid, level, volume, kind)
  }

  /** The event kinds whose target soldier is looked up and checked before the handler runs. */
  predicate ChecksTarget(ev: GameEvent)
  {
    ev.GetNewPath? || ev.SetDesiredDirection? || ev.BeginFireWeapon? || ev.FireWeapon?
  }

  /**
   * Reference statement of when a handler runs: always for the unchecked kinds; for the
   * checked ones only when the soldier index is below the roster size (TOTAL_SOLDIERS),
   * the slot is active and its generation token equals the one carried by the event.
   */
  predicate Admitted(roster: seq<Soldier>, ev: GameEvent)
  {
    !ChecksTarget(ev) ||
    (ev.soldierId < |roster| && roster[ev.soldierId].active &&
     roster[ev.soldierId].uniqueSoldierId == ev.uniqueId)
  }

  /** Looks up a soldier slot; absent when the index is out of range or the slot is inactive. */
  function GetSoldier(roster: seq<Soldier>, index: nat): (r: Option<Soldier>)
    ensures r.Some? <==> index < |roster| && roster[index].active
    ensures r.Some? ==> r.value == roster[index]
  {
    if index >= |roster| then None
    else if roster[index].active then Some(roster[index])
    else None
  }

  /**
   * The dispatcher: a closed match over the event kinds. The four soldier-addressed
   * kinds drop the event when the lookup fails or the generation token differs.
   */
  function Dispatch(roster: seq<Soldier>, ev: GameEvent): (calls: seq<HandlerCall>)
    ensures calls == if Admitted(roster, ev) then [HandlerFor(ev)] else []
  {
    match ev
    case GetNewPath(id, token, dest, anim) =>
      var s := GetSoldier(roster, id);
      if s.None? then []
      else if s.value.uniqueSoldierId != token then []
      else [NewSoldierPath(id, dest, anim)]
    case SetDesiredDirection(id, token, dir) =>
      var s := GetSoldier(roster, id);
      if s.None? then []
      else if s.value.uniqueSoldierId != token then []
      else [SoldierDesiredDirection(id, dir)]
    case BeginFireWeapon(id, token, grid, level, cube) =>
      var s := GetSoldier(roster, id);
      if s.None? then []
      else if s.value.uniqueSoldierId != token then []
      else [FireSoldierWeapon(id, grid, level, cube)]
    case FireWeapon(id, token, grid, level, cube) =>
      var s := GetSoldier(roster, id);
      if s.None? then []
      else if s.value.uniqueSoldierId != token then []
      else [FireWeaponAt(id, grid, level, cube)]
    case WeaponHit(id, weapon, dmg, breath, dir, x, y, z, rng, attacker, special, loc) =>
      [WeaponHitOn(id, weapon, dmg, breath, dir, x, y, z, rng, attacker, special, loc)]
    case Noise(maker, grid, level, volume, kind) =>
      [OurNoise(maker, grid, level, volume, kind)]
  }

  /** A soldier-addressed event whose target is missing, inactive or recycled calls no handler. */
  lemma StaleTargetDropped(roster: seq<Soldier>, ev: GameEvent)
    requires ChecksTarget(ev)
    ensures Dispatch(roster, ev) == [] <==>
              (ev.soldierId >= |roster| || !roster[ev.soldierId].active ||
               roster[ev.soldierId].uniqueSoldierId != ev.uniqueId)
  {
  }

  // ---------------------------------------------------------------------------
  // Event records and the clock
  // ---------------------------------------------------------------------------

  /** A queued record: when it was stamped, its delay, whether it has run, and its payload. */
  datatype Event = Event(timeStamp: uint32, delay: uint16, expired: bool, gameEvent: GameEvent)

  datatype QueueId = Primary | Secondary | Demand

  /** Ticks since `since`, computed as the unsigned 32-bit difference of clock readings. */
  function Elapsed(now: uint32, since: uint32): (d: uint32)
    ensures since <= now ==> d == now - since
    ensures now < since ==> d == now - since + 0x1_0000_0000
  {
    (now - since) % 0x1_0000_0000
  }

  /** A delayed record is due once strictly more than its delay has elapsed since it was stamped. */
  predicate Due(e: Event, now: uint32)
  {
    Elapsed(now, e.timeStamp) > e.delay
  }

  predicate NoneExpired(s: seq<Event>)
  {
    forall i :: 0 <= i < |s| ==> !s[i].expired
  }

  predicate AllZeroDelay(s: seq<Event>)
  {
    forall i :: 0 <= i < |s| ==> s[i].delay == 0
  }

  // ---------------------------------------------------------------------------
  // What a drain does, stated as functions of the queue contents
  // ---------------------------------------------------------------------------

  /** The records a drain moves to the secondary queue: the delayed ones, in order, stamped `now`. */
  function Promoted(s: seq<Event>, now: uint32): (r: seq<Event>)
    ensures |r| <= |s|
    ensures forall i :: 0 <= i < |r| ==> r[i].timeStamp == now && r[i].delay > 0 && !r[i].expired
  {
    if s == [] then []
    else (if s[0].delay > 0 then [Event(now, s[0].delay, false, s[0].gameEvent)] else [])
         + Promoted(s[1..], now)
  }

  /** The handler calls of a drain of the primary or demand queue: the zero-delay records, in order. */
  function Immediate(roster: seq<Soldier>, s: seq<Event>): seq<HandlerCall>
  {
    if s == [] then []
    else (if s[0].delay > 0 then [] else Dispatch(roster, s[0].gameEvent)) + Immediate(roster, s[1..])
  }

  /** The handler calls of dispatching every record of `s`, in order. */
  function DispatchAll(roster: seq<Soldier>, s: seq<Event>): seq<HandlerCall>
  {
    if s == [] then [] else Dispatch(roster, s[0].gameEvent) + DispatchAll(roster, s[1..])
  }

  /** The handler calls of the secondary scan: the due records, in order. */
  function DueCalls(roster: seq<Soldier>, s: seq<Event>, now: uint32): seq<HandlerCall>
  {
    if s == [] then []
    else (if Due(s[0], now) then Dispatch(roster, s[0].gameEvent) else []) + DueCalls(roster, s[1..], now)
  }

  /** One record after the secondary scan: marked expired when due, otherwise untouched. */
  function Expire(e: Event, now: uint32): Event
  {
    if Due(e, now) then e.(expired := true) else e
  }

  /** The secondary queue after the scan, which marks in place and removes nothing. */
  function ExpireDue(s: seq<Event>, now: uint32): (r: seq<Event>)
    ensures |r| == |s|
    ensures forall i :: 0 <= i < |s| ==> r[i] == Expire(s[i], now)
  {
    if s == [] then [] else [Expire(s[0], now)] + ExpireDue(s[1..], now)
  }

  /** The records that are not marked expired, in their original order. */
  function Live(s: seq<Event>): seq<Event>
  {
    if s == [] then [] else (if s[0].expired then [] else [s[0]]) + Live(s[1..])
  }

  /** The records that are not yet due, in their original order. */
  function Waiting(s: seq<Event>, now: uint32): seq<Event>
  {
    if s == [] then [] else (if Due(s[0], now) then [] else [s[0]]) + Waiting(s[1..], now)
  }

  // ---------------------------------------------------------------------------
  // Lemmas about the drain functions
  // ---------------------------------------------------------------------------

  lemma {:induction false} PromotedAppend(a: seq<Event>, b: seq<Event>, now: uint32)
    ensures Promoted(a + b, now) == Promoted(a, now) + Promoted(b, now)
  {
    if a != [] {
      assert (a + b)[1..] == a[1..] + b;
      PromotedAppend(a[1..], b, now);
    } else {
      assert a + b == b;
    }
  }

  lemma {:induction false} ImmediateAppend(roster: seq<Soldier>, a: seq<Event>, b: seq<Event>)
    ensures Immediate(roster, a + b) == Immediate(roster, a) + Immediate(roster, b)
  {
    if a != [] {
      assert (a + b)[1..] == a[1..] + b;
      ImmediateAppend(roster, a[1..], b);
    } else {
      assert a + b == b;
    }
  }

  lemma {:induction false} DueCallsAppend(roster: seq<Soldier>, a: seq<Event>, b: seq<Event>, now: uint32)
    ensures DueCalls(roster, a + b, now) == DueCalls(roster, a, now) + DueCalls(roster, b, now)
  {
    if a != [] {
      assert (a + b)[1..] == a[1..] + b;
      DueCallsAppend(roster, a[1..], b, now);
    } else {
      assert a + b == b;
    }
  }

  lemma {:induction false} LiveAppend(a: seq<Event>, b: seq<Event>)
    ensures Live(a + b) == Live(a) + Live(b)
  {
    if a != [] {
      assert (a + b)[1..] == a[1..] + b;
      LiveAppend(a[1..], b);
    } else {
      assert a + b == b;
    }
  }

  lemma {:induction false} WaitingAppend(a: seq<Event>, b: seq<Event>, now: uint32)
    ensures Waiting(a + b, now) == Waiting(a, now) + Waiting(b, now)
  {
    if a != [] {
      assert (a + b)[1..] == a[1..] + b;
      WaitingAppend(a[1..], b, now);
    } else {
      assert a + b == b;
    }
  }

  /** One step of a head drain: what taking record `k` adds to the promoted records and to the calls. */
  lemma DrainStep(roster: seq<Soldier>, s: seq<Event>, k: nat, now: uint32)
    requires k < |s|
    ensures Promoted(s[..k + 1], now) ==
              Promoted(s[..k], now) + (if s[k].delay > 0 then [Event(now, s[k].delay, false, s[k].gameEvent)] else [])
    ensures Immediate(roster, s[..k + 1]) ==
              Immediate(roster, s[..k]) + (if s[k].delay > 0 then [] else Dispatch(roster, s[k].gameEvent))
  {
    assert s[..k + 1] == s[..k] + [s[k]];
    PromotedAppend(s[..k], [s[k]], now);
    ImmediateAppend(roster, s[..k], [s[k]]);
  }

  /** Deleting an expired record does not change the live records. */
  lemma LiveRemove(s: seq<Event>, i: nat)
    requires i < |s| && s[i].expired
    ensures Live(s[..i] + s[i + 1..]) == Live(s)
  {
    assert s == s[..i] + ([s[i]] + s[i + 1..]);
    LiveAppend(s[..i], [s[i]] + s[i + 1..]);
    LiveAppend([s[i]], s[i + 1..]);
    LiveAppend(s[..i], s[i + 1..]);
    assert Live([s[i]]) == [];
  }

  /** A queue holding no expired record is its own live part. */
  lemma {:induction false} LiveOfNoneExpired(s: seq<Event>)
    requires NoneExpired(s)
    ensures Live(s) == s
  {
    if s != [] {
      LiveOfNoneExpired(s[1..]);
      assert s == [s[0]] + s[1..];
    }
  }

  /** After the scan and the removal, what remains of an unexpired queue is exactly its not-due records. */
  lemma {:induction false} LiveAfterExpire(s: seq<Event>, now: uint32)
    requires NoneExpired(s)
    ensures Live(ExpireDue(s, now)) == Waiting(s, now)
  {
    if s != [] {
      LiveAfterExpire(s[1..], now);
      var r := ExpireDue(s, now);
      assert r == [Expire(s[0], now)] + ExpireDue(s[1..], now);
      assert r[1..] == ExpireDue(s[1..], now);
    }
  }

  /**
   * A record is promoted exactly when a delayed record of the drained queue carries its delay
   * and payload; it is re-stamped with `now` and not expired.
   */
  lemma {:induction false} PromotedMembers(s: seq<Event>, now: uint32)
    ensures forall e :: e in Promoted(s, now) <==>
              exists x :: x in s && x.delay > 0 && e == Event(now, x.delay, false, x.gameEvent)
  {
    if s != [] {
      PromotedMembers(s[1..], now);
      assert s == [s[0]] + s[1..];
    }
  }

  /** A queue of delayed records is promoted whole: record `i` keeps its place, its delay and its payload. */
  lemma {:induction false} PromotedOfDelayed(s: seq<Event>, now: uint32)
    requires forall i :: 0 <= i < |s| ==> s[i].delay > 0
    ensures |Promoted(s, now)| == |s|
    ensures forall i :: 0 <= i < |s| ==> Promoted(s, now)[i] == Event(now, s[i].delay, false, s[i].gameEvent)
  {
    if s != [] {
      PromotedOfDelayed(s[1..], now);
      var rest := Promoted(s[1..], now);
      assert Promoted(s, now) == [Event(now, s[0].delay, false, s[0].gameEvent)] + rest;
      forall i | 1 <= i < |s|
        ensures Promoted(s, now)[i] == Event(now, s[i].delay, false, s[i].gameEvent)
      {
        assert Promoted(s, now)[i] == rest[i - 1];
      }
    }
  }

  /** A record stays in the secondary queue exactly when it was there and is not due. */
  lemma {:induction false} WaitingMembers(s: seq<Event>, now: uint32)
    ensures forall e :: e in Waiting(s, now) <==> e in s && !Due(e, now)
  {
    if s != [] {
      WaitingMembers(s[1..], now);
      assert s == [s[0]] + s[1..];
    }
  }

  /** The records kept are no more than the queue held, none of them is due, and none is expired if none was. */
  lemma {:induction false} WaitingBounds(s: seq<Event>, now: uint32)
    ensures |Waiting(s, now)| <= |s|
    ensures forall i :: 0 <= i < |Waiting(s, now)| ==> !Due(Waiting(s, now)[i], now)
    ensures NoneExpired(s) ==> NoneExpired(Waiting(s, now))
  {
    if s != [] {
      WaitingBounds(s[1..], now);
    }
  }

  /** When no record is due, the scan keeps the whole queue and calls nothing. */
  lemma {:induction false} NothingDue(roster: seq<Soldier>, s: seq<Event>, now: uint32)
    requires forall i :: 0 <= i < |s| ==> !Due(s[i], now)
    ensures Waiting(s, now) == s
    ensures DueCalls(roster, s, now) == []
  {
    if s != [] {
      NothingDue(roster, s[1..], now);
      assert s == [s[0]] + s[1..];
    }
  }

  /** A record promoted at `now` is not due at `now`: delay is measured from promotion. */
  lemma PromotedNotDue(roster: seq<Soldier>, s: seq<Event>, now: uint32)
    ensures Waiting(Promoted(s, now), now) == Promoted(s, now)
    ensures DueCalls(roster, Promoted(s, now), now) == []
  {
    var p := Promoted(s, now);
    forall i | 0 <= i < |p|
      ensures !Due(p[i], now)
    {
      assert Elapsed(now, p[i].timeStamp) == 0;
    }
    NothingDue(roster, p, now);
  }

  /** A queue of zero-delay records is fully dispatched in order and nothing is promoted. */
  lemma {:induction false} ZeroDelayAllImmediate(roster: seq<Soldier>, s: seq<Event>, now: uint32)
    requires AllZeroDelay(s)
    ensures Promoted(s, now) == []
    ensures Immediate(roster, s) == DispatchAll(roster, s)
  {
    if s != [] {
      ZeroDelayAllImmediate(roster, s[1..], now);
    }
  }

  /** Every admitted record is dispatched exactly once, in FIFO order. */
  lemma {:induction false} DispatchAllInOrder(roster: seq<Soldier>, s: seq<Event>)
    requires forall i :: 0 <= i < |s| ==> Admitted(roster, s[i].gameEvent)
    ensures |DispatchAll(roster, s)| == |s|
    ensures forall i :: 0 <= i < |s| ==> DispatchAll(roster, s)[i] == HandlerFor(s[i].gameEvent)
  {
    if s != [] {
      DispatchAllInOrder(roster, s[1..]);
      var rest := DispatchAll(roster, s[1..]);
      assert DispatchAll(roster, s) == [HandlerFor(s[0].gameEvent)] + rest;
      forall i | 1 <= i < |s|
        ensures DispatchAll(roster, s)[i] == HandlerFor(s[i].gameEvent)
      {
        assert DispatchAll(roster, s)[i] == rest[i - 1];
        assert s[1..][i - 1] == s[i];
      }
    }
  }

  // ---------------------------------------------------------------------------
  // The pump: three queues changed in place
  // ---------------------------------------------------------------------------

  class Pump {
    var primary: seq<Event>
    var secondary: seq<Event>
    var demand: seq<Event>
    /** Every gameplay handler call made so far, in order. */
    ghost var trace: seq<HandlerCall>

    /**
     * Between drains no record of the secondary queue is marked expired, and every demand
     * record carries delay 0 (they are only added that way).
     */
    ghost predicate Valid()
      reads this
    {
      NoneExpired(secondary) && AllZeroDelay(demand)
    }

    /** The three queues start empty. */
    constructor ()
      ensures primary == [] && secondary == [] && demand == []
      ensures trace == []
      ensures Valid()
    {
      primary, secondary, demand := [], [], [];
      trace := [];
    }

    /** The queue selected by an identifier. */
    function Queue(q: QueueId): seq<Event>
      reads this
    {
      match q
      case Primary => primary
      case Secondary => secondary
      case Demand => demand
    }

    method SetQueue(q: QueueId, s: seq<Event>)
      modifies this
      ensures Queue(q) == s
      ensures q != Primary ==> primary == old(primary)
      ensures q != Secondary ==> secondary == old(secondary)
      ensures q != Demand ==> demand == old(demand)
      ensures trace == old(trace)
    {
      match q
      case Primary => primary := s;
      case Secondary => secondary := s;
      case Demand => demand := s;
    }

    /** Appends one record, stamped with the clock and not expired, at the tail of queue `q`. */
    method AddEvent(gameEvent: GameEvent, delay: uint16, q: QueueId, now: uint32)
      modifies this
      ensures Queue(q) == old(Queue(q)) + [Event(now, delay, false, gameEvent)]
      ensures q != Primary ==> primary == old(primary)
      ensures q != Secondary ==> secondary == old(secondary)
      ensures q != Demand ==> demand == old(demand)
      ensures trace == old(trace)
      ensures old(Valid()) && (q == Demand ==> delay == 0) ==> Valid()
    {
      SetQueue(q, Queue(q) + [Event(now, delay, false, gameEvent)]);
    }

    /**
     * Takes the record at `index` out of queue `q`, keeping the order of the others;
     * an index past the end yields no record and leaves the queue as it was.
     */
    method RemoveEvent(index: nat, q: QueueId) returns (r: Option<Event>)
      modifies this
      ensures index < |old(Queue(q))| ==>
                r == Some(old(Queue(q))[index]) &&
                Queue(q) == old(Queue(q))[..index] + old(Queue(q))[index + 1..]
      ensures |old(Queue(q))| <= index ==> r == None && Queue(q) == old(Queue(q))
      ensures q != Primary ==> primary == old(primary)
      ensures q != Secondary ==> secondary == old(secondary)
      ensures q != Demand ==> demand == old(demand)
      ensures trace == old(trace)
      ensures old(Valid()) ==> Valid()
    {
      var s := Queue(q);
      if index < |s| {
        r := Some(s[index]);
        SetQueue(q, s[..index] + s[index + 1..]);
        assert forall i :: 0 <= i < |Queue(q)| ==> Queue(q)[i] in s;
      } else {
        r := None;
      }
    }

    /** Reads the record at `index` of queue `q` without removing it. */
    method PeekEvent(index: nat, q: QueueId) returns (e: Event)
      requires index < |Queue(q)|
      ensures e == Queue(q)[index]
      ensures e in Queue(q)
    {
      e := Queue(q)[index];
    }

    /** Routes an event: the demand sentinel goes to the demand queue with delay 0, anything else to the primary queue. */
    method AddGameEvent(gameEvent: GameEvent, delay: uint16, now: uint32)
      modifies this
      ensures delay == DEMAND_EVENT_DELAY ==>
                demand == old(demand) + [Event(now, 0, false, gameEvent)] && primary == old(primary)
      ensures delay != DEMAND_EVENT_DELAY ==>
                primary == old(primary) + [Event(now, delay, false, gameEvent)] && demand == old(demand)
      ensures secondary == old(secondary) && trace == old(trace)
      ensures old(Valid()) ==> Valid()
    {
      if delay == DEMAND_EVENT_DELAY {
        AddEvent(gameEvent, 0, Demand, now);
      } else {
        AddEvent(gameEvent, delay, Primary, now);
      }
    }

    /** Runs the dispatcher on one record; the handler call, if any, is appended to the trace. */
    method ExecuteGameEvent(e: Event, roster: seq<Soldier>)
      modifies this`trace
      ensures trace == old(trace) + Dispatch(roster, e.gameEvent)
    {
      trace := trace + Dispatch(roster, e.gameEvent);
    }

    /**
     * One iteration of a head drain: removes the head record of `q`; a delayed record is
     * appended to the secondary queue re-stamped with the clock, a zero-delay one is run.
     */
    method TakeHead(q: QueueId, now: uint32, roster: seq<Soldier>) returns (ghost e: Event)
      requires q != Secondary && |Queue(q)| > 0
      modifies this
      ensures e == old(Queue(q))[0] && Queue(q) == old(Queue(q))[1..]
      ensures q != Primary ==> primary == old(primary)
      ensures q != Demand ==> demand == old(demand)
      ensures secondary == old(secondary) + (if e.delay > 0 then [Event(now, e.delay, false, e.gameEvent)] else [])
      ensures trace == old(trace) + (if e.delay > 0 then [] else Dispatch(roster, e.gameEvent))
    {
      var r := RemoveEvent(0, q);
      var head := r.value;
      if head.delay > 0 {
        AddEvent(head.gameEvent, head.delay, Secondary, now);
      } else {
        ExecuteGameEvent(head, roster);
      }
      e := head;
    }

    /**
     * The head-draining loop shared by the primary and demand drains: takes records from
     * the head of `q` until it is empty, running zero-delay records and moving delayed
     * ones, re-stamped with the clock, to the tail of the secondary queue.
     */
    method DrainFromHead(q: QueueId, now: uint32, roster: seq<Soldier>)
      requires q != Secondary
      modifies this
      ensures Queue(q) == []
      ensures q != Primary ==> primary == old(primary)
      ensures q != Demand ==> demand == old(demand)
      ensures secondary == old(secondary) + Promoted(old(Queue(q)), now)
      ensures trace == old(trace) + Immediate(roster, old(Queue(q)))
    {
      ghost var q0, s0, t0 := Queue(q), secondary, trace;
      ghost var k := 0;
      while |Queue(q)| > 0
        invariant 0 <= k <= |q0| && Queue(q) == q0[k..]
        invariant secondary == s0 + Promoted(q0[..k], now)
        invariant trace == t0 + Immediate(roster, q0[..k])
        invariant q != Primary ==> primary == old(primary)
        invariant q != Demand ==> demand == old(demand)
        decreases |Queue(q)|
      {
        ghost var e := TakeHead(q, now, roster);
        DrainStep(roster, q0, k, now);
        k := k + 1;
      }
      assert q0[..k] == q0;
    }

    /** The secondary scan: runs every due record once and marks it expired in place. */
    method ExpireDueEvents(now: uint32, roster: seq<Soldier>)
      modifies this
      ensures secondary == ExpireDue(old(secondary), now)
      ensures trace == old(trace) + DueCalls(roster, old(secondary), now)
      ensures primary == old(primary) && demand == old(demand)
    {
      ghost var s1, t1 := secondary, trace;
      var size := |secondary|;
      var cnt := 0;
      while cnt < size
        invariant 0 <= cnt <= size == |secondary| == |s1|
        invariant forall i :: 0 <= i < cnt ==> secondary[i] == Expire(s1[i], now)
        invariant forall i :: cnt <= i < size ==> secondary[i] == s1[i]
        invariant trace == t1 + DueCalls(roster, s1[..cnt], now)
        invariant primary == old(primary) && demand == old(demand)
      {
        var e := PeekEvent(cnt, Secondary);
        assert s1[..cnt + 1] == s1[..cnt] + [e];
        DueCallsAppend(roster, s1[..cnt], [e], now);
        if Elapsed(now, e.timeStamp) > e.delay {
          ExecuteGameEvent(e, roster);
          secondary := secondary[cnt := e.(expired := true)];
        }
        cnt := cnt + 1;
      }
      assert s1[..cnt] == s1;
    }

    /**
     * The removal loop: repeatedly removes the first expired record of the secondary queue,
     * restarting from the front, until a full scan finds none.
     */
    method RemoveExpiredEvents()
      modifies this
      ensures secondary == Live(old(secondary))
      ensures NoneExpired(secondary)
      ensures primary == old(primary) && demand == old(demand) && trace == old(trace)
    {
      var done := false;
      while !done
        invariant Live(secondary) == Live(old(secondary))
        invariant done ==> NoneExpired(secondary)
        invariant primary == old(primary) && demand == old(demand) && trace == old(trace)
        decreases |secondary| + (if done then 0 else 1)
      {
        var size := |secondary|;
        var cnt := 0;
        while cnt < size
          invariant 0 <= cnt <= size == |secondary|
          invariant forall i :: 0 <= i < cnt ==> !secondary[i].expired
          invariant Live(secondary) == Live(old(secondary))
          invariant primary == old(primary) && demand == old(demand) && trace == old(trace)
        {
          var e := PeekEvent(cnt, Secondary);
          if e.expired {
            LiveRemove(secondary, cnt);
            var r := RemoveEvent(cnt, Secondary);
            break;
          }
          cnt := cnt + 1;
        }
        done := cnt == size;
      }
      LiveOfNoneExpired(secondary);
    }

    /**
     * One game cycle: drains the primary queue (running zero-delay records, promoting
     * delayed ones), then runs every due record of the secondary queue and removes every
     * expired one. When the class invariant held, the records promoted in this call are
     * not due yet and stay queued behind the secondary records that are not due.
     */
    method DequeAllGameEvents(now: uint32, roster: seq<Soldier>) returns (ok: bool)
      modifies this
      ensures ok
      ensures primary == [] && demand == old(demand)
      ensures secondary == Live(ExpireDue(old(secondary) + Promoted(old(primary), now), now))
      ensures NoneExpired(secondary)
      ensures trace == old(trace) + Immediate(roster, old(primary)) + DueCalls(roster, old(secondary), now)
      ensures old(Valid()) ==> Valid()
      ensures old(Valid()) ==> secondary == Waiting(old(secondary), now) + Promoted(old(primary), now)
    {
      ghost var p0, s0 := primary, secondary;
      DrainFromHead(Primary, now, roster);
      ghost var s1 := secondary;
      ExpireDueEvents(now, roster);
      RemoveExpiredEvents();
      DueCallsAppend(roster, s0, Promoted(p0, now), now);
      PromotedNotDue(roster, p0, now);
      if NoneExpired(s0) {
        assert NoneExpired(s1);
        LiveAfterExpire(s1, now);
        WaitingAppend(s0, Promoted(p0, now), now);
      }
      ok := true;
    }

    /**
     * Drains only the demand queue; the primary queue is not touched. Under the class
     * invariant every demand record has delay 0, so all of them run and none is promoted.
     */
    method DequeueAllDemandGameEvents(now: uint32, roster: seq<Soldier>) returns (ok: bool)
      modifies this
      ensures ok
      ensures demand == [] && primary == old(primary)
      ensures secondary == old(secondary) + Promoted(old(demand), now)
      ensures trace == old(trace) + Immediate(roster, old(demand))
      ensures old(Valid()) ==> Valid()
      ensures old(Valid()) ==> secondary == old(secondary)
      ensures old(Valid()) ==> trace == old(trace) + DispatchAll(roster, old(demand))
    {
      ghost var d0 := demand;
      DrainFromHead(Demand, now, roster);
      if AllZeroDelay(d0) {
        ZeroDelayAllImmediate(roster, d0, now);
      }
      ok := true;
    }

    /** Discards every record of the primary queue without running any. */
    method ClearEventQueue() returns (ok: bool)
      modifies this
      ensures ok
      ensures primary == []
      ensures secondary == old(secondary) && demand == old(demand)
      ensures trace == old(trace)
    {
      while |primary| > 0
        invariant secondary == old(secondary) && demand == old(demand)
        invariant trace == old(trace)
        decreases |primary|
      {
        var r := RemoveEvent(0, Primary);
      }
      ok := true;
    }
  }

  /** A client of the pump: a path request delayed by 5 ticks at tick 100 runs at tick 106, once. */
  method DelayedPathScenario(roster: seq<Soldier>)
    requires 3 < |roster| && roster[3] == Soldier(true, 7)
  {
    var pump := new Pump();
    var ev := GetNewPath(3, 7, 1234, 0);
    pump.AddGameEvent(ev, 5, 100);
    var ok := pump.DequeAllGameEvents(100, roster);
    assert pump.primary == [];
    assert pump.secondary == [Event(100, 5, false, ev)];
    assert pump.trace == [];

    ok := pump.DequeAllGameEvents(104, roster);
    assert pump.secondary == [Event(100, 5, false, ev)];
    assert pump.trace == [];

    ok := pump.DequeAllGameEvents(106, roster);
    assert pump.secondary == [];
    assert pump.trace == [NewSoldierPath(3, 1234, 0)];
  }
}
