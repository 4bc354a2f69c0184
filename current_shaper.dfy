/**
 * The current-shaper task of the charging station: a periodic task that turns the
 * grid power budget and the live available power into a charge-current claim on the
 * EVSE manager, with a liveness failsafe that pauses charging when the live power
 * stops being updated.
 *
 * The clock is the parameter `now` (the value `millis()` would return). The EVSE
 * manager and the event notifier are outside the model: every call the shaper makes
 * to them is appended, as an `Effect`, to the task's ghost `trace`.
 */
module CurrentShaper {
  import opened Wrappers
  import opened MachineInts

  /** Delay, in milliseconds, that `loop` asks the scheduler to wait before the next tick. */
  const LOOP_TIME: nat := 2000
  /** Longest time, in milliseconds, without a power update before charging is paused. */
  const FAILSAFE_TIME: nat := 60000

  /** `now - since` computed on `uint32_t`, so that it stays right across the wrap of `millis()`. */
  function Elapsed(now: uint32, since: uint32): (d: uint32)
    ensures since <= now ==> d == now - since
    ensures now < since ==> d == now - since + TWO_32
  {
    (now - since) % TWO_32
  }

  /** Assigning a `uint32_t` to an `int`: the same 32 bits read as two's complement. */
  function ToInt32(u: uint32): (r: int32)
    ensures (r - u) % TWO_32 == 0
    ensures u < 0x8000_0000 <==> r == u
  {
    if u < 0x8000_0000 then u else u - TWO_32
  }

  /** `round(n / d)` for `d > 0`: the nearest integer, halves rounded away from zero. */
  function RoundDiv(n: int, d: int): (q: int)
    requires d > 0
    ensures 0 <= n ==> 2 * n - d < 2 * d * q <= 2 * n + d
    ensures n < 0 ==> 2 * n - d <= 2 * d * q < 2 * n + d
  {
    if 0 <= n then (2 * n + d) / (2 * d) else -((2 * -n + d) / (2 * d))
  }

  /**
   * The charge current `shapeCurrent` stores in the `uint8_t` field `_chg_cur`:
   * `round((max_pwr - live_pwr + amps) / voltage)`, with the present draw `amps`
   * and the supply `voltage` read from the EVSE. The result is reduced modulo 256,
   * as a truncating conversion would; nothing clamps it.
   */
  function ChargeCurrent(maxPwr: int, livePwr: int, amps: int, voltage: int): (c: uint8)
    requires voltage > 0
    ensures (c - RoundDiv(maxPwr - livePwr + amps, voltage)) % 0x100 == 0
    ensures var n := maxPwr - livePwr + amps;
      0 <= n && 2 * n + voltage < 512 * voltage ==> 2 * n - voltage < 2 * voltage * c <= 2 * n + voltage
  {
    var n := maxPwr - livePwr + amps;
    var q := RoundDiv(n, voltage);
    var c := q % 0x100;
    assert (c - q) % 0x100 == 0;
    assert 0 <= n && 2 * n + voltage < 512 * voltage ==> 2 * n - voltage < 2 * voltage * c <= 2 * n + voltage by {
      if 0 <= n && 2 * n + voltage < 512 * voltage {
        RoundedBelow256(n, voltage, q);
        assert c == q;
      }
    }
    c
  }

  /** A quotient rounded from a value below 256 units of `d` fits in a byte. */
  lemma RoundedBelow256(n: int, d: int, q: int)
    requires d > 0 && 0 <= n && 2 * n + d < 512 * d
    requires 2 * n - d < 2 * d * q <= 2 * n + d
    ensures 0 <= q < 256
  {
    assert d * (256 - q) > 0;
    assert d * (2 * q + 1) > 0;
  }

  lemma ChargeCurrentExample()
    ensures ChargeCurrent(7000, 1000, 10, 230) == 26
  {
  }

  /** `EvseState`: the charging state a claim asks for; `NoState` leaves it alone. */
  datatype EvseState = NoState | Active | Disabled

  /** `EvseProperties`: a requested state and, optionally, a charge-current limit. */
  datatype EvseProperties = EvseProperties(state: EvseState, chargeCurrent: Option<uint8>)

  /** A default-constructed `EvseProperties`: no state, no current limit. */
  const DEFAULT_PROPERTIES := EvseProperties(NoState, None)

  datatype Client = ShaperClient
  datatype Priority = PriorityLimit

  /** A JSON value of an event field: the shaper sends `1`, `0`, `true` or `false` for "shaper". */
  datatype JsonScalar = JInt(i: int) | JBool(b: bool)

  /** An event record: "shaper", "shaper_live_pwr", "shaper_cur", "shaper_max_pwr" (absent fields are `None`). */
  datatype Event = Event(shaper: JsonScalar, livePwr: Option<int>, chargeCurrent: Option<int>, maxPwr: Option<int>)

  /** A call the shaper makes to the EVSE manager (`claim`, `release`) or to `event_send`. */
  datatype Effect =
    | Claim(client: Client, priority: Priority, props: EvseProperties)
    | Release(client: Client)
    | Send(event: Event)

  /** The six fields of `CurrentShaperTask` that its operations read and write. */
  datatype ShaperState = ShaperState(
    enabled: bool,
    changed: bool,
    timer: uint32,
    maxPwr: int32,
    livePwr: int32,
    chgCur: uint8)

  /** What one call of `loop` does: the new fields, the calls made, the delay returned. */
  datatype TickResult = TickResult(state: ShaperState, effects: seq<Effect>, delay: nat)

  /** The status event `loop` sends after each claim. */
  function StatusEvent(s: ShaperState): Event {
    Event(JInt(1), Some(s.livePwr), Some(s.chgCur), None)
  }

  /** The claim that submits the computed current without touching the charging state. */
  function CurrentClaim(s: ShaperState): Effect {
    Claim(ShaperClient, PriorityLimit, EvseProperties(NoState, Some(s.chgCur)))
  }

  /** What a tick does while the failsafe holds: pause charging and report. */
  function FailsafeEffects(s: ShaperState): seq<Effect> {
    [Claim(ShaperClient, PriorityLimit, DEFAULT_PROPERTIES.(state := Disabled)), Send(StatusEvent(s))]
  }

  /**
   * One call of `loop` at time `now`. A pending change is consumed: the current is
   * claimed and the failsafe timer restarts. Independently, when the timer is older
   * than the failsafe window, a Disabled claim is made. A disabled shaper does nothing.
   */
  function Tick(s: ShaperState, now: uint32): (r: TickResult)
    ensures r.delay == LOOP_TIME
    ensures !s.enabled ==> r.state == s && r.effects == []
    ensures s.enabled && s.changed ==>
      && r.state == s.(changed := false, timer := now)
      && r.effects == [CurrentClaim(s), Send(StatusEvent(s))]
    ensures s.enabled && !s.changed ==>
      && r.state == s
      && r.effects == (if Elapsed(now, s.timer) > FAILSAFE_TIME then FailsafeEffects(s) else [])
  {
    if !s.enabled then TickResult(s, [], LOOP_TIME)
    else
      var props := if s.changed then EvseProperties(NoState, Some(s.chgCur)) else DEFAULT_PROPERTIES;
      var s1 := if s.changed then s.(changed := false, timer := now) else s;
      var first := if s.changed then [Claim(ShaperClient, PriorityLimit, props), Send(StatusEvent(s1))] else [];
      var second :=
        if Elapsed(now, s1.timer) > FAILSAFE_TIME
        then [Claim(ShaperClient, PriorityLimit, props.(state := Disabled)), Send(StatusEvent(s1))]
        else [];
      TickResult(s1, first + second, LOOP_TIME)
  }

  /** Successive calls of `loop` at the times `nows`, with no other operation in between. */
  function Run(s: ShaperState, nows: seq<uint32>): (r: (ShaperState, seq<Effect>))
    decreases |nows|
  {
    if nows == [] then (s, [])
    else
      var t := Tick(s, nows[0]);
      var rest := Run(t.state, nows[1..]);
      (rest.0, t.effects + rest.1)
  }

  function Repeat(e: seq<Effect>, n: nat): (r: seq<Effect>)
    ensures |r| == n * |e|
  {
    if n == 0 then [] else e + Repeat(e, n - 1)
  }

  /** The number of claims among `effects`. */
  function Claims(effects: seq<Effect>): (n: nat)
    ensures n <= |effects|
  {
    if effects == [] then 0 else (if effects[0].Claim? then 1 else 0) + Claims(effects[1..])
  }

  /** A disabled shaper stays idle however many ticks run: no claim, no event, no field changes. */
  lemma {:induction false} DisabledRunIsIdle(s: ShaperState, nows: seq<uint32>)
    requires !s.enabled
    ensures Run(s, nows) == (s, [])
    decreases |nows|
  {
    if nows != [] {
      assert Tick(s, nows[0]) == TickResult(s, [], LOOP_TIME);
      DisabledRunIsIdle(s, nows[1..]);
      assert Run(s, nows).0 == s;
      assert Run(s, nows).1 == [];
    }
  }

  /**
   * Once the failsafe window has passed without a change, every later tick repeats the
   * Disabled claim and the status event, and the timer is never re-armed by `loop` itself.
   */
  lemma {:induction false} FailsafeRepeats(s: ShaperState, nows: seq<uint32>)
    requires s.enabled && !s.changed
    requires forall i :: 0 <= i < |nows| ==> Elapsed(nows[i], s.timer) > FAILSAFE_TIME
    ensures Run(s, nows) == (s, Repeat(FailsafeEffects(s), |nows|))
    decreases |nows|
  {
    if nows != [] {
      assert Tick(s, nows[0]).state == s;
      FailsafeRepeats(s, nows[1..]);
    }
  }

  /**
   * The failsafe lapses when the clock comes round: a tick that runs `ms` milliseconds
   * after the last claim, with `ms` at least 2^32 but within the window modulo 2^32,
   * sees less than a minute elapsed and claims nothing, however long the telemetry has
   * been stale.
   */
  lemma FailsafeLapsesAfterWrap(s: ShaperState, ms: nat)
    requires s.enabled && !s.changed
    requires ms >= TWO_32 && ms % TWO_32 <= FAILSAFE_TIME
    ensures Elapsed((s.timer + ms) % TWO_32, s.timer) == ms % TWO_32
    ensures Tick(s, (s.timer + ms) % TWO_32).effects == []
  {
  }

  /** Ticks inside the failsafe window with nothing pending change nothing and call nothing. */
  lemma {:induction false} QuietRunIsIdle(s: ShaperState, nows: seq<uint32>)
    requires s.enabled && !s.changed
    requires forall i :: 0 <= i < |nows| ==> Elapsed(nows[i], s.timer) <= FAILSAFE_TIME
    ensures Run(s, nows) == (s, [])
    decreases |nows|
  {
    if nows != [] {
      assert Tick(s, nows[0]) == TickResult(s, [], LOOP_TIME);
      QuietRunIsIdle(s, nows[1..]);
    }
  }

  /**
   * A pending change is consumed exactly once: the consuming tick makes one claim (of the
   * computed current, never the Disabled one), and the ticks after it inside the failsafe
   * window resubmit nothing.
   */
  lemma ChangeConsumedOnce(s: ShaperState, now: uint32, later: seq<uint32>)
    requires s.enabled && s.changed
    requires forall i :: 0 <= i < |later| ==> Elapsed(later[i], now) <= FAILSAFE_TIME
    ensures Run(s, [now] + later) == (s.(changed := false, timer := now), [CurrentClaim(s), Send(StatusEvent(s))])
    ensures Claims(Run(s, [now] + later).1) == 1
  {
    var t := Tick(s, now);
    assert ([now] + later)[1..] == later;
    QuietRunIsIdle(t.state, later);
  }

  /** The spec value of `shapeCurrent`: recompute `_chg_cur` and raise `_changed`, nothing else. */
  function Shaped(s: ShaperState, amps: int, voltage: int): (r: ShaperState)
    requires voltage > 0
    ensures r.changed && r.chgCur == ChargeCurrent(s.maxPwr, s.livePwr, amps, voltage)
    ensures r.(changed := s.changed, chgCur := s.chgCur) == s
  {
    s.(chgCur := ChargeCurrent(s.maxPwr, s.livePwr, amps, voltage), changed := true)
  }

  /**
   * A call of `setMaxPwr` or `setLivePwr`, with the EVSE's current and voltage as
   * `shapeCurrent` reads them during that call.
   */
  datatype SetterCall =
    | SetMaxPwrCall(maxPwr: int32, amps: int, voltage: int)
    | SetLivePwrCall(livePwr: int32, amps: int, voltage: int)

  predicate ValidCall(c: SetterCall) {
    c.voltage > 0
  }

  /** The spec value of one setter call: store its argument, then `shapeCurrent`. */
  function ApplySetter(s: ShaperState, c: SetterCall): (r: ShaperState)
    requires ValidCall(c)
    ensures c.SetMaxPwrCall? ==> r.maxPwr == c.maxPwr && r.livePwr == s.livePwr
    ensures c.SetLivePwrCall? ==> r.livePwr == c.livePwr && r.maxPwr == s.maxPwr
    ensures r.changed && r.chgCur == ChargeCurrent(r.maxPwr, r.livePwr, c.amps, c.voltage)
    ensures r.enabled == s.enabled && r.timer == s.timer
  {
    match c
    case SetMaxPwrCall(p, amps, voltage) => Shaped(s.(maxPwr := p), amps, voltage)
    case SetLivePwrCall(q, amps, voltage) => Shaped(s.(livePwr := q), amps, voltage)
  }

  /** Setter calls in order, with no tick in between. */
  function ApplySetters(s: ShaperState, cs: seq<SetterCall>): ShaperState
    requires forall i :: 0 <= i < |cs| ==> ValidCall(cs[i])
    decreases |cs|
  {
    if cs == [] then s else ApplySetters(ApplySetter(s, cs[0]), cs[1..])
  }

  /** The budget a run of setter calls leaves: the argument of the last `setMaxPwr`, or `maxPwr` when there is none. */
  function LastMaxPwr(maxPwr: int32, cs: seq<SetterCall>): int32
    decreases |cs|
  {
    if cs == [] then maxPwr
    else if cs[|cs| - 1].SetMaxPwrCall? then cs[|cs| - 1].maxPwr
    else LastMaxPwr(maxPwr, cs[..|cs| - 1])
  }

  /** The live power a run of setter calls leaves: the argument of the last `setLivePwr`, or `livePwr` when there is none. */
  function LastLivePwr(livePwr: int32, cs: seq<SetterCall>): int32
    decreases |cs|
  {
    if cs == [] then livePwr
    else if cs[|cs| - 1].SetLivePwrCall? then cs[|cs| - 1].livePwr
    else LastLivePwr(livePwr, cs[..|cs| - 1])
  }

  /** Running setter calls one more call at a time. */
  lemma {:induction false} ApplySettersSnoc(s: ShaperState, cs: seq<SetterCall>)
    requires cs != [] && forall i :: 0 <= i < |cs| ==> ValidCall(cs[i])
    ensures ApplySetters(s, cs) == ApplySetter(ApplySetters(s, cs[..|cs| - 1]), cs[|cs| - 1])
    decreases |cs|
  {
    var s1 := ApplySetter(s, cs[0]);
    if |cs| == 1 {
      assert cs[..0] == [];
      assert ApplySetters(s1, cs[1..]) == s1;
    } else {
      ApplySettersSnoc(s1, cs[1..]);
      assert cs[1..][..|cs[1..]| - 1] == cs[..|cs| - 1][1..];
      assert cs[1..][|cs[1..]| - 1] == cs[|cs| - 1];
      assert ApplySetters(s, cs[..|cs| - 1]) == ApplySetters(s1, cs[..|cs| - 1][1..]);
    }
  }

  /**
   * After one or more setter calls the budget and the live power are the arguments of the
   * last `setMaxPwr` and the last `setLivePwr` (the old values when there is no such
   * call), the change is pending, and the current is the one the last call computed from
   * those two values; enablement and timer are untouched.
   */
  lemma {:induction false} SettersAccumulate(s: ShaperState, cs: seq<SetterCall>)
    requires cs != [] && forall i :: 0 <= i < |cs| ==> ValidCall(cs[i])
    ensures var r := ApplySetters(s, cs);
      var last := cs[|cs| - 1];
      && r.maxPwr == LastMaxPwr(s.maxPwr, cs)
      && r.livePwr == LastLivePwr(s.livePwr, cs)
      && r.changed
      && r.chgCur == ChargeCurrent(r.maxPwr, r.livePwr, last.amps, last.voltage)
      && r.enabled == s.enabled && r.timer == s.timer
    decreases |cs|
  {
    var init := cs[..|cs| - 1];
    ApplySettersSnoc(s, cs);
    if init == [] {
      assert ApplySetters(s, init) == s;
      assert LastMaxPwr(s.maxPwr, init) == s.maxPwr && LastLivePwr(s.livePwr, init) == s.livePwr;
    } else {
      SettersAccumulate(s, init);
    }
  }

  /**
   * Setter calls coalesce: however many setters run between two ticks, the next tick
   * makes exactly one claim, carrying the current computed by the last setter, and
   * restarts the failsafe window.
   */
  lemma SettersCoalesce(s: ShaperState, cs: seq<SetterCall>, now: uint32)
    requires s.enabled && cs != [] && forall i :: 0 <= i < |cs| ==> ValidCall(cs[i])
    ensures var r := ApplySetters(s, cs);
      var t := Tick(r, now);
      && r.maxPwr == LastMaxPwr(s.maxPwr, cs) && r.livePwr == LastLivePwr(s.livePwr, cs)
      && Claims(t.effects) == 1
      && t.effects[0] == CurrentClaim(r)
      && t.effects[0].props.chargeCurrent
         == Some(ChargeCurrent(LastMaxPwr(s.maxPwr, cs), LastLivePwr(s.livePwr, cs), cs[|cs| - 1].amps, cs[|cs| - 1].voltage))
      && !t.state.changed && t.state.timer == now
  {
    SettersAccumulate(s, cs);
  }

  /**
   * A setter ends the failsafe: the next tick claims the computed current again (state
   * `NoState`, so the Disabled claim is replaced), and the failsafe window starts over.
   */
  lemma SetterEndsFailsafe(s: ShaperState, c: SetterCall, now: uint32, later: uint32)
    requires s.enabled && !s.changed && ValidCall(c)
    requires Elapsed(now, s.timer) > FAILSAFE_TIME
    requires Elapsed(later, now) <= FAILSAFE_TIME
    ensures var s1 := ApplySetter(s, c);
      var t := Tick(s1, now);
      && t.effects[0] == CurrentClaim(s1)
      && t.effects[0].props.state == NoState
      && Tick(t.state, later).effects == []
  {
  }

  /** The spec value of `notifyConfigChanged` on the fields: only `_enabled` and `_max_pwr` change. */
  function Configured(s: ShaperState, enabled: bool, maxPwr: uint32): (r: ShaperState)
    ensures r.enabled == enabled && r.maxPwr == ToInt32(maxPwr)
    ensures r.(enabled := s.enabled, maxPwr := s.maxPwr) == s
  {
    s.(enabled := enabled, maxPwr := ToInt32(maxPwr))
  }

  /** The calls `notifyConfigChanged` makes: a release when disabling, then the event. */
  function ConfigEffects(enabled: bool, maxPwr: uint32): (e: seq<Effect>)
    ensures Release(ShaperClient) in e <==> !enabled
    ensures forall i :: 0 <= i < |e| ==> !e[i].Claim?
    ensures e != [] && e[|e| - 1] == Send(Event(JBool(enabled), None, None, Some(maxPwr)))
  {
    (if enabled then [] else [Release(ShaperClient)]) + [Send(Event(JBool(enabled), None, None, Some(maxPwr)))]
  }

  /** Disabling through the configuration silences every later tick. */
  lemma ConfigDisableSilencesLoop(s: ShaperState, maxPwr: uint32, nows: seq<uint32>)
    ensures Run(Configured(s, false, maxPwr), nows) == (Configured(s, false, maxPwr), [])
  {
    DisabledRunIsIdle(Configured(s, false, maxPwr), nows);
  }

  /**
   * The task object. Its fields are those of `CurrentShaperTask`; `trace` records every
   * call it has made to the EVSE manager and to the event notifier.
   */
  class CurrentShaperTask {
    var enabled: bool
    var changed: bool
    var timer: uint32
    var maxPwr: int32
    var livePwr: int32
    var chgCur: uint8
    ghost var trace: seq<Effect>

    function State(): ShaperState
      reads this
    {
      ShaperState(enabled, changed, timer, maxPwr, livePwr, chgCur)
    }

    /** The constructor sets only `_changed` and `_enabled`; the other fields are left undefined. */
    constructor ()
      ensures !enabled && !changed && trace == []
    {
      enabled, changed := false, false;
      trace := [];
    }

    /** `loop`: one tick of the task at time `now`. */
    method Loop(now: uint32) returns (delay: nat)
      modifies this
      ensures var r := Tick(old(State()), now);
        State() == r.state && trace == old(trace) + r.effects && delay == r.delay
    {
      if enabled {
        var props := DEFAULT_PROPERTIES;
        if changed {
          props := props.(chargeCurrent := Some(chgCur));
          props := props.(state := NoState);
          changed := false;
          timer := now;
          trace := trace + [Claim(ShaperClient, PriorityLimit, props)];
          trace := trace + [Send(StatusEvent(State()))];
        }
        if Elapsed(now, timer) > FAILSAFE_TIME {
          props := props.(state := Disabled);
          trace := trace + [Claim(ShaperClient, PriorityLimit, props)];
          trace := trace + [Send(StatusEvent(State()))];
        }
      }
      delay := LOOP_TIME;
    }
  }

  /**
   * The static side of `CurrentShaperTask`: the `instance` pointer and the operations
   * reached through it.
   */
  class ShaperSlot {
    var instance: CurrentShaperTask?

    constructor ()
      ensures instance == null
    {
      instance := null;
    }

    /**
     * `begin`: restart the failsafe timer, load the configuration, zero the live power
     * and the current, publish `task` as the instance and send the start-up event.
     */
    method Begin(task: CurrentShaperTask, now: uint32, configEnabled: bool, configMaxPwr: int32)
      modifies this, task
      ensures instance == task
      ensures task.State() == ShaperState(configEnabled, old(task.changed), now, configMaxPwr, 0, 0)
      ensures task.trace == old(task.trace) + [Send(Event(JInt(1), None, None, None))]
    {
      task.timer := now;
      task.enabled := configEnabled;
      task.maxPwr := configMaxPwr;
      task.livePwr := 0;
      task.chgCur := 0;
      instance := task;
      task.trace := task.trace + [Send(Event(JInt(1), None, None, None))];
    }

    /** The destructor of a task: clears `instance` (whichever task it pointed to) and releases nothing. */
    method Destroy(task: CurrentShaperTask)
      modifies this
      ensures instance == null
    {
      instance := null;
    }

    /** `notifyConfigChanged`: store the enablement and the budget; disabling releases the claim at once. */
    method NotifyConfigChanged(enabled: bool, maxPwr: uint32)
      modifies instance
      ensures instance != null ==>
        && instance.State() == Configured(old(instance.State()), enabled, maxPwr)
        && instance.trace == old(instance.trace) + ConfigEffects(enabled, maxPwr)
    {
      if instance != null {
        instance.enabled := enabled;
        instance.maxPwr := ToInt32(maxPwr);
        if !enabled {
          instance.trace := instance.trace + [Release(ShaperClient)];
        }
        instance.trace := instance.trace + [Send(Event(JBool(enabled), None, None, Some(maxPwr)))];
      }
    }

    /** `shapeCurrent`: recompute the current from the instance's fields and mark it pending. */
    method ShapeCurrent(amps: int, voltage: int)
      requires voltage > 0
      modifies instance
      ensures instance != null ==>
        instance.State() == Shaped(old(instance.State()), amps, voltage) && instance.trace == old(instance.trace)
    {
      if instance != null {
        instance.chgCur := ChargeCurrent(instance.maxPwr, instance.livePwr, amps, voltage);
        instance.changed := true;
      }
    }

    /** `setMaxPwr`: store the grid budget and recompute; the claim waits for the next tick. */
    method SetMaxPwr(maxPwr: int32, amps: int, voltage: int)
      requires voltage > 0
      modifies instance
      ensures instance != null ==>
        && instance.State() == Shaped(old(instance.State()).(maxPwr := maxPwr), amps, voltage)
        && instance.trace == old(instance.trace)
    {
      if instance != null {
        instance.maxPwr := maxPwr;
        ShapeCurrent(amps, voltage);
      }
    }

    /** `setLivePwr`: store the live available power and recompute; the claim waits for the next tick. */
    method SetLivePwr(livePwr: int32, amps: int, voltage: int)
      requires voltage > 0
      modifies instance
      ensures instance != null ==>
        && instance.State() == Shaped(old(instance.State()).(livePwr := livePwr), amps, voltage)
        && instance.trace == old(instance.trace)
    {
      if instance != null {
        instance.livePwr := livePwr;
        ShapeCurrent(amps, voltage);
      }
    }

    /** `setState`: switch the shaper on or off for now, without touching the configuration or the claim. */
    method SetState(state: bool)
      modifies instance
      ensures instance != null ==>
        && instance.State() == old(instance.State()).(enabled := state)
        && instance.trace == old(instance.trace) + [Send(Event(JInt(if state then 1 else 0), None, None, None))]
    {
      if instance != null {
        instance.enabled := state;
        instance.trace := instance.trace + [Send(Event(JInt(if state then 1 else 0), None, None, None))];
      }
    }

    function GetMaxPwr(): (r: int)
      reads this, instance
      ensures instance == null ==> r == 0
      ensures instance != null ==> r == instance.maxPwr
    {
      if instance != null then instance.maxPwr else 0
    }

    function GetLivePwr(): (r: int)
      reads this, instance
      ensures instance == null ==> r == 0
      ensures instance != null ==> r == instance.livePwr
    {
      if instance != null then instance.livePwr else 0
    }

    function GetChgCur(): (r: uint8)
      reads this, instance
      ensures instance == null ==> r == 0
      ensures instance != null ==> r == instance.chgCur
    {
      if instance != null then instance.chgCur else 0
    }

    function GetState(): (r: bool)
      reads this, instance
      ensures r <==> instance != null && instance.enabled
    {
      if instance != null then instance.enabled else false
    }

    /**
     * `isActive`: whether the shaper holds the winning claim, as the EVSE manager's
     * `clientHasClaim` answers it; false when there is no instance. It does not look at
     * `_enabled`.
     */
    function IsActive(clientHasClaim: bool): (r: bool)
      reads this
      ensures r <==> instance != null && clientHasClaim
    {
      if instance != null then clientHasClaim else false
    }
  }
}
