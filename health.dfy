/**
  The shared hit-point component (Scripts/Health.cs): a counter clamped to
  [0, maxHealth] that announces every change and announces death whenever a
  hit leaves it at zero.
 */
module HealthProtocol {

  /** A notification raised by a Health component, in the order raised. */
  datatype HealthEvent = HealthChanged(current: real, max: real) | Death

  /** One call made on a Health component. */
  datatype HealthCall = DamageCall(amount: real) | HealCall(amount: real)

  /**
    Unity's `Mathf.Clamp`: the lower bound is tested first, so with
    `min > max` a value below `min` becomes `min` and any other becomes `max`.
   */
  function Clamp(value: real, min: real, max: real): (r: real)
    ensures min <= max ==> min <= r <= max
    ensures min <= value <= max ==> r == value
    ensures r == value || r == min || r == max
  {
    if value < min then min else if value > max then max else value
  }

  /** The counter after `TakeDamage(amount)`, for any sign of `amount`. */
  function AfterDamage(current: real, max: real, amount: real): (r: real)
    ensures 0.0 <= max ==> 0.0 <= r <= max
    ensures 0.0 <= max && current - amount <= 0.0 ==> r == 0.0
    ensures 0.0 <= current - amount <= max ==> r == current - amount
    ensures 0.0 <= current <= max && 0.0 <= amount ==> r <= current
  {
    Clamp(current - amount, 0.0, max)
  }

  /**
    The counter after `Heal(amount)`. There is no dead-state guard: from 0 a
    positive heal raises the counter again.
   */
  function AfterHeal(current: real, max: real, amount: real): (r: real)
    ensures 0.0 <= max ==> 0.0 <= r <= max
    ensures 0.0 <= current <= max && 0.0 <= amount ==> current <= r
    ensures 0.0 <= current < max && 0.0 < amount ==> current < r
  {
    Clamp(current + amount, 0.0, max)
  }

  /**
    Notifications of one `TakeDamage` call: exactly one change carrying the
    post-clamp values, then a death whenever the clamped counter is not
    positive -- also when it was already 0 before the hit.
   */
  function DamageEvents(current: real, max: real, amount: real): (evs: seq<HealthEvent>)
    ensures 1 <= |evs| <= 2
    ensures evs[0] == HealthChanged(AfterDamage(current, max, amount), max)
    ensures (Death in evs) <==> AfterDamage(current, max, amount) <= 0.0
    ensures AfterDamage(current, max, amount) > 0.0 ==> |evs| == 1
    ensures |evs| == 2 ==> evs[1] == Death
    ensures 0.0 <= max && current <= amount ==> evs[|evs| - 1] == Death
  {
    var h := AfterDamage(current, max, amount);
    [HealthChanged(h, max)] + (if h <= 0.0 then [Death] else [])
  }

  /** Notifications of one `Heal` call: one change, never a death. */
  function HealEvents(current: real, max: real, amount: real): (evs: seq<HealthEvent>)
    ensures |evs| == 1 && Death !in evs
    ensures evs[0] == HealthChanged(AfterHeal(current, max, amount), max)
  {
    [HealthChanged(AfterHeal(current, max, amount), max)]
  }

  function Apply(current: real, max: real, call: HealthCall): real {
    match call
    case DamageCall(amount) => AfterDamage(current, max, amount)
    case HealCall(amount) => AfterHeal(current, max, amount)
  }

  function CallEvents(current: real, max: real, call: HealthCall): seq<HealthEvent> {
    match call
    case DamageCall(amount) => DamageEvents(current, max, amount)
    case HealCall(amount) => HealEvents(current, max, amount)
  }

  /** The counter after a sequence of calls. */
  function Final(current: real, max: real, calls: seq<HealthCall>): real
    decreases |calls|
  {
    if calls == [] then current else Final(Apply(current, max, calls[0]), max, calls[1..])
  }

  /** Every notification raised by a sequence of calls, in order. */
  function Events(current: real, max: real, calls: seq<HealthCall>): seq<HealthEvent>
    decreases |calls|
  {
    if calls == [] then []
    else CallEvents(current, max, calls[0]) + Events(Apply(current, max, calls[0]), max, calls[1..])
  }

  function CountDeaths(evs: seq<HealthEvent>): nat
    decreases |evs|
  {
    if evs == [] then 0 else (if evs[0] == Death then 1 else 0) + CountDeaths(evs[1..])
  }

  function CountChanges(evs: seq<HealthEvent>): nat
    decreases |evs|
  {
    if evs == [] then 0 else (if evs[0].HealthChanged? then 1 else 0) + CountChanges(evs[1..])
  }

  /** How many damage calls of the sequence leave the counter at or below 0. */
  function ZeroingHits(current: real, max: real, calls: seq<HealthCall>): nat
    decreases |calls|
  {
    if calls == [] then 0
    else
      var next := Apply(current, max, calls[0]);
      (if calls[0].DamageCall? && next <= 0.0 then 1 else 0) + ZeroingHits(next, max, calls[1..])
  }

  /** `n` identical calls. */
  function Repeat(call: HealthCall, n: nat): (calls: seq<HealthCall>)
    ensures |calls| == n
  {
    if n == 0 then [] else [call] + Repeat(call, n - 1)
  }

  lemma {:induction false} CountDeathsAppend(a: seq<HealthEvent>, b: seq<HealthEvent>)
    ensures CountDeaths(a + b) == CountDeaths(a) + CountDeaths(b)
    decreases |a|
  {
    if a != [] {
      assert (a + b)[0] == a[0] && (a + b)[1..] == a[1..] + b;
      CountDeathsAppend(a[1..], b);
    } else {
      assert a + b == b;
    }
  }

  lemma {:induction false} CountChangesAppend(a: seq<HealthEvent>, b: seq<HealthEvent>)
    ensures CountChanges(a + b) == CountChanges(a) + CountChanges(b)
    decreases |a|
  {
    if a != [] {
      assert (a + b)[0] == a[0] && (a + b)[1..] == a[1..] + b;
      CountChangesAppend(a[1..], b);
    } else {
      assert a + b == b;
    }
  }

  /** Starting inside the range, any sequence of calls ends inside it. */
  lemma {:induction false} FinalInRange(current: real, max: real, calls: seq<HealthCall>)
    requires 0.0 <= current <= max
    ensures 0.0 <= Final(current, max, calls) <= max
    decreases |calls|
  {
    if calls != [] {
      FinalInRange(Apply(current, max, calls[0]), max, calls[1..]);
    }
  }

  /** Every TakeDamage and every Heal raises exactly one change notification. */
  lemma {:induction false} OneChangePerCall(current: real, max: real, calls: seq<HealthCall>)
    ensures CountChanges(Events(current, max, calls)) == |calls|
    decreases |calls|
  {
    if calls != [] {
      var first := CallEvents(current, max, calls[0]);
      var rest := Events(Apply(current, max, calls[0]), max, calls[1..]);
      CountChangesAppend(first, rest);
      OneChangePerCall(Apply(current, max, calls[0]), max, calls[1..]);
      assert CountChanges(first) == 1 by {
        assert first[0].HealthChanged?;
        assert first[1..] == [] || first[1..] == [Death];
      }
    }
  }

  /**
    Death is announced once per damage call that leaves the counter at 0, not
    once per crossing: the number of deaths equals the number of zeroing hits.
   */
  lemma {:induction false} DeathPerZeroingHit(current: real, max: real, calls: seq<HealthCall>)
    ensures CountDeaths(Events(current, max, calls)) == ZeroingHits(current, max, calls)
    decreases |calls|
  {
    if calls != [] {
      var next := Apply(current, max, calls[0]);
      var first := CallEvents(current, max, calls[0]);
      CountDeathsAppend(first, Events(next, max, calls[1..]));
      DeathPerZeroingHit(next, max, calls[1..]);
      assert CountDeaths(first) == (if calls[0].DamageCall? && next <= 0.0 then 1 else 0) by {
        assert first[0] != Death;
        assert CountDeaths(first) == CountDeaths(first[1..]);
        if calls[0].DamageCall? && next <= 0.0 {
          assert first[1..] == [Death];
        } else {
          assert first[1..] == [];
        }
      }
    }
  }

  /**
    Repeated hits on a dead component each announce death again: `n`
    non-negative hits starting from 0 raise `n` deaths.
   */
  lemma {:induction false} RepeatedHitsAtZero(max: real, amount: real, n: nat)
    requires 0.0 <= max && 0.0 <= amount
    ensures CountDeaths(Events(0.0, max, Repeat(DamageCall(amount), n))) == n
    decreases n
  {
    DeathPerZeroingHit(0.0, max, Repeat(DamageCall(amount), n));
    ZeroingHitsAtZero(max, amount, n);
  }

  lemma {:induction false} ZeroingHitsAtZero(max: real, amount: real, n: nat)
    requires 0.0 <= max && 0.0 <= amount
    ensures ZeroingHits(0.0, max, Repeat(DamageCall(amount), n)) == n
    decreases n
  {
    if n > 0 {
      var calls := Repeat(DamageCall(amount), n);
      assert calls[0] == DamageCall(amount) && calls[1..] == Repeat(DamageCall(amount), n - 1);
      ZeroingHitsAtZero(max, amount, n - 1);
    }
  }

  /** Heals alone never announce a death, whatever the starting counter. */
  lemma {:induction false} HealsNeverKill(current: real, max: real, amounts: seq<real>)
    ensures CountDeaths(Events(current, max, HealCalls(amounts))) == 0
    decreases |amounts|
  {
    DeathPerZeroingHit(current, max, HealCalls(amounts));
    NoZeroingHealCalls(current, max, amounts);
  }

  function HealCalls(amounts: seq<real>): (calls: seq<HealthCall>)
    ensures |calls| == |amounts|
    ensures forall i :: 0 <= i < |calls| ==> calls[i] == HealCall(amounts[i])
    decreases |amounts|
  {
    if amounts == [] then [] else [HealCall(amounts[0])] + HealCalls(amounts[1..])
  }

  lemma {:induction false} NoZeroingHealCalls(current: real, max: real, amounts: seq<real>)
    ensures ZeroingHits(current, max, HealCalls(amounts)) == 0
    decreases |amounts|
  {
    if amounts != [] {
      var calls := HealCalls(amounts);
      assert calls[1..] == HealCalls(amounts[1..]);
      NoZeroingHealCalls(Apply(current, max, calls[0]), max, amounts[1..]);
    }
  }

  /**
    A Health component. `events` records every notification the component
    raises; `deathListeners` is the `OnDeath` invocation list, in
    subscription order.
   */
  class Health {
    const maxHealth: real
    var currentHealth: real
    ghost var events: seq<HealthEvent>
    var deathListeners: seq<object>

    /** `Awake`: the counter starts full. */
    constructor (maxHealth: real)
      ensures this.maxHealth == maxHealth && currentHealth == maxHealth
      ensures events == [] && deathListeners == []
    {
      this.maxHealth := maxHealth;
      currentHealth := maxHealth;
      events := [];
      deathListeners := [];
    }

    /** `Start`: announce the starting value; the counter is untouched. */
    method Start()
      modifies this`events
      ensures events == old(events) + [HealthChanged(currentHealth, maxHealth)]
    {
      events := events + [HealthChanged(currentHealth, maxHealth)];
    }

    method TakeDamage(amount: real)
      modifies this`currentHealth, this`events
      ensures currentHealth == AfterDamage(old(currentHealth), maxHealth, amount)
      ensures events == old(events) + DamageEvents(old(currentHealth), maxHealth, amount)
      ensures 0.0 <= maxHealth ==> 0.0 <= currentHealth <= maxHealth
    {
      currentHealth := currentHealth - amount;
      currentHealth := Clamp(currentHealth, 0.0, maxHealth);
      events := events + [HealthChanged(currentHealth, maxHealth)];
      if currentHealth <= 0.0 {
        Die();
      }
    }

    method Heal(amount: real)
      modifies this`currentHealth, this`events
      ensures currentHealth == AfterHeal(old(currentHealth), maxHealth, amount)
      ensures events == old(events) + HealEvents(old(currentHealth), maxHealth, amount)
      ensures 0.0 <= maxHealth ==> 0.0 <= currentHealth <= maxHealth
    {
      currentHealth := currentHealth + amount;
      currentHealth := Clamp(currentHealth, 0.0, maxHealth);
      events := events + [HealthChanged(currentHealth, maxHealth)];
    }

    /**
      Announce death; the component itself stays as it is. The subscribed
      handlers are not run from here: each `HandleDeath` is a method of its
      own controller.
     */
    method Die()
      modifies this`events
      ensures events == old(events) + [Death]
    {
      events := events + [Death];
    }

    /** `OnDeath += listener`. */
    method SubscribeDeath(listener: object)
      modifies this`deathListeners
      ensures deathListeners == old(deathListeners) + [listener]
    {
      deathListeners := deathListeners + [listener];
    }
  }
}
