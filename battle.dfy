/** The ammunition and reload state machine of the battle screen.

    A tap fires one bullet. Firing with an empty magazine starts a reload, a
    timer that refills the magazine later; while it is pending every tap is
    ignored. The timer's expiry is modelled as an event of its own,
    `ReloadComplete`, rather than as time. */
module Battle {

  /** Size of the magazine; the count the controller starts with and refills to. */
  const InitialBulletCount: int := 10

  /** The state the controller keeps: the bullets left, whether a reload is
      under way, the number the on-screen label shows, and how many reload
      timers have been scheduled and have not yet fired. */
  datatype Ammo = Ammo(bullets: int, reloading: bool, shown: int, pendingReloads: nat)

  /** A full magazine with no reload under way. */
  const Full: Ammo := Ammo(InitialBulletCount, false, InitialBulletCount, 0)

  /** The invariant every reachable state keeps: the count stays within the
      magazine, a reload only happens on an empty magazine, exactly one timer
      is pending while reloading (and none otherwise), and the label shows
      the current count. */
  predicate Consistent(a: Ammo) {
    && 0 <= a.bullets <= InitialBulletCount
    && (a.reloading ==> a.bullets == 0)
    && a.pendingReloads == (if a.reloading then 1 else 0)
    && a.shown == a.bullets
  }

  /** The effect of one tap (`shoot()`). */
  function Shot(a: Ammo): (r: Ammo)
    requires Consistent(a)
    ensures Consistent(r)
  {
    if a.reloading then a
    else if a.bullets > 0 then a.(bullets := a.bullets - 1, shown := a.bullets - 1)
    else a.(reloading := true, pendingReloads := a.pendingReloads + 1)
  }

  /** The effect of the reload timer firing. */
  function Reloaded(a: Ammo): (r: Ammo)
    requires Consistent(a) && a.pendingReloads > 0
    ensures Consistent(r)
    ensures r == Full
  {
    a.(bullets := InitialBulletCount, shown := InitialBulletCount,
       reloading := false, pendingReloads := a.pendingReloads - 1)
  }

  /** The state after `n` taps in a row, with no reload completing in between. */
  function Shots(a: Ammo, n: nat): (r: Ammo)
    requires Consistent(a)
    ensures Consistent(r)
    decreases n
  {
    if n == 0 then a else Shot(Shots(a, n - 1))
  }

  /** Taps on a magazine holding at least `n` bullets, outside a reload, take
      one bullet each, keep the label in step and start no reload. */
  lemma {:induction false} ShotsCountDown(a: Ammo, n: nat)
    requires Consistent(a) && !a.reloading && n <= a.bullets
    ensures Shots(a, n) == Ammo(a.bullets - n, false, a.bullets - n, 0)
  {
    if n > 0 {
      ShotsCountDown(a, n - 1);
    }
  }

  /** While a reload is pending, any number of taps changes nothing: the
      count, the flag and the label stay put and no second timer is scheduled. */
  lemma {:induction false} ShotsWhileReloading(a: Ammo, n: nat)
    requires Consistent(a) && a.reloading
    ensures Shots(a, n) == a
  {
    if n > 0 {
      ShotsWhileReloading(a, n - 1);
    }
  }

  /** Whatever the count, emptying the magazine and tapping once more starts
      exactly one reload, and its completion gives a full magazine back. */
  lemma ReloadCycle(a: Ammo)
    requires Consistent(a) && !a.reloading
    ensures Shots(a, a.bullets + 1) == Ammo(0, true, 0, 1)
    ensures Reloaded(Shots(a, a.bullets + 1)) == Full
  {
    ShotsCountDown(a, a.bullets);
  }

  /** From a full magazine the first ten taps each fire a bullet; the
      eleventh, and every tap after it until the timer fires, leaves the
      controller reloading on an empty magazine with one timer pending. */
  lemma {:induction false} MagazineCycle(n: nat)
    ensures n <= InitialBulletCount ==>
      Shots(Full, n) == Ammo(InitialBulletCount - n, false, InitialBulletCount - n, 0)
    ensures n > InitialBulletCount ==> Shots(Full, n) == Ammo(0, true, 0, 1)
  {
    if n <= InitialBulletCount {
      ShotsCountDown(Full, n);
    } else {
      MagazineCycle(n - 1);
    }
  }

  /** The battle screen's view controller, reduced to its ammunition state.
      It is modelled from the point where its view has loaded: the bullet
      label exists and the tap recogniser that calls `Shoot` is installed. */
  class BattleController {
    var bulletCount: int
    var isReloading: bool
    /** The number the bullet label shows. */
    var shownCount: int
    /** Reload timers that have been scheduled and have not yet fired. */
    var pendingReloads: nat

    function State(): Ammo
      reads this
    {
      Ammo(bulletCount, isReloading, shownCount, pendingReloads)
    }

    predicate Valid()
      reads this
    {
      Consistent(State())
    }

    /** The stored defaults, then the label set up from the count. */
    constructor ()
      ensures Valid() && State() == Full
      ensures bulletCount == InitialBulletCount && !isReloading
      ensures shownCount == bulletCount && pendingReloads == 0
    {
      bulletCount := InitialBulletCount;
      isReloading := false;
      pendingReloads := 0;
      shownCount := InitialBulletCount;
    }

    /** Shows the current count on the label. */
    method UpdateBulletCountLabel()
      modifies this`shownCount
      ensures shownCount == bulletCount
    {
      shownCount := bulletCount;
    }

    /** `shoot()`. Its effect is the function `Shot`, over which the lemmas
        about runs of taps are stated. */
    method Shoot()
      requires Valid()
      modifies this
      ensures Valid() && State() == Shot(old(State()))
      ensures old(isReloading) ==> unchanged(this)
      ensures !old(isReloading) && old(bulletCount) > 0 ==>
        bulletCount == old(bulletCount) - 1 && !isReloading &&
        shownCount == bulletCount && pendingReloads == old(pendingReloads)
      ensures !old(isReloading) && old(bulletCount) == 0 ==>
        isReloading && bulletCount == 0 && shownCount == old(shownCount) &&
        pendingReloads == old(pendingReloads) + 1 == 1
    {
      if isReloading {
        return;
      }
      if bulletCount > 0 {
        bulletCount := bulletCount - 1;
        UpdateBulletCountLabel();
      } else {
        isReloading := true;
        pendingReloads := pendingReloads + 1;
      }
    }

    /** The body of the timer scheduled by `Shoot`, run when it fires. Its
        effect is the function `Reloaded`. */
    method ReloadComplete()
      requires Valid() && pendingReloads > 0
      modifies this
      ensures Valid() && State() == Reloaded(old(State()))
      ensures bulletCount == InitialBulletCount && shownCount == bulletCount
      ensures !isReloading && pendingReloads == old(pendingReloads) - 1 == 0
    {
      pendingReloads := pendingReloads - 1;
      bulletCount := InitialBulletCount;
      UpdateBulletCountLabel();
      isReloading := false;
    }
  }
}
