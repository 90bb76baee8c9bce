/**
 * The star ledger (StarBank.swift): one integer balance shared by every
 * screen of the app, written through to the device's settings store each
 * time it is assigned, and loaded from that store when the app launches.
 */
module Ledger {

  /** Key under which the balance is stored. */
  const StarsKey: string := "jellyMathStars"

  /** Key of the flag that records that the starting grant was handed out. */
  const LaunchedKey: string := "hasLaunchedBefore"

  /** Stars a fresh install starts with. */
  const StartingGrant: int := 128

  /**
   * A snapshot of the settings store. Reading a key that was never written
   * gives 0 for an integer and false for a flag.
   */
  datatype Settings = Settings(ints: map<string, int>, bools: map<string, bool>)
  {
    function Integer(key: string): int {
      if key in ints then ints[key] else 0
    }

    function Bool(key: string): bool {
      if key in bools then bools[key] else false
    }

    function SetInteger(key: string, v: int): Settings {
      this.(ints := ints[key := v])
    }

    function SetBool(key: string, v: bool): Settings {
      this.(bools := bools[key := v])
    }
  }

  /** The store of an app that was never launched. */
  const FreshInstall: Settings := Settings(map[], map[])

  /** The device's settings store. It outlives every ledger built on it. */
  class Defaults {
    var data: Settings

    constructor ()
      ensures data == FreshInstall
    {
      data := FreshInstall;
    }

    method SetInteger(key: string, v: int)
      modifies this
      ensures data == old(data).SetInteger(key, v)
    {
      data := data.SetInteger(key, v);
    }

    method SetBool(key: string, v: bool)
      modifies this
      ensures data == old(data).SetBool(key, v)
    {
      data := data.SetBool(key, v);
    }
  }

  // ---------------------------------------------------------------------
  // Launch
  // ---------------------------------------------------------------------

  /** The balance a launch leaves in memory, and the store after it. */
  datatype Boot = Boot(stars: int, settings: Settings)

  /** The launch hands out the starting grant: nothing saved and the flag unset. */
  predicate FirstLaunch(saved: Settings) {
    saved.Integer(StarsKey) == 0 && !saved.Bool(LaunchedKey)
  }

  /**
   * The initializer as written: load the saved balance; on a first launch
   * replace it by the grant and set the flag. Both balance assignments happen
   * inside the initializer, where Swift runs no property observer, so the
   * balance itself is never written back here.
   */
  function Launch(saved: Settings): (r: Boot)
    ensures r.settings.Integer(StarsKey) == saved.Integer(StarsKey)
    ensures r.settings.Bool(LaunchedKey) <==> saved.Bool(LaunchedKey) || FirstLaunch(saved)
    ensures r.stars == (if FirstLaunch(saved) then StartingGrant else saved.Integer(StarsKey))
    ensures !FirstLaunch(saved) ==> r == Boot(saved.Integer(StarsKey), saved)
  {
    var loaded := saved.Integer(StarsKey);
    if loaded == 0 && !saved.Bool(LaunchedKey) then
      Boot(StartingGrant, saved.SetBool(LaunchedKey, true))
    else
      Boot(loaded, saved)
  }

  /** A fresh install starts with the grant. */
  lemma FreshInstallGetsGrant()
    ensures Launch(FreshInstall).stars == StartingGrant
    ensures Launch(FreshInstall).settings.Bool(LaunchedKey)
  {
  }

  /**
   * The grant is handed out once: once a launch has granted it (or the flag
   * was already set), no store reached by writing balances grants it again,
   * even one whose balance was spent down to 0.
   */
  lemma GrantAtMostOnce(saved: Settings, balances: seq<int>)
    requires FirstLaunch(saved) || saved.Bool(LaunchedKey)
    ensures !FirstLaunch(WriteAll(Launch(saved).settings, balances))
  {
    WriteAllKeepsFlag(Launch(saved).settings, balances);
  }

  /** The store after the ledger wrote each balance in turn. */
  function WriteAll(s: Settings, balances: seq<int>): Settings
    decreases |balances|
  {
    if balances == [] then s else WriteAll(s.SetInteger(StarsKey, balances[0]), balances[1..])
  }

  /** Writing balances never touches the launched flag. */
  lemma {:induction false} WriteAllKeepsFlag(s: Settings, balances: seq<int>)
    ensures WriteAll(s, balances).Bool(LaunchedKey) == s.Bool(LaunchedKey)
    ensures balances != [] ==> WriteAll(s, balances).Integer(StarsKey) == balances[|balances| - 1]
    decreases |balances|
  {
    if balances != [] {
      WriteAllKeepsFlag(s.SetInteger(StarsKey, balances[0]), balances[1..]);
    }
  }

  /**
   * The initializer as written forgets the grant: after a fresh install and a
   * launch that changes nothing, the next launch loads a balance of 0.
   */
  lemma RelaunchLosesGrant()
    ensures Launch(FreshInstall).stars == StartingGrant
    ensures Launch(Launch(FreshInstall).settings).stars == 0
  {
  }

  /** The initializer with the grant written to the store as well. */
  function LaunchSaving(saved: Settings): (r: Boot)
    ensures r.settings.Integer(StarsKey) == r.stars
    ensures r.stars == (if FirstLaunch(saved) then StartingGrant else saved.Integer(StarsKey))
    ensures r.settings.Bool(LaunchedKey) <==> saved.Bool(LaunchedKey) || FirstLaunch(saved)
  {
    var loaded := saved.Integer(StarsKey);
    if loaded == 0 && !saved.Bool(LaunchedKey) then
      Boot(StartingGrant, saved.SetBool(LaunchedKey, true).SetInteger(StarsKey, StartingGrant))
    else
      Boot(loaded, saved)
  }

  /** With the grant saved, launching again reloads the same balance and store. */
  lemma RelaunchKeepsBalance(saved: Settings)
    ensures LaunchSaving(LaunchSaving(saved).settings) == LaunchSaving(saved)
  {
  }

  // ---------------------------------------------------------------------
  // Calls on a live ledger
  // ---------------------------------------------------------------------

  /** One call into the ledger. */
  datatype Call = Credit(amount: int) | Debit(amount: int) | Reset(amount: int)

  /** The test of both canAfford and the guard of spendStars. */
  predicate Affordable(balance: int, amount: int) {
    balance >= amount
  }

  /** The balance after one call. */
  function Apply(balance: int, call: Call): int {
    match call
    case Credit(a) => balance + a
    case Debit(a) => if Affordable(balance, a) then balance - a else balance
    case Reset(a) => a
  }

  /** The balance after a sequence of calls, in order. */
  function Replay(balance: int, calls: seq<Call>): int
    decreases |calls|
  {
    if calls == [] then balance else Replay(Apply(balance, calls[0]), calls[1..])
  }

  predicate NonNegativeAmounts(calls: seq<Call>) {
    forall i :: 0 <= i < |calls| ==> calls[i].amount >= 0
  }

  /** With non-negative amounts, no sequence of calls drives a non-negative balance below 0. */
  lemma {:induction false} ReplayStaysNonNegative(balance: int, calls: seq<Call>)
    requires balance >= 0
    requires NonNegativeAmounts(calls)
    ensures Replay(balance, calls) >= 0
    decreases |calls|
  {
    if calls != [] {
      assert NonNegativeAmounts(calls[1..]) by {
        forall i | 0 <= i < |calls[1..]| ensures calls[1..][i].amount >= 0 {
          assert calls[1..][i] == calls[i + 1];
        }
      }
      ReplayStaysNonNegative(Apply(balance, calls[0]), calls[1..]);
    }
  }

  /** Replaying two runs of calls is replaying the first, then the second. */
  lemma {:induction false} ReplayConcat(balance: int, xs: seq<Call>, ys: seq<Call>)
    ensures Replay(balance, xs + ys) == Replay(Replay(balance, xs), ys)
    decreases |xs|
  {
    if xs == [] {
      assert xs + ys == ys;
    } else {
      assert (xs + ys)[0] == xs[0];
      assert (xs + ys)[1..] == xs[1..] + ys;
      ReplayConcat(Apply(balance, xs[0]), xs[1..], ys);
    }
  }

  /** A reset at the end decides the balance, whatever came before. */
  lemma ResetForgetsHistory(balance: int, calls: seq<Call>, amount: int)
    ensures Replay(balance, calls + [Reset(amount)]) == amount
  {
    ReplayConcat(balance, calls, [Reset(amount)]);
  }

  /** Crediting n stars and then debiting n succeeds and restores a non-negative balance. */
  lemma CreditThenDebitRestores(balance: int, n: int)
    requires balance >= 0
    ensures Affordable(Apply(balance, Credit(n)), n)
    ensures Replay(balance, [Credit(n), Debit(n)]) == balance
  {
    var calls := [Credit(n), Debit(n)];
    assert calls[1..] == [Debit(n)] && [Debit(n)][1..] == [];
    assert Replay(balance, calls) == Replay(balance + n, [Debit(n)]);
  }

  /** The shared balance and the store it is written to. */
  class StarBank {
    var stars: int
    const store: Defaults

    /** The store holds the balance that is in memory. */
    ghost predicate Saved()
      reads this, store
    {
      store.data.Integer(StarsKey) == stars
    }

    /** Launching the app: load the balance, granting the starting stars once. */
    constructor (store: Defaults)
      modifies store
      ensures this.store == store
      ensures Boot(stars, store.data) == Launch(old(store.data))
    {
      this.store := store;
      var loaded := store.data.Integer(StarsKey);
      if loaded == 0 && !store.data.Bool(LaunchedKey) {
        stars := StartingGrant;
        store.SetBool(LaunchedKey, true);
      } else {
        stars := loaded;
      }
    }

    /** Launching with the grant saved together with the flag (the corrected initializer). */
    constructor Saving(store: Defaults)
      modifies store
      ensures this.store == store
      ensures Boot(stars, store.data) == LaunchSaving(old(store.data))
      ensures Saved()
    {
      this.store := store;
      var loaded := store.data.Integer(StarsKey);
      if loaded == 0 && !store.data.Bool(LaunchedKey) {
        stars := StartingGrant;
        store.SetBool(LaunchedKey, true);
        store.SetInteger(StarsKey, StartingGrant);
      } else {
        stars := loaded;
      }
    }

    /** The observer run after each assignment of the balance. */
    method SaveStars()
      modifies store
      ensures store.data == old(store.data).SetInteger(StarsKey, stars)
      ensures Saved()
    {
      store.SetInteger(StarsKey, stars);
    }

    method AddStars(amount: int)
      modifies this, store
      ensures stars == old(stars) + amount
      ensures stars == Apply(old(stars), Credit(amount))
      ensures store.data == old(store.data).SetInteger(StarsKey, stars)
      ensures Saved()
    {
      stars := stars + amount;
      SaveStars();
    }

    method SpendStars(amount: int) returns (ok: bool)
      modifies this, store
      ensures ok == old(CanAfford(amount))
      ensures ok ==> stars == old(stars) - amount && store.data == old(store.data).SetInteger(StarsKey, stars)
      ensures !ok ==> stars == old(stars) && unchanged(store)
      ensures stars == Apply(old(stars), Debit(amount))
      ensures old(Saved()) ==> Saved()
    {
      if stars < amount {
        return false;
      }
      stars := stars - amount;
      SaveStars();
      return true;
    }

    function CanAfford(amount: int): (r: bool)
      reads this
      ensures r <==> Affordable(stars, amount)
    {
      stars >= amount
    }

    method ResetStars(amount: int := 0)
      modifies this, store
      ensures stars == amount
      ensures stars == Apply(old(stars), Reset(amount))
      ensures store.data == old(store.data).SetInteger(StarsKey, stars)
      ensures Saved()
    {
      stars := amount;
      SaveStars();
    }
  }

  /** The life of one install, as the ledger's callers see it. */
  method FreshInstallScenario()
  {
    var device := new Defaults();
    var bank := new StarBank(device);
    FreshInstallGetsGrant();
    assert bank.stars == 128;
    bank.AddStars(5);
    assert bank.stars == 133;
    var ok := bank.SpendStars(133);
    assert ok && bank.stars == 0;
    ok := bank.SpendStars(1);
    assert !ok && bank.stars == 0;
    bank.ResetStars(50);
    assert bank.stars == 50 && bank.Saved();
    var relaunched := new StarBank(device);
    assert relaunched.stars == 50;
  }

  /** Launching twice on a fresh install, with the initializer as written and corrected. */
  method RelaunchScenario()
  {
    var device := new Defaults();
    var first := new StarBank(device);
    var second := new StarBank(device);
    RelaunchLosesGrant();
    assert first.stars == StartingGrant && second.stars == 0;

    var other := new Defaults();
    var fixedFirst := new StarBank.Saving(other);
    var fixedSecond := new StarBank.Saving(other);
    assert fixedFirst.stars == StartingGrant && fixedSecond.stars == StartingGrant;
  }
}
