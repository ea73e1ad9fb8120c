/**
 * awg_factory.py: a dictionary from a driver's SHORT_NAME to its class,
 * filled once at import time with the drivers the program ships enabled.
 * A driver class is represented by a constructor of Driver; which driver
 * is chosen decides nothing else here.
 */
module Factory {
  import opened Wrappers

  /** The driver classes of awgdrivers/, the registered ones and the two that are not. */
  datatype Driver = DummyAWG | JDS6600 | BK4075 | FY6600 | FygenAWG | FY3200S | PS3000A

  /** The class attribute SHORT_NAME of each driver. */
  function ShortName(d: Driver): string
  {
    match d
    case DummyAWG => "dummy"
    case JDS6600 => "jds6600"
    case BK4075 => "bk4075"
    case FY6600 => "fy6600"
    case FygenAWG => "fy"
    case FY3200S => "fy3200S"
    case PS3000A => "ps3000a"
  }

  /** Subscripting the dictionary with a missing key raises KeyError. */
  datatype LookupError = KeyError(name: string)

  /** What get_class_by_name returns or raises on the dictionary awgs. */
  function Lookup(awgs: map<string, Driver>, shortName: string): Result<Driver, LookupError>
  {
    if shortName in awgs then Success(awgs[shortName]) else Failure(KeyError(shortName))
  }

  /** The dictionary after add_awg(driver.SHORT_NAME, driver) for each driver in turn. */
  function Registered(awgs: map<string, Driver>, drivers: seq<Driver>): map<string, Driver>
    decreases |drivers|
  {
    if drivers == [] then awgs
    else
      var last := drivers[|drivers| - 1];
      Registered(awgs, drivers[..|drivers| - 1])[ShortName(last) := last]
  }

  /** The tuple the module registers, in order. */
  const Drivers: seq<Driver> := [DummyAWG, JDS6600, BK4075, FY6600, FygenAWG]

  class AwgFactory {
    var awgs: map<string, Driver>

    constructor()
      ensures awgs == map[]
    {
      awgs := map[];
    }

    method AddAwg(shortName: string, awgClass: Driver)
      modifies this
      ensures awgs == old(awgs)[shortName := awgClass]
    {
      awgs := awgs[shortName := awgClass];
    }

    /** The class registered under shortName, or KeyError. */
    method GetClassByName(shortName: string) returns (r: Result<Driver, LookupError>)
      ensures r == Lookup(awgs, shortName)
      ensures r.Success? <==> shortName in awgs
      ensures r.Success? ==> r.value == awgs[shortName]
    {
      if shortName in awgs {
        r := Success(awgs[shortName]);
      } else {
        r := Failure(KeyError(shortName));
      }
    }

    /** The registration loop at the foot of the module. */
    method AddAll(drivers: seq<Driver>)
      modifies this
      ensures awgs == Registered(old(awgs), drivers)
    {
      var i := 0;
      while i < |drivers|
        invariant 0 <= i <= |drivers|
        invariant awgs == Registered(old(awgs), drivers[..i])
      {
        assert drivers[..i + 1][..i] == drivers[..i];
        AddAwg(ShortName(drivers[i]), drivers[i]);
        i := i + 1;
      }
      assert drivers[..i] == drivers;
    }
  }

  /** The module-level awg_factory. */
  method ModuleFactory() returns (f: AwgFactory)
    ensures fresh(f) && f.awgs == Registered(map[], Drivers)
  {
    f := new AwgFactory();
    f.AddAll(Drivers);
  }

  /** After add_awg(n, c), get_class_by_name(n) returns c and every other name looks up as before. */
  lemma AddThenLookup(awgs: map<string, Driver>, n: string, c: Driver, other: string)
    ensures Lookup(awgs[n := c], n) == Success(c)
    ensures other != n ==> Lookup(awgs[n := c], other) == Lookup(awgs, other)
  {
  }

  /** Adding a name twice keeps only the second class. */
  lemma AddOverwrites(awgs: map<string, Driver>, n: string, c1: Driver, c2: Driver)
    ensures awgs[n := c1][n := c2] == awgs[n := c2]
    ensures Lookup(awgs[n := c1][n := c2], n) == Success(c2)
  {
  }

  /** A name is present after registering exactly when it was before or some registered driver carries it. */
  lemma {:induction false} RegisteredNames(awgs: map<string, Driver>, drivers: seq<Driver>, n: string)
    ensures n in Registered(awgs, drivers) <==> n in awgs || exists i :: 0 <= i < |drivers| && ShortName(drivers[i]) == n
    decreases |drivers|
  {
    if drivers != [] {
      var init := drivers[..|drivers| - 1];
      RegisteredNames(awgs, init, n);
      if exists i :: 0 <= i < |drivers| && ShortName(drivers[i]) == n {
        var i :| 0 <= i < |drivers| && ShortName(drivers[i]) == n;
        if i < |init| {
          assert init[i] == drivers[i];
        }
      }
      if exists i :: 0 <= i < |init| && ShortName(init[i]) == n {
        var i :| 0 <= i < |init| && ShortName(init[i]) == n;
        assert drivers[i] == init[i];
      }
    }
  }

  /** A name maps to the last driver registered under it. */
  lemma {:induction false} RegisteredLast(awgs: map<string, Driver>, drivers: seq<Driver>, i: nat)
    requires i < |drivers|
    requires forall j :: i < j < |drivers| ==> ShortName(drivers[j]) != ShortName(drivers[i])
    ensures ShortName(drivers[i]) in Registered(awgs, drivers)
    ensures Registered(awgs, drivers)[ShortName(drivers[i])] == drivers[i]
    decreases |drivers|
  {
    if i < |drivers| - 1 {
      var init := drivers[..|drivers| - 1];
      assert init[i] == drivers[i];
      forall j | i < j < |init|
        ensures ShortName(init[j]) != ShortName(init[i])
      {
        assert init[j] == drivers[j];
      }
      RegisteredLast(awgs, init, i);
    }
  }

  /** A name no registered driver carries keeps whatever it mapped to before. */
  lemma {:induction false} RegisteredUntouched(awgs: map<string, Driver>, drivers: seq<Driver>, n: string)
    requires n in awgs
    requires forall j :: 0 <= j < |drivers| ==> ShortName(drivers[j]) != n
    ensures n in Registered(awgs, drivers) && Registered(awgs, drivers)[n] == awgs[n]
    decreases |drivers|
  {
    if drivers != [] {
      var init := drivers[..|drivers| - 1];
      forall j | 0 <= j < |init|
        ensures ShortName(init[j]) != n
      {
        assert init[j] == drivers[j];
      }
      RegisteredUntouched(awgs, init, n);
    }
  }

  /**
   * The module registry answers for dummy, jds6600, bk4075, fy6600 and fy,
   * each with its own driver, and raises KeyError for anything else: the
   * FY3200S and PS3000A drivers exist but cannot be selected.
   */
  lemma ModuleRegistry()
    ensures Registered(map[], Drivers)
         == map["dummy" := DummyAWG, "jds6600" := JDS6600, "bk4075" := BK4075, "fy6600" := FY6600, "fy" := FygenAWG]
    ensures forall d :: Lookup(Registered(map[], Drivers), ShortName(d)).Success? <==> d !in {FY3200S, PS3000A}
    ensures Lookup(Registered(map[], Drivers), "fy3200S") == Failure(KeyError("fy3200S"))
    ensures Lookup(Registered(map[], Drivers), "ps3000a") == Failure(KeyError("ps3000a"))
  {
    var m1 := Registered(map[], Drivers[..1]);
    var m2 := Registered(map[], Drivers[..2]);
    var m3 := Registered(map[], Drivers[..3]);
    var m4 := Registered(map[], Drivers[..4]);
    assert Drivers[..1][..0] == [];
    assert Registered(map[], Drivers[..1][..0]) == map[];
    assert m1 == map["dummy" := DummyAWG];
    assert Drivers[..2][..1] == Drivers[..1];
    assert m2 == m1["jds6600" := JDS6600];
    assert Drivers[..3][..2] == Drivers[..2];
    assert m3 == m2["bk4075" := BK4075];
    assert Drivers[..4][..3] == Drivers[..3];
    assert m4 == m3["fy6600" := FY6600];
    assert Drivers[..4] == Drivers[..|Drivers| - 1];
    assert Registered(map[], Drivers) == m4["fy" := FygenAWG];
    var m := Registered(map[], Drivers);
    forall d
      ensures Lookup(m, ShortName(d)).Success? <==> d !in {FY3200S, PS3000A}
    {
      match d
      case FY3200S => assert ShortName(d) !in m;
      case PS3000A => assert ShortName(d) !in m;
      case _ =>
    }
  }

  /** Each registered driver is found under its own SHORT_NAME. */
  lemma RegistryFindsEachDriver(d: Driver)
    requires d in Drivers
    ensures Lookup(Registered(map[], Drivers), ShortName(d)) == Success(d)
  {
    ModuleRegistry();
  }
}
