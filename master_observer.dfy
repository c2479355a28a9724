/**
 * The master-side schema guard of Themis, `ThemisMasterObserver`: before a
 * table is created, a table that asks for Themis transactions (some family
 * carries `THEMIS_ENABLE` = true) has every family checked and switched to
 * unlimited versions, and gets the lock family added.
 *
 * Column family descriptors are objects that the guard updates in place;
 * the table descriptor holds them in its iteration order. `Family` is the
 * value a descriptor holds, and `PreCreateTableSpec` says, on values, what
 * the guard does to the table's families.
 */
module MasterObserver {
  import opened Common

  /** `ThemisMasterObserver.THEMIS_ENABLE_KEY`. */
  const ThemisEnableKey: string := "THEMIS_ENABLE"

  /** `HConstants.FOREVER`: the time-to-live of a family whose cells never expire. */
  const Forever: int := IntMax

  /** `HColumnDescriptor.DEFAULT_VERSIONS`. */
  const DefaultVersions: int := 3

  /**
   * What a column family descriptor holds: its name, its user values
   * (`getValue`), its time-to-live, its maximum number of versions and
   * whether it is kept in memory.
   */
  datatype Family = Family(name: string, values: map<string, string>, ttl: int, maxVersions: int, inMemory: bool)

  /** A descriptor just built by `new HColumnDescriptor(name)`: the defaults. */
  function NewFamily(name: string): (f: Family)
    ensures f.name == name && f.values == map[]
    ensures f.ttl == Forever && f.maxVersions == DefaultVersions && !f.inMemory
  {
    Family(name, map[], Forever, DefaultVersions, false)
  }

  /** The lock family `createLockFamily` builds. */
  function LockFamily(): Family {
    Family(LockFamilyName, map[], Forever, 1, true)
  }

  /** An `HColumnDescriptor`. */
  class ColumnDescriptor {
    const name: string
    var values: map<string, string>
    var timeToLive: int
    var maxVersions: int
    var inMemory: bool

    /** The value this descriptor holds. */
    function View(): Family
      reads this
    {
      Family(name, values, timeToLive, maxVersions, inMemory)
    }

    constructor (name: string)
      ensures View() == NewFamily(name)
    {
      this.name := name;
      values := map[];
      timeToLive := Forever;
      maxVersions := DefaultVersions;
      inMemory := false;
    }

    /** `getValue`: the user value under `key`, or null. */
    function GetValue(key: string): (v: Option<string>)
      reads this
      ensures v.Some? <==> key in values
      ensures v.Some? ==> v.value == values[key]
    {
      if key in values then Some(values[key]) else None
    }

    method SetMaxVersions(n: int)
      modifies this
      ensures View() == old(View()).(maxVersions := n)
    {
      maxVersions := n;
    }

    method SetInMemory(b: bool)
      modifies this
      ensures View() == old(View()).(inMemory := b)
    {
      inMemory := b;
    }

    method SetTimeToLive(ttl: int)
      modifies this
      ensures View() == old(View()).(ttl := ttl)
    {
      timeToLive := ttl;
    }
  }

  /** An `HTableDescriptor`: its families, each name at most once. */
  class TableDescriptor {
    const name: string
    var families: seq<ColumnDescriptor>

    ghost predicate Valid()
      reads this
    {
      forall i, j | 0 <= i < j < |families| :: families[i].name != families[j].name
    }

    /** The values the table's family descriptors hold, in iteration order. */
    ghost function Views(): (vs: seq<Family>)
      reads this, families
      ensures |vs| == |families|
      ensures forall k | 0 <= k < |families| :: vs[k] == families[k].View()
    {
      seq(|families|, k requires 0 <= k < |families| reads this, families => families[k].View())
    }

    /** The families come from a map keyed by name, so no two share a name. */
    constructor (name: string, families: seq<ColumnDescriptor>)
      requires forall i, j | 0 <= i < j < |families| :: families[i].name != families[j].name
      ensures Valid()
      ensures this.name == name && this.families == families
    {
      this.name := name;
      this.families := families;
    }

    /**
     * `addFamily`: the families are keyed by name, so `f` replaces the
     * family of the same name if there is one, and is added otherwise.
     */
    method AddFamily(f: ColumnDescriptor)
      requires Valid()
      modifies this
      ensures Valid()
      ensures var k := FamilyIndex(old(families), f.name);
        if k < |old(families)| then families == old(families)[k := f] else families == old(families) + [f]
    {
      var k := FamilyIndex(families, f.name);
      if k < |families| {
        families := families[k := f];
      } else {
        families := families + [f];
      }
    }
  }

  /** Where the family named `name` sits in `fs`, or `|fs|` if there is none. */
  function FamilyIndex(fs: seq<ColumnDescriptor>, name: string): (k: nat)
    ensures k <= |fs|
    ensures k < |fs| ==> fs[k].name == name
    ensures k == |fs| <==> forall j | 0 <= j < |fs| :: fs[j].name != name
  {
    if fs == [] then 0
    else if fs[0].name == name then 0
    else 1 + FamilyIndex(fs[1..], name)
  }

  // ---------------------------------------------------------------------
  // Is Themis asked for?
  // ---------------------------------------------------------------------

  /** ASCII lower case. */
  function ToLower(c: char): char {
    if 'A' <= c <= 'Z' then (c as int + 32) as char else c
  }

  /**
   * `Boolean.parseBoolean` on a non-null string: `"true"`, ignoring case.
   * Only ASCII letters fold onto the letters of `"true"`.
   */
  predicate ParseBoolean(s: string) {
    |s| == 4 && ToLower(s[0]) == 't' && ToLower(s[1]) == 'r' && ToLower(s[2]) == 'u' && ToLower(s[3]) == 'e'
  }

  /**
   * `Boolean.parseBoolean` accepts exactly the four-letter strings that
   * spell "true" with each letter in lower or upper case.
   */
  lemma ParseBooleanAcceptsTrue(s: string)
    ensures ParseBoolean(s) <==>
      && |s| == 4
      && (s[0] == 't' || s[0] == 'T') && (s[1] == 'r' || s[1] == 'R')
      && (s[2] == 'u' || s[2] == 'U') && (s[3] == 'e' || s[3] == 'E')
    ensures ParseBoolean("true") && ParseBoolean("TRUE") && ParseBoolean("True")
    ensures !ParseBoolean("false") && !ParseBoolean("yes") && !ParseBoolean("1") && !ParseBoolean("")
  {
  }

  /** The family asks for Themis: its `THEMIS_ENABLE` value is present and parses as true. */
  predicate FamilyEnables(f: Family) {
    ThemisEnableKey in f.values && ParseBoolean(f.values[ThemisEnableKey])
  }

  /** Some family of the table asks for Themis. */
  predicate ThemisEnabled(fams: seq<Family>) {
    exists k | 0 <= k < |fams| :: FamilyEnables(fams[k])
  }

  /**
   * The first loop of `preCreateTable`: looks for a family whose
   * `THEMIS_ENABLE` value is true, stopping at the first one.
   */
  method FindThemisEnable(desc: TableDescriptor) returns (themisEnable: bool)
    ensures themisEnable == ThemisEnabled(desc.Views())
  {
    themisEnable := false;
    var i := 0;
    while i < |desc.families|
      invariant 0 <= i <= |desc.families|
      invariant forall k | 0 <= k < i :: !FamilyEnables(desc.families[k].View())
    {
      var value := desc.families[i].GetValue(ThemisEnableKey);
      if value.Some? && ParseBoolean(value.value) {
        themisEnable := true;
        break;
      }
      i := i + 1;
    }
  }

  // ---------------------------------------------------------------------
  // The checks made on each family when Themis is asked for.
  // ---------------------------------------------------------------------

  /** Why `preCreateTable` refuses a table (its `DoNotRetryIOException`). */
  datatype CreateError =
    | ReservedFamilyName(family: string)
    | TtlSet(family: string, ttl: int)
    | MaxVersionsSet(family: string, maxVersions: int)

  /**
   * The first check a family fails, in the order they are made: the
   * reserved lock family name, a time-to-live other than forever, and a
   * version limit other than the default or unlimited.
   */
  function Violation(f: Family): (e: Option<CreateError>)
    ensures e.None? <==>
      f.name != LockFamilyName && f.ttl == Forever && (f.maxVersions == DefaultVersions || f.maxVersions == IntMax)
  {
    if f.name == LockFamilyName then Some(ReservedFamilyName(f.name))
    else if f.ttl != Forever then Some(TtlSet(f.name, f.ttl))
    else if f.maxVersions != DefaultVersions && f.maxVersions != IntMax then Some(MaxVersionsSet(f.name, f.maxVersions))
    else None
  }

  /** The index of the first family that fails a check, if any. */
  function FirstViolation(fams: seq<Family>): (r: Option<nat>)
    ensures r.Some? ==> r.value < |fams|
  {
    if fams == [] then None
    else if Violation(fams[0]).Some? then Some(0)
    else
      match FirstViolation(fams[1..])
      case None => None
      case Some(k) => Some(k + 1)
  }

  /**
   * `FirstViolation` finds the first family that fails a check, and finds
   * none exactly when every family passes.
   */
  lemma {:induction false} FirstViolationIsFirst(fams: seq<Family>)
    ensures var r := FirstViolation(fams);
      && (r.None? <==> forall k | 0 <= k < |fams| :: Violation(fams[k]).None?)
      && (r.Some? ==> Violation(fams[r.value]).Some? && forall k | 0 <= k < r.value :: Violation(fams[k]).None?)
  {
    if fams != [] {
      FirstViolationIsFirst(fams[1..]);
      assert forall k | 1 <= k < |fams| :: fams[k] == fams[1..][k - 1];
    }
  }

  /** A family once the guard has lifted its version limit. */
  function Unlimited(f: Family): Family {
    f.(maxVersions := IntMax)
  }

  function UnlimitedAll(fams: seq<Family>): seq<Family> {
    seq(|fams|, k requires 0 <= k < |fams| => Unlimited(fams[k]))
  }

  /** Whether `preCreateTable` threw, and the families the table then has. */
  datatype CreateOutcome = CreateOutcome(error: Option<CreateError>, families: seq<Family>)

  /**
   * The checking loop on values: every family checked so far has its
   * version limit lifted, and the loop stops at the first family that
   * fails a check.
   */
  function CheckAndLift(fams: seq<Family>): CreateOutcome {
    match FirstViolation(fams)
    case None => CreateOutcome(None, UnlimitedAll(fams))
    case Some(k) => CreateOutcome(Violation(fams[k]), UnlimitedAll(fams[..k]) + fams[k..])
  }

  /**
   * What `preCreateTable` does to a table with families `fams`: nothing
   * unless Themis is asked for; otherwise the checking loop, and, when no
   * family fails a check, the lock family added.
   */
  function PreCreateTableSpec(fams: seq<Family>): (o: CreateOutcome)
    ensures |o.families| == if ThemisEnabled(fams) && o.error.None? then |fams| + 1 else |fams|
  {
    if !ThemisEnabled(fams) then CreateOutcome(None, fams)
    else
      var checked := CheckAndLift(fams);
      if checked.error.None? then CreateOutcome(None, checked.families + [LockFamily()]) else checked
  }

  /** When every family passes its checks, none has the lock family's name. */
  lemma NoneReserved(fams: seq<Family>)
    requires CheckAndLift(fams).error.None?
    ensures forall j | 0 <= j < |fams| :: CheckAndLift(fams).families[j].name != LockFamilyName
  {
    FirstViolationIsFirst(fams);
  }

  /** The family at `k` fails a check and none before it does: `k` is the first violation. */
  lemma {:induction false} FirstViolationAt(fams: seq<Family>, k: nat)
    requires k < |fams| && Violation(fams[k]).Some?
    requires forall j | 0 <= j < k :: Violation(fams[j]).None?
    ensures FirstViolation(fams) == Some(k)
  {
    if k > 0 {
      assert Violation(fams[0]).None?;
      assert forall j | 0 <= j < k - 1 :: fams[1..][j] == fams[j + 1];
      FirstViolationAt(fams[1..], k - 1);
    }
  }

  /**
   * Where the checking loop stops: at the first family that fails, or
   * after the last; the families before that point are lifted and the
   * rest untouched.
   */
  lemma CheckAndLiftStopped(fams: seq<Family>, vs: seq<Family>, i: nat, error: Option<CreateError>)
    requires |vs| == |fams| && i <= |fams|
    requires error.Some? ==> i < |fams| && error == Violation(fams[i])
    requires error.None? ==> i == |fams|
    requires forall k | 0 <= k < i :: vs[k] == Unlimited(fams[k]) && Violation(fams[k]).None?
    requires forall k | i <= k < |fams| :: vs[k] == fams[k]
    ensures CheckAndLift(fams) == CreateOutcome(error, vs)
  {
    LiftedUpTo(vs, fams, i);
    if error.Some? {
      FirstViolationAt(fams, i);
    } else {
      FirstViolationIsFirst(fams);
      assert fams[..i] == fams;
    }
  }

  /** Families lifted before index `i` and untouched from it on. */
  lemma LiftedUpTo(vs: seq<Family>, fams: seq<Family>, i: nat)
    requires |vs| == |fams| && i <= |fams|
    requires forall k | 0 <= k < i :: vs[k] == Unlimited(fams[k])
    requires forall k | i <= k < |fams| :: vs[k] == fams[k]
    ensures vs == UnlimitedAll(fams[..i]) + fams[i..]
  {
  }

  // ---------------------------------------------------------------------
  // The observer's operations.
  // ---------------------------------------------------------------------

  /**
   * `ThemisMasterObserver.createLockFamily`: a new descriptor for the lock
   * family, kept in memory, with one version and no expiry.
   */
  method CreateLockFamily() returns (desc: ColumnDescriptor)
    ensures fresh(desc)
    ensures desc.View() == LockFamily()
  {
    desc := new ColumnDescriptor(LockFamilyName);
    desc.SetInMemory(true);
    desc.SetMaxVersions(1);
    desc.SetTimeToLive(Forever);
  }

  /**
   * The checks `preCreateTable` makes on one family when Themis is asked
   * for, in their order, each throwing with its own message.
   */
  method CheckColumnFamily(cd: ColumnDescriptor) returns (error: Option<CreateError>)
    ensures error == Violation(cd.View())
  {
    if cd.name == LockFamilyName {
      return Some(ReservedFamilyName(LockFamilyName));
    }
    if cd.timeToLive != Forever {
      return Some(TtlSet(cd.name, cd.timeToLive));
    }
    if cd.maxVersions != DefaultVersions && cd.maxVersions != IntMax {
      return Some(MaxVersionsSet(cd.name, cd.maxVersions));
    }
    return None;
  }

  /**
   * The second loop of `preCreateTable`: checks the families in turn,
   * lifting each one's version limit once it passes, and stops at the
   * first that fails. The descriptors are updated in place.
   */
  method CheckAndLiftFamilies(desc: TableDescriptor) returns (error: Option<CreateError>)
    requires desc.Valid()
    modifies desc.families
    ensures var o := CheckAndLift(old(desc.Views()));
      error == o.error && desc.Views() == o.families
  {
    ghost var fams := desc.Views();
    var cds := desc.families;
    var i := 0;
    error := None;
    while i < |cds| && error.None?
      invariant 0 <= i <= |cds|
      invariant error.Some? ==> i < |cds| && error == Violation(fams[i])
      invariant forall k | 0 <= k < i :: cds[k].View() == Unlimited(fams[k])
      invariant forall k | i <= k < |cds| :: cds[k].View() == fams[k]
      invariant forall k | 0 <= k < i :: Violation(fams[k]).None?
      decreases |cds| - i, error.None?
    {
      var cd := cds[i];
      error := CheckColumnFamily(cd);
      if error.None? {
        cd.SetMaxVersions(IntMax);
        i := i + 1;
      }
    }
    CheckAndLiftStopped(fams, desc.Views(), i, error);
  }

  /**
   * `ThemisMasterObserver.preCreateTable`: when some family asks for
   * Themis, checks every family in turn, lifting each one's version limit
   * once it passes, and throws at the first that fails; when all pass, adds
   * the lock family.
   */
  method PreCreateTable(desc: TableDescriptor) returns (error: Option<CreateError>)
    requires desc.Valid()
    modifies desc, desc.families
    ensures desc.Valid()
    ensures var o := PreCreateTableSpec(old(desc.Views()));
      error == o.error && desc.Views() == o.families
    ensures old(desc.families) <= desc.families
    ensures |desc.families| > |old(desc.families)| ==> fresh(desc.families[|old(desc.families)|])
  {
    ghost var fams := desc.Views();
    var themisEnable := FindThemisEnable(desc);
    if !themisEnable {
      return None;
    }
    error := CheckAndLiftFamilies(desc);
    if error.None? {
      NoneReserved(fams);
      AddLockFamily(desc);
    }
  }

  /**
   * The last step of `preCreateTable` once every family passed: adds a new
   * lock family, which, no family having its name, goes after the others.
   */
  method AddLockFamily(desc: TableDescriptor)
    requires desc.Valid()
    requires forall j | 0 <= j < |desc.families| :: desc.Views()[j].name != LockFamilyName
    modifies desc
    ensures desc.Valid()
    ensures |desc.families| == |old(desc.families)| + 1
    ensures desc.families[..|old(desc.families)|] == old(desc.families) && fresh(desc.families[|old(desc.families)|])
    ensures desc.Views() == old(desc.Views()) + [LockFamily()]
  {
    ghost var cds := desc.families;
    ghost var views := desc.Views();
    assert forall j | 0 <= j < |cds| :: cds[j].name == views[j].name;
    var lock := CreateLockFamily();
    desc.AddFamily(lock);
    assert desc.families == cds + [lock];
    assert desc.Views() == views + [LockFamily()];
  }

  // ---------------------------------------------------------------------
  // What `preCreateTable` promises, proved of `PreCreateTableSpec`.
  // ---------------------------------------------------------------------

  /**
   * Creation goes through exactly when Themis is not asked for or every
   * family passes its checks; a table that does not ask for Themis is left
   * as it was.
   */
  lemma PreCreateTableSucceedsIff(fams: seq<Family>)
    ensures !ThemisEnabled(fams) ==> PreCreateTableSpec(fams).families == fams
    ensures PreCreateTableSpec(fams).error.None? <==>
      !ThemisEnabled(fams) || forall k | 0 <= k < |fams| :: Violation(fams[k]).None?
  {
    FirstViolationIsFirst(fams);
  }

  /** With Themis asked for, a family named like the lock family makes creation fail. */
  lemma RejectsReservedName(fams: seq<Family>, k: nat)
    requires ThemisEnabled(fams) && k < |fams| && fams[k].name == LockFamilyName
    ensures PreCreateTableSpec(fams).error.Some?
  {
    FirstViolationIsFirst(fams);
  }

  /** With Themis asked for, any family with an expiry makes creation fail, flagged or not. */
  lemma RejectsTimeToLive(fams: seq<Family>, k: nat)
    requires ThemisEnabled(fams) && k < |fams| && fams[k].ttl != Forever
    ensures PreCreateTableSpec(fams).error.Some?
  {
    FirstViolationIsFirst(fams);
  }

  /** With Themis asked for, a version limit other than the default or unlimited makes creation fail. */
  lemma RejectsMaxVersions(fams: seq<Family>, k: nat)
    requires ThemisEnabled(fams) && k < |fams|
    requires fams[k].maxVersions != DefaultVersions && fams[k].maxVersions != IntMax
    ensures PreCreateTableSpec(fams).error.Some?
  {
    FirstViolationIsFirst(fams);
  }

  /**
   * On success with Themis asked for, every family keeps everything but
   * its version limit, which becomes unlimited, and exactly one family is
   * added after them: the lock family, the only one of that name.
   */
  lemma SuccessAddsOnlyLockFamily(fams: seq<Family>)
    requires ThemisEnabled(fams) && PreCreateTableSpec(fams).error.None?
    ensures var out := PreCreateTableSpec(fams).families;
      && |out| == |fams| + 1
      && (forall k | 0 <= k < |fams| :: out[k] == fams[k].(maxVersions := IntMax))
      && out[|fams|] == LockFamily()
      && (forall k | 0 <= k < |fams| :: out[k].name != LockFamilyName)
  {
    FirstViolationIsFirst(fams);
  }

  /** The families the checking loop leaves when it stops at family `k`. */
  lemma CheckAndLiftStopsAt(fams: seq<Family>, k: nat)
    requires FirstViolation(fams) == Some(k)
    ensures var out := CheckAndLift(fams).families;
      && |out| == |fams|
      && (forall j | 0 <= j < k :: out[j] == fams[j].(maxVersions := IntMax))
      && (forall j | k <= j < |fams| :: out[j] == fams[j])
  {
    var lifted := UnlimitedAll(fams[..k]);
    var out := lifted + fams[k..];
    assert CheckAndLift(fams).families == out;
    forall j | 0 <= j < k
      ensures out[j] == Unlimited(fams[j])
    {
      assert out[j] == lifted[j];
    }
    forall j | k <= j < |fams|
      ensures out[j] == fams[j]
    {
      assert out[j] == fams[k..][j - k];
    }
  }

  /**
   * On failure no family is added: the families before the first one that
   * fails have their version limit lifted already, and the rest are as
   * they were.
   */
  lemma FailureAddsNoFamily(fams: seq<Family>)
    requires PreCreateTableSpec(fams).error.Some?
    ensures FirstViolation(fams).Some?
    ensures var k := FirstViolation(fams).value;
      var out := PreCreateTableSpec(fams).families;
      && PreCreateTableSpec(fams).error == Violation(fams[k])
      && (forall j | 0 <= j < k :: Violation(fams[j]).None?)
      && |out| == |fams|
      && (forall j | 0 <= j < k :: out[j] == fams[j].(maxVersions := IntMax))
      && (forall j | k <= j < |fams| :: out[j] == fams[j])
  {
    assert PreCreateTableSpec(fams) == CheckAndLift(fams);
    FirstViolationIsFirst(fams);
    CheckAndLiftStopsAt(fams, FirstViolation(fams).value);
  }

  /**
   * A table the guard has converted would be refused if submitted again:
   * it still asks for Themis and now holds a family with the lock family's
   * name, while every other family passes.
   */
  lemma ConvertedTableIsRefused(fams: seq<Family>)
    requires ThemisEnabled(fams) && PreCreateTableSpec(fams).error.None?
    ensures PreCreateTableSpec(PreCreateTableSpec(fams).families).error == Some(ReservedFamilyName(LockFamilyName))
  {
    var out := PreCreateTableSpec(fams).families;
    SuccessAddsOnlyLockFamily(fams);
    var k :| 0 <= k < |fams| && FamilyEnables(fams[k]);
    assert FamilyEnables(out[k]);
    FirstViolationIsFirst(fams);
    assert forall j | 0 <= j < |fams| :: Violation(out[j]).None?;
    FirstViolationAt(out, |fams|);
  }

  /** A family "cf" that asks for Themis and sets nothing else is accepted, and the lock family added. */
  lemma AcceptsPlainThemisTable()
    ensures var cf := NewFamily("cf").(values := map[ThemisEnableKey := "true"]);
      PreCreateTableSpec([cf]) == CreateOutcome(None, [cf.(maxVersions := IntMax), LockFamily()])
  {
    var cf := NewFamily("cf").(values := map[ThemisEnableKey := "true"]);
    assert FamilyEnables(cf);
    FirstViolationIsFirst([cf]);
  }

  /** The same family with an expiry of an hour makes creation fail. */
  lemma RefusesThemisTableWithExpiry()
    ensures var cf := NewFamily("cf").(values := map[ThemisEnableKey := "TRUE"], ttl := 3600);
      PreCreateTableSpec([cf]) == CreateOutcome(Some(TtlSet("cf", 3600)), [cf])
  {
    var cf := NewFamily("cf").(values := map[ThemisEnableKey := "TRUE"], ttl := 3600);
    assert FamilyEnables(cf);
    FirstViolationAt([cf], 0);
  }
}
