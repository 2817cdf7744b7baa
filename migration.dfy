/** Schema migration of stored canvases: dotted-version comparison, the upgrade to version
    1.0.0 that fills in missing fields, the pass over every stored canvas, and the structural
    validation of a canvas object.  Canvases are handled as the parsed JSON objects they are
    stored as. */
module Migration {
  import opened Base
  import opened Strings
  import opened Js

  const CurrentVersion: string := "1.0.0"

  // ---------------------------------------------------------------- version numbers

  /** `Number(part) || 0` for a component of a version string: a string of decimal digits
      reads as its value, the empty string as 0, and anything `Number` cannot read (NaN) as
      0 too. */
  function NumberOf(s: string): (r: real)
    ensures r >= 0.0
    ensures s == "" ==> r == 0.0
  {
    if forall k :: 0 <= k < |s| ==> IsDigit(s[k]) then DigitsValue(s) as real else 0.0
  }

  /** `parts.map(Number)`. */
  function Numbers(parts: seq<string>): seq<real>
  {
    if parts == [] then [] else [NumberOf(parts[0])] + Numbers(parts[1..])
  }

  /** `v.split('.').map(Number)`. */
  function Parts(v: string): seq<real>
  {
    Numbers(Split(v, '.'))
  }

  /** `parts[i] || 0`: a missing component counts as 0. */
  function Component(ps: seq<real>, i: nat): real
  {
    if i < |ps| then ps[i] else 0.0
  }

  function MaxLen(ps: seq<real>, qs: seq<real>): nat
  {
    if |ps| < |qs| then |qs| else |ps|
  }

  /** The comparison from component `i` on: the first component that differs decides. */
  function CompareFrom(ps: seq<real>, qs: seq<real>, i: nat): (r: int)
    decreases MaxLen(ps, qs) - i
    ensures r == -1 || r == 0 || r == 1
  {
    if i >= MaxLen(ps, qs) then 0
    else if Component(ps, i) < Component(qs, i) then -1
    else if Component(ps, i) > Component(qs, i) then 1
    else CompareFrom(ps, qs, i + 1)
  }

  /** `compareVersions(v1, v2)`: -1, 0 or 1. */
  function VersionCompare(v1: string, v2: string): (r: int)
    ensures r == -1 || r == 0 || r == 1
  {
    CompareFrom(Parts(v1), Parts(v2), 0)
  }

  /** The comparison reads missing components as 0 and is 0 exactly when all components
      agree. */
  lemma {:induction false} CompareFromEqual(ps: seq<real>, qs: seq<real>, i: nat)
    decreases MaxLen(ps, qs) - i
    ensures CompareFrom(ps, qs, i) == 0 <==> forall j :: i <= j ==> Component(ps, j) == Component(qs, j)
  {
    if i >= MaxLen(ps, qs) {
      forall j | i <= j ensures Component(ps, j) == Component(qs, j) == 0.0 {}
    } else if Component(ps, i) == Component(qs, i) {
      CompareFromEqual(ps, qs, i + 1);
      if forall j :: i + 1 <= j ==> Component(ps, j) == Component(qs, j) {
        forall j | i <= j ensures Component(ps, j) == Component(qs, j) {
          if j > i {
            assert i + 1 <= j;
          }
        }
      }
    }
  }

  /** The comparison is lexicographic: -1 exactly when, at the first component where the
      versions differ, the first version's is smaller. */
  lemma {:induction false} CompareFromLess(ps: seq<real>, qs: seq<real>, i: nat)
    decreases MaxLen(ps, qs) - i
    ensures CompareFrom(ps, qs, i) == -1 <==>
      exists k :: i <= k && Component(ps, k) < Component(qs, k)
        && forall j :: i <= j < k ==> Component(ps, j) == Component(qs, j)
  {
    if i >= MaxLen(ps, qs) {
      forall k | i <= k ensures Component(ps, k) == Component(qs, k) == 0.0 {}
    } else if Component(ps, i) == Component(qs, i) {
      CompareFromLess(ps, qs, i + 1);
      if exists k :: i <= k && Component(ps, k) < Component(qs, k)
          && forall j :: i <= j < k ==> Component(ps, j) == Component(qs, j) {
        var k :| i <= k && Component(ps, k) < Component(qs, k)
          && forall j :: i <= j < k ==> Component(ps, j) == Component(qs, j);
        assert i + 1 <= k;
      }
    }
  }

  /** Swapping the arguments negates the result, and a version equals itself. */
  lemma {:induction false} CompareFromAntisymmetric(ps: seq<real>, qs: seq<real>, i: nat)
    decreases MaxLen(ps, qs) - i
    ensures CompareFrom(ps, qs, i) == -CompareFrom(qs, ps, i)
    ensures CompareFrom(ps, ps, i) == 0
  {
    if i < MaxLen(ps, qs) {
      CompareFromAntisymmetric(ps, qs, i + 1);
    }
    if i < |ps| {
      CompareFromAntisymmetric(ps, ps, i + 1);
    }
  }

  lemma VersionCompareAntisymmetric(v1: string, v2: string)
    ensures VersionCompare(v1, v2) == -VersionCompare(v2, v1)
    ensures VersionCompare(v1, v1) == 0
  {
    CompareFromAntisymmetric(Parts(v1), Parts(v2), 0);
    CompareFromAntisymmetric(Parts(v1), Parts(v1), 0);
  }

  /** A one-character version splits into itself. */
  lemma SplitSingle(c: char)
    requires c != '.'
    ensures Split([c], '.') == [[c]]
  {
    assert [c][1..] == [];
    assert Split([], '.') == [[]];
    assert [c] + [] == [c];
  }

  /** One step of splitting a version that starts with a digit followed by a separator. */
  lemma SplitStep(c: char, rest: string)
    requires c != '.' && |rest| >= 1 && rest[0] == '.'
    ensures Split([c] + rest, '.') == [[c]] + Split(rest[1..], '.')
  {
    var s := [c] + rest;
    assert s[0] == c && s[1..] == rest;
    var tail := Split(rest, '.');
    assert tail == [[]] + Split(rest[1..], '.');
    assert tail[0] == [] && tail[1..] == Split(rest[1..], '.');
    assert Split(s, '.') == [[c] + tail[0]] + tail[1..];
    assert [c] + tail[0] == [c];
  }

  /** The components of the one-dot version "1.0". */
  lemma PartsOfShort()
    ensures Parts("1.0") == [1.0, 0.0]
  {
    SplitSingle('0');
    assert "1.0" == ['1'] + ".0";
    assert ".0"[1..] == "0";
    SplitStep('1', ".0");
    assert Split("1.0", '.') == ["1", "0"];
    NumbersOfDigits(["1", "0"]);
  }

  /** "0.0" splits into two components. */
  lemma SplitZeroZero()
    ensures Split("0.0", '.') == ["0", "0"]
  {
    SplitSingle('0');
    assert "0.0" == ['0'] + ".0";
    assert ".0"[1..] == "0";
    SplitStep('0', ".0");
  }

  /** The components of the current version "1.0.0". */
  lemma PartsOfCurrent()
    ensures Parts(CurrentVersion) == [1.0, 0.0, 0.0]
  {
    SplitZeroZero();
    assert "1.0.0" == ['1'] + ".0.0";
    assert ".0.0"[1..] == "0.0";
    SplitStep('1', ".0.0");
    assert Split("1.0.0", '.') == ["1", "0", "0"];
    NumbersOfDigits(["1", "0", "0"]);
  }

  /** The components of "0.0.0", the version the pass assumes for a canvas without one. */
  lemma PartsOfZero()
    ensures Parts("0.0.0") == [0.0, 0.0, 0.0]
  {
    SplitZeroZero();
    assert "0.0.0" == ['0'] + ".0.0";
    assert ".0.0"[1..] == "0.0";
    SplitStep('0', ".0.0");
    assert Split("0.0.0", '.') == ["0", "0", "0"];
    NumbersOfDigits(["0", "0", "0"]);
  }

  /** The numbers of the one-digit components "0" and "1". */
  lemma {:induction false} NumbersOfDigits(parts: seq<string>)
    requires forall i :: 0 <= i < |parts| ==> parts[i] == "0" || parts[i] == "1"
    ensures |Numbers(parts)| == |parts|
    ensures forall i :: 0 <= i < |parts| ==> Numbers(parts)[i] == if parts[i] == "1" then 1.0 else 0.0
  {
    if parts != [] {
      NumbersOfDigits(parts[1..]);
      assert NumberOf("0") == 0.0 && NumberOf("1") == 1.0;
    }
  }

  /** Missing trailing components count as 0, so "1.0" and "1.0.0" are the same version;
      a canvas without a version in the migration pass is older than the current one. */
  lemma ShortVersionEqual()
    ensures VersionCompare("1.0", "1.0.0") == 0
    ensures VersionCompare("0.0.0", CurrentVersion) == -1
  {
    PartsOfShort();
    PartsOfCurrent();
    PartsOfZero();
    var p: seq<real> := [1.0, 0.0];
    var q: seq<real> := [1.0, 0.0, 0.0];
    assert CompareFrom(p, q, 2) == 0;
    assert CompareFrom([0.0, 0.0, 0.0], q, 0) == -1;
  }

  /** `compareVersions`: the loop with its early returns. */
  method CompareVersions(v1: string, v2: string) returns (r: int)
    ensures r == VersionCompare(v1, v2)
  {
    var parts1 := Parts(v1);
    var parts2 := Parts(v2);
    var n := MaxLen(parts1, parts2);
    var i := 0;
    while i < n
      invariant 0 <= i <= n
      invariant CompareFrom(parts1, parts2, i) == VersionCompare(v1, v2)
    {
      var num1 := Component(parts1, i);
      var num2 := Component(parts2, i);
      if num1 < num2 {
        return -1;
      }
      if num1 > num2 {
        return 1;
      }
      i := i + 1;
    }
    return 0;
  }

  // ---------------------------------------------------------------- one canvas

  /** The own properties of a value, as object spread copies them (the index keys of a
      spread string or array are not modelled). */
  function Props(v: JsVal): map<string, JsVal>
  {
    if v.Obj? then v.fields else map[]
  }

  /** The canvas' `version || fallback`; a truthy version that is not a string would make
      `split` throw, which the callers' requirements exclude. */
  predicate VersionReadable(c: map<string, JsVal>)
  {
    !Get(c, "version").Truthy() || Get(c, "version").Str?
  }

  function VersionOr(c: map<string, JsVal>, fallback: string): (v: string)
    requires VersionReadable(c)
    ensures Get(c, "version").Truthy() ==> v == Get(c, "version").s
    ensures !Get(c, "version").Truthy() ==> v == fallback
  {
    if Get(c, "version").Truthy() then Get(c, "version").s else fallback
  }

  /** The application state a canvas gets when it stores none of its own. */
  const DefaultAppStateProps: map<string, JsVal> :=
    map["currentTool" := Str("select"), "strokeColor" := Str("#000000"),
        "fillColor" := Str("transparent"), "strokeWidth" := Num(2.0), "opacity" := Num(100.0),
        "zoom" := Num(1.0), "scrollX" := Num(0.0), "scrollY" := Num(0.0),
        "selectedElementIds" := List([])]

  /** The stored application state's own properties: none when it is falsy. */
  function StoredState(c: map<string, JsVal>): map<string, JsVal>
  {
    if Get(c, "appState").Truthy() then Props(Get(c, "appState")) else map[]
  }

  /** `migrateToV1_0_0`, the upgrade to the 1.0.0 schema. `fallbackId` and `now` stand for
      the generated id and the clock. */
  function MigrateToV1(c: map<string, JsVal>, fallbackId: string, now: string): map<string, JsVal>
  {
    map["id" := Or(Get(c, "id"), Str(fallbackId)),
        "name" := Or(Get(c, "name"), Str("Untitled Canvas")),
        "elements" := if Get(c, "elements").List? then Get(c, "elements") else List([]),
        "appState" := Obj(Spread(DefaultAppStateProps, Props(Or(Get(c, "appState"), Obj(map[]))))),
        "createdAt" := Or(Get(c, "createdAt"), Str(now)),
        "updatedAt" := Or(Get(c, "updatedAt"), Str(now)),
        "version" := Str(CurrentVersion)]
  }

  /** The upgrade has exactly the seven schema properties; a truthy stored value is kept
      (elements only when a list) and a falsy one defaulted; the stored application state's
      properties override the default ones, which fill in the rest. */
  lemma MigrateToV1Schema(c: map<string, JsVal>, fallbackId: string, now: string)
    ensures var r := MigrateToV1(c, fallbackId, now);
      && r.Keys == {"id", "name", "elements", "appState", "createdAt", "updatedAt", "version"}
      && r["id"] == (if Get(c, "id").Truthy() then Get(c, "id") else Str(fallbackId))
      && r["name"] == (if Get(c, "name").Truthy() then Get(c, "name") else Str("Untitled Canvas"))
      && r["elements"] == (if Get(c, "elements").List? then Get(c, "elements") else List([]))
      && r["createdAt"] == (if Get(c, "createdAt").Truthy() then Get(c, "createdAt") else Str(now))
      && r["updatedAt"] == (if Get(c, "updatedAt").Truthy() then Get(c, "updatedAt") else Str(now))
      && r["version"] == Str(CurrentVersion)
  {
  }

  /** The upgraded application state: the stored one's properties over the defaults. */
  lemma MigrateToV1State(c: map<string, JsVal>, fallbackId: string, now: string)
    ensures var r := MigrateToV1(c, fallbackId, now);
      && "appState" in r && r["appState"].Obj?
      && r["appState"].fields.Keys == DefaultAppStateProps.Keys + StoredState(c).Keys
      && (forall k :: k in StoredState(c) ==> r["appState"].fields[k] == StoredState(c)[k])
      && (forall k :: k in DefaultAppStateProps && k !in StoredState(c) ==>
            r["appState"].fields[k] == DefaultAppStateProps[k])
  {
  }

  /** The version a canvas is migrated from: its own, or `missing` when it has none. */
  predicate Outdated(c: map<string, JsVal>, missing: string)
    requires VersionReadable(c)
  {
    VersionCompare(VersionOr(c, missing), CurrentVersion) < 0
  }

  /** `migrateCanvas`, as written: null for a falsy canvas; otherwise the canvas, filled in
      by `migrateToV1_0_0` when its version is below 1.0.0 (a canvas without a version counts
      as 1.0.0 here), and stamped with the current version. */
  function MigrateCanvas(canvas: JsVal, fallbackId: string, now: string): (r: JsVal)
    requires VersionReadable(Props(canvas))
    ensures !canvas.Truthy() ==> r == Null
    ensures canvas.Truthy() ==> r.Obj? && Get(r.fields, "version") == Str(CurrentVersion)
  {
    if !canvas.Truthy() then Null
    else
      var c := Props(canvas);
      var m := if Outdated(c, CurrentVersion) then MigrateToV1(c, fallbackId, now) else c;
      Obj(m["version" := Str(CurrentVersion)])
  }

  /** An up-to-date canvas, or one without a version, keeps every property and gains the
      current version. */
  lemma MigrateCanvasKeeps(canvas: JsVal, fallbackId: string, now: string)
    requires VersionReadable(Props(canvas)) && canvas.Truthy()
    requires !Outdated(Props(canvas), CurrentVersion)
    ensures MigrateCanvas(canvas, fallbackId, now).fields == Props(canvas)["version" := Str(CurrentVersion)]
    ensures forall k :: k in Props(canvas) && k != "version" ==>
      MigrateCanvas(canvas, fallbackId, now).fields[k] == Props(canvas)[k]
  {
  }

  /** An outdated canvas becomes exactly its 1.0.0 upgrade. */
  lemma MigrateCanvasUpgrades(canvas: JsVal, fallbackId: string, now: string)
    requires VersionReadable(Props(canvas)) && canvas.Truthy()
    requires Outdated(Props(canvas), CurrentVersion)
    ensures MigrateCanvas(canvas, fallbackId, now).fields == MigrateToV1(Props(canvas), fallbackId, now)
  {
    var m := MigrateToV1(Props(canvas), fallbackId, now);
    assert m["version" := Str(CurrentVersion)] == m;
  }

  /** `validateCanvas`. */
  function ValidateCanvas(canvas: JsVal): (ok: bool)
    ensures ok <==> (canvas.Obj?
      && Get(canvas.fields, "id").Str? && Get(canvas.fields, "id").s != ""
      && Get(canvas.fields, "name").Str? && Get(canvas.fields, "name").s != ""
      && Get(canvas.fields, "elements").List?
      && Get(canvas.fields, "appState").Truthy() && Get(canvas.fields, "appState").IsObjectType())
  {
    if !canvas.Truthy() || !canvas.IsObjectType() then false
    else if !canvas.Obj? then false
    else
      var c := canvas.fields;
      if !Get(c, "id").Truthy() || !Get(c, "id").IsStringType() then false
      else if !Get(c, "name").Truthy() || !Get(c, "name").IsStringType() then false
      else if !Get(c, "elements").IsArray() then false
      else if !Get(c, "appState").Truthy() || !Get(c, "appState").IsObjectType() then false
      else true
  }

  /** The upgrade makes a canvas valid exactly when its own id and name, where present, are
      strings: a truthy id or name of another type is kept and fails validation. */
  lemma MigrateToV1Validates(c: map<string, JsVal>, fallbackId: string, now: string)
    requires fallbackId != ""
    ensures ValidateCanvas(Obj(MigrateToV1(c, fallbackId, now))) <==>
      (!Get(c, "id").Truthy() || Get(c, "id").Str?) && (!Get(c, "name").Truthy() || Get(c, "name").Str?)
  {
    MigrateToV1Schema(c, fallbackId, now);
    MigrateToV1State(c, fallbackId, now);
  }

  // ---------------------------------------------------------------- every stored canvas

  /** Whether `migrateAllCanvases` rewrites a stored canvas: its version, 0.0.0 when it has
      none, is below the current one. */
  predicate NeedsMigration(canvas: JsVal)
  {
    VersionReadable(Props(canvas)) && Outdated(Props(canvas), "0.0.0")
  }

  /** A stored canvas `canvas.version` can be read from: `null` and `undefined` throw. */
  predicate Stored(canvas: JsVal)
  {
    !canvas.Null? && !canvas.Undefined? && VersionReadable(Props(canvas))
  }

  /** One stored canvas after the pass. */
  function Migrated(canvas: JsVal, fallbackId: string, now: string): JsVal
    requires Stored(canvas)
  {
    if NeedsMigration(canvas) then MigrateCanvas(canvas, fallbackId, now) else canvas
  }

  /** The stored canvases after the pass: the outdated ones migrated, the others untouched. */
  function MigratedAll(data: map<string, JsVal>, fallbackId: string, now: string): (r: map<string, JsVal>)
    requires forall k :: k in data ==> Stored(data[k])
    ensures r.Keys == data.Keys
    ensures forall k :: k in data ==> r[k] == Migrated(data[k], fallbackId, now)
  {
    map k | k in data :: Migrated(data[k], fallbackId, now)
  }

  /** The pass leaves up-to-date canvases as they are and stamps every other one with the
      current version. */
  lemma MigratedAllVersions(data: map<string, JsVal>, fallbackId: string, now: string)
    requires forall k :: k in data ==> Stored(data[k])
    ensures forall k :: k in data && !NeedsMigration(data[k]) ==>
      MigratedAll(data, fallbackId, now)[k] == data[k]
    ensures forall k :: k in data && NeedsMigration(data[k]) && data[k].Truthy() ==>
      MigratedAll(data, fallbackId, now)[k].Obj? &&
      Get(MigratedAll(data, fallbackId, now)[k].fields, "version") == Str(CurrentVersion)
  {
    forall k | k in data && NeedsMigration(data[k]) && data[k].Truthy()
      ensures MigratedAll(data, fallbackId, now)[k] == MigrateCanvas(data[k], fallbackId, now)
    {
    }
  }

  /** One step of the pass: whether the canvas is rewritten, and what is stored for it. */
  method MigrateEntry(canvas: JsVal, fallbackId: string, now: string)
    returns (changed: bool, result: JsVal)
    requires Stored(canvas)
    ensures changed == NeedsMigration(canvas)
    ensures result == Migrated(canvas, fallbackId, now)
  {
    var currentVersion := VersionOr(Props(canvas), "0.0.0");
    var cmp := CompareVersions(currentVersion, CurrentVersion);
    changed := cmp < 0;
    result := if changed then MigrateCanvas(canvas, fallbackId, now) else canvas;
  }

  /** The pass over the keys `ks`, in the order `Object.keys` lists them: the stored
      canvases afterwards, and whether any was rewritten. */
  function Pass(data: map<string, JsVal>, ks: seq<string>, fallbackId: string, now: string)
    : (map<string, JsVal>, bool)
    requires forall k :: k in data ==> Stored(data[k])
    requires forall i :: 0 <= i < |ks| ==> ks[i] in data
    decreases |ks|
  {
    if ks == [] then (data, false)
    else
      var k := ks[|ks| - 1];
      var (m, w) := Pass(data, ks[..|ks| - 1], fallbackId, now);
      if NeedsMigration(data[k]) then (m[k := MigrateCanvas(data[k], fallbackId, now)], true)
      else (m, w)
  }

  /** What the pass over `ks` stores: every listed canvas becomes `Migrated`, every other one
      is untouched. */
  lemma {:induction false} PassStore(data: map<string, JsVal>, ks: seq<string>, fallbackId: string,
                                     now: string)
    requires forall k :: k in data ==> Stored(data[k])
    requires forall i :: 0 <= i < |ks| ==> ks[i] in data
    ensures Pass(data, ks, fallbackId, now).0.Keys == data.Keys
    ensures forall k :: k in data && k in ks ==>
      Pass(data, ks, fallbackId, now).0[k] == Migrated(data[k], fallbackId, now)
    ensures forall k :: k in data && k !in ks ==> Pass(data, ks, fallbackId, now).0[k] == data[k]
    decreases |ks|
  {
    if ks != [] {
      var init := ks[..|ks| - 1];
      PassStore(data, init, fallbackId, now);
      LastMembers(ks);
    }
  }

  /** A key is listed exactly when it is the last one or listed before it. */
  lemma LastMembers(ks: seq<string>)
    requires ks != []
    ensures forall k :: k in ks <==> k in ks[..|ks| - 1] || k == ks[|ks| - 1]
  {
    assert ks == ks[..|ks| - 1] + [ks[|ks| - 1]];
  }

  /** The pass over `ks` writes the store back exactly when a listed canvas needed migration. */
  lemma {:induction false} PassWrites(data: map<string, JsVal>, ks: seq<string>, fallbackId: string,
                                      now: string)
    requires forall k :: k in data ==> Stored(data[k])
    requires forall i :: 0 <= i < |ks| ==> ks[i] in data
    ensures Pass(data, ks, fallbackId, now).1 <==> exists k :: k in ks && k in data && NeedsMigration(data[k])
    decreases |ks|
  {
    if ks != [] {
      var init := ks[..|ks| - 1];
      PassWrites(data, init, fallbackId, now);
      LastMembers(ks);
    }
  }

  /** Over all the keys of the store, the pass stores `MigratedAll`. */
  lemma PassAllStore(data: map<string, JsVal>, ks: seq<string>, fallbackId: string, now: string)
    requires forall k :: k in data ==> Stored(data[k])
    requires forall i :: 0 <= i < |ks| ==> ks[i] in data
    requires forall k :: k in data ==> k in ks
    ensures Pass(data, ks, fallbackId, now).0 == MigratedAll(data, fallbackId, now)
  {
    PassStore(data, ks, fallbackId, now);
    var all := MigratedAll(data, fallbackId, now);
    var m := Pass(data, ks, fallbackId, now).0;
    forall k | k in data
      ensures m[k] == all[k]
    {
      assert k in ks;
    }
    assert m.Keys == all.Keys;
  }

  /** Over all the keys of the store, the pass writes back exactly when some stored canvas
      needs migration. */
  lemma PassAllWrites(data: map<string, JsVal>, ks: seq<string>, fallbackId: string, now: string)
    requires forall k :: k in data ==> Stored(data[k])
    requires forall i :: 0 <= i < |ks| ==> ks[i] in data
    requires forall k :: k in data ==> k in ks
    ensures Pass(data, ks, fallbackId, now).1 <==> exists k :: k in data && NeedsMigration(data[k])
  {
    PassWrites(data, ks, fallbackId, now);
  }

  /** `migrateAllCanvases` over the parsed store and its keys: the loop rewriting each
      outdated canvas, and whether the store is written back. Every canvas must be one whose
      version can be read, since the code throws otherwise. The keys `Object.keys` yields are
      distinct, so the canvas the loop reads is the one first stored under that key. */
  method MigrateAllCanvases(data: map<string, JsVal>, keys: seq<string>, fallbackId: string,
                            now: string)
    returns (out: map<string, JsVal>, writeBack: bool)
    requires forall k :: k in data ==> Stored(data[k])
    requires forall i :: 0 <= i < |keys| ==> keys[i] in data
    ensures (out, writeBack) == Pass(data, keys, fallbackId, now)
  {
    out := data;
    writeBack := false;
    for i := 0 to |keys|
      invariant (out, writeBack) == Pass(data, keys[..i], fallbackId, now)
    {
      var changed, result := MigrateEntry(data[keys[i]], fallbackId, now);
      assert keys[..i + 1][..i] == keys[..i];
      if changed {
        out := out[keys[i] := result];
        writeBack := true;
      }
    }
    assert keys[..|keys|] == keys;
  }

  // ---------------------------------------------------------------- finding

  /** A stored canvas with a name but no version, no elements and no application state. */
  const Versionless: JsVal := Obj(map["id" := Str("c1"), "name" := Str("Sketch")])

  /** The pass selects a canvas without a version: it counts as 0.0.0 there. */
  lemma VersionlessSelected()
    ensures NeedsMigration(Versionless)
  {
    ShortVersionEqual();
    assert VersionOr(Props(Versionless), "0.0.0") == "0.0.0";
  }

  /** A canvas without elements fails validation. */
  lemma WithoutElementsInvalid(canvas: JsVal)
    requires canvas.Obj? && "elements" !in canvas.fields
    ensures !ValidateCanvas(canvas)
  {
  }

  /** `migrateCanvas` counts a canvas without a version as 1.0.0, which is not outdated. */
  lemma VersionlessNotOutdated()
    ensures !Outdated(Props(Versionless), CurrentVersion)
  {
    VersionCompareAntisymmetric(CurrentVersion, CurrentVersion);
    assert VersionOr(Props(Versionless), CurrentVersion) == CurrentVersion;
  }

  /** As written, `migrateCanvas` then counts the same canvas as 1.0.0 and skips the upgrade:
      the canvas is stamped 1.0.0 and still fails validation, since it has no elements. */
  lemma VersionlessStaysInvalid(fallbackId: string, now: string)
    ensures !ValidateCanvas(MigrateCanvas(Versionless, fallbackId, now))
  {
    VersionlessKeys(fallbackId, now);
    WithoutElementsInvalid(MigrateCanvas(Versionless, fallbackId, now));
  }

  /** The migrated canvas without a version has only its id, its name and the version. */
  lemma VersionlessKeys(fallbackId: string, now: string)
    ensures MigrateCanvas(Versionless, fallbackId, now).fields.Keys == {"id", "name", "version"}
  {
    VersionlessKept(fallbackId, now);
  }

  /** The canvas without a version only gains the version stamp. */
  lemma VersionlessKept(fallbackId: string, now: string)
    ensures MigrateCanvas(Versionless, fallbackId, now).fields == Props(Versionless)["version" := Str(CurrentVersion)]
  {
    VersionlessNotOutdated();
  }

  /** `migrateCanvas` as evidently intended: a canvas without a version counts as 0.0.0, as
      it does in the pass that selects it. */
  function MigrateCanvasFixed(canvas: JsVal, fallbackId: string, now: string): (r: JsVal)
    requires VersionReadable(Props(canvas))
    ensures !canvas.Truthy() ==> r == Null
    ensures canvas.Truthy() ==> r.Obj? && Get(r.fields, "version") == Str(CurrentVersion)
  {
    if !canvas.Truthy() then Null
    else
      var c := Props(canvas);
      var m := if Outdated(c, "0.0.0") then MigrateToV1(c, fallbackId, now) else c;
      Obj(m["version" := Str(CurrentVersion)])
  }

  /** With the fix, every canvas the pass selects is upgraded, so it comes out valid
      whenever its own id and name, where present, are strings. */
  lemma FixedMigrationValidates(canvas: JsVal, fallbackId: string, now: string)
    requires canvas.Truthy() && NeedsMigration(canvas) && fallbackId != ""
    requires !Get(Props(canvas), "id").Truthy() || Get(Props(canvas), "id").Str?
    requires !Get(Props(canvas), "name").Truthy() || Get(Props(canvas), "name").Str?
    ensures ValidateCanvas(MigrateCanvasFixed(canvas, fallbackId, now))
  {
    FixedUpgrades(canvas, fallbackId, now);
    MigrateToV1Validates(Props(canvas), fallbackId, now);
  }

  /** With the fix, every canvas the pass selects becomes exactly its 1.0.0 upgrade. */
  lemma FixedUpgrades(canvas: JsVal, fallbackId: string, now: string)
    requires canvas.Truthy() && NeedsMigration(canvas)
    ensures MigrateCanvasFixed(canvas, fallbackId, now) == Obj(MigrateToV1(Props(canvas), fallbackId, now))
  {
    var m := MigrateToV1(Props(canvas), fallbackId, now);
    MigrateToV1Schema(Props(canvas), fallbackId, now);
    assert m["version" := Str(CurrentVersion)] == m;
  }
}
