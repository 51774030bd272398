/**
 * Loading a saved state (services/stateMigration.ts). The saved state is
 * JSON; it is deep-merged onto a fresh copy of the initial state, a missing
 * task log becomes empty, and every house gets a label and a production
 * mode. JSON numbers are integers here.
 */
module Migration {
  import opened Wrappers
  import Text

  datatype Json =
    | JNull
    | JBool(b: bool)
    | JNum(n: int)
    | JStr(s: string)
    | JArr(items: seq<Json>)
    | JObj(fields: map<string, Json>)

  /** JavaScript truthiness: null, false, 0 and "" are falsy; arrays and objects are truthy. */
  predicate Truthy(j: Json) {
    !(j == JNull || j == JBool(false) || j == JNum(0) || j == JStr(""))
  }

  /** `typeof j === 'object'`: null, arrays and objects. */
  predicate TypeofObject(j: Json) {
    j.JNull? || j.JArr? || j.JObj?
  }

  /** `isObject`: truthy, of type object, and not an array. */
  predicate IsObject(j: Json) {
    Truthy(j) && TypeofObject(j) && !j.JArr?
  }

  /** The three tests together single out plain objects. */
  lemma IsObjectExactlyObjects(j: Json)
    ensures IsObject(j) <==> j.JObj?
    ensures !IsObject(JNull) && !IsObject(JArr([]))
  {
  }

  // ---------------------------------------------------------------------------
  // Template strings and spreading
  // ---------------------------------------------------------------------------

  /** `${v}` for a property that may be missing. */
  function TemplateString(v: Option<Json>): string {
    match v
    case None => "undefined"
    case Some(j) => JsonString(j)
  }

  /** `String(j)`; an array joins its elements with commas, null elements as "". */
  function JsonString(j: Json): string {
    match j
    case JNull => "null"
    case JBool(b) => if b then "true" else "false"
    case JNum(n) => Text.IntToString(n)
    case JStr(s) => s
    case JArr(items) => JoinItems(items)
    case JObj(_) => "[object Object]"
  }

  function JoinItems(items: seq<Json>): string
    decreases items, 0
  {
    if items == [] then ""
    else
      var first := if items[0] == JNull then "" else JsonString(items[0]);
      if |items| == 1 then first else first + "," + JoinItems(items[1..])
  }

  /** The properties `{...a}` gets from an array: "0", "1", ... */
  function Indexed(items: seq<Json>, n: nat): map<string, Json>
    requires n <= |items|
  {
    if n == 0 then map[] else Indexed(items, n - 1)[Text.NatToString(n - 1) := items[n - 1]]
  }

  /** The properties of a string, one per character. */
  function IndexedChars(s: string, n: nat): map<string, Json>
    requires n <= |s|
  {
    if n == 0 then map[] else IndexedChars(s, n - 1)[Text.NatToString(n - 1) := JStr([s[n - 1]])]
  }

  /** `{ ...j }`: an object's own properties, an array's or string's indexed elements, nothing else. */
  function Spread(j: Json): map<string, Json> {
    match j
    case JObj(f) => f
    case JArr(items) => Indexed(items, |items|)
    case JStr(s) => IndexedChars(s, |s|)
    case _ => map[]
  }

  /** `j[key]`: a missing property, or a property of something that is not an object, is undefined. */
  function Get(j: Json, key: string): Option<Json> {
    if j.JObj? && key in j.fields then Some(j.fields[key]) else None
  }

  // ---------------------------------------------------------------------------
  // deepMerge
  // ---------------------------------------------------------------------------

  /**
   * `deepMerge(target, source)`, as the properties of the object it returns.
   * A plain-object source value merges into the target value of the same
   * key, or is copied when the target has no such key; any other source
   * value replaces the target value; target keys the source lacks stay.
   */
  function DeepMerge(target: Json, source: Json): map<string, Json>
    decreases source
  {
    match source
    case JObj(s) =>
      if target.JObj? then
        var t := target.fields;
        map k | k in t.Keys + s.Keys ::
          if k in s then (if s[k].JObj? && k in t then JObj(DeepMerge(t[k], s[k])) else s[k]) else t[k]
      else Spread(target)
    case _ => Spread(target)
  }

  /** The key loop of `deepMerge`, with its recursive calls. */
  method MergeObjects(target: Json, source: Json) returns (output: map<string, Json>)
    ensures output == DeepMerge(target, source)
    decreases source
  {
    output := Spread(target);
    if !(IsObject(target) && IsObject(source)) {
      return;
    }
    var t := target.fields;
    var s := source.fields;
    var keys := s.Keys;
    ghost var done: set<string> := {};
    while keys != {}
      invariant keys + done == s.Keys && keys !! done
      invariant output.Keys == t.Keys + done
      invariant forall k :: k in output ==> output[k] == if k in done then DeepMerge(target, source)[k] else t[k]
      decreases keys
    {
      var key :| key in keys;
      var value := s[key];
      if value.JObj? {
        if key !in t {
          output := output[key := value];
        } else {
          var merged := MergeObjects(t[key], value);
          output := output[key := JObj(merged)];
        }
      } else {
        output := output[key := value];
      }
      keys := keys - {key};
      done := done + {key};
    }
    assert output.Keys == DeepMerge(target, source).Keys;
  }

  /** Where target and source are not both plain objects, the result is a copy of the target. */
  lemma MergeNonObjects(target: Json, source: Json)
    requires !(target.JObj? && source.JObj?)
    ensures DeepMerge(target, source) == Spread(target)
  {
  }

  /**
   * On two objects: the keys are those of both; a target key the source
   * lacks keeps its value; a source value that is not an object (scalar,
   * null, array) replaces the target's; an object the target lacks is
   * copied; objects on both sides merge.
   */
  lemma MergeObjectsSpec(t: map<string, Json>, s: map<string, Json>)
    ensures var r := DeepMerge(JObj(t), JObj(s));
            && r.Keys == t.Keys + s.Keys
            && (forall k :: k in t && k !in s ==> r[k] == t[k])
            && (forall k :: k in s && !s[k].JObj? ==> r[k] == s[k])
            && (forall k :: k in s && s[k].JObj? && k !in t ==> r[k] == s[k])
            && (forall k :: k in s && s[k].JObj? && k in t ==> r[k] == JObj(DeepMerge(t[k], s[k])))
  {
  }

  /** Merging an object into itself gives it back. */
  lemma {:induction false} MergeSelf(x: Json)
    requires x.JObj?
    ensures DeepMerge(x, x) == x.fields
    decreases x
  {
    var f := x.fields;
    forall k | k in f && f[k].JObj? ensures JObj(DeepMerge(f[k], f[k])) == f[k] {
      MergeSelf(f[k]);
    }
  }

  /** Merging an empty object changes nothing, and merging into one copies the source. */
  lemma MergeEmpty(x: map<string, Json>)
    ensures DeepMerge(JObj(x), JObj(map[])) == x
    ensures DeepMerge(JObj(map[]), JObj(x)) == x
  {
  }

  /** Merging the same source onto the same target a second time changes nothing. */
  lemma {:induction false} MergeTwice(target: Json, source: Json)
    requires source.JObj?
    ensures DeepMerge(target, JObj(DeepMerge(target, source))) == DeepMerge(target, source)
    decreases source
  {
    if target.JObj? {
      var t := target.fields;
      var s := source.fields;
      var r := DeepMerge(target, source);
      var r2 := DeepMerge(target, JObj(r));
      forall k | k in r ensures r2[k] == r[k] {
        if k in s && s[k].JObj? && k in t {
          MergeTwice(t[k], s[k]);
        } else if k !in s && r[k].JObj? {
          MergeSelf(t[k]);
        }
      }
      assert r2.Keys == r.Keys;
    }
  }

  // ---------------------------------------------------------------------------
  // migrateState
  // ---------------------------------------------------------------------------

  function WarehouseItem(id: string, name: string, stock: int, safety: int): Json {
    JObj(map["id" := JStr(id), "name" := JStr(name), "currentStock" := JNum(stock), "safetyStockLevel" := JNum(safety)])
  }

  /** INITIAL_APP_STATE as JSON (constants.ts). */
  function InitialState(): Json {
    JObj(map[
      "houses" := JArr([]),
      "warehouseItems" := JArr([
        JObj(map["id" := JStr("f-pet-stock"), "name" := JStr("F-Pet Stock (Purchased)"), "currentStock" := JNum(10),
                 "safetyStockLevel" := JNum(5), "isPurchaseOnly" := JBool(true)]),
        WarehouseItem("f-pet-wip", "F-Pets (From Solo F-Slots)", 0, 0),
        WarehouseItem("e-pet-wip", "E-Pets (Ready for E-NPC)", 0, 0),
        WarehouseItem("d-pet-wip", "D-Pets (Ready for D-NPC)", 0, 0),
        WarehouseItem("c-pet-wip", "C-Pets (Ready for C-NPC)", 0, 0),
        WarehouseItem("b-pet-wip", "B-Pets (Ready for B-NPC)", 0, 0),
        WarehouseItem("a-pet-wip", "A-Pets (Ready for A-NPC)", 0, 0)]),
      "cashBalance" := JNum(490000000),
      "prices" := JObj(map[
        "petPrices" := JObj(map["F" := JNum(3100000), "C" := JNum(18000000), "B" := JNum(35000000),
                                "A" := JNum(65000000), "S" := JNum(140000000)]),
        "npcCost15Day" := JNum(28000000),
        "npcCost7Day" := JNum(14000000)]),
      "collectedPets" := JArr([]),
      "salesHistory" := JArr([]),
      "checkinTimes" := JArr([JNum(9), JNum(15), JNum(21)]),
      "completedTaskLog" := JArr([]),
      "virtualHouses" := JArr([]),
      "isPerfectionMode" := JBool(false)])
  }

  /** `h.p || fallback`. */
  function OrElse(v: Option<Json>, fallback: Json): Json {
    if v.Some? && Truthy(v.value) then v.value else fallback
  }

  /**
   * One house: `{ ...h, label: h.label || 'House #' + h.id, productionMode:
   * h.productionMode || 'LINKED' }`. Reading a property of null throws, which
   * is `None`.
   */
  function MigrateHouse(h: Json): Option<Json> {
    if h.JNull? then None
    else
      var name := OrElse(Get(h, "label"), JStr("House #" + TemplateString(Get(h, "id"))));
      var mode := OrElse(Get(h, "productionMode"), JStr("LINKED"));
      Some(JObj(Spread(h)["label" := name]["productionMode" := mode]))
  }

  /** `houses.map(...)`, which throws as soon as one house does. */
  function MigrateHouses(hs: seq<Json>): (r: Option<seq<Json>>)
    ensures r.Some? <==> forall i :: 0 <= i < |hs| ==> hs[i] != JNull
    ensures r.Some? ==> |r.value| == |hs| && forall i :: 0 <= i < |hs| ==> Some(r.value[i]) == MigrateHouse(hs[i])
  {
    if hs == [] then Some([])
    else
      match (MigrateHouse(hs[0]), MigrateHouses(hs[1..]))
      case (Some(h), Some(rest)) => Some([h] + rest)
      case _ => None
  }

  /** `if (!migrated.completedTaskLog) migrated.completedTaskLog = []`. */
  function WithTaskLog(m: map<string, Json>): map<string, Json> {
    if "completedTaskLog" in m && Truthy(m["completedTaskLog"]) then m else m["completedTaskLog" := JArr([])]
  }

  /**
   * `if (migrated.houses) migrated.houses = migrated.houses.map(...)`; `None`
   * where that throws: a truthy `houses` that is not an array, or a null house.
   */
  function WithMigratedHouses(m: map<string, Json>): Option<Json> {
    if "houses" in m && Truthy(m["houses"]) then
      match m["houses"]
      case JArr(hs) =>
        (match MigrateHouses(hs)
         case Some(migrated) => Some(JObj(m["houses" := JArr(migrated)]))
         case None => None)
      case _ => None
    else Some(JObj(m))
  }

  /** `migrateState`: merge onto the initial state, then the two defaults. */
  function Migrate(loaded: Json): Option<Json> {
    WithMigratedHouses(WithTaskLog(DeepMerge(InitialState(), loaded)))
  }

  /** `migrateState` as written: merge, then assign the defaults onto `migrated`. */
  method MigrateState(loaded: Json) returns (r: Option<Json>)
    ensures r == Migrate(loaded)
  {
    var migrated := MergeObjects(InitialState(), loaded);
    if !("completedTaskLog" in migrated && Truthy(migrated["completedTaskLog"])) {
      migrated := migrated["completedTaskLog" := JArr([])];
    }
    ghost var withLog := migrated;
    assert withLog == WithTaskLog(DeepMerge(InitialState(), loaded));
    if "houses" in migrated && Truthy(migrated["houses"]) {
      var houses := migrated["houses"];
      if !houses.JArr? {
        return None;
      }
      var hs := MigrateHouses(houses.items);
      if hs.None? {
        return None;
      }
      migrated := migrated["houses" := JArr(hs.value)];
    }
    r := Some(JObj(migrated));
  }

  /**
   * A migrated house has a truthy label and production mode: the saved ones
   * when truthy, otherwise "House #<id>" and "LINKED"; every other property
   * of the house is kept.
   */
  lemma MigrateHouseSpec(h: Json)
    requires h != JNull
    ensures var r := MigrateHouse(h);
            && r.Some? && r.value.JObj?
            && var f := r.value.fields;
            && f.Keys == Spread(h).Keys + {"label", "productionMode"}
            && Truthy(f["label"]) && Truthy(f["productionMode"])
            && (Get(h, "label").Some? && Truthy(Get(h, "label").value) ==> f["label"] == Get(h, "label").value)
            && (Get(h, "productionMode").Some? && Truthy(Get(h, "productionMode").value) ==>
                  f["productionMode"] == Get(h, "productionMode").value)
            && (forall k :: k in Spread(h) && k != "label" && k != "productionMode" ==> f[k] == Spread(h)[k])
  {
  }

  /** Migrating a migrated house changes nothing. */
  lemma MigrateHouseTwice(h: Json)
    requires h != JNull
    ensures MigrateHouse(MigrateHouse(h).value) == MigrateHouse(h)
  {
    var m := MigrateHouse(h).value;
    MigrateHouseSpec(h);
    assert Spread(m) == m.fields;
    assert m.fields["label" := m.fields["label"]]["productionMode" := m.fields["productionMode"]] == m.fields;
  }

  /** The merge keeps every key of the initial state. */
  lemma MergedKeys(loaded: Json)
    ensures InitialState().fields.Keys <= DeepMerge(InitialState(), loaded).Keys
  {
  }

  /** The defaults keep every key, add a truthy task log, and label every house. */
  lemma DefaultsSpec(m: map<string, Json>)
    ensures var r := WithMigratedHouses(WithTaskLog(m));
            r.Some? ==>
              && r.value.JObj?
              && m.Keys + {"completedTaskLog"} <= r.value.fields.Keys
              && Truthy(r.value.fields["completedTaskLog"])
              && ("houses" in r.value.fields && r.value.fields["houses"].JArr? && "houses" in m && Truthy(m["houses"]) ==>
                    forall i :: 0 <= i < |r.value.fields["houses"].items| ==>
                      var h := r.value.fields["houses"].items[i];
                      h.JObj? && Truthy(h.fields["label"]) && Truthy(h.fields["productionMode"]))
  {
    var w := WithTaskLog(m);
    var r := WithMigratedHouses(w);
    if r.Some? && "houses" in m && Truthy(m["houses"]) {
      assert w["houses"] == m["houses"];
      var hs := w["houses"].items;
      var out := r.value.fields["houses"].items;
      forall i | 0 <= i < |out|
        ensures out[i].JObj? && Truthy(out[i].fields["label"]) && Truthy(out[i].fields["productionMode"])
      {
        MigrateHouseSpec(hs[i]);
      }
    }
  }

  /**
   * A migrated state has every top-level key of the initial state, a truthy
   * task log, and only migrated houses.
   */
  lemma MigrateSpec(loaded: Json)
    ensures var r := Migrate(loaded);
            r.Some? ==>
              && r.value.JObj?
              && InitialState().fields.Keys <= r.value.fields.Keys
              && "completedTaskLog" in r.value.fields && Truthy(r.value.fields["completedTaskLog"])
              && "houses" in r.value.fields
              && (r.value.fields["houses"].JArr? ==>
                    forall i :: 0 <= i < |r.value.fields["houses"].items| ==>
                      var h := r.value.fields["houses"].items[i];
                      h.JObj? && Truthy(h.fields["label"]) && Truthy(h.fields["productionMode"]))
  {
    var merged := DeepMerge(InitialState(), loaded);
    MergedKeys(loaded);
    DefaultsSpec(merged);
    HousesKept(merged);
  }

  /** Where the houses are falsy they are left alone, so an array of them is empty or was truthy. */
  lemma HousesKept(m: map<string, Json>)
    ensures var r := WithMigratedHouses(WithTaskLog(m));
            r.Some? && "houses" in m && !Truthy(m["houses"]) ==> r.value.fields["houses"] == m["houses"] && !m["houses"].JArr?
  {
  }

  /** Defaults that are already there change nothing. */
  lemma DefaultsIdle(m: map<string, Json>)
    requires "completedTaskLog" in m && Truthy(m["completedTaskLog"])
    requires "houses" in m && m["houses"] == JArr([])
    ensures WithMigratedHouses(WithTaskLog(m)) == Some(JObj(m))
  {
    assert MigrateHouses([]) == Some([]);
    assert m["houses" := JArr([])] == m;
  }

  /** A saved state that is not an object loads as the initial state. */
  lemma MigrateNonObject(loaded: Json)
    requires !loaded.JObj?
    ensures Migrate(loaded) == Some(InitialState())
  {
    var init := InitialState();
    MergeNonObjects(init, loaded);
    assert init.fields["completedTaskLog"] == JArr([]);
    assert init.fields["houses"] == JArr([]);
    DefaultsIdle(init.fields);
  }

  /** The defaults fail exactly on a truthy `houses` that is not an array, or that holds a null house. */
  lemma DefaultsFail(m: map<string, Json>)
    ensures WithMigratedHouses(WithTaskLog(m)).None? <==>
              && "houses" in m && Truthy(m["houses"])
              && (!m["houses"].JArr? || exists i :: 0 <= i < |m["houses"].items| && m["houses"].items[i] == JNull)
  {
    if "houses" in m {
      assert WithTaskLog(m)["houses"] == m["houses"];
    }
  }

  /** Where the source throws: a truthy `houses` that is not an array, or a null house. */
  lemma MigrateFails(loaded: Json)
    ensures var merged := DeepMerge(InitialState(), loaded);
            Migrate(loaded).None? <==>
              && "houses" in merged && Truthy(merged["houses"])
              && (!merged["houses"].JArr? || exists i :: 0 <= i < |merged["houses"].items| && merged["houses"].items[i] == JNull)
  {
    DefaultsFail(DeepMerge(InitialState(), loaded));
  }
}
