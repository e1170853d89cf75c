/**
 * src/app/modules/setting/setting.service.ts and setting.model.ts: the three
 * named setting documents (global, store, store customization), read whole
 * or through a projection, created with `save()` and changed with `$set`
 * updates whose paths are the tables of module SettingPaths.
 */
module SettingService {
  import opened Wrappers
  import opened Outcomes
  import opened Fields
  import opened Schema
  import opened Documents
  import opened Collections
  import opened SettingPaths
  import CurrencyModel
  import CurrencyService

  /** A JSON value: a request body member, or what the untyped `setting` path holds. */
  datatype Json =
    | JNull
    | JBool(b: bool)
    | JNumber(literal: string)
    | JString(s: string)
    | JArray(items: seq<Json>)
    | JObject(members: map<string, Json>)

  /** A stored setting document; `setting` is `None` when the path is unset. */
  datatype SettingDoc = SettingDoc(id: string, name: string, setting: Option<Json>)

  /** The body of `store`: `data.name` and `data.setting`. */
  datatype SettingInput = SettingInput(name: Field, setting: Option<Json>)

  const GlobalSettingName := "globalSetting"
  const StoreSettingName := "storeSetting"
  const StoreCustomizationSettingName := "storeCustomizationSetting"

  function IdOf(d: SettingDoc): string { d.id }
  function NameOf(d: SettingDoc): string { d.name }

  /** What `save()` guarantees of `name`, and the ids the store hands out. */
  predicate Stored(d: SettingDoc) {
    IsStoredId(d.id) && d.name != ""
  }

  // ---------------------------------------------------------------------
  // Reading JSON values

  /** `v[key]` on a JSON value: only an object has members. */
  function Lookup(v: Json, key: string): Option<Json> {
    if v.JObject? && key in v.members then Some(v.members[key]) else None
  }

  /** The member `key` of a possibly missing value, as a database path sees it. */
  function At(v: Option<Json>, key: string): Option<Json> {
    if v.Some? then Lookup(v.value, key) else None
  }

  /** JavaScript can read a property of the value: it is neither `undefined` nor `null`. */
  predicate Readable(v: Option<Json>) {
    v.Some? && v.value != JNull
  }

  /** `v.key` in JavaScript: a TypeError on `undefined` and `null`, `undefined` on any other non-object. */
  function Member(v: Option<Json>, key: string): (r: Outcome<Option<Json>>)
    ensures r.Rejected? <==> !Readable(v)
    ensures r.Rejected? ==> r.failure == TypeError
    ensures r.Resolved? ==> r.value == At(v, key)
  {
    if Readable(v) then Resolved(At(v, key)) else Rejected(TypeError)
  }

  // ---------------------------------------------------------------------
  // The `$set` documents

  /** A table whose every target field is read from the input field of the same name. */
  function SameName(fields: seq<string>): (sources: map<string, string>)
    ensures sources.Keys == set f | f in fields
    ensures forall f :: f in sources ==> sources[f] == f
  {
    map f | f in fields :: f
  }

  /**
   * The writes a table makes from the input object `input`: each target path
   * whose source member the input has (an `undefined` value is stripped from
   * `$set`, so that path is not written).
   */
  function Writes(input: Json, sources: map<string, string>): (w: map<string, Json>)
    ensures w.Keys <= sources.Keys
    ensures forall f :: f in sources ==> (f in w <==> Lookup(input, sources[f]).Some?)
    ensures forall f :: f in w ==> Some(w[f]) == Lookup(input, sources[f])
  {
    map f | f in sources && Lookup(input, sources[f]).Some? :: Lookup(input, sources[f]).value
  }

  /** `$set` of `setting.<f>` for every `f` of `writes`. MongoDB refuses to create a field inside a value that is not an object. */
  function SetFields(v: Option<Json>, writes: map<string, Json>): (r: Outcome<Option<Json>>)
    ensures r.Rejected? <==> writes != map[] && v.Some? && !v.value.JObject?
    ensures r.Rejected? ==> r.failure == WriteConflict
    ensures r.Resolved? && writes == map[] ==> r.value == v
    ensures r.Resolved? && writes != map[] ==> r.value.Some? && r.value.value.JObject?
    ensures r.Resolved? ==> forall k :: At(r.value, k) == if k in writes then Some(writes[k]) else At(v, k)
  {
    if writes == map[] then Resolved(v)
    else match v
      case None => Resolved(Some(JObject(writes)))
      case Some(JObject(m)) => Resolved(Some(JObject(m + writes)))
      case Some(_) => Rejected(WriteConflict)
  }

  /** The sections a two-level `$set` writes at least one field of. */
  function Live(writes: map<string, map<string, Json>>): set<string> {
    set s | s in writes && writes[s] != map[]
  }

  /** A section `$set` cannot write into: it holds a value that is not an object. */
  predicate Blocked(v: Option<Json>, s: string) {
    At(v, s).Some? && !At(v, s).value.JObject?
  }

  /** The new value of section `s`, merged as `SetFields` merges it. */
  function SectionWrite(v: Option<Json>, writes: map<string, map<string, Json>>, s: string): (section: Json)
    requires s in writes && writes[s] != map[] && !Blocked(v, s)
    ensures forall f :: Lookup(section, f) == if f in writes[s] then Some(writes[s][f]) else At(At(v, s), f)
  {
    var r := SetFields(At(v, s), writes[s]);
    assert r.Resolved? && r.value.Some?;
    r.value.value
  }

  /** The new value of every section that is written. */
  function SectionWrites(v: Option<Json>, writes: map<string, map<string, Json>>): (sections: map<string, Json>)
    requires forall s :: s in Live(writes) ==> !Blocked(v, s)
    ensures sections.Keys == Live(writes)
    ensures forall s, f :: s in sections ==>
      Lookup(sections[s], f) == if f in writes[s] then Some(writes[s][f]) else At(At(v, s), f)
  {
    map s | s in Live(writes) :: SectionWrite(v, writes, s)
  }

  /** `$set` of `setting.<s>.<f>` for every section `s` and field `f` of `writes`. */
  function SetSections(v: Option<Json>, writes: map<string, map<string, Json>>): (r: Outcome<Option<Json>>)
    ensures r.Rejected? <==> (Live(writes) != {} &&
      ((v.Some? && !v.value.JObject?) || exists s :: s in Live(writes) && Blocked(v, s)))
    ensures r.Rejected? ==> r.failure == WriteConflict
    ensures r.Resolved? && Live(writes) == {} ==> r.value == v
    ensures r.Resolved? ==> forall s :: s !in Live(writes) ==> At(r.value, s) == At(v, s)
    ensures r.Resolved? ==> forall s, f :: s in Live(writes) ==>
      At(At(r.value, s), f) == if f in writes[s] then Some(writes[s][f]) else At(At(v, s), f)
  {
    if Live(writes) == {} then Resolved(v)
    else if v.Some? && !v.value.JObject? then Rejected(WriteConflict)
    else if exists s :: s in Live(writes) && Blocked(v, s) then Rejected(WriteConflict)
    else
      var m := if v.None? then map[] else v.value.members;
      Resolved(Some(JObject(m + SectionWrites(v, writes))))
  }

  /** The update document of a setting update. */
  datatype SettingWrite =
    | Flat(fields: map<string, Json>)
    | Nested(sections: map<string, map<string, Json>>)

  function Apply(v: Option<Json>, w: SettingWrite): Outcome<Option<Json>> {
    match w
    case Flat(fields) => SetFields(v, fields)
    case Nested(sections) => SetSections(v, sections)
  }

  /**
   * `updateOne({name}, update)`: the first document with that name takes the
   * update. The `updated_at` timestamp the update also sets is not modelled,
   * but it makes every matched document count as modified.
   */
  function UpdateNamed(docs: seq<SettingDoc>, name: string, w: SettingWrite): (seq<SettingDoc>, Outcome<UpdateResult>) {
    match Locate(docs, NameOf, name)
    case None => (docs, Resolved(UpdateResult(0, 0)))
    case Some(i) =>
      match Apply(docs[i].setting, w)
      case Rejected(f) => (docs, Rejected(f))
      case Resolved(v) => (docs[i := docs[i].(setting := v)], Resolved(UpdateResult(1, 1)))
  }

  /** `findOneAndUpdate({name}, update, {new: true})`: the updated document, or `null` when there is none. */
  function FindNamedAndUpdate(docs: seq<SettingDoc>, name: string, w: SettingWrite): (seq<SettingDoc>, Outcome<Option<SettingDoc>>) {
    match Locate(docs, NameOf, name)
    case None => (docs, Resolved(None))
    case Some(i) =>
      match Apply(docs[i].setting, w)
      case Rejected(f) => (docs, Rejected(f))
      case Resolved(v) => (docs[i := docs[i].(setting := v)], Resolved(Some(docs[i].(setting := v))))
  }

  // ---------------------------------------------------------------------
  // Global setting update

  /** The filter value of `Currencie.findOne({symbol})` cast to the String path; `undefined` and `null` match an unset symbol. */
  function SymbolFilter(symbol: Option<Json>): (r: Outcome<Option<string>>)
    ensures r.Rejected? <==> symbol.Some? && (symbol.value.JArray? || symbol.value.JObject?)
    ensures symbol.Some? && symbol.value.JString? ==> r == Resolved(Some(symbol.value.s))
    ensures symbol.None? || symbol == Some(JNull) ==> r == Resolved(None)
  {
    match symbol
    case None => Resolved(None)
    case Some(JNull) => Resolved(None)
    case Some(JString(s)) => Resolved(Some(s))
    case Some(JNumber(l)) => Resolved(Some(l))
    case Some(JBool(b)) => Resolved(Some(if b then "true" else "false"))
    case Some(_) => Rejected(CastError)
  }

  /** A query for `null` matches a stored `null` and an unset path alike; a string matches itself. */
  predicate SymbolMatches(stored: Slot, want: Option<string>) {
    if want.None? then !stored.Held? else stored == Held(want.value)
  }

  /** `Currencie.findOne({symbol})`: the first currency whose symbol matches the filter value. */
  function CurrencyBySymbol(currencies: seq<CurrencyModel.Currency>, symbol: Option<Json>): (r: Outcome<Option<CurrencyModel.Currency>>)
    ensures r.Rejected? <==> SymbolFilter(symbol).Rejected?
    ensures r.Resolved? && r.value.Some? ==> r.value.value in currencies && SymbolMatches(r.value.value.symbol, SymbolFilter(symbol).value)
    ensures r.Resolved? && r.value.None? ==> forall k :: 0 <= k < |currencies| ==> !SymbolMatches(currencies[k].symbol, SymbolFilter(symbol).value)
    ensures r.Resolved? ==> forall k ::
      0 <= k < |currencies| && SymbolMatches(currencies[k].symbol, SymbolFilter(symbol).value)
      && (forall j :: 0 <= j < k ==> !SymbolMatches(currencies[j].symbol, SymbolFilter(symbol).value))
      ==> r.value == Some(currencies[k])
  {
    match SymbolFilter(symbol)
    case Rejected(f) => Rejected(f)
    case Resolved(want) =>
      match FindFirst(currencies, (c: CurrencyModel.Currency) => SymbolMatches(c.symbol, want))
      case None => Resolved(None)
      case Some(k) => Resolved(Some(currencies[k]))
  }

  /**
   * `currency?.name` and `currency?.symbol`, with the `undefined` ones
   * stripped: an unset symbol writes nothing, a stored `null` writes `null`.
   */
  function CurrencyWrites(currency: Option<CurrencyModel.Currency>): (w: map<string, Json>)
    ensures currency.None? ==> w == map[]
    ensures currency.Some? ==> DefaultCurrencyField in w && w[DefaultCurrencyField] == JString(currency.value.name)
    ensures currency.Some? ==> (DefaultCurrencySymbolField in w <==> !currency.value.symbol.Unset?)
    ensures currency.Some? && currency.value.symbol.NullSlot? ==> w[DefaultCurrencySymbolField] == JNull
    ensures currency.Some? && currency.value.symbol.Held? ==> w[DefaultCurrencySymbolField] == JString(currency.value.symbol.text)
    ensures w.Keys <= {DefaultCurrencyField, DefaultCurrencySymbolField}
  {
    match currency
    case None => map[]
    case Some(c) =>
      map[DefaultCurrencyField := JString(c.name)]
      + (match c.symbol
         case Unset => map[]
         case NullSlot => map[DefaultCurrencySymbolField := JNull]
         case Held(s) => map[DefaultCurrencySymbolField := JString(s)])
  }

  /** `updateGlobalSetting(data)`, with `data.setting` given and the currency collection's documents. */
  function GlobalUpdateOf(docs: seq<SettingDoc>, currencies: seq<CurrencyModel.Currency>, setting: Option<Json>): (seq<SettingDoc>, Outcome<UpdateResult>) {
    match Member(setting, DefaultCurrencySymbolField)
    case Rejected(f) => (docs, Rejected(f))
    case Resolved(symbol) =>
      match CurrencyBySymbol(currencies, symbol)
      case Rejected(f) => (docs, Rejected(f))
      case Resolved(currency) =>
        UpdateNamed(docs, GlobalSettingName, Flat(Writes(setting.value, SameName(GlobalSettingFields)) + CurrencyWrites(currency)))
  }

  // ---------------------------------------------------------------------
  // Store setting and store customization setting updates

  /** `updateStoreSetting(data)`, with `data.setting` given. */
  function StoreUpdateOf(docs: seq<SettingDoc>, setting: Option<Json>): (seq<SettingDoc>, Outcome<UpdateResult>) {
    if !Readable(setting) then (docs, Rejected(TypeError))
    else UpdateNamed(docs, StoreSettingName, Flat(Writes(setting.value, SameName(StoreSettingFields))))
  }

  /** Every section of `table` can be read from: `setting.<section>.<field>` throws on none of them. */
  predicate SectionsReadable(setting: Option<Json>, table: map<string, map<string, string>>) {
    Readable(setting) && forall s :: s in table ==> Readable(At(setting, s))
  }

  /** The two-level `$set` that a table of sections makes from the input. */
  function SectionedWrites(input: Json, table: map<string, map<string, string>>): (w: map<string, map<string, Json>>)
    requires forall s :: s in table ==> Lookup(input, s).Some?
    ensures w.Keys == table.Keys
    ensures forall s, f :: s in w ==>
      (f in w[s] <==> f in table[s] && Lookup(Lookup(input, s).value, table[s][f]).Some?)
    ensures forall s, f :: s in w && f in w[s] ==> w[s][f] == Lookup(Lookup(input, s).value, table[s][f]).value
  {
    map s | s in table :: Writes(Lookup(input, s).value, table[s])
  }

  /** An update of the document `name` that writes, section by section, the fields `table` lists. */
  function SectionedUpdateOf(docs: seq<SettingDoc>, setting: Option<Json>, name: string, table: map<string, map<string, string>>)
    : (seq<SettingDoc>, Outcome<Option<SettingDoc>>)
  {
    if !SectionsReadable(setting, table) then (docs, Rejected(TypeError))
    else FindNamedAndUpdate(docs, name, Nested(SectionedWrites(setting.value, table)))
  }

  /** `updateStoreCustomizationSetting(data)`, with `data.setting` given. */
  function CustomizationUpdateOf(docs: seq<SettingDoc>, setting: Option<Json>): (seq<SettingDoc>, Outcome<Option<SettingDoc>>) {
    SectionedUpdateOf(docs, setting, StoreCustomizationSettingName, CustomizationFields)
  }

  // ---------------------------------------------------------------------
  // Reading settings

  /** `(await Setting.findOne({name}))?.setting` */
  function SettingOf(docs: seq<SettingDoc>, name: string): (r: Option<Json>)
    ensures r.Some? ==> exists k :: 0 <= k < |docs| && docs[k].name == name && docs[k].setting == r
    ensures (forall k :: 0 <= k < |docs| ==> docs[k].name != name) ==> r.None?
    ensures forall k :: 0 <= k < |docs| && docs[k].name == name && (forall j :: 0 <= j < k ==> docs[j].name != name) ==>
      r == docs[k].setting
  {
    match Locate(docs, NameOf, name)
    case None => None
    case Some(i) => docs[i].setting
  }

  /** A projection includes the member `key` of `setting` through a non-zero value for `setting.<key>`. */
  predicate Includes(projection: map<string, int>, key: string) {
    var path := "setting." + key;
    path in projection && projection[path] != 0
  }

  /**
   * The `setting` of a document read through an inclusion projection: whole
   * under `{setting: 1}`, otherwise the object with only its included
   * members, and nothing when it is not an object.
   */
  function Projected(setting: Option<Json>, projection: map<string, int>): Option<Json> {
    if "setting" in projection && projection["setting"] != 0 then setting
    else match setting
      case Some(JObject(m)) => Some(JObject(map k | k in m && Includes(projection, k) :: m[k]))
      case _ => None
  }

  /** The keys of `getStoreCustomizationSetting(key, keyTwo)` that are given (not empty). */
  function Requested(key: string, keyTwo: string): set<string> {
    (if key != "" then {key} else {}) + (if keyTwo != "" then {keyTwo} else {})
  }

  /** The projection `getStoreCustomizationSetting` builds from its two optional keys. */
  method BuildProjection(key: string, keyTwo: string) returns (projection: map<string, int>)
    ensures Requested(key, keyTwo) == {} ==> projection == map["setting" := 1]
    ensures Requested(key, keyTwo) != {} ==> "setting" !in projection
    ensures forall k :: Includes(projection, k) <==> k in Requested(key, keyTwo)
  {
    projection := map[];
    if key != "" {
      projection := projection["setting." + key := 1];
    }
    if keyTwo != "" {
      projection := projection["setting." + keyTwo := 1];
    }
    if key == "" && keyTwo == "" {
      projection := map["setting" := 1];
    }
    forall k ensures Includes(projection, k) <==> k in Requested(key, keyTwo) {
      PathInjective(k, key);
      PathInjective(k, keyTwo);
    }
  }

  lemma PathInjective(a: string, b: string)
    ensures "setting." + a == "setting." + b ==> a == b
  {
    if "setting." + a == "setting." + b {
      assert a == ("setting." + a)[8..];
      assert b == ("setting." + b)[8..];
    }
  }

  /** The members `key` and `keyTwo` of the stored customization, or all of it when neither is given. */
  function Selection(setting: Option<Json>, key: string, keyTwo: string): (r: Option<Json>)
    ensures Requested(key, keyTwo) == {} ==> r == setting
    ensures Requested(key, keyTwo) != {} && setting.Some? && setting.value.JObject? ==>
      r.Some? && r.value.JObject? && r.value.members.Keys == setting.value.members.Keys * Requested(key, keyTwo)
    ensures Requested(key, keyTwo) != {} && !(setting.Some? && setting.value.JObject?) ==> r.None?
    ensures forall k :: At(r, k).Some? ==> At(r, k) == At(setting, k)
  {
    var wanted := Requested(key, keyTwo);
    if wanted == {} then setting
    else match setting
      case Some(JObject(m)) => Some(JObject(map k | k in m && k in wanted :: m[k]))
      case _ => None
  }

  // ---------------------------------------------------------------------
  // Creating a setting

  /**
   * The empty-object test of Mongoose's `minimize`: an object with no
   * members. Once minimized, such a member is dropped from its parent.
   */
  predicate EmptyObject(j: Json) {
    j.JObject? && j.members == map[]
  }

  /**
   * Mongoose's `minimize` on `save()`: object members that are (or become)
   * empty objects are dropped; array elements are minimized but kept.
   */
  function Minimize(j: Json): (r: Json)
    ensures j.JObject? <==> r.JObject?
    ensures j.JObject? ==> r.members.Keys <= j.members.Keys
    ensures j.JArray? ==> r.JArray? && |r.items| == |j.items|
    ensures !j.JObject? && !j.JArray? ==> r == j
    decreases j
  {
    match j
    case JObject(m) => JObject(map k | k in m && !EmptyObject(Minimize(m[k])) :: Minimize(m[k]))
    case JArray(items) => JArray(seq(|items|, i requires 0 <= i < |items| => Minimize(items[i])))
    case _ => j
  }

  /** No object member anywhere in `j` is an empty object. */
  predicate Minimal(j: Json)
    decreases j
  {
    match j
    case JObject(m) => forall k :: k in m ==> !EmptyObject(m[k]) && Minimal(m[k])
    case JArray(items) => forall i :: 0 <= i < |items| ==> Minimal(items[i])
    case _ => true
  }

  /** `minimize` leaves no empty object member behind. */
  lemma {:induction false} MinimizeIsMinimal(j: Json)
    ensures Minimal(Minimize(j))
    decreases j
  {
    match j
    case JObject(m) =>
      forall k | k in m {
        MinimizeIsMinimal(m[k]);
      }
    case JArray(items) =>
      forall i | 0 <= i < |items| {
        MinimizeIsMinimal(items[i]);
      }
    case _ =>
  }

  /** `minimize` changes nothing in a value that has no empty object member. */
  lemma {:induction false} MinimizeKeepsMinimal(j: Json)
    requires Minimal(j)
    ensures Minimize(j) == j
    decreases j
  {
    match j
    case JObject(m) =>
      forall k | k in m {
        MinimizeKeepsMinimal(m[k]);
      }
      assert Minimize(j).members == m;
    case JArray(items) =>
      forall i | 0 <= i < |items| {
        MinimizeKeepsMinimal(items[i]);
      }
      assert Minimize(j).items == items;
    case _ =>
  }

  /** Saving a setting twice stores the same value. */
  lemma MinimizeIdempotent(j: Json)
    ensures Minimize(Minimize(j)) == Minimize(j)
  {
    MinimizeIsMinimal(j);
    MinimizeKeepsMinimal(Minimize(j));
  }

  /** What `save()` stores at `setting`: the minimized value, or nothing when that is an empty object. */
  function SavedSetting(v: Option<Json>): (r: Option<Json>)
    ensures v.None? ==> r.None?
    ensures r.Some? ==> !EmptyObject(r.value) && Minimal(r.value)
    ensures v.Some? && Minimal(v.value) && !EmptyObject(v.value) ==> r == v
  {
    match v
    case None => None
    case Some(j) =>
      MinimizeIsMinimal(j);
      assert Minimal(j) ==> Minimize(j) == j by {
        if Minimal(j) { MinimizeKeepsMinimal(j); }
      }
      var m := Minimize(j);
      if EmptyObject(m) then None else Some(m)
  }

  /** `new Setting(data).save()` under a fresh ObjectId: `name` is a required String. */
  function NewSetting(id: string, input: SettingInput): (r: Outcome<SettingDoc>)
    ensures r.Rejected? <==> RequiredText(input.name).Rejected?
    ensures r.Rejected? ==> r.failure == ValidationError
    ensures r.Resolved? ==> r.value.id == id && r.value.name == RequiredText(input.name).value
    ensures r.Resolved? ==> r.value.setting == SavedSetting(input.setting)
  {
    match RequiredText(input.name)
    case Rejected(f) => Rejected(f)
    case Resolved(name) => Resolved(SettingDoc(id, name, SavedSetting(input.setting)))
  }

  // ---------------------------------------------------------------------
  // Properties of the updates

  /** A setting update changes at most the `setting` of the first document with the name. */
  lemma UpdateNamedChangesOnlyNamed(docs: seq<SettingDoc>, name: string, w: SettingWrite)
    ensures var (after, r) := UpdateNamed(docs, name, w);
      |after| == |docs|
      && (forall k :: 0 <= k < |docs| ==> after[k].id == docs[k].id && after[k].name == docs[k].name)
      && (forall k :: 0 <= k < |docs| && after[k] != docs[k] ==> Locate(docs, NameOf, name) == Some(k))
      && (r.Resolved? ==> (r.value.matchedCount == 1 <==> HasIdIn(docs, NameOf, name)))
  {
  }

  /** The same for `findOneAndUpdate`, which resolves the document as it is after the update. */
  lemma FindNamedAndUpdateChangesOnlyNamed(docs: seq<SettingDoc>, name: string, w: SettingWrite)
    ensures var (after, r) := FindNamedAndUpdate(docs, name, w);
      |after| == |docs|
      && (forall k :: 0 <= k < |docs| ==> after[k].id == docs[k].id && after[k].name == docs[k].name)
      && (forall k :: 0 <= k < |docs| && after[k] != docs[k] ==> Locate(docs, NameOf, name) == Some(k))
      && (r.Resolved? ==> (r.value.Some? <==> HasIdIn(docs, NameOf, name)))
      && (r.Resolved? && r.value.Some? ==> r.value.value == after[Locate(docs, NameOf, name).value])
  {
  }

  /** Keeping every id and name keeps a collection's invariant. */
  lemma SameKeysKeepStored(before: seq<SettingDoc>, after: seq<SettingDoc>)
    requires UniqueKeys(before, IdOf) && forall k :: 0 <= k < |before| ==> Stored(before[k])
    requires |after| == |before|
    requires forall k :: 0 <= k < |before| ==> after[k].id == before[k].id && after[k].name == before[k].name
    ensures UniqueKeys(after, IdOf) && forall k :: 0 <= k < |after| ==> Stored(after[k])
  {
    MapKeepsUniqueKeys(before, IdOf, after);
  }

  /** A flat update that succeeded on the named document writes exactly its fields there. */
  lemma FlatUpdateWrites(docs: seq<SettingDoc>, name: string, writes: map<string, Json>, i: nat)
    requires Locate(docs, NameOf, name) == Some(i)
    requires UpdateNamed(docs, name, Flat(writes)).1.Resolved?
    ensures var after := UpdateNamed(docs, name, Flat(writes)).0;
      |after| == |docs| && forall k :: At(after[i].setting, k) == if k in writes then Some(writes[k]) else At(docs[i].setting, k)
  {
  }

  /** The default currency name is not among the fields copied from the input. */
  lemma CurrencyNameNotCopied()
    ensures DefaultCurrencyField !in GlobalSettingFields
  {
  }

  /** The default currency symbol is not among the fields copied from the input. */
  lemma CurrencySymbolNotCopied()
    ensures DefaultCurrencySymbolField !in GlobalSettingFields
  {
  }

  /** The two currency paths are not among the fields copied from the input. */
  lemma CurrencyFieldsNotCopied()
    ensures DefaultCurrencyField !in GlobalSettingFields && DefaultCurrencySymbolField !in GlobalSettingFields
  {
    CurrencyNameNotCopied();
    CurrencySymbolNotCopied();
  }

  /**
   * The global setting update writes each listed field the input has, the
   * currency fields from the currency found by symbol, and nothing else.
   */
  lemma GlobalUpdateWrites(docs: seq<SettingDoc>, currencies: seq<CurrencyModel.Currency>, setting: Option<Json>, i: nat)
    requires Locate(docs, NameOf, GlobalSettingName) == Some(i)
    requires GlobalUpdateOf(docs, currencies, setting).1.Resolved?
    ensures Readable(setting) && CurrencyBySymbol(currencies, At(setting, DefaultCurrencySymbolField)).Resolved?
    ensures var after := GlobalUpdateOf(docs, currencies, setting).0[i].setting;
      var currency := CurrencyBySymbol(currencies, At(setting, DefaultCurrencySymbolField)).value;
      (forall f :: f in GlobalSettingFields && At(setting, f).Some? ==> At(after, f) == At(setting, f))
      && (forall f :: f in GlobalSettingFields && At(setting, f).None? ==> At(after, f) == At(docs[i].setting, f))
      && (currency.Some? ==> At(after, DefaultCurrencyField) == Some(JString(currency.value.name)))
      && (currency.None? ==> At(after, DefaultCurrencyField) == At(docs[i].setting, DefaultCurrencyField))
      && (forall k :: k !in GlobalSettingFields && k != DefaultCurrencyField && k != DefaultCurrencySymbolField ==>
            At(after, k) == At(docs[i].setting, k))
  {
    var currency := CurrencyBySymbol(currencies, At(setting, DefaultCurrencySymbolField)).value;
    CurrencyFieldsNotCopied();
    CopyAndCurrencyWrites(docs, GlobalSettingName, setting.value, GlobalSettingFields, currency, i);
  }

  lemma CopyAndCurrencyWrites(docs: seq<SettingDoc>, name: string, input: Json, fields: seq<string>, currency: Option<CurrencyModel.Currency>, i: nat)
    requires Locate(docs, NameOf, name) == Some(i)
    requires DefaultCurrencyField !in fields && DefaultCurrencySymbolField !in fields
    requires UpdateNamed(docs, name, Flat(Writes(input, SameName(fields)) + CurrencyWrites(currency))).1.Resolved?
    ensures var after := UpdateNamed(docs, name, Flat(Writes(input, SameName(fields)) + CurrencyWrites(currency))).0[i].setting;
      (forall f :: f in fields && Lookup(input, f).Some? ==> At(after, f) == Lookup(input, f))
      && (forall f :: f in fields && Lookup(input, f).None? ==> At(after, f) == At(docs[i].setting, f))
      && (currency.Some? ==> At(after, DefaultCurrencyField) == Some(JString(currency.value.name)))
      && (currency.None? ==> At(after, DefaultCurrencyField) == At(docs[i].setting, DefaultCurrencyField))
      && (forall k :: k !in fields && k != DefaultCurrencyField && k != DefaultCurrencySymbolField ==>
            At(after, k) == At(docs[i].setting, k))
  {
    var copied := Writes(input, SameName(fields));
    FlatUpdateWrites(docs, name, copied + CurrencyWrites(currency), i);
    assert DefaultCurrencyField !in copied && DefaultCurrencySymbolField !in copied;
  }

  /**
   * The default currency symbol after the global setting update: the found
   * currency's symbol, `null` when it stored `null`, and the old value when
   * no currency was found or its symbol is unset.
   */
  lemma GlobalUpdateWritesSymbol(docs: seq<SettingDoc>, currencies: seq<CurrencyModel.Currency>, setting: Option<Json>, i: nat)
    requires Locate(docs, NameOf, GlobalSettingName) == Some(i)
    requires GlobalUpdateOf(docs, currencies, setting).1.Resolved?
    ensures Readable(setting) && CurrencyBySymbol(currencies, At(setting, DefaultCurrencySymbolField)).Resolved?
    ensures var after := GlobalUpdateOf(docs, currencies, setting).0[i].setting;
      var currency := CurrencyBySymbol(currencies, At(setting, DefaultCurrencySymbolField)).value;
      (currency.Some? && currency.value.symbol.NullSlot? ==> At(after, DefaultCurrencySymbolField) == Some(JNull))
      && (currency.Some? && currency.value.symbol.Held? ==>
            At(after, DefaultCurrencySymbolField) == Some(JString(currency.value.symbol.text)))
      && (currency.None? || currency.value.symbol.Unset? ==>
            At(after, DefaultCurrencySymbolField) == At(docs[i].setting, DefaultCurrencySymbolField))
  {
    var currency := CurrencyBySymbol(currencies, At(setting, DefaultCurrencySymbolField)).value;
    CurrencySymbolNotCopied();
    CopySymbolWrites(docs, GlobalSettingName, setting.value, GlobalSettingFields, currency, i);
  }

  /** The symbol a setting update copies from the found currency, for any update that copies no body symbol. */
  lemma CopySymbolWrites(docs: seq<SettingDoc>, name: string, input: Json, fields: seq<string>, currency: Option<CurrencyModel.Currency>, i: nat)
    requires Locate(docs, NameOf, name) == Some(i)
    requires DefaultCurrencySymbolField !in fields
    requires UpdateNamed(docs, name, Flat(Writes(input, SameName(fields)) + CurrencyWrites(currency))).1.Resolved?
    ensures var after := UpdateNamed(docs, name, Flat(Writes(input, SameName(fields)) + CurrencyWrites(currency))).0[i].setting;
      (currency.Some? && currency.value.symbol.NullSlot? ==> At(after, DefaultCurrencySymbolField) == Some(JNull))
      && (currency.Some? && currency.value.symbol.Held? ==>
            At(after, DefaultCurrencySymbolField) == Some(JString(currency.value.symbol.text)))
      && (currency.None? || currency.value.symbol.Unset? ==>
            At(after, DefaultCurrencySymbolField) == At(docs[i].setting, DefaultCurrencySymbolField))
  {
    var copied := Writes(input, SameName(fields));
    FlatUpdateWrites(docs, name, copied + CurrencyWrites(currency), i);
    assert DefaultCurrencySymbolField !in copied;
  }

  /** The input's own `default_currency` is never read: the name comes from the currency lookup. */
  lemma GlobalUpdateIgnoresGivenCurrencyName(docs: seq<SettingDoc>, currencies: seq<CurrencyModel.Currency>, m: map<string, Json>, given: Json)
    ensures GlobalUpdateOf(docs, currencies, Some(JObject(m)))
         == GlobalUpdateOf(docs, currencies, Some(JObject(m[DefaultCurrencyField := given])))
  {
    var sources := SameName(GlobalSettingFields);
    CurrencyFieldsNotCopied();
    assert DefaultCurrencyField !in sources.Values;
    assert Writes(JObject(m), sources) == Writes(JObject(m[DefaultCurrencyField := given]), sources);
  }

  /** The store setting update writes each listed field the input has and leaves every other field as it was. */
  lemma StoreUpdateWrites(docs: seq<SettingDoc>, setting: Option<Json>, i: nat)
    requires Locate(docs, NameOf, StoreSettingName) == Some(i)
    requires StoreUpdateOf(docs, setting).1.Resolved?
    ensures Readable(setting)
    ensures var after := StoreUpdateOf(docs, setting).0[i].setting;
      (forall f :: f in StoreSettingFields && At(setting, f).Some? ==> At(after, f) == At(setting, f))
      && (forall f :: f !in StoreSettingFields || At(setting, f).None? ==> At(after, f) == At(docs[i].setting, f))
  {
    FlatUpdateWrites(docs, StoreSettingName, Writes(setting.value, SameName(StoreSettingFields)), i);
  }

  /** A store setting update whose input has none of the listed fields leaves the setting as it was. */
  lemma StoreUpdateWithNothingToWrite(docs: seq<SettingDoc>, setting: Option<Json>)
    requires Readable(setting) && forall f :: f in StoreSettingFields ==> At(setting, f).None?
    ensures StoreUpdateOf(docs, setting).0 == docs
  {
    assert Writes(setting.value, SameName(StoreSettingFields)) == map[];
    match Locate(docs, NameOf, StoreSettingName)
    case None =>
    case Some(i) =>
      assert docs[i := docs[i].(setting := docs[i].setting)] == docs;
  }

  /** A setting update leaves the updated document the first one with its name. */
  lemma UpdateNamedKeepsLocate(docs: seq<SettingDoc>, name: string, w: SettingWrite)
    ensures Locate(UpdateNamed(docs, name, w).0, NameOf, name) == Locate(docs, NameOf, name)
  {
    var after := UpdateNamed(docs, name, w).0;
    UpdateNamedChangesOnlyNamed(docs, name, w);
    assert forall k :: 0 <= k < |docs| ==> NameOf(after[k]) == NameOf(docs[k]);
    LocateSameKeys(docs, after, NameOf, name);
  }

  /** Documents with the same names in the same order: the first with a given name is at the same place. */
  lemma LocateSameKeys(s: seq<SettingDoc>, t: seq<SettingDoc>, key: SettingDoc -> string, name: string)
    requires |s| == |t| && forall k :: 0 <= k < |s| ==> key(t[k]) == key(s[k])
    ensures Locate(t, key, name) == Locate(s, key, name)
  {
    if Locate(s, key, name).None? {
      assert !HasIdIn(t, key, name);
    }
  }

  /** The store setting read after an update that succeeded holds the written fields. */
  lemma StoreUpdateThenRead(docs: seq<SettingDoc>, setting: Option<Json>, f: string)
    requires HasIdIn(docs, NameOf, StoreSettingName)
    requires StoreUpdateOf(docs, setting).1.Resolved?
    requires f in StoreSettingFields && At(setting, f).Some?
    ensures At(SettingOf(StoreUpdateOf(docs, setting).0, StoreSettingName), f) == At(setting, f)
  {
    var i := Locate(docs, NameOf, StoreSettingName).value;
    StoreUpdateWrites(docs, setting, i);
    UpdateNamedKeepsLocate(docs, StoreSettingName, Flat(Writes(setting.value, SameName(StoreSettingFields))));
  }

  /** The global setting read after an update that succeeded holds the fields written from the input. */
  lemma GlobalUpdateThenRead(docs: seq<SettingDoc>, currencies: seq<CurrencyModel.Currency>, setting: Option<Json>, f: string)
    requires HasIdIn(docs, NameOf, GlobalSettingName)
    requires GlobalUpdateOf(docs, currencies, setting).1.Resolved?
    requires f in GlobalSettingFields && At(setting, f).Some?
    ensures At(SettingOf(GlobalUpdateOf(docs, currencies, setting).0, GlobalSettingName), f) == At(setting, f)
  {
    var i := Locate(docs, NameOf, GlobalSettingName).value;
    GlobalUpdateWrites(docs, currencies, setting, i);
    var currency := CurrencyBySymbol(currencies, At(setting, DefaultCurrencySymbolField)).value;
    UpdateNamedKeepsLocate(docs, GlobalSettingName, Flat(Writes(setting.value, SameName(GlobalSettingFields)) + CurrencyWrites(currency)));
  }

  /** The store customization update needs every section in the input: one it lacks is a TypeError and nothing is written. */
  lemma CustomizationNeedsEverySection(docs: seq<SettingDoc>, m: map<string, Json>, s: string)
    requires s in CustomizationFields && (s !in m || m[s] == JNull)
    ensures CustomizationUpdateOf(docs, Some(JObject(m))) == (docs, Rejected(TypeError))
  {
    assert !Readable(At(Some(JObject(m)), s));
  }

  /**
   * A sectioned update writes each table entry from its source field of the
   * same input section, when that field has a value, and leaves every other
   * path as it was; it resolves the updated document.
   */
  lemma SectionedUpdateWrites(docs: seq<SettingDoc>, setting: Option<Json>, name: string, table: map<string, map<string, string>>, i: nat)
    requires Locate(docs, NameOf, name) == Some(i)
    requires SectionedUpdateOf(docs, setting, name, table).1.Resolved?
    ensures SectionsReadable(setting, table)
    ensures var (after, r) := SectionedUpdateOf(docs, setting, name, table);
      r.value == Some(after[i])
      && (forall s, f :: s in table && f in table[s] && At(At(setting, s), table[s][f]).Some? ==>
            At(At(after[i].setting, s), f) == At(At(setting, s), table[s][f]))
      && (forall s, f :: s in table && f !in table[s] ==>
            At(At(after[i].setting, s), f) == At(At(docs[i].setting, s), f))
      && (forall s :: s !in table ==> At(after[i].setting, s) == At(docs[i].setting, s))
  {
    var w := SectionedWrites(setting.value, table);
    var after := SectionedUpdateOf(docs, setting, name, table).0;
    forall s, f | s in table && f in table[s] && At(At(setting, s), table[s][f]).Some?
      ensures At(At(after[i].setting, s), f) == At(At(setting, s), table[s][f])
    {
      assert f in w[s];
      assert s in Live(w);
    }
    forall s, f | s in table && f !in table[s]
      ensures At(At(after[i].setting, s), f) == At(At(docs[i].setting, s), f)
    {
      assert f !in w[s];
    }
  }

  /**
   * The store customization update writes each table entry from its source
   * field of the same input section, when that field has a value, and leaves
   * every other path as it was; it resolves the updated document.
   */
  lemma CustomizationUpdateWrites(docs: seq<SettingDoc>, setting: Option<Json>, i: nat)
    requires Locate(docs, NameOf, StoreCustomizationSettingName) == Some(i)
    requires CustomizationUpdateOf(docs, setting).1.Resolved?
    ensures SectionsReadable(setting, CustomizationFields)
    ensures var (after, r) := CustomizationUpdateOf(docs, setting);
      r.value == Some(after[i])
      && (forall s, f :: s in CustomizationFields && f in CustomizationFields[s] && At(At(setting, s), CustomizationFields[s][f]).Some? ==>
            At(At(after[i].setting, s), f) == At(At(setting, s), CustomizationFields[s][f]))
      && (forall s, f :: s in CustomizationFields && f !in CustomizationFields[s] ==>
            At(At(after[i].setting, s), f) == At(At(docs[i].setting, s), f))
      && (forall s :: s !in CustomizationFields ==> At(after[i].setting, s) == At(docs[i].setting, s))
  {
    SectionedUpdateWrites(docs, setting, StoreCustomizationSettingName, CustomizationFields, i);
  }

  /** The `about_us` section of the customization table is its own table. */
  lemma AboutUsSection()
    ensures "about_us" in CustomizationFields && CustomizationFields["about_us"] == AboutUsFields
  {
  }

  /** `about_us.founder_two_sub` is taken from the input's `about_us.founder_two_name`. */
  lemma FounderTwoSubTakesFounderTwoName()
    ensures "founder_two_sub" in AboutUsFields && AboutUsFields["founder_two_sub"] == "founder_two_name"
  {
  }

  /** `about_us.features_one_left_img` is taken from the input's `about_us.features_one_left_image`. */
  lemma FeaturesOneLeftImgTakesImage()
    ensures "features_one_left_img" in AboutUsFields && AboutUsFields["features_one_left_img"] == "features_one_left_image"
  {
  }

  /** The SEO getter is the customization getter asked for the `seo` section. */
  lemma SeoIsCustomizationSection(setting: Option<Json>)
    ensures Projected(setting, map["setting.seo" := 1, "_id" := 0]) == Selection(setting, "seo", "")
  {
    var projection := map["setting.seo" := 1, "_id" := 0];
    assert "setting" !in projection;
    assert "setting." + "seo" == "setting.seo";
    forall k ensures Includes(projection, k) <==> k == "seo" {
      PathInjective(k, "seo");
      assert |"setting." + k| >= 8;
    }
    assert Requested("seo", "") == {"seo"};
    match setting
    case Some(JObject(m)) =>
      assert Projected(setting, projection).value.members == Selection(setting, "seo", "").value.members;
    case _ =>
  }

  class SettingCollection {
    /** The setting documents, oldest `_id` first. */
    var records: seq<SettingDoc>

    ghost predicate Valid()
      reads this
    {
      UniqueKeys(records, IdOf) && forall k :: 0 <= k < |records| ==> Stored(records[k])
    }

    constructor()
      ensures Valid() && records == []
    {
      records := [];
    }

    /** `getGlobalSetting()` */
    function GetGlobalSetting(): (r: Option<Json>)
      reads this
      ensures r.Some? ==> exists k :: 0 <= k < |records| && records[k].name == GlobalSettingName && records[k].setting == r
      ensures (forall k :: 0 <= k < |records| ==> records[k].name != GlobalSettingName) ==> r.None?
      ensures forall k :: 0 <= k < |records| && records[k].name == GlobalSettingName && (forall j :: 0 <= j < k ==> records[j].name != GlobalSettingName) ==>
        r == records[k].setting
    {
      SettingOf(records, GlobalSettingName)
    }

    /** `getStoreSetting()` */
    function GetStoreSetting(): (r: Option<Json>)
      reads this
      ensures r.Some? ==> exists k :: 0 <= k < |records| && records[k].name == StoreSettingName && records[k].setting == r
      ensures (forall k :: 0 <= k < |records| ==> records[k].name != StoreSettingName) ==> r.None?
      ensures forall k :: 0 <= k < |records| && records[k].name == StoreSettingName && (forall j :: 0 <= j < k ==> records[j].name != StoreSettingName) ==>
        r == records[k].setting
    {
      SettingOf(records, StoreSettingName)
    }

    /** `getStoreCustomizationSetting(key, keyTwo)`; an absent key is the empty string. */
    method GetStoreCustomizationSetting(key: string, keyTwo: string) returns (r: Option<Json>)
      ensures r == Selection(SettingOf(records, StoreCustomizationSettingName), key, keyTwo)
    {
      var projection := BuildProjection(key, keyTwo);
      var setting := SettingOf(records, StoreCustomizationSettingName);
      r := Projected(setting, projection);
      if Requested(key, keyTwo) != {} && setting.Some? && setting.value.JObject? {
        assert r.value.members == Selection(setting, key, keyTwo).value.members;
      }
    }

    /** `getStoreSeoSetting()`: the `seo` section of the customization. */
    function GetStoreSeoSetting(): (r: Option<Json>)
      reads this
      ensures r == Selection(SettingOf(records, StoreCustomizationSettingName), "seo", "")
    {
      SeoIsCustomizationSection(SettingOf(records, StoreCustomizationSettingName));
      Projected(SettingOf(records, StoreCustomizationSettingName), map["setting.seo" := 1, "_id" := 0])
    }

    /** `store(data)` under a fresh ObjectId. */
    method Store(freshId: string, input: SettingInput) returns (r: Outcome<SettingDoc>)
      requires Valid() && IsStoredId(freshId) && !HasIdIn(records, IdOf, freshId)
      modifies this
      ensures Valid()
      ensures r == NewSetting(freshId, input)
      ensures records == if r.Resolved? then old(records) + [r.value] else old(records)
    {
      r := NewSetting(freshId, input);
      if r.Resolved? {
        records := records + [r.value];
      }
    }

    /** `updateGlobalSetting(data)`: `setting` is `data.setting`, `currencies` the currency collection. */
    method UpdateGlobalSetting(setting: Option<Json>, currencies: CurrencyService.CurrencyCollection) returns (r: Outcome<UpdateResult>)
      requires Valid()
      modifies this
      ensures Valid()
      ensures (records, r) == GlobalUpdateOf(old(records), currencies.records, setting)
    {
      var symbol := Member(setting, DefaultCurrencySymbolField);
      if symbol.Rejected? {
        return Rejected(symbol.failure);
      }
      var currency := CurrencyBySymbol(currencies.records, symbol.value);
      if currency.Rejected? {
        return Rejected(currency.failure);
      }
      var w := Flat(Writes(setting.value, SameName(GlobalSettingFields)) + CurrencyWrites(currency.value));
      UpdateNamedChangesOnlyNamed(records, GlobalSettingName, w);
      SameKeysKeepStored(records, UpdateNamed(records, GlobalSettingName, w).0);
      records, r := UpdateNamed(records, GlobalSettingName, w).0, UpdateNamed(records, GlobalSettingName, w).1;
    }

    /** `updateStoreSetting(data)`: `setting` is `data.setting`. */
    method UpdateStoreSetting(setting: Option<Json>) returns (r: Outcome<UpdateResult>)
      requires Valid()
      modifies this
      ensures Valid()
      ensures (records, r) == StoreUpdateOf(old(records), setting)
    {
      if !Readable(setting) {
        return Rejected(TypeError);
      }
      var w := Flat(Writes(setting.value, SameName(StoreSettingFields)));
      UpdateNamedChangesOnlyNamed(records, StoreSettingName, w);
      SameKeysKeepStored(records, UpdateNamed(records, StoreSettingName, w).0);
      records, r := UpdateNamed(records, StoreSettingName, w).0, UpdateNamed(records, StoreSettingName, w).1;
    }

    /** `updateStoreCustomizationSetting(data)`: `setting` is `data.setting`. */
    method UpdateStoreCustomizationSetting(setting: Option<Json>) returns (r: Outcome<Option<SettingDoc>>)
      requires Valid()
      modifies this
      ensures Valid()
      ensures (records, r) == CustomizationUpdateOf(old(records), setting)
    {
      if !SectionsReadable(setting, CustomizationFields) {
        return Rejected(TypeError);
      }
      var w := Nested(SectionedWrites(setting.value, CustomizationFields));
      FindNamedAndUpdateChangesOnlyNamed(records, StoreCustomizationSettingName, w);
      SameKeysKeepStored(records, FindNamedAndUpdate(records, StoreCustomizationSettingName, w).0);
      records, r := FindNamedAndUpdate(records, StoreCustomizationSettingName, w).0, FindNamedAndUpdate(records, StoreCustomizationSettingName, w).1;
    }
  }
}
