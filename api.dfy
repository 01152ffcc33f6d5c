/**
 * The remote-store client without its transport: the completeness
 * validator, the gates in front of every request, the bounded retry loops
 * of save and load, and the normalisation of whatever shape the load
 * payload arrives in.
 *
 * Each request's outcome is an input (an oracle), as are `JSON.parse`
 * (`parse`), `Number()` on text (`numberOf`) and the clock. A wait before a
 * retry is recorded as its length in milliseconds instead of being waited.
 */
module Api {
  import opened Wrappers
  import opened Values
  import opened ExcelParser
  import KanbanConstants

  const MAX_RETRIES: nat := 2
  const RETRY_DELAY: nat := 1000

  /** The optional project identifier; `undefined` and "" both count as missing. */
  type JsonId = Option<string>

  predicate HasJsonId(jsonId: JsonId) {
    jsonId.Some? && jsonId.value != ""
  }

  // ---------------------------------------------------------------------
  // Validation before a write.

  /**
   * One record passes the save validator: id, name, status and createdAt
   * are non-empty strings; type, description, email and linkedin are
   * strings. The investment bounds are a number or undefined by the record
   * type, which is what the validator's last two checks ask.
   */
  predicate RecordValid(inv: Investor) {
    && IsNonEmptyString(inv.id)
    && IsNonEmptyString(inv.name)
    && IsString(inv.kind)
    && IsString(inv.description)
    && IsNonEmptyString(inv.status)
    && IsNonEmptyString(inv.createdAt)
    && IsString(inv.email)
    && IsString(inv.linkedin)
  }

  /** What `validateInvestorsData` accepts: a non-empty list of valid records. */
  predicate ValidInvestorsData(investors: seq<Investor>) {
    |investors| > 0 && forall i :: 0 <= i < |investors| ==> RecordValid(investors[i])
  }

  /** `validateInvestorsData`: rejects the empty list, then checks the records in order. */
  method ValidateInvestorsData(investors: seq<Investor>) returns (ok: bool)
    ensures ok <==> ValidInvestorsData(investors)
  {
    if |investors| == 0 {
      return false;
    }
    for i := 0 to |investors|
      invariant forall k :: 0 <= k < i ==> RecordValid(investors[k])
    {
      var inv := investors[i];
      if !IsNonEmptyString(inv.id) { return false; }
      if !IsNonEmptyString(inv.name) { return false; }
      if !IsString(inv.kind) { return false; }
      if !IsString(inv.description) { return false; }
      if !IsNonEmptyString(inv.status) { return false; }
      if !IsNonEmptyString(inv.createdAt) { return false; }
      if !IsString(inv.email) { return false; }
      if !IsString(inv.linkedin) { return false; }
    }
    return true;
  }

  /** The empty list never passes the validator. */
  lemma EmptyListInvalid()
    ensures !ValidInvestorsData([])
  {
  }

  /**
   * The JSON export: refused when the data do not validate, otherwise the
   * file is named after the project identifier, or "investors" without one.
   */
  function ExportFileName(investors: seq<Investor>, jsonId: JsonId): (r: Option<string>)
    ensures r.None? <==> !ValidInvestorsData(investors)
    ensures r.Some? && HasJsonId(jsonId) ==> r.value == jsonId.value + ".json"
    ensures r.Some? && !HasJsonId(jsonId) ==> r.value == "investors.json"
  {
    if !ValidInvestorsData(investors) then None
    else Some((if HasJsonId(jsonId) then jsonId.value else "investors") + ".json")
  }

  // ---------------------------------------------------------------------
  // Saving.

  /** How a save call leaves its gates. */
  datatype SaveGate = NoJsonId | InvalidData | Proceed

  function SaveGateOf(investors: seq<Investor>, jsonId: JsonId): (g: SaveGate)
    ensures g == Proceed <==> HasJsonId(jsonId) && ValidInvestorsData(investors)
    ensures g == NoJsonId <==> !HasJsonId(jsonId)
  {
    if !HasJsonId(jsonId) then NoJsonId
    else if !ValidInvestorsData(investors) then InvalidData
    else Proceed
  }

  /** The waits before the first `k` retries: 1000, 2000, ... milliseconds. */
  function Backoff(k: nat): (r: seq<nat>)
    ensures |r| == k
    ensures forall i :: 0 <= i < k ==> r[i] == RETRY_DELAY * (i + 1)
  {
    seq(k, i requires 0 <= i < k => RETRY_DELAY * (i + 1))
  }

  /**
   * `saveInvestors`. `outcomes[k]` says whether request `k` came back ok;
   * `requests` counts the requests made and `waits` the delays before each
   * retry.
   */
  method SaveInvestors(investors: seq<Investor>, jsonId: JsonId, outcomes: seq<bool>)
    returns (ok: bool, requests: nat, waits: seq<nat>)
    requires |outcomes| > MAX_RETRIES
    ensures SaveGateOf(investors, jsonId) != Proceed ==> !ok && requests == 0 && waits == []
    ensures SaveGateOf(investors, jsonId) == Proceed ==>
      && 1 <= requests <= MAX_RETRIES + 1
      && (forall k :: 0 <= k < requests - 1 ==> !outcomes[k])
      && (ok <==> outcomes[requests - 1])
      && (!ok ==> requests == MAX_RETRIES + 1)
      && waits == Backoff(requests - 1)
  {
    if !HasJsonId(jsonId) {
      return false, 0, [];
    }
    var valid := ValidateInvestorsData(investors);
    if !valid {
      return false, 0, [];
    }
    var retries: nat := 0;
    requests, waits := 0, [];
    while retries <= MAX_RETRIES
      invariant retries <= MAX_RETRIES
      invariant requests == retries
      invariant forall k :: 0 <= k < retries ==> !outcomes[k]
      invariant waits == Backoff(retries)
      decreases MAX_RETRIES - retries
    {
      requests := requests + 1;
      if outcomes[retries] {
        return true, requests, waits;
      }
      if retries == MAX_RETRIES {
        return false, requests, waits;
      }
      waits := waits + [RETRY_DELAY * (retries + 1)];
      assert waits == Backoff(retries + 1);
      retries := retries + 1;
    }
  }

  /** A save of a list that fails validation, or without a project, sends nothing. */
  lemma SaveNeedsIdAndValidData(investors: seq<Investor>, jsonId: JsonId)
    requires !HasJsonId(jsonId) || !ValidInvestorsData(investors)
    ensures SaveGateOf(investors, jsonId) != Proceed
  {
  }

  /** The result of a single request that has no retry. */
  datatype RequestResult = RequestResult(ok: bool, requests: nat)

  /**
   * `trackCardUpdate`: the metadata note is sent with exactly one request
   * when there is a project identifier, and not at all otherwise.
   */
  function TrackCardUpdate(jsonId: JsonId, outcome: bool): (r: RequestResult)
    ensures !HasJsonId(jsonId) ==> r == RequestResult(false, 0)
    ensures HasJsonId(jsonId) ==> r.requests == 1 && (r.ok <==> outcome)
  {
    if !HasJsonId(jsonId) then RequestResult(false, 0) else RequestResult(outcome, 1)
  }

  // ---------------------------------------------------------------------
  // Loading: the payload and its normalisation.

  /** One request of a load: it failed (network, status or body), or it returned the proxy's JSON. */
  datatype Attempt = Failed | Received(proxy: Json)

  /** Where the records were found in the payload. */
  datatype Shape = BareArray | DataArray | ArrayAtKey(key: string) | SingleRecord | UnrecognisedObject

  /** What processing one received payload gives: records, or an exception that triggers a retry. */
  datatype Processed = Loaded(records: seq<Investor>, shape: Shape) | Thrown

  /**
   * The data inside the proxy response: the parsed `contents` when the
   * response is truthy and has truthy contents (the contents themselves
   * when they do not parse), else the response itself.
   */
  function PayloadOf(proxy: Json, parse: Json -> Option<Json>): Json {
    var contents := Get(proxy, "contents");
    if Truthy(proxy) && Present(contents) then
      match parse(contents.value)
      case Some(j) => j
      case None => contents.value
    else proxy
  }

  /**
   * An investment bound on the array and `data` paths: a truthy number is
   * kept, `{_type: 'undefined'}` is dropped, `{value: v}` becomes
   * `Number(v)` unless that is NaN, and anything else (0 included) is dropped.
   */
  function WrappedAmount(v: Option<Json>, numberOf: Json -> Num): (r: Option<Num>)
    ensures v.Some? && v.value.JNum? && Truthy(v.value) ==> r == Some(v.value.n)
    ensures !Present(v) ==> r.None?
    ensures v.Some? && v.value.JObj? && Get(v.value, "_type") == Some(JStr("undefined")) ==> r.None?
    ensures r.Some? ==> r.value.Finite? && v.Some?
    ensures r.Some? && r.value == Finite(0) ==> v.value.JObj? && HasKey(v.value, "value")
    ensures v.Some? && v.value.JObj? && Get(v.value, "_type") != Some(JStr("undefined")) && HasKey(v.value, "value") ==>
              var x := ToNumber(Get(v.value, "value").value, numberOf);
              r == if x.NaN? then None else Some(x)
    ensures v.Some? && v.value.JObj? && !HasKey(v.value, "value") ==> r.None?
    ensures v.Some? && !v.value.JNum? && !v.value.JObj? ==> r.None?
  {
    if !Present(v) then None
    else match v.value
      case JNum(n) => Some(n)
      case JObj(_) =>
        if Get(v.value, "_type") == Some(JStr("undefined")) then None
        else if HasKey(v.value, "value") then
          var x := ToNumber(Get(v.value, "value").value, numberOf);
          if x.NaN? then None else Some(x)
        else None
      case _ => None
  }

  /** An investment bound on the key-scan and single-object paths: any number is kept. */
  function PlainAmount(v: Option<Json>): (r: Option<Num>)
    ensures r.Some? <==> v.Some? && v.value.JNum?
    ensures r.Some? ==> r.value == v.value.n
  {
    if v.Some? && v.value.JNum? then Some(v.value.n) else None
  }

  /**
   * One loaded record completed with defaults. `wrapped` selects the
   * investment rule of the array and `data` paths.
   */
  function NormaliseRecord(inv: Json, index: nat, ts: nat, now: string, wrapped: bool, numberOf: Json -> Num): (r: Investor)
    requires inv != JNull
    ensures r.id == Or(Get(inv, "id"), JStr(GeneratedId(ts, index)))
    ensures r.name == Or(Get(inv, "name"), JStr("Unnamed Investor"))
    ensures r.status == Or(Get(inv, "status"), JStr(KanbanConstants.DEFAULT_STATUS))
    ensures r.createdAt == Or(Get(inv, "createdAt"), JStr(now))
    ensures r.kind == Or(Get(inv, "type"), JStr(""))
    ensures r.description == Or(Get(inv, "description"), JStr(""))
    ensures r.email == Or(Get(inv, "email"), JStr(""))
    ensures r.linkedin == Or(Get(inv, "linkedin"), JStr(""))
    ensures wrapped ==> r.investmentMin == WrappedAmount(Get(inv, "investmentMin"), numberOf)
    ensures wrapped ==> r.investmentMax == WrappedAmount(Get(inv, "investmentMax"), numberOf)
    ensures !wrapped ==> r.investmentMin == PlainAmount(Get(inv, "investmentMin"))
    ensures !wrapped ==> r.investmentMax == PlainAmount(Get(inv, "investmentMax"))
  {
    Investor(
      id := Or(Get(inv, "id"), JStr(GeneratedId(ts, index))),
      name := Or(Get(inv, "name"), JStr("Unnamed Investor")),
      kind := Or(Get(inv, "type"), JStr("")),
      description := Or(Get(inv, "description"), JStr("")),
      status := Or(Get(inv, "status"), JStr(KanbanConstants.DEFAULT_STATUS)),
      investmentMin := if wrapped then WrappedAmount(Get(inv, "investmentMin"), numberOf) else PlainAmount(Get(inv, "investmentMin")),
      investmentMax := if wrapped then WrappedAmount(Get(inv, "investmentMax"), numberOf) else PlainAmount(Get(inv, "investmentMax")),
      createdAt := Or(Get(inv, "createdAt"), JStr(now)),
      email := Or(Get(inv, "email"), JStr("")),
      linkedin := Or(Get(inv, "linkedin"), JStr("")))
  }

  /** No element of the array is null (reading a property of null throws). */
  predicate NoNulls(items: seq<Json>) {
    forall i :: 0 <= i < |items| ==> items[i] != JNull
  }

  /** The `map` over a loaded array: one record per element, in order, or an exception. */
  function NormaliseAll(items: seq<Json>, wrapped: bool, ts: nat -> nat, now: nat -> string, numberOf: Json -> Num): (r: Option<seq<Investor>>)
    ensures r.Some? <==> NoNulls(items)
    ensures r.Some? ==> |r.value| == |items|
    ensures r.Some? ==> forall i :: 0 <= i < |items| ==>
      r.value[i] == NormaliseRecord(items[i], i, ts(i), now(i), wrapped, numberOf)
  {
    if !NoNulls(items) then None
    else Some(seq(|items|, i requires 0 <= i < |items| => NormaliseRecord(items[i], i, ts(i), now(i), wrapped, numberOf)))
  }

  /** The index of the first property, in key order, whose value is an array. */
  function FirstArrayField(fields: seq<(string, Json)>): (r: Option<nat>)
    ensures r.Some? ==> r.value < |fields| && fields[r.value].1.JArr?
    ensures r.Some? ==> forall j :: 0 <= j < r.value ==> !fields[j].1.JArr?
    ensures r.None? ==> forall j :: 0 <= j < |fields| ==> !fields[j].1.JArr?
  {
    if fields == [] then None
    else if fields[0].1.JArr? then Some(0)
    else
      match FirstArrayField(fields[1..])
      case None => None
      case Some(k) => Some(k + 1)
  }

  /** The records an object's `data` property holds, when it is an array. */
  predicate HasDataArray(data: Json) {
    HasKey(data, "data") && Get(data, "data").value.JArr?
  }

  /** The payload chain: bare array, `data` array, first array-valued key, single record, other object. */
  function ProcessPayload(data: Json, ts: nat -> nat, now: nat -> string, numberOf: Json -> Num): (r: Processed)
    ensures !data.JArr? && !data.JObj? ==> r == Thrown
  {
    match data
    case JArr(items) =>
      (match NormaliseAll(items, true, ts, now, numberOf)
       case Some(rs) => Loaded(rs, BareArray)
       case None => Thrown)
    case JObj(fields) =>
      if HasDataArray(data) then
        (match NormaliseAll(Get(data, "data").value.items, true, ts, now, numberOf)
         case Some(rs) => Loaded(rs, DataArray)
         case None => Thrown)
      else
        (match FirstArrayField(fields)
         case Some(i) =>
           (match NormaliseAll(fields[i].1.items, false, ts, now, numberOf)
            case Some(rs) => Loaded(rs, ArrayAtKey(fields[i].0))
            case None => Thrown)
         case None =>
           if HasKey(data, "id") then Loaded([NormaliseRecord(data, 0, ts(0), now(0), false, numberOf)], SingleRecord)
           else Loaded([], UnrecognisedObject))
    case _ => Thrown
  }

  /**
   * A bare array, or an object whose `data` property is an array, loads
   * one record per element, unless an element is null.
   */
  lemma ArrayPayloads(data: Json, ts: nat -> nat, now: nat -> string, numberOf: Json -> Num)
    ensures var r := ProcessPayload(data, ts, now, numberOf);
      data.JArr? ==>
        && (r.Loaded? <==> NoNulls(data.items))
        && (r.Loaded? ==> r.shape == BareArray && |r.records| == |data.items|)
        && (r.Loaded? ==> forall i :: 0 <= i < |data.items| ==>
              r.records[i] == NormaliseRecord(data.items[i], i, ts(i), now(i), true, numberOf))
    ensures var r := ProcessPayload(data, ts, now, numberOf);
      data.JObj? && HasDataArray(data) ==>
        var items := Get(data, "data").value.items;
        && (r.Loaded? <==> NoNulls(items))
        && (r.Loaded? ==> r.shape == DataArray && |r.records| == |items|)
        && (r.Loaded? ==> forall i :: 0 <= i < |items| ==>
              r.records[i] == NormaliseRecord(items[i], i, ts(i), now(i), true, numberOf))
  {
  }

  /**
   * The key scan: records found under a key come from the first
   * array-valued property, and only when `data` is not an array.
   */
  lemma KeyScanPayload(data: Json, ts: nat -> nat, now: nat -> string, numberOf: Json -> Num)
    ensures var r := ProcessPayload(data, ts, now, numberOf);
      r.Loaded? && r.shape.ArrayAtKey? ==>
        && data.JObj? && !HasDataArray(data)
        && exists i :: 0 <= i < |data.fields| && data.fields[i].0 == r.shape.key
                       && data.fields[i].1.JArr? && |r.records| == |data.fields[i].1.items|
                       && (forall j :: 0 <= j < i ==> !data.fields[j].1.JArr?)
                       && forall k :: 0 <= k < |r.records| ==>
                            r.records[k] == NormaliseRecord(data.fields[i].1.items[k], k, ts(k), now(k), false, numberOf)
  {
  }

  /**
   * An object without a `data` array but with an array-valued property
   * loads through the first such property, unless an element is null.
   */
  lemma KeyScanLoads(data: Json, i: nat, ts: nat -> nat, now: nat -> string, numberOf: Json -> Num)
    requires data.JObj? && !HasDataArray(data) && FirstArrayField(data.fields) == Some(i)
    ensures i < |data.fields| && data.fields[i].1.JArr?
    ensures var r, items := ProcessPayload(data, ts, now, numberOf), data.fields[i].1.items;
      && (r.Loaded? <==> NoNulls(items))
      && (r.Loaded? ==> r.shape == ArrayAtKey(data.fields[i].0) && |r.records| == |items|)
      && (r.Loaded? ==> forall k :: 0 <= k < |items| ==>
            r.records[k] == NormaliseRecord(items[k], k, ts(k), now(k), false, numberOf))
  {
  }

  /**
   * An object with no array-valued property loads as one record when it
   * has an `id` property and as no records otherwise; nothing else loads
   * that way.
   */
  lemma ObjectPayloads(data: Json, ts: nat -> nat, now: nat -> string, numberOf: Json -> Num)
    ensures var r := ProcessPayload(data, ts, now, numberOf);
      data.JObj? && (forall j :: 0 <= j < |data.fields| ==> !data.fields[j].1.JArr?) ==>
        r.Loaded? && r.shape == (if HasKey(data, "id") then SingleRecord else UnrecognisedObject)
    ensures var r := ProcessPayload(data, ts, now, numberOf);
      r.Loaded? && r.shape in {SingleRecord, UnrecognisedObject} ==>
        && data.JObj? && (forall j :: 0 <= j < |data.fields| ==> !data.fields[j].1.JArr?)
        && (r.shape == SingleRecord <==> HasKey(data, "id"))
        && r.records == (if HasKey(data, "id") then [NormaliseRecord(data, 0, ts(0), now(0), false, numberOf)] else [])
  {
    if data.JObj? {
      LookupSpec(data.fields, "data");
    }
  }

  /** What one load request yields. */
  function AttemptResult(a: Attempt, parse: Json -> Option<Json>, ts: nat -> nat, now: nat -> string, numberOf: Json -> Num): Processed {
    match a
    case Failed => Thrown
    case Received(proxy) => ProcessPayload(PayloadOf(proxy, parse), ts, now, numberOf)
  }

  /**
   * The retry loop of `getInvestors`: `load(k)` is what request `k` yields.
   * Requests stop at the first one that loads, or after the last retry.
   */
  method LoadWithRetries(load: nat -> Processed) returns (records: seq<Investor>, requests: nat, waits: seq<nat>)
    ensures 1 <= requests <= MAX_RETRIES + 1
    ensures forall k :: 0 <= k < requests - 1 ==> load(k) == Thrown
    ensures waits == Backoff(requests - 1)
    ensures load(requests - 1).Loaded? ==> records == load(requests - 1).records
    ensures load(requests - 1) == Thrown ==> requests == MAX_RETRIES + 1 && records == []
  {
    var retries: nat := 0;
    requests, waits := 0, [];
    while retries <= MAX_RETRIES
      invariant retries <= MAX_RETRIES
      invariant requests == retries
      invariant forall k :: 0 <= k < retries ==> load(k) == Thrown
      invariant waits == Backoff(retries)
      decreases MAX_RETRIES - retries
    {
      requests := requests + 1;
      var result := load(retries);
      if result.Loaded? {
        return result.records, requests, waits;
      }
      if retries == MAX_RETRIES {
        return [], requests, waits;
      }
      waits := waits + [RETRY_DELAY * (retries + 1)];
      assert waits == Backoff(retries + 1);
      retries := retries + 1;
    }
  }

  /**
   * `getInvestors`. `attempts[k]` is what request `k` returned; `ts(k)(i)`
   * and `now(k)(i)` are the clock readings while record `i` of attempt `k`
   * is completed.
   */
  method GetInvestors(jsonId: JsonId, attempts: seq<Attempt>, parse: Json -> Option<Json>,
                      ts: nat -> nat -> nat, now: nat -> nat -> string, numberOf: Json -> Num)
    returns (records: seq<Investor>, requests: nat, waits: seq<nat>)
    requires |attempts| > MAX_RETRIES
    ensures !HasJsonId(jsonId) ==> records == [] && requests == 0 && waits == []
    ensures HasJsonId(jsonId) ==>
      && 1 <= requests <= MAX_RETRIES + 1
      && (forall k :: 0 <= k < requests - 1 ==> AttemptResult(attempts[k], parse, ts(k), now(k), numberOf) == Thrown)
      && waits == Backoff(requests - 1)
      && var last := AttemptResult(attempts[requests - 1], parse, ts(requests - 1), now(requests - 1), numberOf);
         && (last.Loaded? ==> records == last.records)
         && (last == Thrown ==> requests == MAX_RETRIES + 1 && records == [])
  {
    if !HasJsonId(jsonId) {
      return [], 0, [];
    }
    var load := (k: nat) => if k < |attempts| then AttemptResult(attempts[k], parse, ts(k), now(k), numberOf) else Thrown;
    records, requests, waits := LoadWithRetries(load);
    forall k | 0 <= k < requests
      ensures load(k) == AttemptResult(attempts[k], parse, ts(k), now(k), numberOf)
    {
    }
  }

  // ---------------------------------------------------------------------
  // Saving and loading again.

  /** The JSON value an investment bound is written as; undefined is not written at all. */
  function AmountJson(a: Option<Num>): Option<Json> {
    match a
    case None => None
    case Some(NaN) => Some(JNull)
    case Some(Finite(n)) => Some(JNum(Finite(n)))
  }

  /** A property list with an investment bound put first, as `JSON.stringify` writes it. */
  function AmountCons(key: string, a: Option<Num>, rest: seq<(string, Json)>): seq<(string, Json)> {
    match AmountJson(a)
    case None => rest
    case Some(j) => Cons(key, j, rest)
  }

  /** A lookup in a list with an investment bound first. */
  lemma LookupAmountCons(key: string, a: Option<Num>, rest: seq<(string, Json)>, k: string)
    ensures Lookup(AmountCons(key, a, rest), k) == if k == key && a.Some? then AmountJson(a) else Lookup(rest, k)
  {
    if a.Some? {
      LookupCons(key, AmountJson(a).value, rest, k);
    }
  }

  /** A record as the store returns it after a save: undefined bounds omitted, NaN written as null. */
  function ToJson(inv: Investor): (r: Json)
    ensures r.JObj?
  {
    JObj(Cons("id", inv.id, Cons("name", inv.name, Cons("type", inv.kind,
         Cons("description", inv.description, Cons("status", inv.status,
         AmountCons("investmentMin", inv.investmentMin, AmountCons("investmentMax", inv.investmentMax,
         Cons("createdAt", inv.createdAt, Cons("email", inv.email, Cons("linkedin", inv.linkedin, [])))))))))))
  }

  /** The investment bounds survive a reload: each is undefined or a non-zero finite number. */
  predicate AmountsSurviveReload(inv: Investor) {
    (inv.investmentMin.None? || (inv.investmentMin.value.Finite? && inv.investmentMin.value.value != 0))
    && (inv.investmentMax.None? || (inv.investmentMax.value.Finite? && inv.investmentMax.value.value != 0))
  }

  /** The value a saved record holds under key `k`. */
  function SavedField(inv: Investor, k: string): Option<Json> {
    if k == "id" then Some(inv.id)
    else if k == "name" then Some(inv.name)
    else if k == "type" then Some(inv.kind)
    else if k == "description" then Some(inv.description)
    else if k == "status" then Some(inv.status)
    else if k == "investmentMin" && inv.investmentMin.Some? then AmountJson(inv.investmentMin)
    else if k == "investmentMax" && inv.investmentMax.Some? then AmountJson(inv.investmentMax)
    else if k == "createdAt" then Some(inv.createdAt)
    else if k == "email" then Some(inv.email)
    else if k == "linkedin" then Some(inv.linkedin)
    else None
  }

  /** Reading a saved record's property `k` gives the record's field under that name. */
  lemma LookupToJson(inv: Investor, k: string)
    ensures Get(ToJson(inv), k) == SavedField(inv, k)
  {
    var l10 := Cons("linkedin", inv.linkedin, []);
    var l9 := Cons("email", inv.email, l10);
    var l8 := Cons("createdAt", inv.createdAt, l9);
    var l7 := AmountCons("investmentMax", inv.investmentMax, l8);
    var l6 := AmountCons("investmentMin", inv.investmentMin, l7);
    var l5 := Cons("status", inv.status, l6);
    var l4 := Cons("description", inv.description, l5);
    var l3 := Cons("type", inv.kind, l4);
    var l2 := Cons("name", inv.name, l3);
    var l1 := Cons("id", inv.id, l2);
    assert ToJson(inv).fields == l1;
    LookupCons("linkedin", inv.linkedin, [], k);
    LookupCons("email", inv.email, l10, k);
    LookupCons("createdAt", inv.createdAt, l9, k);
    LookupAmountCons("investmentMax", inv.investmentMax, l8, k);
    LookupAmountCons("investmentMin", inv.investmentMin, l7, k);
    LookupCons("status", inv.status, l6, k);
    LookupCons("description", inv.description, l5, k);
    LookupCons("type", inv.kind, l4, k);
    LookupCons("name", inv.name, l3, k);
    LookupCons("id", inv.id, l2, k);
  }

  /** The fields of a saved record read back as the record's values. */
  lemma SavedFields(inv: Investor)
    ensures Get(ToJson(inv), "id") == Some(inv.id)
    ensures Get(ToJson(inv), "name") == Some(inv.name)
    ensures Get(ToJson(inv), "type") == Some(inv.kind)
    ensures Get(ToJson(inv), "description") == Some(inv.description)
    ensures Get(ToJson(inv), "status") == Some(inv.status)
    ensures Get(ToJson(inv), "createdAt") == Some(inv.createdAt)
    ensures Get(ToJson(inv), "email") == Some(inv.email)
    ensures Get(ToJson(inv), "linkedin") == Some(inv.linkedin)
    ensures Get(ToJson(inv), "investmentMin") == AmountJson(inv.investmentMin)
    ensures Get(ToJson(inv), "investmentMax") == AmountJson(inv.investmentMax)
  {
    LookupToJson(inv, "id");
    LookupToJson(inv, "name");
    LookupToJson(inv, "type");
    LookupToJson(inv, "description");
    LookupToJson(inv, "status");
    LookupToJson(inv, "createdAt");
    LookupToJson(inv, "email");
    LookupToJson(inv, "linkedin");
    LookupToJson(inv, "investmentMin");
    LookupToJson(inv, "investmentMax");
  }

  /** A valid record whose bounds survive comes back unchanged from normalisation. */
  lemma NormaliseToJson(inv: Investor, index: nat, ts: nat, now: string, numberOf: Json -> Num)
    requires RecordValid(inv) && AmountsSurviveReload(inv)
    ensures NormaliseRecord(ToJson(inv), index, ts, now, true, numberOf) == inv
  {
    SavedFields(inv);
  }

  /**
   * Loading what was saved gives the saved list back, provided every record
   * is valid (as the save demands) and no investment bound is 0 or NaN.
   */
  lemma ReloadAfterSave(investors: seq<Investor>, contents: Json, parse: Json -> Option<Json>,
                        ts: nat -> nat, now: nat -> string, numberOf: Json -> Num)
    requires ValidInvestorsData(investors)
    requires forall i :: 0 <= i < |investors| ==> AmountsSurviveReload(investors[i])
    requires Truthy(contents)
    requires parse(contents) == Some(JArr(seq(|investors|, i requires 0 <= i < |investors| => ToJson(investors[i]))))
    ensures ProcessPayload(PayloadOf(JObj([("contents", contents)]), parse), ts, now, numberOf) == Loaded(investors, BareArray)
  {
    var items := seq(|investors|, i requires 0 <= i < |investors| => ToJson(investors[i]));
    assert PayloadOf(JObj([("contents", contents)]), parse) == JArr(items);
    var rs := NormaliseAll(items, true, ts, now, numberOf);
    assert rs.Some?;
    forall i | 0 <= i < |items|
      ensures rs.value[i] == investors[i]
    {
      NormaliseToJson(investors[i], i, ts(i), now(i), numberOf);
    }
    assert rs.value == investors;
  }

  /** An investment bound of 0 is saved as 0 but comes back undefined on the array path. */
  lemma ZeroAmountLostOnReload(inv: Investor, index: nat, ts: nat, now: string, numberOf: Json -> Num)
    requires inv.investmentMin == Some(Finite(0))
    ensures NormaliseRecord(ToJson(inv), index, ts, now, true, numberOf).investmentMin.None?
  {
    SavedFields(inv);
  }

  /** The field `key` of a loaded object is absent, falsy or a string. */
  predicate TextOrMissing(inv: Json, key: string) {
    !Present(Get(inv, key)) || Get(inv, key).value.JStr?
  }

  /**
   * A loaded object whose present fields are all strings, read with a
   * non-empty timestamp, yields a record the save validator accepts.
   */
  lemma NormalisedStringsAreValid(inv: Json, index: nat, ts: nat, now: string, wrapped: bool, numberOf: Json -> Num)
    requires inv != JNull && now != ""
    requires TextOrMissing(inv, "id") && TextOrMissing(inv, "name") && TextOrMissing(inv, "type")
    requires TextOrMissing(inv, "description") && TextOrMissing(inv, "status") && TextOrMissing(inv, "createdAt")
    requires TextOrMissing(inv, "email") && TextOrMissing(inv, "linkedin")
    ensures RecordValid(NormaliseRecord(inv, index, ts, now, wrapped, numberOf))
  {
    var r := NormaliseRecord(inv, index, ts, now, wrapped, numberOf);
    assert IsNonEmptyString(r.id) && IsNonEmptyString(r.name);
    assert IsNonEmptyString(r.status) && IsNonEmptyString(r.createdAt);
  }

  /**
   * The payload `{data: [{id: "1", investmentMin: {value: "500"}}]}` loads as
   * one record with id "1", investmentMin 500 and every other field defaulted.
   */
  lemma DataPayloadExample(ts: nat -> nat, now: nat -> string, numberOf: Json -> Num)
    requires numberOf(JStr("500")) == Finite(500)
    ensures var r := ProcessPayload(
              JObj([("data", JArr([JObj([("id", JStr("1")), ("investmentMin", JObj([("value", JStr("500"))]))])]))]),
              ts, now, numberOf);
      r == Loaded([Investor(JStr("1"), JStr("Unnamed Investor"), JStr(""), JStr(""), JStr("Da contattare"),
                            Some(Finite(500)), None, JStr(now(0)), JStr(""), JStr(""))], DataArray)
  {
    var inner := JObj([("id", JStr("1")), ("investmentMin", JObj([("value", JStr("500"))]))]);
    ExampleRecord(ts(0), now(0), numberOf);
    DataArrayOfOne(inner, ts, now, numberOf);
  }

  /** `{data: [x]}` loads as the one record `x` completes to. */
  lemma DataArrayOfOne(x: Json, ts: nat -> nat, now: nat -> string, numberOf: Json -> Num)
    requires x != JNull
    ensures ProcessPayload(JObj([("data", JArr([x]))]), ts, now, numberOf)
         == Loaded([NormaliseRecord(x, 0, ts(0), now(0), true, numberOf)], DataArray)
  {
    var data := JObj([("data", JArr([x]))]);
    assert Lookup(data.fields, "data") == Some(JArr([x]));
    assert HasDataArray(data) && Get(data, "data").value.items == [x];
    assert NoNulls([x]);
    var all := NormaliseAll([x], true, ts, now, numberOf);
    assert |all.value| == 1 && all.value[0] == NormaliseRecord(x, 0, ts(0), now(0), true, numberOf);
    assert all.value == [NormaliseRecord(x, 0, ts(0), now(0), true, numberOf)];
  }

  /** The one element of that payload, completed with defaults. */
  lemma ExampleRecord(ts: nat, now: string, numberOf: Json -> Num)
    requires numberOf(JStr("500")) == Finite(500)
    ensures NormaliseRecord(JObj([("id", JStr("1")), ("investmentMin", JObj([("value", JStr("500"))]))]), 0, ts, now, true, numberOf)
         == Investor(JStr("1"), JStr("Unnamed Investor"), JStr(""), JStr(""), JStr("Da contattare"),
                     Some(Finite(500)), None, JStr(now), JStr(""), JStr(""))
  {
    var inner := JObj([("id", JStr("1")), ("investmentMin", JObj([("value", JStr("500"))]))]);
    var m := JObj([("value", JStr("500"))]);
    LookupPair("id", JStr("1"), "investmentMin", m, "id");
    LookupPair("id", JStr("1"), "investmentMin", m, "name");
    LookupPair("id", JStr("1"), "investmentMin", m, "type");
    LookupPair("id", JStr("1"), "investmentMin", m, "description");
    LookupPair("id", JStr("1"), "investmentMin", m, "status");
    LookupPair("id", JStr("1"), "investmentMin", m, "investmentMin");
    LookupPair("id", JStr("1"), "investmentMin", m, "investmentMax");
    LookupPair("id", JStr("1"), "investmentMin", m, "createdAt");
    LookupPair("id", JStr("1"), "investmentMin", m, "email");
    LookupPair("id", JStr("1"), "investmentMin", m, "linkedin");
    assert Get(inner, "investmentMin") == Some(JObj([("value", JStr("500"))]));
    assert WrappedAmount(Get(inner, "investmentMin"), numberOf) == Some(Finite(500));
  }
}
