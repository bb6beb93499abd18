/** The persisted desired-state record, the start configuration, and their JSON forms. */
module DesiredStateRecord {
  import opened Wrappers
  import opened Models
  import opened Json

  type U32 = n: int | 0 <= n < 0x1_0000_0000
  type U64 = n: int | 0 <= n < 0x1_0000_0000_0000_0000

  datatype DesiredState = DesiredState(
    desiredRunning: bool,
    lastStartConfig: Option<Json>,
    lastStartEpochMs: Option<U64>,
    lastHeartbeatEpochMs: Option<U64>,
    lastNativeState: Option<string>,
    lastPlatformError: Option<string>,
    restartAttempt: U32,
    recoveryPending: bool,
    recoveryReason: Option<string>)

  const DEFAULT_STATE := DesiredState(false, None, None, None, None, None, 0, false, None)

  // ----- objects as field lists -----

  /** The values stored under a key, in order. */
  function Occurrences(fields: seq<Field>, key: string): seq<Json> {
    if fields == [] then []
    else (if fields[0].key == key then [fields[0].value] else []) + Occurrences(fields[1..], key)
  }

  lemma {:induction false} OccurrencesConcat(a: seq<Field>, b: seq<Field>, key: string)
    ensures Occurrences(a + b, key) == Occurrences(a, key) + Occurrences(b, key)
  {
    if a == [] {
      assert a + b == b;
    } else {
      var first := if a[0].key == key then [a[0].value] else [];
      OccurrencesConcat(a[1..], b, key);
      assert (a + b)[1..] == a[1..] + b;
      assert first + (Occurrences(a[1..], key) + Occurrences(b, key)) == first + Occurrences(a[1..], key) + Occurrences(b, key);
    }
  }

  /** What a reader finds under a key: nothing, one value, or a duplicate, which is an error. */
  datatype Lookup = Missing | Found(value: Json) | Duplicate

  function Get(fields: seq<Field>, key: string): Lookup {
    var vs := Occurrences(fields, key);
    if |vs| == 0 then Missing else if |vs| == 1 then Found(vs[0]) else Duplicate
  }

  /** The lookup result for a column that is written only when present. */
  function Looked(value: Option<Json>): Lookup {
    match value
    case None => Missing
    case Some(v) => Found(v)
  }

  function OptionalField(key: string, value: Option<Json>): seq<Field> {
    match value
    case None => []
    case Some(v) => [Field(key, v)]
  }

  function NumOption(n: Option<U64>): Option<Json> {
    match n
    case None => None
    case Some(v) => Some(Num(v))
  }

  function StrOption(s: Option<string>): Option<Json> {
    match s
    case None => None
    case Some(v) => Some(Str(v))
  }

  // ----- the record -----

  /** The fields of a record in declaration order; absent options are omitted. */
  function Columns(ds: DesiredState): seq<(string, Option<Json>)> {
    [ ("desiredRunning", Some(Bool(ds.desiredRunning))),
      ("lastStartConfig", ds.lastStartConfig),
      ("lastStartEpochMs", NumOption(ds.lastStartEpochMs)),
      ("lastHeartbeatEpochMs", NumOption(ds.lastHeartbeatEpochMs)),
      ("lastNativeState", StrOption(ds.lastNativeState)),
      ("lastPlatformError", StrOption(ds.lastPlatformError)),
      ("restartAttempt", Some(Num(ds.restartAttempt))),
      ("recoveryPending", Some(Bool(ds.recoveryPending))),
      ("recoveryReason", StrOption(ds.recoveryReason)) ]
  }

  function PresentFields(columns: seq<(string, Option<Json>)>): seq<Field> {
    if columns == [] then []
    else OptionalField(columns[0].0, columns[0].1) + PresentFields(columns[1..])
  }

  function ToJson(ds: DesiredState): Json {
    Obj(PresentFields(Columns(ds)))
  }

  /** Reads a boolean; `fallback` stands for a missing key, and no fallback makes the key required. */
  function ReadBool(l: Lookup, fallback: Option<bool>): Option<bool> {
    match l
    case Missing => fallback
    case Found(v) => if v.Bool? then Some(v.b) else None
    case Duplicate => None
  }

  function ReadU32(l: Lookup): Option<U32> {
    match l
    case Missing => Some(0)
    case Found(v) => if v.Num? && 0 <= v.n < 0x1_0000_0000 then Some(v.n) else None
    case Duplicate => None
  }

  /** Options read a missing key and an explicit null alike. */
  function ReadOptU64(l: Lookup): Option<Option<U64>> {
    match l
    case Missing => Some(None)
    case Found(v) =>
      if v.Null? then Some(None)
      else if v.Num? && 0 <= v.n < 0x1_0000_0000_0000_0000 then Some(Some(v.n))
      else None
    case Duplicate => None
  }

  function ReadOptStr(l: Lookup): Option<Option<string>> {
    match l
    case Missing => Some(None)
    case Found(v) => if v.Null? then Some(None) else if v.Str? then Some(Some(v.s)) else None
    case Duplicate => None
  }

  function ReadOptJson(l: Lookup): Option<Option<Json>> {
    match l
    case Missing => Some(None)
    case Found(v) => if v.Null? then Some(None) else Some(Some(v))
    case Duplicate => None
  }

  /** Decodes a record; None stands for the deserialiser's error. */
  function FromJson(j: Json): Option<DesiredState> {
    if !j.Obj? then None
    else
      var fs := j.fields;
      var running := ReadBool(Get(fs, "desiredRunning"), None);
      var config := ReadOptJson(Get(fs, "lastStartConfig"));
      var start := ReadOptU64(Get(fs, "lastStartEpochMs"));
      var beat := ReadOptU64(Get(fs, "lastHeartbeatEpochMs"));
      var native := ReadOptStr(Get(fs, "lastNativeState"));
      var error := ReadOptStr(Get(fs, "lastPlatformError"));
      var attempt := ReadU32(Get(fs, "restartAttempt"));
      var pending := ReadBool(Get(fs, "recoveryPending"), Some(false));
      var reason := ReadOptStr(Get(fs, "recoveryReason"));
      if running.Some? && config.Some? && start.Some? && beat.Some? && native.Some? && error.Some?
         && attempt.Some? && pending.Some? && reason.Some?
      then Some(DesiredState(running.value, config.value, start.value, beat.value, native.value,
                             error.value, attempt.value, pending.value, reason.value))
      else None
  }

  /** A record as it comes back: a null start config reads as an absent one. */
  function Canonical(ds: DesiredState): DesiredState {
    if ds.lastStartConfig == Some(Null) then ds.(lastStartConfig := None) else ds
  }

  predicate DistinctKeys(columns: seq<(string, Option<Json>)>) {
    forall i, k | 0 <= i < k < |columns| :: columns[i].0 != columns[k].0
  }

  lemma {:induction false} NoOccurrence(columns: seq<(string, Option<Json>)>, key: string)
    requires forall i | 0 <= i < |columns| :: columns[i].0 != key
    ensures Occurrences(PresentFields(columns), key) == []
  {
    if columns != [] {
      NoOccurrence(columns[1..], key);
      OccurrencesConcat(OptionalField(columns[0].0, columns[0].1), PresentFields(columns[1..]), key);
    }
  }

  /** Looking up a column's key in the written object finds that column and nothing else. */
  lemma {:induction false} GetColumn(columns: seq<(string, Option<Json>)>, i: nat)
    requires DistinctKeys(columns) && i < |columns|
    ensures Get(PresentFields(columns), columns[i].0)
            == Looked(columns[i].1)
  {
    var key := columns[i].0;
    var head, tail := OptionalField(columns[0].0, columns[0].1), PresentFields(columns[1..]);
    OccurrencesConcat(head, tail, key);
    if i == 0 {
      NoOccurrence(columns[1..], key);
    } else {
      GetColumn(columns[1..], i - 1);
      assert Occurrences(head, key) == [];
    }
  }

  lemma ColumnsDistinct(ds: DesiredState)
    ensures DistinctKeys(Columns(ds)) && |Columns(ds)| == 9
  {
    var c := Columns(ds);
    assert |c[0].0| == 14 && |c[1].0| == 15 && |c[2].0| == 16 && |c[3].0| == 20 && |c[4].0| == 15
           && |c[5].0| == 17 && |c[6].0| == 14 && |c[7].0| == 15 && |c[8].0| == 14;
    assert c[0].0[0] == 'd' && c[6].0[2] == 's' && c[8].0[2] == 'c' && c[0].0[2] == 's' && c[6].0[0] == 'r';
    assert c[1].0[4] == 'S' && c[4].0[4] == 'N' && c[7].0[4] == 'v';
  }

  /** `fs` holds the nine columns of `ds`. */
  predicate Holds(fs: seq<Field>, ds: DesiredState) {
    && Get(fs, "desiredRunning") == Found(Bool(ds.desiredRunning))
    && Get(fs, "lastStartConfig") == Looked(ds.lastStartConfig)
    && Get(fs, "lastStartEpochMs") == Looked(NumOption(ds.lastStartEpochMs))
    && Get(fs, "lastHeartbeatEpochMs") == Looked(NumOption(ds.lastHeartbeatEpochMs))
    && Get(fs, "lastNativeState") == Looked(StrOption(ds.lastNativeState))
    && Get(fs, "lastPlatformError") == Looked(StrOption(ds.lastPlatformError))
    && Get(fs, "restartAttempt") == Found(Num(ds.restartAttempt))
    && Get(fs, "recoveryPending") == Found(Bool(ds.recoveryPending))
    && Get(fs, "recoveryReason") == Looked(StrOption(ds.recoveryReason))
  }

  lemma WrittenColumns(ds: DesiredState)
    ensures Holds(PresentFields(Columns(ds)), ds)
  {
    ColumnsDistinct(ds);
    var c := Columns(ds);
    GetColumn(c, 0);
    GetColumn(c, 1);
    GetColumn(c, 2);
    GetColumn(c, 3);
    GetColumn(c, 4);
    GetColumn(c, 5);
    GetColumn(c, 6);
    GetColumn(c, 7);
    GetColumn(c, 8);
  }

  lemma ReadOptionals(ds: DesiredState)
    ensures ReadOptU64(Looked(NumOption(ds.lastStartEpochMs))) == Some(ds.lastStartEpochMs)
    ensures ReadOptU64(Looked(NumOption(ds.lastHeartbeatEpochMs))) == Some(ds.lastHeartbeatEpochMs)
    ensures ReadOptStr(Looked(StrOption(ds.lastNativeState))) == Some(ds.lastNativeState)
    ensures ReadOptStr(Looked(StrOption(ds.lastPlatformError))) == Some(ds.lastPlatformError)
    ensures ReadOptStr(Looked(StrOption(ds.recoveryReason))) == Some(ds.recoveryReason)
  {
  }

  lemma ReadColumns(fs: seq<Field>, ds: DesiredState)
    requires Holds(fs, ds)
    ensures FromJson(Obj(fs)) == Some(Canonical(ds))
  {
    ReadOptionals(ds);
  }

  /** The codec's law: decoding what was encoded yields the record up to a null start config. */
  lemma RecordRoundTrip(ds: DesiredState)
    ensures FromJson(ToJson(ds)) == Some(Canonical(ds))
  {
    WrittenColumns(ds);
    ReadColumns(PresentFields(Columns(ds)), ds);
  }

  /** The round trip is exact for precisely the records whose start config is not JSON null. */
  lemma RoundTripExactIff(ds: DesiredState)
    ensures FromJson(ToJson(ds)) == Some(ds) <==> ds.lastStartConfig != Some(Null)
  {
    RecordRoundTrip(ds);
  }

  /** What a reader makes of keys that are missing: every field but the flag has a default. */
  lemma MissingFieldsDefault(flag: bool)
    ensures FromJson(Obj([Field("desiredRunning", Bool(flag))]))
            == Some(DesiredState(flag, None, None, None, None, None, 0, false, None))
    ensures FromJson(Obj([])).None?
    ensures DEFAULT_STATE == DesiredState(false, None, None, None, None, None, 0, false, None)
  {
    FlagAlone([Field("desiredRunning", Bool(flag))], flag);
    OthersMissing([Field("desiredRunning", Bool(flag))], flag);
  }

  /** An object that holds the flag and nothing else of a record. */
  lemma FlagAlone(fs: seq<Field>, flag: bool)
    requires fs == [Field("desiredRunning", Bool(flag))]
    ensures Get(fs, "desiredRunning") == Found(Bool(flag))
    ensures Get(fs, "lastStartConfig").Missing? && Get(fs, "lastStartEpochMs").Missing?
    ensures Get(fs, "lastHeartbeatEpochMs").Missing? && Get(fs, "lastNativeState").Missing?
    ensures Get(fs, "lastPlatformError").Missing? && Get(fs, "restartAttempt").Missing?
    ensures Get(fs, "recoveryPending").Missing? && Get(fs, "recoveryReason").Missing?
  {
    assert |"desiredRunning"| == 14 && |"lastStartConfig"| == 15 && |"lastStartEpochMs"| == 16;
    assert |"lastHeartbeatEpochMs"| == 20 && |"lastNativeState"| == 15 && |"lastPlatformError"| == 17;
    assert |"restartAttempt"| == 14 && "restartAttempt"[0] == 'r' && "desiredRunning"[0] == 'd';
    assert |"recoveryPending"| == 15 && |"recoveryReason"| == 14 && "recoveryReason"[0] == 'r';
    OnlyField("desiredRunning", Bool(flag));
  }

  lemma OthersMissing(fs: seq<Field>, flag: bool)
    requires Get(fs, "desiredRunning") == Found(Bool(flag))
    requires Get(fs, "lastStartConfig").Missing? && Get(fs, "lastStartEpochMs").Missing?
    requires Get(fs, "lastHeartbeatEpochMs").Missing? && Get(fs, "lastNativeState").Missing?
    requires Get(fs, "lastPlatformError").Missing? && Get(fs, "restartAttempt").Missing?
    requires Get(fs, "recoveryPending").Missing? && Get(fs, "recoveryReason").Missing?
    ensures FromJson(Obj(fs)) == Some(DesiredState(flag, None, None, None, None, None, 0, false, None))
  {
  }

  lemma OnlyField(key: string, value: Json)
    ensures forall k :: Get([Field(key, value)], k) == if k == key then Found(value) else Missing
  {
    forall k ensures Get([Field(key, value)], k) == if k == key then Found(value) else Missing {
      assert Occurrences([Field(key, value)], k) == if k == key then [value] else [];
    }
  }

  /** The key is there once, with a number below zero or not below the bound. */
  predicate OutOfRange(fs: seq<Field>, key: string, bound: int) {
    var l := Get(fs, key);
    l.Found? && l.value.Num? && !(0 <= l.value.n < bound)
  }

  /** What is not a record: anything but an object, a flag that is not a boolean, a number that does not
      fit its width, or a key given twice. */
  lemma MalformedRecords(fs: seq<Field>, j: Json)
    ensures !j.Obj? ==> FromJson(j).None?
    ensures Get(fs, "desiredRunning").Found? && !Get(fs, "desiredRunning").value.Bool? ==> FromJson(Obj(fs)).None?
    ensures OutOfRange(fs, "restartAttempt", 4294967296) ==> FromJson(Obj(fs)).None?
    ensures OutOfRange(fs, "lastStartEpochMs", 18446744073709551616) ==> FromJson(Obj(fs)).None?
    ensures Get(fs, "desiredRunning").Duplicate? || Get(fs, "lastStartConfig").Duplicate? ==> FromJson(Obj(fs)).None?
  {
  }

  // ----- the start configuration -----

  function ConfigToJson(config: StartConfig): Json {
    Obj([Field("serviceLabel", Str(config.serviceLabel)),
         Field("foregroundServiceType", Str(config.foregroundServiceType))])
  }

  function ReadStr(l: Lookup, fallback: string): Option<string> {
    match l
    case Missing => Some(fallback)
    case Found(v) => if v.Str? then Some(v.s) else None
    case Duplicate => None
  }

  /** The label may also be spelled "label"; giving both spellings is a duplicate field. */
  function ConfigFromJson(j: Json): Option<StartConfig> {
    if !j.Obj? then None
    else
      var long, short := Get(j.fields, "serviceLabel"), Get(j.fields, "label");
      var spelled := if long.Missing? then short else if short.Missing? then long else Duplicate;
      var name := ReadStr(spelled, "Service running");
      var kind := ReadStr(Get(j.fields, "foregroundServiceType"), "remoteMessaging");
      if name.Some? && kind.Some? then Some(StartConfig(name.value, kind.value)) else None
  }

  lemma ConfigRoundTrip(config: StartConfig)
    ensures ConfigFromJson(ConfigToJson(config)) == Some(config)
    ensures ConfigToJson(config) != Null
  {
    var a, b := Field("serviceLabel", Str(config.serviceLabel)), Field("foregroundServiceType", Str(config.foregroundServiceType));
    assert ConfigToJson(config).fields == [a] + [b];
    assert |a.key| == 12 && |b.key| == 21 && |"label"| == 5;
    OccurrencesConcat([a], [b], "serviceLabel");
    OccurrencesConcat([a], [b], "label");
    OccurrencesConcat([a], [b], "foregroundServiceType");
  }

  /** A config that leaves fields out gets their defaults, "label" is an alias, and giving both
      spellings of the label is an error. */
  lemma ConfigDefaults(name: string, kind: string)
    ensures ConfigFromJson(Obj([])) == Some(StartConfig("Service running", "remoteMessaging"))
    ensures ConfigFromJson(Obj([Field("label", Str(name))])) == Some(StartConfig(name, "remoteMessaging"))
    ensures ConfigFromJson(Obj([Field("serviceLabel", Str(name))])) == Some(StartConfig(name, "remoteMessaging"))
    ensures ConfigFromJson(Obj([Field("foregroundServiceType", Str(kind))])) == Some(StartConfig("Service running", kind))
    ensures ConfigFromJson(Obj([Field("serviceLabel", Str(name)), Field("label", Str(name))])).None?
    ensures ConfigFromJson(Null).None?
  {
    assert |"serviceLabel"| == 12 && |"label"| == 5 && |"foregroundServiceType"| == 21;
    OnlyField("label", Str(name));
    OnlyField("serviceLabel", Str(name));
    OnlyField("foregroundServiceType", Str(kind));
    OccurrencesConcat([Field("serviceLabel", Str(name))], [Field("label", Str(name))], "serviceLabel");
    OccurrencesConcat([Field("serviceLabel", Str(name))], [Field("label", Str(name))], "label");
    assert [Field("serviceLabel", Str(name))] + [Field("label", Str(name))]
           == [Field("serviceLabel", Str(name)), Field("label", Str(name))];
  }
}
