/**
 Where queued runs wait: `RunRequest` and its JSON form, the in-memory store and the
 database store (a table of rows with an atomic delete).
 */
module RunQueue {
  import opened Wrappers

  type Id = Token<string>
  type Cycle = Token<string>

  datatype Json =
    | Null
    | Bool(flag: bool)
    | Int(i: int)
    | Num(x: real)
    | Str(text: string)
    | Arr(items: seq<Json>)
    | Obj(entries: map<string, Json>)

  // The keys of a request object; `Other` is any key this version does not know.
  datatype Key =
    | Kind | CycleName | ConfigPath | ArtifactsRoot | Persist | Force | FailFast
    | ReporterOverride | ReportDb | AsyncReportDb | WorkersOverride | Stream | Ci
    | Framework | TargetRepo | Args | TimeoutS | ExtraEnv | Tests | RerunFailed
    | Other(name: string)

  type Object = map<Key, Json>

  datatype RunRequest = RunRequest(
    kind: string,
    cycle: Cycle,
    configPath: Option<string>,
    artifactsRoot: Option<string>,
    persist: bool,
    force: bool,
    failFast: bool,
    reporterOverride: Option<seq<string>>,
    reportDb: bool,
    asyncReportDb: bool,
    workersOverride: Option<int>,
    stream: bool,
    ci: bool,
    framework: Option<string>,
    targetRepo: Option<string>,
    args: seq<string>,
    timeoutS: Option<real>,
    extraEnv: map<string, string>,
    tests: seq<string>,
    rerunFailed: Option<string>)

  function StrList(texts: seq<string>): Json {
    Arr(seq(|texts|, i requires 0 <= i < |texts| => Str(texts[i])))
  }

  function StrMap(m: map<string, string>): Json {
    Obj(map k | k in m :: Str(m[k]))
  }

  function OptStr(o: Option<string>): Json {
    if o.Some? then Str(o.value) else Null
  }

  const KNOWN: set<Key> := {
    Kind, CycleName, ConfigPath, ArtifactsRoot, Persist, Force, FailFast, ReporterOverride,
    ReportDb, AsyncReportDb, WorkersOverride, Stream, Ci, Framework, TargetRepo, Args,
    TimeoutS, ExtraEnv, Tests, RerunFailed
  }

  function Field(r: RunRequest, k: Key): Json {
    match k
    case Kind => Str(r.kind)
    case CycleName => Str(r.cycle.value)
    case ConfigPath => OptStr(r.configPath)
    case ArtifactsRoot => OptStr(r.artifactsRoot)
    case Persist => Bool(r.persist)
    case Force => Bool(r.force)
    case FailFast => Bool(r.failFast)
    case ReporterOverride => if r.reporterOverride.Some? then StrList(r.reporterOverride.value) else Null
    case ReportDb => Bool(r.reportDb)
    case AsyncReportDb => Bool(r.asyncReportDb)
    case WorkersOverride => if r.workersOverride.Some? then Int(r.workersOverride.value) else Null
    case Stream => Bool(r.stream)
    case Ci => Bool(r.ci)
    case Framework => OptStr(r.framework)
    case TargetRepo => OptStr(r.targetRepo)
    case Args => StrList(r.args)
    case TimeoutS => if r.timeoutS.Some? then Num(r.timeoutS.value) else Null
    case ExtraEnv => StrMap(r.extraEnv)
    case Tests => StrList(r.tests)
    case RerunFailed => OptStr(r.rerunFailed)
    case Other(_) => Null
  }

  /** `RunRequest.to_json`: every field, by name. */
  function ToJson(r: RunRequest): Object {
    map k | k in KNOWN :: Field(r, k)
  }

  // Python's truth value of a decoded JSON value.
  predicate Truthy(j: Json) {
    match j
    case Null => false
    case Bool(b) => b
    case Int(i) => i != 0
    case Num(x) => x != 0.0
    case Str(s) => s != ""
    case Arr(items) => items != []
    case Obj(entries) => entries != map[]
  }

  // `data.get(key)`: an absent key reads as None.
  function Get(o: Object, k: Key): Json {
    if k in o then o[k] else Null
  }

  function GetString(o: Object, k: Key): Result<string> {
    if k in o && o[k].Str? then Ok(o[k].text) else Err
  }

  function GetOptString(o: Object, k: Key): Result<Option<string>> {
    match Get(o, k)
    case Null => Ok(None)
    case Str(s) => Ok(Some(s))
    case _ => Err
  }

  function GetBool(o: Object, k: Key, default: bool): Result<bool> {
    if k !in o then Ok(default) else if o[k].Bool? then Ok(o[k].flag) else Err
  }

  // `tuple(value)`: a list of strings, or the characters of a string.
  function TupleOf(j: Json): Result<seq<string>> {
    match j
    case Arr(items) =>
      if forall i :: 0 <= i < |items| ==> items[i].Str?
      then Ok(seq(|items|, i requires 0 <= i < |items| && items[i].Str? => items[i].text))
      else Err
    case Str(s) => Ok(seq(|s|, i requires 0 <= i < |s| => [s[i]]))
    case _ => Err
  }

  // `tuple(known.get(key) or ())`.
  function GetTuple(o: Object, k: Key): Result<seq<string>> {
    if Truthy(Get(o, k)) then TupleOf(Get(o, k)) else Ok([])
  }

  // `dict(known.get(key) or {})`.
  function GetDict(o: Object, k: Key): Result<map<string, string>> {
    var j := Get(o, k);
    if !Truthy(j) then Ok(map[])
    else if j.Obj? && forall name <- j.entries :: j.entries[name].Str?
    then Ok(map name | name in j.entries :: j.entries[name].text)
    else Err
  }

  function GetReporters(o: Object): Result<Option<seq<string>>> {
    if Get(o, ReporterOverride) == Null then Ok(None)
    else
      var names :- TupleOf(Get(o, ReporterOverride));
      Ok(Some(names))
  }

  function GetOptInt(o: Object, k: Key): Result<Option<int>> {
    match Get(o, k)
    case Null => Ok(None)
    case Int(i) => Ok(Some(i))
    case _ => Err
  }

  function GetOptNumber(o: Object, k: Key): Result<Option<real>> {
    match Get(o, k)
    case Null => Ok(None)
    case Int(i) => Ok(Some(i as real))
    case Num(x) => Ok(Some(x))
    case _ => Err
  }

  predicate WellTyped(o: Object) {
    && GetString(o, Kind).Ok? && GetString(o, CycleName).Ok?
    && GetOptString(o, ConfigPath).Ok? && GetOptString(o, ArtifactsRoot).Ok?
    && GetBool(o, Persist, true).Ok? && GetBool(o, Force, false).Ok? && GetBool(o, FailFast, false).Ok?
    && GetReporters(o).Ok?
    && GetBool(o, ReportDb, true).Ok? && GetBool(o, AsyncReportDb, false).Ok?
    && GetOptInt(o, WorkersOverride).Ok?
    && GetBool(o, Stream, false).Ok? && GetBool(o, Ci, true).Ok?
    && GetOptString(o, Framework).Ok? && GetOptString(o, TargetRepo).Ok?
    && GetTuple(o, Args).Ok? && GetOptNumber(o, TimeoutS).Ok?
    && GetDict(o, ExtraEnv).Ok? && GetTuple(o, Tests).Ok? && GetOptString(o, RerunFailed).Ok?
  }

  /** `RunRequest.from_json`: `Err` stands for the TypeError or ValueError it raises. */
  function FromJson(o: Object): Result<RunRequest> {
    if !WellTyped(o) then Err
    else Ok(RunRequest(
        GetString(o, Kind).value, Token(GetString(o, CycleName).value),
        GetOptString(o, ConfigPath).value, GetOptString(o, ArtifactsRoot).value,
        GetBool(o, Persist, true).value, GetBool(o, Force, false).value, GetBool(o, FailFast, false).value,
        GetReporters(o).value,
        GetBool(o, ReportDb, true).value, GetBool(o, AsyncReportDb, false).value,
        GetOptInt(o, WorkersOverride).value,
        GetBool(o, Stream, false).value, GetBool(o, Ci, true).value,
        GetOptString(o, Framework).value, GetOptString(o, TargetRepo).value,
        GetTuple(o, Args).value, GetOptNumber(o, TimeoutS).value,
        GetDict(o, ExtraEnv).value, GetTuple(o, Tests).value, GetOptString(o, RerunFailed).value))
  }

  lemma StringsSurvive(texts: seq<string>)
    ensures TupleOf(StrList(texts)) == Ok(texts)
    ensures !Truthy(StrList(texts)) ==> texts == []
  {
    assert TupleOf(StrList(texts)).value == texts;
    if texts != [] {
      assert StrList(texts).items[0] == Str(texts[0]);
    }
  }

  lemma EnvSurvives(m: map<string, string>, o: Object)
    requires ExtraEnv in o && o[ExtraEnv] == StrMap(m)
    ensures GetDict(o, ExtraEnv) == Ok(m)
  {
    var j := StrMap(m);
    if m == map[] {
      assert j.entries == map[];
    } else {
      var k :| k in m;
      assert k in j.entries;
      assert GetDict(o, ExtraEnv).value == m;
    }
  }

  // The empty values of each JSON type.
  predicate IsEmpty(v: Json) {
    v == Null || v == Bool(false) || v == Int(0) || v == Num(0.0) || v == Str("") || v == Arr([]) || v == Obj(map[])
  }

  // The keys whose empty values stand for none.
  predicate MayBeEmpty(k: Key) {
    k == Args || k == Tests || k == ExtraEnv
  }

  // `o` holds every field of `r` but those of the `missing` keys (and perhaps more keys).
  predicate HoldsKey(o: Object, r: RunRequest, missing: set<Key>, k: Key) {
    if k in missing then k !in o || (MayBeEmpty(k) && IsEmpty(o[k])) else k in o && o[k] == Field(r, k)
  }

  ghost predicate HoldsBut(o: Object, r: RunRequest, missing: set<Key>) {
    forall k: Key {:trigger HoldsKey(o, r, missing, k)} :: !k.Other? ==> HoldsKey(o, r, missing, k)
  }

  ghost predicate Holds(o: Object, r: RunRequest) {
    forall k: Key :: !k.Other? ==> k in o && o[k] == Field(r, k)
  }

  // What a row that was written before these keys existed asks for.
  function WithDefaults(r: RunRequest, missing: set<Key>): RunRequest {
    RunRequest(
      r.kind, r.cycle,
      if ConfigPath in missing then None else r.configPath,
      if ArtifactsRoot in missing then None else r.artifactsRoot,
      if Persist in missing then true else r.persist,
      if Force in missing then false else r.force,
      if FailFast in missing then false else r.failFast,
      if ReporterOverride in missing then None else r.reporterOverride,
      if ReportDb in missing then true else r.reportDb,
      if AsyncReportDb in missing then false else r.asyncReportDb,
      if WorkersOverride in missing then None else r.workersOverride,
      if Stream in missing then false else r.stream,
      if Ci in missing then true else r.ci,
      if Framework in missing then None else r.framework,
      if TargetRepo in missing then None else r.targetRepo,
      if Args in missing then [] else r.args,
      if TimeoutS in missing then None else r.timeoutS,
      if ExtraEnv in missing then map[] else r.extraEnv,
      if Tests in missing then [] else r.tests,
      if RerunFailed in missing then None else r.rerunFailed)
  }

  lemma ListsSurvive(r: RunRequest, o: Object, missing: set<Key>)
    requires HoldsKey(o, r, missing, Args) && HoldsKey(o, r, missing, Tests)
    ensures GetTuple(o, Args) == Ok(if Args in missing then [] else r.args)
    ensures GetTuple(o, Tests) == Ok(if Tests in missing then [] else r.tests)
  {
    StringsSurvive(r.args);
    StringsSurvive(r.tests);
  }

  lemma MapsSurvive(r: RunRequest, o: Object, missing: set<Key>)
    requires HoldsKey(o, r, missing, ExtraEnv) && HoldsKey(o, r, missing, ReporterOverride)
    ensures GetDict(o, ExtraEnv) == Ok(if ExtraEnv in missing then map[] else r.extraEnv)
    ensures GetReporters(o) == Ok(if ReporterOverride in missing then None else r.reporterOverride)
  {
    if ExtraEnv !in missing {
      EnvSurvives(r.extraEnv, o);
    }
    if r.reporterOverride.Some? {
      StringsSurvive(r.reporterOverride.value);
    }
  }

  lemma NamesSurvive(r: RunRequest, o: Object, missing: set<Key>)
    requires HoldsKey(o, r, missing, Kind) && HoldsKey(o, r, missing, CycleName)
    requires Kind !in missing && CycleName !in missing
    ensures GetString(o, Kind) == Ok(r.kind) && GetString(o, CycleName) == Ok(r.cycle.value)
  {
  }

  lemma TextSurvives(r: RunRequest, o: Object, missing: set<Key>, k: Key, text: Option<string>)
    requires HoldsKey(o, r, missing, k) && Field(r, k) == OptStr(text)
    ensures GetOptString(o, k) == Ok(if k in missing then None else text)
  {
  }

  lemma FlagSurvives(r: RunRequest, o: Object, missing: set<Key>, k: Key, flag: bool, default: bool)
    requires HoldsKey(o, r, missing, k) && Field(r, k) == Bool(flag)
    ensures GetBool(o, k, default) == Ok(if k in missing then default else flag)
  {
  }

  lemma NumbersSurvive(r: RunRequest, o: Object, missing: set<Key>)
    requires HoldsKey(o, r, missing, WorkersOverride) && HoldsKey(o, r, missing, TimeoutS)
    ensures GetOptInt(o, WorkersOverride) == Ok(if WorkersOverride in missing then None else r.workersOverride)
    ensures GetOptNumber(o, TimeoutS) == Ok(if TimeoutS in missing then None else r.timeoutS)
  {
  }

  lemma TextsSurvive(r: RunRequest, o: Object, missing: set<Key>)
    requires HoldsBut(o, r, missing)
    ensures GetOptString(o, ConfigPath) == Ok(if ConfigPath in missing then None else r.configPath)
    ensures GetOptString(o, ArtifactsRoot) == Ok(if ArtifactsRoot in missing then None else r.artifactsRoot)
    ensures GetOptString(o, Framework) == Ok(if Framework in missing then None else r.framework)
    ensures GetOptString(o, TargetRepo) == Ok(if TargetRepo in missing then None else r.targetRepo)
    ensures GetOptString(o, RerunFailed) == Ok(if RerunFailed in missing then None else r.rerunFailed)
  {
    TextSurvives(r, o, missing, ConfigPath, r.configPath);
    TextSurvives(r, o, missing, ArtifactsRoot, r.artifactsRoot);
    TextSurvives(r, o, missing, Framework, r.framework);
    TextSurvives(r, o, missing, TargetRepo, r.targetRepo);
    TextSurvives(r, o, missing, RerunFailed, r.rerunFailed);
  }

  lemma FlagsSurvive(r: RunRequest, o: Object, missing: set<Key>)
    requires HoldsBut(o, r, missing)
    ensures GetBool(o, Persist, true) == Ok(if Persist in missing then true else r.persist)
    ensures GetBool(o, Force, false) == Ok(if Force in missing then false else r.force)
    ensures GetBool(o, FailFast, false) == Ok(if FailFast in missing then false else r.failFast)
    ensures GetBool(o, ReportDb, true) == Ok(if ReportDb in missing then true else r.reportDb)
    ensures GetBool(o, AsyncReportDb, false) == Ok(if AsyncReportDb in missing then false else r.asyncReportDb)
    ensures GetBool(o, Stream, false) == Ok(if Stream in missing then false else r.stream)
    ensures GetBool(o, Ci, true) == Ok(if Ci in missing then true else r.ci)
  {
    FlagSurvives(r, o, missing, Persist, r.persist, true);
    FlagSurvives(r, o, missing, Force, r.force, false);
    FlagSurvives(r, o, missing, FailFast, r.failFast, false);
    FlagSurvives(r, o, missing, ReportDb, r.reportDb, true);
    FlagSurvives(r, o, missing, AsyncReportDb, r.asyncReportDb, false);
    FlagSurvives(r, o, missing, Stream, r.stream, false);
    FlagSurvives(r, o, missing, Ci, r.ci, true);
  }

  lemma FieldsReadBack(r: RunRequest, o: Object, missing: set<Key>)
    requires HoldsBut(o, r, missing) && Kind !in missing && CycleName !in missing
    ensures FromJson(o) == Ok(WithDefaults(r, missing))
  {
    NamesSurvive(r, o, missing);
    TextsSurvive(r, o, missing);
    FlagsSurvive(r, o, missing);
    NumbersSurvive(r, o, missing);
    ListsSurvive(r, o, missing);
    MapsSurvive(r, o, missing);
  }

  lemma HoldsReadsBack(r: RunRequest, o: Object)
    requires Holds(o, r)
    ensures FromJson(o) == Ok(r)
  {
    assert forall k: Key :: !k.Other? ==> HoldsKey(o, r, {}, k);
    FieldsReadBack(r, o, {});
  }

  /** A request survives the database, also when a newer version added keys to its row. */
  lemma RoundTrip(r: RunRequest, added: Object)
    requires forall k <- added :: k.Other?
    ensures FromJson(ToJson(r) + added) == Ok(r)
  {
    HoldsReadsBack(r, ToJson(r) + added);
  }

  /**
   A row an older version wrote, without the keys it did not know yet, reads as the request with
   the defaults in their place; without its kind or its cycle it is unreadable.
   */
  lemma OlderRowReads(r: RunRequest, missing: set<Key>, added: Object)
    requires forall k <- added :: k.Other?
    ensures var o := ToJson(r) - missing + added;
            FromJson(o) == if Kind in missing || CycleName in missing then Err else Ok(WithDefaults(r, missing))
  {
    var o := ToJson(r) - missing + added;
    if Kind !in missing && CycleName !in missing {
      assert forall k: Key :: !k.Other? ==> HoldsKey(o, r, missing, k);
      FieldsReadBack(r, o, missing);
    } else {
      assert GetString(o, Kind).Err? || GetString(o, CycleName).Err?;
    }
  }

  /**
   An empty value of any type in place of the arguments, the tests or the environment reads as
   none; another number or flag makes the row unreadable.
   */
  lemma EmptyValueReads(r: RunRequest, k: Key, v: Json)
    requires k == Args || k == Tests || k == ExtraEnv
    requires IsEmpty(v) || v.Bool? || v.Int? || v.Num?
    ensures FromJson(ToJson(r)[k := v]) == if IsEmpty(v) then Ok(WithDefaults(r, {k})) else Err
  {
    var o := ToJson(r)[k := v];
    if IsEmpty(v) {
      assert forall j: Key :: !j.Other? ==> HoldsKey(o, r, {k}, j);
      FieldsReadBack(r, o, {k});
    } else {
      NotAList(o, k);
    }
  }

  lemma NotAList(o: Object, k: Key)
    requires k in o && !IsEmpty(o[k]) && (o[k].Bool? || o[k].Int? || o[k].Num?)
    ensures GetTuple(o, k) == Err && GetDict(o, k) == Err
  {
  }

  // What the run manager looks at in a request; it only hands the rest on.
  datatype Ticket<+R> = Ticket(cycle: Cycle, request: R)
  type RunTicket = Ticket<RunRequest>

  function TicketOf(r: RunRequest): RunTicket {
    Ticket(r.cycle, r)
  }

  // A queued run as the rest of the server sees it: what `from_json` makes of its row.
  datatype Row = Row(ticket: Result<RunTicket>, createdAt: int)
  type Listing = seq<(Id, Row)>

  datatype Pending = Pending(id: Id, ticket: RunTicket, createdAt: int)

  // What `select ... order by created_at` may return: every row once, oldest first.
  ghost predicate IsListing(listing: Listing, rows: map<Id, Row>) {
    && (forall i :: 0 <= i < |listing| ==> listing[i].0 in rows && rows[listing[i].0] == listing[i].1)
    && (forall i, j :: 0 <= i < j < |listing| ==> listing[i].0 != listing[j].0)
    && (forall i, j :: 0 <= i < j < |listing| ==> listing[i].1.createdAt <= listing[j].1.createdAt)
    && (forall id <- rows :: exists i :: 0 <= i < |listing| && listing[i].0 == id)
  }

  // The rows `pending` hands on, and the ids of the rows it drops as unreadable.
  function Readable(listing: Listing): (runs: seq<Pending>) {
    if listing == [] then []
    else
      var (id, row) := listing[|listing| - 1];
      var front := Readable(listing[..|listing| - 1]);
      if row.ticket.Ok? then front + [Pending(id, row.ticket.value, row.createdAt)] else front
  }

  function Unreadable(listing: Listing): set<Id> {
    set i | 0 <= i < |listing| && listing[i].1.ticket.Err? :: listing[i].0
  }

  // One row of the `queued_run` table.
  datatype QueuedRun = QueuedRun(requestJson: Object, createdAt: int)

  function Read(row: QueuedRun): Row {
    var r := FromJson(row.requestJson);
    Row(if r.Ok? then Ok(TicketOf(r.value)) else Err, row.createdAt)
  }

  class DbRunStore {
    var table: map<Id, QueuedRun>

    function Rows(): map<Id, Row>
      reads this
    {
      map id | id in table :: Read(table[id])
    }

    constructor (table: map<Id, QueuedRun>)
      ensures this.table == table
    {
      this.table := table;
    }

    // False stands for the primary-key error of a second insert.
    method Add(id: Id, request: RunRequest, createdAt: int) returns (ok: bool)
      modifies this
      ensures ok == (id !in old(Rows()))
      ensures Rows() == if ok then old(Rows())[id := Row(Ok(TicketOf(request)), createdAt)] else old(Rows())
    {
      ok := id !in table;
      if ok {
        RoundTrip(request, map[]);
        assert ToJson(request) + map[] == ToJson(request);
        table := table[id := QueuedRun(ToJson(request), createdAt)];
      }
    }

    // The atomic delete: true for exactly the one caller that removed the row.
    method Claim(id: Id) returns (won: bool)
      modifies this
      ensures won == (id in old(Rows()))
      ensures table == old(table) - {id} && Rows() == old(Rows()) - {id}
    {
      won := id in table;
      table := table - {id};
    }

    // One row: the run in it, or none when it is dropped.
    method ReadRow(id: Id, row: QueuedRun) returns (run: seq<Pending>)
      modifies this
      ensures run == if Read(row).ticket.Ok? then [Pending(id, Read(row).ticket.value, row.createdAt)] else []
      ensures Rows() == if Read(row).ticket.Ok? then old(Rows()) else old(Rows()) - {id}
    {
      var request := FromJson(row.requestJson);
      if request.Err? {
        var _ := Claim(id);
        run := [];
      } else {
        run := [Pending(id, TicketOf(request.value), row.createdAt)];
      }
    }

    // `listing` is the database's answer to the select.
    method PendingRuns(listing: seq<(Id, QueuedRun)>) returns (runs: seq<Pending>)
      requires IsListing(ReadAll(listing), Rows())
      modifies this
      ensures runs == Readable(ReadAll(listing)) && Rows() == old(Rows()) - Unreadable(ReadAll(listing))
    {
      ghost var read, rows := ReadAll(listing), Rows();
      runs := [];
      var i := 0;
      while i < |listing|
        invariant 0 <= i <= |listing|
        invariant runs == Readable(read[..i]) && Rows() == rows - Unreadable(read[..i])
      {
        NextRow(listing, rows, i);
        var run := ReadRow(listing[i].0, listing[i].1);
        runs := runs + run;
        i := i + 1;
      }
      assert read[..i] == read;
    }
  }

  function ReadAll(listing: seq<(Id, QueuedRun)>): Listing {
    seq(|listing|, i requires 0 <= i < |listing| => (listing[i].0, Read(listing[i].1)))
  }

  // One turn of the loop in `pending`.
  lemma NextRow(listing: seq<(Id, QueuedRun)>, rows: map<Id, Row>, i: nat)
    requires i < |listing|
    ensures var (id, row, read) := (listing[i].0, Read(listing[i].1), ReadAll(listing));
            && Readable(read[..i + 1])
               == Readable(read[..i]) + (if row.ticket.Ok? then [Pending(id, row.ticket.value, row.createdAt)] else [])
            && rows - Unreadable(read[..i + 1])
               == if row.ticket.Ok? then rows - Unreadable(read[..i]) else rows - Unreadable(read[..i]) - {id}
  {
    ReadableStep(ReadAll(listing), i);
    MinusOne(rows, Unreadable(ReadAll(listing)[..i]), listing[i].0);
  }

  lemma MinusOne(rows: map<Id, Row>, gone: set<Id>, id: Id)
    ensures rows - gone - {id} == rows - (gone + {id})
  {
  }

  lemma ReadableStep(listing: Listing, i: nat)
    requires i < |listing|
    ensures Readable(listing[..i + 1]) == Readable(listing[..i]) +
            (if listing[i].1.ticket.Ok?
             then [Pending(listing[i].0, listing[i].1.ticket.value, listing[i].1.createdAt)] else [])
    ensures Unreadable(listing[..i + 1])
         == Unreadable(listing[..i]) + (if listing[i].1.ticket.Err? then {listing[i].0} else {})
  {
    var l := listing[..i + 1];
    assert l[..i] == listing[..i] && l[i] == listing[i];
    assert forall j :: 0 <= j < i ==> l[j] == listing[..i][j];
  }

  // Element k of the readable runs comes from this position of the listing.
  function Source(listing: Listing, k: nat): (i: nat)
    requires k < |Readable(listing)|
    ensures i < |listing| && listing[i].1 == Row(Ok(Readable(listing)[k].ticket), Readable(listing)[k].createdAt)
    ensures listing[i].0 == Readable(listing)[k].id
  {
    var front := listing[..|listing| - 1];
    if k < |Readable(front)| then Source(front, k) else |listing| - 1
  }

  lemma {:induction false} SourceMonotone(listing: Listing, k: nat, l: nat)
    requires k < l < |Readable(listing)|
    ensures Source(listing, k) < Source(listing, l)
  {
    var front := listing[..|listing| - 1];
    if l < |Readable(front)| {
      SourceMonotone(front, k, l);
    }
  }

  lemma {:induction false} ReadableHas(listing: Listing, i: nat)
    requires i < |listing| && listing[i].1.ticket.Ok?
    ensures Pending(listing[i].0, listing[i].1.ticket.value, listing[i].1.createdAt) in Readable(listing)
  {
    var front := listing[..|listing| - 1];
    if i < |listing| - 1 {
      ReadableHas(front, i);
    }
  }

  /** `pending` hands on every row it leaves in the table, each once, oldest first. */
  lemma ReadableCoversTable(listing: Listing, rows: map<Id, Row>)
    requires IsListing(listing, rows)
    ensures forall id <- rows - Unreadable(listing) ::
              rows[id].ticket.Ok? && Pending(id, rows[id].ticket.value, rows[id].createdAt) in Readable(listing)
    ensures forall k :: 0 <= k < |Readable(listing)| ==>
              var run := Readable(listing)[k];
              run.id in rows - Unreadable(listing) && rows[run.id] == Row(Ok(run.ticket), run.createdAt)
    ensures forall k, l :: 0 <= k < l < |Readable(listing)| ==>
              Readable(listing)[k].createdAt <= Readable(listing)[l].createdAt
                && Readable(listing)[k].id != Readable(listing)[l].id
  {
    forall id | id in rows - Unreadable(listing)
      ensures rows[id].ticket.Ok? && Pending(id, rows[id].ticket.value, rows[id].createdAt) in Readable(listing)
    {
      var i :| 0 <= i < |listing| && listing[i].0 == id;
      assert listing[i].1.ticket.Ok?;
      ReadableHas(listing, i);
    }
    forall k | 0 <= k < |Readable(listing)|
      ensures Readable(listing)[k].id in rows - Unreadable(listing)
      ensures rows[Readable(listing)[k].id] == Row(Ok(Readable(listing)[k].ticket), Readable(listing)[k].createdAt)
    {
      var i := Source(listing, k);
    }
    forall k, l | 0 <= k < l < |Readable(listing)|
      ensures Readable(listing)[k].createdAt <= Readable(listing)[l].createdAt
      ensures Readable(listing)[k].id != Readable(listing)[l].id
    {
      SourceMonotone(listing, k, l);
    }
  }
}
