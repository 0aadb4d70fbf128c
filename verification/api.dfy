/** The web-API backend. The server is a parameter: its answers to the
    accessible-items request, to a table query, and to the document-type
    and property listings. Every request goes through the HTTP handler's
    authentication check first. The backend's own state is the cache of
    accessible tables and procedures, which a table query consults before it
    sends anything. */
module Api {
  import opened Base
  import opened Propertys
  import opened Documents
  import Stamps
  import opened Workflows
  import opened Http
  import Utilities
  import Stitch
  import Lists

  const WorkflowTableName := "Workflows"
  const WorkflowActivitiesTableName := "WorkflowActivities"
  const DistStampTableName := "DynamicUI"
  const DistStampFieldTableName := "DynamicUIField"
  const AiProfileTableName := "AIProfiles"
  const EventTaskTableName := "EventAutomatedTasks"

  /** A cell of a queried table. */
  datatype Value = Null | Number(n: int) | Str(s: string) | Flag(b: bool)

  /** A table query's answer: the column names and the rows. */
  datatype TableData = TableData(columns: seq<string>, rows: seq<seq<Value>>)

  /** The names of the tables and procedures the account may use. */
  datatype Listing = Listing(tables: seq<string>, procedures: seq<string>)

  /** What the server answers to each request; `None` for a request that
      fails in transport. */
  datatype Server = Server(
    accessibleItems: Option<Listing>,
    queryTable: string -> Option<TableData>,
    documentTypes: Option<seq<DocumentType>>,
    properties: Option<seq<Property>>)

  const TransportFailure := Transport("request failed")

  /** A request that needs authentication: the handler's check first, then
      the server's answer. */
  function Request<T>(h: Handler, answer: Option<T>): (r: Result<T>)
    ensures r.Success? <==> h.authenticated && answer.Some?
    ensures !h.authenticated ==> r == Failure(NotAuthenticated)
    ensures h.authenticated && answer.None? ==> r == Failure(TransportFailure)
    ensures r.Success? ==> r.value == answer.value
  {
    match CheckAuthenticated(h, true)
    case Some(e) => Failure(e)
    case None =>
      match answer
      case None => Failure(TransportFailure)
      case Some(x) => Success(x)
  }

  /** The accessible-items cache and whether it has been filled. */
  datatype Cache = Cache(hasRun: bool, items: Listing)

  const EmptyCache := Cache(false, Listing([], []))

  /** The cache after an operation, and the operation's outcome. */
  datatype Step<T> = Step(cache: Cache, result: Result<T>)

  /** `_get_accessable_items`: the cached listing when the cache has been
      filled and no refresh is asked for; otherwise a fresh request, whose
      answer replaces the cache. A failed request leaves the cache alone. */
  function GetAccessibleItems(h: Handler, c: Cache, refresh: bool, s: Server): (r: Step<Listing>)
    ensures c.hasRun && !refresh ==> r == Step(c, Success(c.items))
    ensures !c.hasRun || refresh ==> (r.result.Success? <==> Request(h, s.accessibleItems).Success?)
    ensures !c.hasRun || refresh ==> (r.result.Success? ==> r.result.value == s.accessibleItems.value)
    ensures (!c.hasRun || refresh) && Request(h, s.accessibleItems).Failure? ==>
      r.result == Failure(Request(h, s.accessibleItems).error)
    ensures r.result.Failure? ==> r.cache == c
    ensures r.result.Success? ==> r.cache == Cache(true, r.result.value)
  {
    if c.hasRun && !refresh then Step(c, Success(c.items))
    else
      match Request(h, s.accessibleItems)
      case Failure(e) => Step(c, Failure(e))
      case Success(l) => Step(Cache(true, l), Success(l))
  }

  /** A filled cache answers without the server: any server, and any
      handler, give the same outcome. */
  lemma CachedReadIgnoresServer(h: Handler, h': Handler, c: Cache, s: Server, s': Server)
    requires c.hasRun
    ensures GetAccessibleItems(h, c, false, s) == GetAccessibleItems(h', c, false, s')
  {
  }

  /** After a successful read, a read without refresh returns the same
      listing from the cache. */
  lemma SecondReadIsCached(h: Handler, c: Cache, refresh: bool, s: Server, h': Handler, s': Server)
    requires GetAccessibleItems(h, c, refresh, s).result.Success?
    ensures var first := GetAccessibleItems(h, c, refresh, s);
      GetAccessibleItems(h', first.cache, false, s') == first
  {
  }

  /** `check_if_sproc_exists`: a refreshed read, then 1 when the procedure
      is listed and 0 when it is not. */
  function CheckIfSprocExists(h: Handler, c: Cache, s: Server, name: string): (r: Step<int>)
    ensures r.result.Success? <==> Request(h, s.accessibleItems).Success?
    ensures r.result.Success? ==> (r.result.value == 1 <==> name in s.accessibleItems.value.procedures)
    ensures r.result.Success? ==> r.result.value == 0 || r.result.value == 1
    ensures r.result.Failure? ==> r.result.error == Request(h, s.accessibleItems).error
    ensures r.result.Success? ==> r.cache == Cache(true, s.accessibleItems.value)
    ensures r.result.Failure? ==> r.cache == c
  {
    var a := GetAccessibleItems(h, c, true, s);
    match a.result
    case Failure(e) => Step(a.cache, Failure(e))
    case Success(l) => Step(a.cache, Success(if name in l.procedures then 1 else 0))
  }

  /** Because the probe always refreshes, its answer does not depend on the
      cache, so it can stand as a plain function of the procedure name. */
  lemma SprocProbeIgnoresCache(h: Handler, c: Cache, c': Cache, s: Server, name: string)
    ensures CheckIfSprocExists(h, c, s, name).result == CheckIfSprocExists(h, c', s, name).result
  {
  }

  /** `does_table_exist`: a refreshed read, then whether the table is
      listed. */
  function DoesTableExist(h: Handler, c: Cache, s: Server, table: string): (r: Step<bool>)
    ensures r.result.Success? <==> Request(h, s.accessibleItems).Success?
    ensures r.result.Success? ==> (r.result.value <==> table in s.accessibleItems.value.tables)
    ensures r.result.Failure? ==> r.result.error == Request(h, s.accessibleItems).error
    ensures r.result.Success? ==> r.cache == Cache(true, s.accessibleItems.value)
    ensures r.result.Failure? ==> r.cache == c
  {
    var a := GetAccessibleItems(h, c, true, s);
    match a.result
    case Failure(e) => Step(a.cache, Failure(e))
    case Success(l) => Step(a.cache, Success(table in l.tables))
  }

  /** The accessible-items read a table query makes succeeded and does not
      list the table. */
  predicate Unlisted(h: Handler, c: Cache, s: Server, table: string) {
    var a := GetAccessibleItems(h, c, false, s).result;
    a.Success? && table !in a.value.tables
  }

  /** `query_table`: the table must be on the (possibly cached) listing,
      otherwise `TABLE_NOT_WHITELISTED` is raised before any query is sent.
      The cache keeps whatever the listing read put there, even when the
      query then fails. */
  function QueryTable(h: Handler, c: Cache, s: Server, table: string): (r: Step<TableData>)
    ensures r.cache == GetAccessibleItems(h, c, false, s).cache
    ensures (r.result.Failure? && r.result.error.TableNotWhitelisted?) <==> Unlisted(h, c, s, table)
    ensures Unlisted(h, c, s, table) ==> r.result == Failure(TableNotWhitelisted(table))
    ensures GetAccessibleItems(h, c, false, s).result.Failure? ==>
      r.result == Failure(GetAccessibleItems(h, c, false, s).result.error)
    ensures r.result.Success? ==> !Unlisted(h, c, s, table) && Some(r.result.value) == s.queryTable(table)
    ensures GetAccessibleItems(h, c, false, s).result.Success? && !Unlisted(h, c, s, table) ==>
      r.result == Request(h, s.queryTable(table))
  {
    var a := GetAccessibleItems(h, c, false, s);
    match a.result
    case Failure(e) => Step(a.cache, Failure(e))
    case Success(l) =>
      if table !in l.tables then Step(a.cache, Failure(TableNotWhitelisted(table)))
      else Step(a.cache, Request(h, s.queryTable(table)))
  }

  /** The optional-table pattern of the getters: a table that is not
      whitelisted reads as empty; every other error is raised again; an
      answered query is converted. */
  function SoftQuery<T>(h: Handler, c: Cache, s: Server, table: string, convert: TableData -> Result<seq<T>>)
    : (r: Step<seq<T>>)
    ensures r.cache == GetAccessibleItems(h, c, false, s).cache
    ensures Unlisted(h, c, s, table) ==> r.result == Success([])
    ensures var q := QueryTable(h, c, s, table).result;
      q.Failure? && !Unlisted(h, c, s, table) ==> r.result == Failure(q.error) && !q.error.TableNotWhitelisted?
    ensures var q := QueryTable(h, c, s, table).result;
      q.Success? ==> r.result == convert(q.value)
  {
    var q := QueryTable(h, c, s, table);
    match q.result
    case Failure(e) =>
      TagIdentifiesWhitelistError(e);
      if Tag(e) == TableNotWhitelistedTag then Step(q.cache, Success([])) else Step(q.cache, Failure(e))
    case Success(data) => Step(q.cache, convert(data))
  }

  /** One row as a record: the row keyed by column name, then the record
      constructor, which raises `TypeError` on columns it does not take. */
  function RecordOf<T>(columns: seq<string>, decode: map<string, Value> -> Option<T>, row: seq<Value>)
    : (r: Result<T>)
    ensures r.Failure? ==> r.error == IndexOutOfRange || r.error == TypeMismatch
    ensures r.Success? <==> |row| <= |columns| && decode(Utilities.ApiRowToJson(row, columns).value).Some?
    ensures r == Failure(IndexOutOfRange) <==> |row| > |columns|
    ensures r == Failure(TypeMismatch) <==>
      |row| <= |columns| && decode(Utilities.ApiRowToJson(row, columns).value).None?
    ensures r.Success? ==> r.value == decode(Utilities.ApiRowToJson(row, columns).value).value
  {
    match Utilities.ApiRowToJson(row, columns)
    case Failure(e) => Failure(e)
    case Success(m) =>
      match decode(m)
      case None => Failure(TypeMismatch)
      case Some(x) => Success(x)
  }

  /** Every row of a queried table as a record, in row order. */
  function Records<T>(decode: map<string, Value> -> Option<T>, data: TableData): (r: Result<seq<T>>)
    ensures r.Failure? ==> r.error == IndexOutOfRange || r.error == TypeMismatch
    ensures r.Success? <==> forall i | 0 <= i < |data.rows| :: RecordOf(data.columns, decode, data.rows[i]).Success?
    ensures r.Success? ==> |r.value| == |data.rows| && forall i | 0 <= i < |data.rows| ::
      r.value[i] == RecordOf(data.columns, decode, data.rows[i]).value
    ensures r.Failure? ==> exists i | 0 <= i < |data.rows| ::
      && RecordOf(data.columns, decode, data.rows[i]) == Failure(r.error)
      && forall j | 0 <= j < i :: RecordOf(data.columns, decode, data.rows[j]).Success?
  {
    Lists.MapAll(data.rows, row => RecordOf(data.columns, decode, row))
  }

  /** The first cell of every row. */
  function FirstCells(data: TableData): (r: Result<seq<Value>>)
    ensures r.Success? <==> forall i | 0 <= i < |data.rows| :: data.rows[i] != []
    ensures r.Failure? ==> r.error == IndexOutOfRange
    ensures r.Success? ==> |r.value| == |data.rows| && forall i | 0 <= i < |data.rows| ::
      r.value[i] == data.rows[i][0]
  {
    Utilities.FirstColumn(data.rows)
  }

  /** `get_workflows`. */
  function GetWorkflows(h: Handler, c: Cache, s: Server, decode: map<string, Value> -> Option<Workflow>)
    : (r: Step<seq<Workflow>>)
    ensures r.cache == GetAccessibleItems(h, c, false, s).cache
    ensures Unlisted(h, c, s, WorkflowTableName) ==> r.result == Success([])
    ensures r.result.Failure? ==> !r.result.error.TableNotWhitelisted?
    ensures var q := QueryTable(h, c, s, WorkflowTableName).result;
      q.Failure? && !Unlisted(h, c, s, WorkflowTableName) ==> r.result == Failure(q.error)
    ensures var q := QueryTable(h, c, s, WorkflowTableName).result;
      q.Success? ==> r.result == Records(decode, q.value)
  {
    SoftQuery(h, c, s, WorkflowTableName, data => Records(decode, data))
  }

  /** `get_workflow_activities`. */
  function GetWorkflowActivities(h: Handler, c: Cache, s: Server, decode: map<string, Value> -> Option<WorkflowActivity>)
    : (r: Step<seq<WorkflowActivity>>)
    ensures r.cache == GetAccessibleItems(h, c, false, s).cache
    ensures Unlisted(h, c, s, WorkflowActivitiesTableName) ==> r.result == Success([])
    ensures r.result.Failure? ==> !r.result.error.TableNotWhitelisted?
    ensures var q := QueryTable(h, c, s, WorkflowActivitiesTableName).result;
      q.Failure? && !Unlisted(h, c, s, WorkflowActivitiesTableName) ==> r.result == Failure(q.error)
    ensures var q := QueryTable(h, c, s, WorkflowActivitiesTableName).result;
      q.Success? ==> r.result == Records(decode, q.value)
  {
    SoftQuery(h, c, s, WorkflowActivitiesTableName, data => Records(decode, data))
  }

  /** `get_dist_stamps`. */
  function GetDistStamps(h: Handler, c: Cache, s: Server, decode: map<string, Value> -> Option<Stamps.DistributionStamp>)
    : (r: Step<seq<Stamps.DistributionStamp>>)
    ensures r.cache == GetAccessibleItems(h, c, false, s).cache
    ensures Unlisted(h, c, s, DistStampTableName) ==> r.result == Success([])
    ensures r.result.Failure? ==> !r.result.error.TableNotWhitelisted?
    ensures var q := QueryTable(h, c, s, DistStampTableName).result;
      q.Failure? && !Unlisted(h, c, s, DistStampTableName) ==> r.result == Failure(q.error)
    ensures var q := QueryTable(h, c, s, DistStampTableName).result;
      q.Success? ==> r.result == Records(decode, q.value)
  {
    SoftQuery(h, c, s, DistStampTableName, data => Records(decode, data))
  }

  /** `get_dist_stamp_fields`. */
  function GetDistStampFields(h: Handler, c: Cache, s: Server,
                              decode: map<string, Value> -> Option<Stamps.DistributionStampField>)
    : (r: Step<seq<Stamps.DistributionStampField>>)
    ensures r.cache == GetAccessibleItems(h, c, false, s).cache
    ensures Unlisted(h, c, s, DistStampFieldTableName) ==> r.result == Success([])
    ensures r.result.Failure? ==> !r.result.error.TableNotWhitelisted?
    ensures var q := QueryTable(h, c, s, DistStampFieldTableName).result;
      q.Failure? && !Unlisted(h, c, s, DistStampFieldTableName) ==> r.result == Failure(q.error)
    ensures var q := QueryTable(h, c, s, DistStampFieldTableName).result;
      q.Success? ==> r.result == Records(decode, q.value)
  {
    SoftQuery(h, c, s, DistStampFieldTableName, data => Records(decode, data))
  }

  /** `get_ai_profiles`: the first column of the profile table. */
  function GetAiProfiles(h: Handler, c: Cache, s: Server): (r: Step<seq<Value>>)
    ensures r.cache == GetAccessibleItems(h, c, false, s).cache
    ensures Unlisted(h, c, s, AiProfileTableName) ==> r.result == Success([])
    ensures r.result.Failure? ==> !r.result.error.TableNotWhitelisted?
    ensures var q := QueryTable(h, c, s, AiProfileTableName).result;
      q.Failure? && !Unlisted(h, c, s, AiProfileTableName) ==> r.result == Failure(q.error)
    ensures var q := QueryTable(h, c, s, AiProfileTableName).result;
      q.Success? ==> r.result == FirstCells(q.value)
  {
    SoftQuery(h, c, s, AiProfileTableName, FirstCells)
  }

  /** `get_event_task_names`: the first column of the event-task table. */
  function GetEventTaskNames(h: Handler, c: Cache, s: Server): (r: Step<seq<Value>>)
    ensures r.cache == GetAccessibleItems(h, c, false, s).cache
    ensures Unlisted(h, c, s, EventTaskTableName) ==> r.result == Success([])
    ensures r.result.Failure? ==> !r.result.error.TableNotWhitelisted?
    ensures var q := QueryTable(h, c, s, EventTaskTableName).result;
      q.Failure? && !Unlisted(h, c, s, EventTaskTableName) ==> r.result == Failure(q.error)
    ensures var q := QueryTable(h, c, s, EventTaskTableName).result;
      q.Success? ==> r.result == FirstCells(q.value)
  {
    SoftQuery(h, c, s, EventTaskTableName, FirstCells)
  }

  /** Only the whitelist error is softened: with a handler that is not
      authenticated (logged out, or its login failed) and nothing cached,
      every getter raises `NOT_AUTHENTICATED`. */
  lemma UnauthenticatedGettersRaise(h: Handler, s: Server, decode: map<string, Value> -> Option<Workflow>)
    requires !h.authenticated
    ensures GetWorkflows(h, EmptyCache, s, decode).result == Failure(NotAuthenticated)
    ensures GetAiProfiles(h, EmptyCache, s).result == Failure(NotAuthenticated)
    ensures GetEventTaskNames(h, EmptyCache, s).result == Failure(NotAuthenticated)
  {
  }

  /** One document type with each of its document-type properties linked
      to the first property with its id. A type whose property list is
      missing cannot be iterated. */
  function AttachProperties(props: seq<Property>, dt: DocumentType): (r: Result<DocumentType>)
    ensures dt.DocumentTypeProperties.None? ==> r == Failure(TypeMismatch)
    ensures dt.DocumentTypeProperties.Some? ==>
      (r.Success? <==> Stitch.LinkFirst(dt.DocumentTypeProperties.value, props).Success?)
    ensures r.Success? ==>
      && r.value.(DocumentTypeProperties := dt.DocumentTypeProperties) == dt
      && r.value.DocumentTypeProperties == Some(Stitch.LinkFirst(dt.DocumentTypeProperties.value, props).value)
  {
    match dt.DocumentTypeProperties
    case None => Failure(TypeMismatch)
    case Some(dtps) =>
      match Stitch.LinkFirst(dtps, props)
      case Failure(e) => Failure(e)
      case Success(linked) => Success(dt.(DocumentTypeProperties := Some(linked)))
  }

  /** `get_doc_types_with_props`: the document types, then the properties,
      then every type's properties linked. The argument the caller passes is
      ignored; the properties are always fetched. */
  function GetDocTypesWithProps(h: Handler, s: Server): (r: Result<seq<DocumentType>>)
    ensures !h.authenticated ==> r == Failure(NotAuthenticated)
    ensures h.authenticated && (s.documentTypes.None? || s.properties.None?) ==> r == Failure(TransportFailure)
    ensures r.Success? <==>
      && h.authenticated && s.documentTypes.Some? && s.properties.Some?
      && forall i | 0 <= i < |s.documentTypes.value| ::
           AttachProperties(s.properties.value, s.documentTypes.value[i]).Success?
    ensures r.Failure? && h.authenticated && s.documentTypes.Some? && s.properties.Some? ==>
      exists i | 0 <= i < |s.documentTypes.value| ::
        && AttachProperties(s.properties.value, s.documentTypes.value[i]) == Failure(r.error)
        && forall j | 0 <= j < i :: AttachProperties(s.properties.value, s.documentTypes.value[j]).Success?
    ensures r.Success? ==> |r.value| == |s.documentTypes.value| && forall i | 0 <= i < |r.value| ::
      Some(r.value[i]) == AttachProperties(s.properties.value, s.documentTypes.value[i]).ToOption()
  {
    match Request(h, s.documentTypes)
    case Failure(e) => Failure(e)
    case Success(docTypes) =>
      match Request(h, s.properties)
      case Failure(e) => Failure(e)
      case Success(props) => Lists.MapAll(docTypes, dt => AttachProperties(props, dt))
  }

  /** `get_dist_stamp_with_fields`: the stamps, then the fields, each
      through its optional-table getter, then the API merge. */
  function GetDistStampWithFields(h: Handler, c: Cache, s: Server,
                                  decodeStamp: map<string, Value> -> Option<Stamps.DistributionStamp>,
                                  decodeField: map<string, Value> -> Option<Stamps.DistributionStampField>)
    : (r: Step<seq<Stamps.DistributionStamp>>)
    ensures var a := GetDistStamps(h, c, s, decodeStamp);
      a.result.Failure? ==> r == Step(a.cache, Failure(a.result.error))
    ensures var a := GetDistStamps(h, c, s, decodeStamp);
      var b := GetDistStampFields(h, a.cache, s, decodeField);
      a.result.Success? ==>
        && r.cache == b.cache
        && (r.result.Success? <==> b.result.Success?)
        && (r.result.Success? ==> r.result.value == Stitch.ApiMerge(a.result.value, b.result.value))
        && (b.result.Failure? ==> r.result == Failure(b.result.error))
    ensures r.result.Success? && Unlisted(h, c, s, DistStampTableName) ==> r.result.value == []
    ensures r.result.Success? && Unlisted(h, c, s, DistStampFieldTableName) ==> r.result.value == []
  {
    var a := GetDistStamps(h, c, s, decodeStamp);
    match a.result
    case Failure(e) => Step(a.cache, Failure(e))
    case Success(stamps) =>
      var b := GetDistStampFields(h, a.cache, s, decodeField);
      match b.result
      case Failure(e) => Step(b.cache, Failure(e))
      case Success(fields) =>
        assert Unlisted(h, c, s, DistStampFieldTableName) ==> Unlisted(h, a.cache, s, DistStampFieldTableName) by {
          SecondReadIsCached(h, c, false, s, h, s);
        }
        Step(b.cache, Success(Stitch.ApiMerge(stamps, fields)))
  }
}
