/** The SQL Server backend. The database is a parameter: the answers its
    queries give, each one either the rows or a driver error. Credentials
    are the only state the backend keeps of its own. */
module Sql {
  import opened Base
  import opened Propertys
  import opened Documents
  import Stamps
  import Utilities
  import Stitch

  datatype Credentials = Credentials(
    serverName: string,
    databaseName: string,
    username: string,
    password: string)

  /** The stored credentials and whether the driver accepted them. */
  datatype Session = Session(credentials: Option<Credentials>, connected: bool)

  /** The session after a connection attempt, and what the attempt raised. */
  datatype Attempt = Attempt(session: Session, raised: Option<Error>)

  const ConnectionFailure := Transport("connection refused")

  /** `connect`: credentials passed in are stored and used; without them the
      stored ones are used, and with neither `NO_CREDENTIALS` is raised
      before anything changes. Whether the driver accepts the credentials
      is a parameter; given credentials stay stored even when it does not. */
  function Connect(s: Session, given: Option<Credentials>, driver: Credentials -> bool): (r: Attempt)
    ensures r.raised == Some(NoCredentials) <==> given.None? && s.credentials.None?
    ensures given.None? && s.credentials.None? ==> r.session == s
    ensures given.Some? ==> r.session.credentials == given
    ensures given.None? ==> r.session.credentials == s.credentials
    ensures r.session.credentials.Some? && r.raised != Some(NoCredentials) ==>
      && (r.session.connected <==> driver(r.session.credentials.value))
      && (r.raised.None? <==> r.session.connected)
      && (r.raised.Some? ==> r.raised == Some(ConnectionFailure))
  {
    var creds := if given.Some? then given else s.credentials;
    match creds
    case None => Attempt(s, Some(NoCredentials))
    case Some(c) =>
      if driver(c) then Attempt(Session(creds, true), None)
      else Attempt(Session(creds, false), Some(ConnectionFailure))
  }

  /** Once credentials have been given, a later `connect()` without
      arguments reuses them instead of raising. */
  lemma ReconnectReusesCredentials(s: Session, c: Credentials, driver: Credentials -> bool)
    ensures var first := Connect(s, Some(c), driver);
      var again := Connect(first.session, None, driver);
      again.raised != Some(NoCredentials) && again.session.credentials == Some(c) && again == first
  {
  }

  /** A row of the server's object catalogue. */
  datatype CatalogueRow = CatalogueRow(objectName: string, objectType: string)

  /** What the database answers; the sequence-count queries answer with
      one row, or `None` when the query returns no row. */
  datatype Database = Database(
    sprocRows: string -> Result<seq<CatalogueRow>>,
    properties: Result<seq<Property>>,
    documentTypes: Result<seq<DocumentType>>,
    documentTypeProperties: Result<seq<DocumentTypeProperty>>,
    distStamps: Result<seq<Stamps.DistributionStamp>>,
    distStampFields: Result<seq<Stamps.DistributionStampField>>,
    tasksWithActivity: int -> Result<Option<seq<int>>>,
    aiProfilesOfDocType: int -> Result<Option<seq<int>>>,
    aiProfileNames: Result<seq<seq<string>>>,
    eventTaskNames: Result<seq<seq<string>>>)

  /** `check_if_sproc_exists`: the number of matching catalogue rows. A
      count above zero is what the sproc table records as existing. */
  function CheckIfSprocExists(db: Database, name: string): (r: Result<nat>)
    ensures r.Success? <==> db.sprocRows(name).Success?
    ensures r.Success? ==> r.value == |db.sprocRows(name).value|
    ensures r.Success? ==> (r.value > 0 <==> db.sprocRows(name).value != [])
    ensures r.Failure? ==> r.error == db.sprocRows(name).error
  {
    match db.sprocRows(name)
    case Failure(e) => Failure(e)
    case Success(rows) => Success(|rows|)
  }

  /** The properties `get_document_type_propertys` links against: the ones
      passed in, unless that is `None` or empty, in which case they are
      fetched. */
  function UsedProperties(db: Database, properties: Option<seq<Property>>): (r: Result<seq<Property>>)
    ensures properties.Some? && properties.value != [] ==> r == Success(properties.value)
    ensures properties.None? || properties.value == [] ==> r == db.properties
  {
    if properties.Some? && properties.value != [] then Success(properties.value) else db.properties
  }

  /** `get_document_type_propertys`: the document-type property rows, each
      linked to the last property with its id. */
  function GetDocumentTypePropertys(db: Database, properties: Option<seq<Property>>)
    : (r: Result<seq<DocumentTypeProperty>>)
    ensures r.Success? <==>
      && UsedProperties(db, properties).Success?
      && db.documentTypeProperties.Success?
      && Stitch.LinkLast(db.documentTypeProperties.value, UsedProperties(db, properties).value).Success?
    ensures r.Success? ==> |r.value| == |db.documentTypeProperties.value| && forall i | 0 <= i < |r.value| ::
      && Stitch.Linked(db.documentTypeProperties.value[i], r.value[i])
      && Stitch.IsLastMatch(UsedProperties(db, properties).value, Stitch.PropertyIdOf,
           db.documentTypeProperties.value[i].PropertyId, r.value[i].Property.value)
    ensures (&& UsedProperties(db, properties).Success?
             && db.documentTypeProperties.Success?
             && !Stitch.LinkLast(db.documentTypeProperties.value, UsedProperties(db, properties).value).Success?)
      ==> r == Failure(MissingKey)
    ensures UsedProperties(db, properties).Failure? ==> r == Failure(UsedProperties(db, properties).error)
    ensures UsedProperties(db, properties).Success? && db.documentTypeProperties.Failure? ==>
      r == Failure(db.documentTypeProperties.error)
  {
    match UsedProperties(db, properties)
    case Failure(e) => Failure(e)
    case Success(props) =>
      match db.documentTypeProperties
      case Failure(e) => Failure(e)
      case Success(rows) => Stitch.LinkLast(rows, props)
  }

  /** A non-empty property list passed in is used as given: what the
      database would answer for the properties makes no difference. */
  lemma GivenPropertiesAreNotFetched(db: Database, props: seq<Property>, fetched: Result<seq<Property>>)
    requires props != []
    ensures GetDocumentTypePropertys(db, Some(props)) == GetDocumentTypePropertys(db.(properties := fetched), Some(props))
  {
  }

  /** `get_doc_types_with_props`: the document types, then the linked
      document-type properties, grouped under their parent type. */
  function GetDocTypesWithProps(db: Database, properties: Option<seq<Property>>): (r: Result<seq<DocumentType>>)
    ensures r.Success? <==> db.documentTypes.Success? && GetDocumentTypePropertys(db, properties).Success?
    ensures r.Success? ==>
      r.value == Stitch.GroupByParent(db.documentTypes.value, GetDocumentTypePropertys(db, properties).value)
    ensures db.documentTypes.Failure? ==> r == Failure(db.documentTypes.error)
    ensures db.documentTypes.Success? && GetDocumentTypePropertys(db, properties).Failure? ==>
      r == Failure(GetDocumentTypePropertys(db, properties).error)
  {
    match db.documentTypes
    case Failure(e) => Failure(e)
    case Success(docTypes) =>
      match GetDocumentTypePropertys(db, properties)
      case Failure(e) => Failure(e)
      case Success(dtps) => Success(Stitch.GroupByParent(docTypes, dtps))
  }

  /** `get_dist_stamp_with_fields`: the stamps, then the fields, then the
      SQL merge, which keeps every stamp. */
  function GetDistStampWithFields(db: Database): (r: Result<seq<Stamps.DistributionStamp>>)
    ensures r.Success? <==> db.distStamps.Success? && db.distStampFields.Success?
    ensures r.Success? ==> |r.value| == |db.distStamps.value|
    ensures r.Success? ==> r.value == Stitch.SqlMerge(db.distStamps.value, db.distStampFields.value)
    ensures r.Success? ==> Stitch.FieldsGrouped(r.value, db.distStamps.value, db.distStampFields.value)
    ensures db.distStamps.Failure? ==> r == Failure(db.distStamps.error)
    ensures db.distStamps.Success? && db.distStampFields.Failure? ==> r == Failure(db.distStampFields.error)
  {
    match db.distStamps
    case Failure(e) => Failure(e)
    case Success(stamps) =>
      match db.distStampFields
      case Failure(e) => Failure(e)
      case Success(fields) => Success(Stitch.SqlMerge(stamps, fields))
  }

  /** The next sequence number from a count row: its first cell plus one. A
      missing row cannot be subscripted and an empty row has no first cell. */
  function NextSequence(row: Option<seq<int>>): (r: Result<int>)
    ensures r.Success? <==> row.Some? && row.value != []
    ensures row.None? ==> r == Failure(TypeMismatch)
    ensures row.Some? && row.value == [] ==> r == Failure(IndexOutOfRange)
    ensures r.Success? ==> r.value > row.value[0] && r.value - row.value[0] == 1
  {
    match row
    case None => Failure(TypeMismatch)
    case Some(cells) => if cells == [] then Failure(IndexOutOfRange) else Success(cells[0] + 1)
  }

  /** `get_automated_task_sequence_number`: one past the number of tasks
      already attached to the activity. */
  function GetAutomatedTaskSequenceNumber(db: Database, activityId: int): (r: Result<int>)
    ensures r.Success? ==> (&& db.tasksWithActivity(activityId).Success?
                            && db.tasksWithActivity(activityId).value.Some?
                            && db.tasksWithActivity(activityId).value.value != []
                            && r.value == db.tasksWithActivity(activityId).value.value[0] + 1)
    ensures var q := db.tasksWithActivity(activityId);
      r.Success? <==> q.Success? && q.value.Some? && q.value.value != []
    ensures var q := db.tasksWithActivity(activityId);
      && (q.Failure? ==> r == Failure(q.error))
      && (q == Success(None) ==> r == Failure(TypeMismatch))
      && (q == Success(Some([])) ==> r == Failure(IndexOutOfRange))
  {
    match db.tasksWithActivity(activityId)
    case Failure(e) => Failure(e)
    case Success(row) => NextSequence(row)
  }

  /** `get_doc_type_ai_sequence`: one past the number of auto-index
      profiles already attached to the document type. */
  function GetDocTypeAiSequence(db: Database, docTypeId: int): (r: Result<int>)
    ensures r.Success? ==> (&& db.aiProfilesOfDocType(docTypeId).Success?
                            && db.aiProfilesOfDocType(docTypeId).value.Some?
                            && db.aiProfilesOfDocType(docTypeId).value.value != []
                            && r.value == db.aiProfilesOfDocType(docTypeId).value.value[0] + 1)
    ensures var q := db.aiProfilesOfDocType(docTypeId);
      r.Success? <==> q.Success? && q.value.Some? && q.value.value != []
    ensures var q := db.aiProfilesOfDocType(docTypeId);
      && (q.Failure? ==> r == Failure(q.error))
      && (q == Success(None) ==> r == Failure(TypeMismatch))
      && (q == Success(Some([])) ==> r == Failure(IndexOutOfRange))
  {
    match db.aiProfilesOfDocType(docTypeId)
    case Failure(e) => Failure(e)
    case Success(row) => NextSequence(row)
  }

  /** `get_ai_profiles`: the first column of every name row. */
  function GetAiProfiles(db: Database): (r: Result<seq<string>>)
    ensures r.Success? ==> db.aiProfileNames.Success? && |r.value| == |db.aiProfileNames.value|
    ensures r.Success? ==> forall i | 0 <= i < |r.value| ::
      db.aiProfileNames.value[i] != [] && r.value[i] == db.aiProfileNames.value[i][0]
    ensures r.Success? <==> db.aiProfileNames.Success? && forall i | 0 <= i < |db.aiProfileNames.value| :: db.aiProfileNames.value[i] != []
    ensures db.aiProfileNames.Failure? ==> r == Failure(db.aiProfileNames.error)
    ensures db.aiProfileNames.Success? && r.Failure? ==> r.error == IndexOutOfRange
  {
    match db.aiProfileNames
    case Failure(e) => Failure(e)
    case Success(rows) => Utilities.FirstColumn(rows)
  }

  /** `get_event_task_names`: the first column of every name row. */
  function GetEventTaskNames(db: Database): (r: Result<seq<string>>)
    ensures r.Success? ==> db.eventTaskNames.Success? && |r.value| == |db.eventTaskNames.value|
    ensures r.Success? ==> forall i | 0 <= i < |r.value| ::
      db.eventTaskNames.value[i] != [] && r.value[i] == db.eventTaskNames.value[i][0]
    ensures r.Success? <==> db.eventTaskNames.Success? && forall i | 0 <= i < |db.eventTaskNames.value| :: db.eventTaskNames.value[i] != []
    ensures db.eventTaskNames.Failure? ==> r == Failure(db.eventTaskNames.error)
    ensures db.eventTaskNames.Success? && r.Failure? ==> r.error == IndexOutOfRange
  {
    match db.eventTaskNames
    case Failure(e) => Failure(e)
    case Success(rows) => Utilities.FirstColumn(rows)
  }
}
