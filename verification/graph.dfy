/** The in-memory metadata graph `DocLinkData`: the lists fetched from a
    backend, the selected document type, distribution stamp and workflow
    slots, the staging-table column names accumulated per column kind, and
    the stored-procedure table.

    Every `get_*_by_*` is a first-match scan that raises its tagged error
    when nothing matches. A mutator becomes a function from the graph to an
    `Effect`: the graph after the call and the exception it raised, if any.
    Mutations made before the exception stay in the graph, as they do on the
    Python object. */
module Graph {
  import opened Base
  import opened Text
  import Lists
  import Propertys
  import Documents
  import Stamps
  import opened Workflows

  /** The two staging tables: one row per document, one per line. */
  datatype ColumnType = Header | Detail

  /** What the staging tables are built from. `WennSoft` is declared but no
      operation supports it. */
  datatype CreationType = DocType | DistStamp | WennSoft

  /** One stored procedure's row in the procedure table. */
  datatype SprocInfo = SprocInfo(
    sprocName: string,
    sprocExists: bool,
    action: Option<string>,
    sprocIdentical: bool)

  datatype Graph = Graph(
    properties: seq<Propertys.Property>,
    documentTypes: seq<Documents.DocumentType>,
    workflows: seq<Workflow>,
    workflowActivities: seq<WorkflowActivity>,
    distributionStamps: seq<Stamps.DistributionStamp>,
    distributionStampFields: seq<Stamps.DistributionStampField>,
    stagingTableColumns: map<ColumnType, seq<string>>,
    selectedDocType: Option<Documents.DocumentType>,
    selectedDistStamp: Option<Stamps.DistributionStamp>,
    selectedWfId: Option<int>,
    selectedStagingWfId: Option<int>,
    selectedStagedWfId: Option<int>,
    selectedSuccessWfId: Option<int>,
    selectedFailedWfId: Option<int>,
    existingAiProfiles: seq<string>,
    existingEventTasks: seq<string>,
    sprocInfo: map<string, SprocInfo>)

  /** The graph after a mutator, and the exception the mutator raised. */
  datatype Effect = Effect(graph: Graph, raised: Option<Error>)

  /** A freshly constructed graph: empty lists, nothing selected, no staging
      columns, no procedure rows. */
  const Initial := Graph([], [], [], [], [], [], map[], None, None,
    None, None, None, None, None, [], [], map[])

  // ---------------------------------------------------------------------
  // Lookups

  // The attribute each lookup compares, as a function value.
  function SecurityIdOf(s: Stamps.DistributionStamp): int { s.DynamicUISecurityId }
  function UiIdOf(s: Stamps.DistributionStamp): Uuid { s.DynamicUiId }
  function StampNameOf(s: Stamps.DistributionStamp): string { s.Name }
  function FieldNameOf(f: Stamps.DistributionStampField): string { f.Name }
  function CaptionOf(f: Stamps.DistributionStampField): string { f.Caption }
  function DocTypeIdOf(d: Documents.DocumentType): int { d.DocumentTypeId }
  function DocTypeNameOf(d: Documents.DocumentType): string { d.Name }
  function PropertyIdOf(p: Propertys.Property): int { p.PropertyId }
  function PromptOf(p: Propertys.Property): string { p.UserPrompt }
  function FormattedPromptOf(p: Propertys.Property): string { Propertys.FormattedUserPrompt(p) }
  function WorkflowIdOf(w: Workflow): int { w.WorkflowID }
  function WorkflowTitleOf(w: Workflow): string { w.Title }
  function ActivityIdOf(a: WorkflowActivity): int { a.WorkflowActivityID }
  function ActivityWorkflowOf(a: WorkflowActivity): int { a.WorkflowID }
  function ActivityTitleOf(a: WorkflowActivity): string { a.Title }

  /** The scan every lookup performs: the first item whose attribute equals
      `value`, or `err` when none does. */
  function Find<T, K(==)>(xs: seq<T>, attr: T -> K, value: K, err: Error): (r: Result<T>)
    ensures r.Success? ==> Lists.IsFirstMatch(xs, attr, value, r.value)
    ensures r.Failure? <==> forall i | 0 <= i < |xs| :: attr(xs[i]) != value
    ensures r.Failure? ==> r.error == err
  {
    match Lists.FirstWith(xs, attr, value)
    case None => Failure(err)
    case Some(x) => Success(x)
  }

  function GetDistributionStampById(g: Graph, id: int): (r: Result<Stamps.DistributionStamp>)
    ensures r.Success? ==> Lists.IsFirstMatch(g.distributionStamps, SecurityIdOf, id, r.value)
    ensures r.Failure? <==> forall s | s in g.distributionStamps :: s.DynamicUISecurityId != id
    ensures r.Failure? ==> r.error == Invalid(DistributionStampId, IntKey(id))
  {
    Find(g.distributionStamps, SecurityIdOf, id, Invalid(DistributionStampId, IntKey(id)))
  }

  /** The UUID lookup raises the same tag as the integer-id lookup. */
  function GetDistributionStampByUuid(g: Graph, id: Uuid): (r: Result<Stamps.DistributionStamp>)
    ensures r.Success? ==> Lists.IsFirstMatch(g.distributionStamps, UiIdOf, id, r.value)
    ensures r.Failure? <==> forall s | s in g.distributionStamps :: s.DynamicUiId != id
    ensures r.Failure? ==> r.error == Invalid(DistributionStampId, UuidKey(id))
  {
    Find(g.distributionStamps, UiIdOf, id, Invalid(DistributionStampId, UuidKey(id)))
  }

  function GetDistributionStampByName(g: Graph, name: string): (r: Result<Stamps.DistributionStamp>)
    ensures r.Success? ==> Lists.IsFirstMatch(g.distributionStamps, StampNameOf, name, r.value)
    ensures r.Failure? <==> forall s | s in g.distributionStamps :: s.Name != name
    ensures r.Failure? ==> r.error == Invalid(DistributionStampName, TextKey(name))
  {
    Find(g.distributionStamps, StampNameOf, name, Invalid(DistributionStampName, TextKey(name)))
  }

  function GetDistributionStampFieldByName(g: Graph, name: string): (r: Result<Stamps.DistributionStampField>)
    ensures r.Success? ==> Lists.IsFirstMatch(g.distributionStampFields, FieldNameOf, name, r.value)
    ensures r.Failure? <==> forall f | f in g.distributionStampFields :: f.Name != name
    ensures r.Failure? ==> r.error == Invalid(DistributionStampFieldName, TextKey(name))
  {
    Find(g.distributionStampFields, FieldNameOf, name, Invalid(DistributionStampFieldName, TextKey(name)))
  }

  function GetDistributionStampFieldByCaption(g: Graph, caption: string): (r: Result<Stamps.DistributionStampField>)
    ensures r.Success? ==> Lists.IsFirstMatch(g.distributionStampFields, CaptionOf, caption, r.value)
    ensures r.Failure? <==> forall f | f in g.distributionStampFields :: f.Caption != caption
    ensures r.Failure? ==> r.error == Invalid(DistributionStampFieldCaption, TextKey(caption))
  {
    Find(g.distributionStampFields, CaptionOf, caption,
      Invalid(DistributionStampFieldCaption, TextKey(caption)))
  }

  function GetDocumentTypeById(g: Graph, id: int): (r: Result<Documents.DocumentType>)
    ensures r.Success? ==> Lists.IsFirstMatch(g.documentTypes, DocTypeIdOf, id, r.value)
    ensures r.Failure? <==> forall d | d in g.documentTypes :: d.DocumentTypeId != id
    ensures r.Failure? ==> r.error == Invalid(DocumentTypeId, IntKey(id))
  {
    Find(g.documentTypes, DocTypeIdOf, id, Invalid(DocumentTypeId, IntKey(id)))
  }

  function GetDocumentTypeByName(g: Graph, name: string): (r: Result<Documents.DocumentType>)
    ensures r.Success? ==> Lists.IsFirstMatch(g.documentTypes, DocTypeNameOf, name, r.value)
    ensures r.Failure? <==> forall d | d in g.documentTypes :: d.Name != name
    ensures r.Failure? ==> r.error == Invalid(DocumentTypeName, TextKey(name))
  {
    Find(g.documentTypes, DocTypeNameOf, name, Invalid(DocumentTypeName, TextKey(name)))
  }

  function GetPropertyById(g: Graph, id: int): (r: Result<Propertys.Property>)
    ensures r.Success? ==> Lists.IsFirstMatch(g.properties, PropertyIdOf, id, r.value)
    ensures r.Failure? <==> forall p | p in g.properties :: p.PropertyId != id
    ensures r.Failure? ==> r.error == Invalid(PropertyId, IntKey(id))
  {
    Find(g.properties, PropertyIdOf, id, Invalid(PropertyId, IntKey(id)))
  }

  /** Compares the raw, unformatted prompt. */
  function GetPropertyByPrompt(g: Graph, prompt: string): (r: Result<Propertys.Property>)
    ensures r.Success? ==> Lists.IsFirstMatch(g.properties, PromptOf, prompt, r.value)
    ensures r.Failure? <==> forall p | p in g.properties :: p.UserPrompt != prompt
    ensures r.Failure? ==> r.error == Invalid(PropertyName, TextKey(prompt))
  {
    Find(g.properties, PromptOf, prompt, Invalid(PropertyName, TextKey(prompt)))
  }

  /** Compares the formatted prompt with the stripped argument; the error
      carries the stripped argument. */
  function GetPropertyByFPrompt(g: Graph, name: string): (r: Result<Propertys.Property>)
    ensures r.Success? ==> Lists.IsFirstMatch(g.properties, FormattedPromptOf, Strip(name), r.value)
    ensures r.Failure? <==> forall i | 0 <= i < |g.properties| :: FormattedPromptOf(g.properties[i]) != Strip(name)
    ensures r.Failure? ==> r.error == Invalid(PropertyName, TextKey(Strip(name)))
  {
    var key := Strip(name);
    Find(g.properties, FormattedPromptOf, key, Invalid(PropertyName, TextKey(key)))
  }

  /** Whitespace around the argument of the formatted-prompt lookup does not
      matter: the lookup of a name and of its stripped form agree. */
  lemma FPromptIgnoresSurroundingSpace(g: Graph, name: string)
    ensures GetPropertyByFPrompt(g, name) == GetPropertyByFPrompt(g, Strip(name))
  {
    StripFixesStripped(Strip(name));
  }

  function GetWorkflowById(g: Graph, id: int): (r: Result<Workflow>)
    ensures r.Success? ==> Lists.IsFirstMatch(g.workflows, WorkflowIdOf, id, r.value)
    ensures r.Failure? <==> forall w | w in g.workflows :: w.WorkflowID != id
    ensures r.Failure? ==> r.error == Invalid(WorkflowId, IntKey(id))
  {
    Find(g.workflows, WorkflowIdOf, id, Invalid(WorkflowId, IntKey(id)))
  }

  function GetWorkflowByName(g: Graph, name: string): (r: Result<Workflow>)
    ensures r.Success? ==> Lists.IsFirstMatch(g.workflows, WorkflowTitleOf, name, r.value)
    ensures r.Failure? <==> forall w | w in g.workflows :: w.Title != name
    ensures r.Failure? ==> r.error == Invalid(WorkflowName, TextKey(name))
  {
    Find(g.workflows, WorkflowTitleOf, name, Invalid(WorkflowName, TextKey(name)))
  }

  /** The activities of one workflow, in list order. */
  function GetActivitiesByWfId(g: Graph, workflowId: int): (r: seq<WorkflowActivity>)
    ensures forall a | a in g.workflowActivities :: a in r <==> a.WorkflowID == workflowId
    ensures forall a | a in r :: a in g.workflowActivities
    ensures Lists.Filtered(r, g.workflowActivities, ActivityWorkflowOf, workflowId)
  {
    Lists.AllWith(g.workflowActivities, ActivityWorkflowOf, workflowId)
  }

  /** The activities of the first workflow with the given title. */
  function GetActivitiesByWfName(g: Graph, name: string): (r: Result<seq<WorkflowActivity>>)
    ensures r.Failure? <==> forall w | w in g.workflows :: w.Title != name
    ensures r.Failure? ==> r.error == Invalid(WorkflowName, TextKey(name))
    ensures r.Success? ==> forall a | a in g.workflowActivities ::
      a in r.value <==> a.WorkflowID == GetWorkflowByName(g, name).value.WorkflowID
    ensures r.Success? ==> Lists.Filtered(r.value, g.workflowActivities, ActivityWorkflowOf,
      GetWorkflowByName(g, name).value.WorkflowID)
  {
    match GetWorkflowByName(g, name)
    case Failure(e) => Failure(e)
    case Success(w) => Success(GetActivitiesByWfId(g, w.WorkflowID))
  }

  /** The list an activity lookup searches: a given workflow id wins over a
      given workflow title, and with neither every activity is searched. */
  function ActivityScope(g: Graph, workflowId: Option<int>, workflowName: Option<string>)
    : Result<seq<WorkflowActivity>>
  {
    if workflowId.Some? then Success(GetActivitiesByWfId(g, workflowId.value))
    else if workflowName.Some? then GetActivitiesByWfName(g, workflowName.value)
    else Success(g.workflowActivities)
  }

  function GetWorkflowActivityById(g: Graph, id: int, workflowId: Option<int>, workflowName: Option<string>)
    : (r: Result<WorkflowActivity>)
    ensures ActivityScope(g, workflowId, workflowName).Failure? ==>
      workflowId.None? && r == Failure(Invalid(WorkflowName, TextKey(workflowName.value)))
    ensures r.Success? ==> r.value in g.workflowActivities && r.value.WorkflowActivityID == id
    ensures r.Success? && workflowId.Some? ==> r.value.WorkflowID == workflowId.value
    ensures r.Success? && workflowId.None? && workflowName.Some? ==>
      r.value.WorkflowID == GetWorkflowByName(g, workflowName.value).value.WorkflowID
    ensures r.Success? ==>
      Lists.IsFirstMatch(ActivityScope(g, workflowId, workflowName).value, ActivityIdOf, id, r.value)
    ensures ActivityScope(g, workflowId, workflowName).Success? ==>
      (r.Failure? <==> forall a | a in ActivityScope(g, workflowId, workflowName).value :: a.WorkflowActivityID != id)
    ensures ActivityScope(g, workflowId, workflowName).Success? && r.Failure? ==>
      r.error == Invalid(WorkflowActivityId, IntKey(id))
  {
    match ActivityScope(g, workflowId, workflowName)
    case Failure(e) => Failure(e)
    case Success(scope) => Find(scope, ActivityIdOf, id, Invalid(WorkflowActivityId, IntKey(id)))
  }

  function GetWorkflowActivityByName(g: Graph, name: string, workflowId: Option<int>, workflowName: Option<string>)
    : (r: Result<WorkflowActivity>)
    ensures ActivityScope(g, workflowId, workflowName).Failure? ==>
      workflowId.None? && r == Failure(Invalid(WorkflowName, TextKey(workflowName.value)))
    ensures r.Success? ==> r.value in g.workflowActivities && r.value.Title == name
    ensures r.Success? && workflowId.Some? ==> r.value.WorkflowID == workflowId.value
    ensures r.Success? && workflowId.None? && workflowName.Some? ==>
      r.value.WorkflowID == GetWorkflowByName(g, workflowName.value).value.WorkflowID
    ensures r.Success? ==>
      Lists.IsFirstMatch(ActivityScope(g, workflowId, workflowName).value, ActivityTitleOf, name, r.value)
    ensures ActivityScope(g, workflowId, workflowName).Success? ==>
      (r.Failure? <==> forall a | a in ActivityScope(g, workflowId, workflowName).value :: a.Title != name)
    ensures ActivityScope(g, workflowId, workflowName).Success? && r.Failure? ==>
      r.error == Invalid(WorkflowActivityName, TextKey(name))
  {
    match ActivityScope(g, workflowId, workflowName)
    case Failure(e) => Failure(e)
    case Success(scope) => Find(scope, ActivityTitleOf, name, Invalid(WorkflowActivityName, TextKey(name)))
  }

  /** When activity ids are unique, narrowing the search to a workflow never
      finds a different activity: a scoped hit is also the unscoped hit. */
  lemma ScopedActivityLookupAgrees(g: Graph, id: int, workflowId: Option<int>, workflowName: Option<string>)
    requires forall i, j | 0 <= i < j < |g.workflowActivities| ::
      g.workflowActivities[i].WorkflowActivityID != g.workflowActivities[j].WorkflowActivityID
    requires GetWorkflowActivityById(g, id, workflowId, workflowName).Success?
    ensures GetWorkflowActivityById(g, id, None, None) == GetWorkflowActivityById(g, id, workflowId, workflowName)
  {
    var a := GetWorkflowActivityById(g, id, workflowId, workflowName).value;
    FindUnique(g.workflowActivities, ActivityIdOf, id, Invalid(WorkflowActivityId, IntKey(id)), a);
  }

  /** Under unique keys, the item carrying the key is what the lookup finds. */
  lemma FindUnique<T, K>(xs: seq<T>, attr: T -> K, value: K, err: Error, x: T)
    requires forall i, j | 0 <= i < j < |xs| :: attr(xs[i]) != attr(xs[j])
    requires x in xs && attr(x) == value
    ensures Find(xs, attr, value, err) == Success(x)
  {
    var i :| 0 <= i < |xs| && xs[i] == x;
    var r := Find(xs, attr, value, err);
    assert r.Success? by {
      assert attr(xs[i]) == value;
    }
    var k :| 0 <= k < |xs| && xs[k] == r.value && attr(xs[k]) == value
      && forall j | 0 <= j < k :: attr(xs[j]) != value;
    assert !(k < i) && !(i < k);
  }

  // ---------------------------------------------------------------------
  // Selection

  /** A selection setter: assign the looked-up object, or raise the lookup's
      error before assigning anything. */
  function SelectDocType(g: Graph, found: Result<Documents.DocumentType>): (r: Effect)
    ensures found.Failure? ==> r == Effect(g, Some(found.error))
    ensures found.Success? ==> r == Effect(g.(selectedDocType := Some(found.value)), None)
  {
    match found
    case Failure(e) => Effect(g, Some(e))
    case Success(d) => Effect(g.(selectedDocType := Some(d)), None)
  }

  function SelectDistStamp(g: Graph, found: Result<Stamps.DistributionStamp>): (r: Effect)
    ensures found.Failure? ==> r == Effect(g, Some(found.error))
    ensures found.Success? ==> r == Effect(g.(selectedDistStamp := Some(found.value)), None)
  {
    match found
    case Failure(e) => Effect(g, Some(e))
    case Success(s) => Effect(g.(selectedDistStamp := Some(s)), None)
  }

  function SetSelectedDocById(g: Graph, id: int): (r: Effect)
    ensures r.raised.Some? <==> forall d | d in g.documentTypes :: d.DocumentTypeId != id
    ensures r.raised.Some? ==> r.graph == g && r.raised.value == Invalid(DocumentTypeId, IntKey(id))
    ensures r.raised.None? ==> (r.graph.selectedDocType.Some?
      && Lists.IsFirstMatch(g.documentTypes, DocTypeIdOf, id, r.graph.selectedDocType.value))
    ensures r.graph.(selectedDocType := g.selectedDocType) == g
  {
    SelectDocType(g, GetDocumentTypeById(g, id))
  }

  function SetSelectedDocByName(g: Graph, name: string): (r: Effect)
    ensures r.raised.Some? <==> forall d | d in g.documentTypes :: d.Name != name
    ensures r.raised.Some? ==> r.graph == g && r.raised.value == Invalid(DocumentTypeName, TextKey(name))
    ensures r.raised.None? ==> (r.graph.selectedDocType.Some?
      && Lists.IsFirstMatch(g.documentTypes, DocTypeNameOf, name, r.graph.selectedDocType.value))
    ensures r.graph.(selectedDocType := g.selectedDocType) == g
  {
    SelectDocType(g, GetDocumentTypeByName(g, name))
  }

  function SetSelectedDistStampById(g: Graph, id: int): (r: Effect)
    ensures r.raised.Some? <==> forall s | s in g.distributionStamps :: s.DynamicUISecurityId != id
    ensures r.raised.Some? ==> r.graph == g && r.raised.value == Invalid(DistributionStampId, IntKey(id))
    ensures r.raised.None? ==> (r.graph.selectedDistStamp.Some?
      && Lists.IsFirstMatch(g.distributionStamps, SecurityIdOf, id, r.graph.selectedDistStamp.value))
    ensures r.graph.(selectedDistStamp := g.selectedDistStamp) == g
  {
    SelectDistStamp(g, GetDistributionStampById(g, id))
  }

  function SetSelectedDistStampByUuid(g: Graph, id: Uuid): (r: Effect)
    ensures r.raised.Some? <==> forall s | s in g.distributionStamps :: s.DynamicUiId != id
    ensures r.raised.Some? ==> r.graph == g && r.raised.value == Invalid(DistributionStampId, UuidKey(id))
    ensures r.raised.None? ==> (r.graph.selectedDistStamp.Some?
      && Lists.IsFirstMatch(g.distributionStamps, UiIdOf, id, r.graph.selectedDistStamp.value))
    ensures r.graph.(selectedDistStamp := g.selectedDistStamp) == g
  {
    SelectDistStamp(g, GetDistributionStampByUuid(g, id))
  }

  function SetSelectedDistStampByName(g: Graph, name: string): (r: Effect)
    ensures r.raised.Some? <==> forall s | s in g.distributionStamps :: s.Name != name
    ensures r.raised.Some? ==> r.graph == g && r.raised.value == Invalid(DistributionStampName, TextKey(name))
    ensures r.raised.None? ==> (r.graph.selectedDistStamp.Some?
      && Lists.IsFirstMatch(g.distributionStamps, StampNameOf, name, r.graph.selectedDistStamp.value))
    ensures r.graph.(selectedDistStamp := g.selectedDistStamp) == g
  {
    SelectDistStamp(g, GetDistributionStampByName(g, name))
  }

  /** Selects a document type or a distribution stamp by name, according to
      the creation type; `WennSoft` is refused and nothing changes. */
  function SetSelectedObjectByName(g: Graph, creation: CreationType, name: string): (r: Effect)
    ensures creation == WennSoft ==> r == Effect(g, Some(InvalidCreationType))
    ensures creation == DocType ==> r.graph.(selectedDocType := g.selectedDocType) == g
    ensures creation == DocType ==> (r.raised.Some? <==> forall d | d in g.documentTypes :: d.Name != name)
    ensures creation == DocType && r.raised.Some? ==> r.raised.value == Invalid(DocumentTypeName, TextKey(name))
    ensures creation == DocType && r.raised.None? ==> (r.graph.selectedDocType.Some?
      && Lists.IsFirstMatch(g.documentTypes, DocTypeNameOf, name, r.graph.selectedDocType.value))
    ensures creation == DistStamp ==> r.graph.(selectedDistStamp := g.selectedDistStamp) == g
    ensures creation == DistStamp ==> (r.raised.Some? <==> forall s | s in g.distributionStamps :: s.Name != name)
    ensures creation == DistStamp && r.raised.Some? ==>
      r.raised.value == Invalid(DistributionStampName, TextKey(name))
    ensures creation == DistStamp && r.raised.None? ==> (r.graph.selectedDistStamp.Some?
      && Lists.IsFirstMatch(g.distributionStamps, StampNameOf, name, r.graph.selectedDistStamp.value))
    ensures r.raised.Some? ==> r.graph == g
  {
    match creation
    case DocType => SetSelectedDocByName(g, name)
    case DistStamp => SetSelectedDistStampByName(g, name)
    case WennSoft => Effect(g, Some(InvalidCreationType))
  }

  /** The five workflow slots, in assignment order: the workflow, then the
      staging, staged, success and failed activities. */
  function WorkflowSlots(g: Graph): (r: seq<Option<int>>)
    ensures |r| == 5
  {
    [g.selectedWfId, g.selectedStagingWfId, g.selectedStagedWfId, g.selectedSuccessWfId, g.selectedFailedWfId]
  }

  /** `g` with its five workflow slots put back to those of `h`. */
  function WithSlotsOf(g: Graph, h: Graph): Graph {
    g.(selectedWfId := h.selectedWfId, selectedStagingWfId := h.selectedStagingWfId,
       selectedStagedWfId := h.selectedStagedWfId, selectedSuccessWfId := h.selectedSuccessWfId,
       selectedFailedWfId := h.selectedFailedWfId)
  }

  function SetSelectedWorkflowData(g: Graph, wf: int, staging: int, staged: int, success: int, failed: int)
    : (r: Graph)
    ensures WorkflowSlots(r) == [Some(wf), Some(staging), Some(staged), Some(success), Some(failed)]
    ensures WithSlotsOf(r, g) == g
  {
    g.(selectedWfId := Some(wf), selectedStagingWfId := Some(staging), selectedStagedWfId := Some(staged),
       selectedSuccessWfId := Some(success), selectedFailedWfId := Some(failed))
  }

  /** The id of the first workflow with the given title. */
  function WorkflowIdByName(g: Graph, name: string): Result<int> {
    match GetWorkflowByName(g, name)
    case Failure(e) => Failure(e)
    case Success(w) => Success(w.WorkflowID)
  }

  /** The id of the first activity, among all activities, with the given title. */
  function ActivityIdByName(g: Graph, name: string): Result<int> {
    match GetWorkflowActivityByName(g, name, None, None)
    case Failure(e) => Failure(e)
    case Success(a) => Success(a.WorkflowActivityID)
  }

  /** The five lookups of `set_selected_workflow_data_by_name`, in order. */
  function SlotLookups(g: Graph, wf: string, staging: string, staged: string, success: string, failed: string)
    : (r: seq<Result<int>>)
    ensures |r| == 5
  {
    [WorkflowIdByName(g, wf), ActivityIdByName(g, staging), ActivityIdByName(g, staged),
     ActivityIdByName(g, success), ActivityIdByName(g, failed)]
  }

  /** `g` with workflow slot `k` set to `v`. */
  function SetSlot(g: Graph, k: nat, v: int): (r: Graph)
    requires k < 5
    ensures WorkflowSlots(r) == WorkflowSlots(g)[k := Some(v)]
    ensures WithSlotsOf(r, g) == g
  {
    match k
    case 0 => g.(selectedWfId := Some(v))
    case 1 => g.(selectedStagingWfId := Some(v))
    case 2 => g.(selectedStagedWfId := Some(v))
    case 3 => g.(selectedSuccessWfId := Some(v))
    case _ => g.(selectedFailedWfId := Some(v))
  }

  /** Assigns the looked-up ids to slots `k`, `k + 1`, ... in order, stopping
      at the first failed lookup with its error. */
  function AssignSlots(g: Graph, ids: seq<Result<int>>, k: nat): (r: Effect)
    requires |ids| == 5 && k <= 5
    ensures r.raised.None? <==> forall j | k <= j < 5 :: ids[j].Success?
    ensures r.raised.Some? ==> exists j | k <= j < 5 ::
      ids[j] == Failure(r.raised.value) && forall i | k <= i < j :: ids[i].Success?
    ensures forall j | 0 <= j < 5 ::
      WorkflowSlots(r.graph)[j]
        == if k <= j && forall i | k <= i <= j :: ids[i].Success? then Some(ids[j].value) else WorkflowSlots(g)[j]
    ensures WithSlotsOf(r.graph, g) == g
    decreases 5 - k
  {
    if k == 5 then Effect(g, None)
    else match ids[k]
      case Failure(e) => Effect(g, Some(e))
      case Success(v) => AssignSlots(SetSlot(g, k, v), ids, k + 1)
  }

  /** Resolves a workflow and four activities by title and assigns their ids
      one slot at a time. A failing lookup raises its error; the slots
      assigned before it keep their new values and the later ones keep their
      old values. The lookups read only the workflow and activity lists,
      which the assignments do not touch. */
  function SetSelectedWorkflowDataByName(g: Graph, wf: string, staging: string, staged: string,
                                         success: string, failed: string): (r: Effect)
    ensures var ids := SlotLookups(g, wf, staging, staged, success, failed);
      r.raised.None? <==> forall k | 0 <= k < 5 :: ids[k].Success?
    ensures var ids := SlotLookups(g, wf, staging, staged, success, failed);
      r.raised.Some? ==> exists k | 0 <= k < 5 ::
        ids[k] == Failure(r.raised.value) && forall j | 0 <= j < k :: ids[j].Success?
    ensures var ids := SlotLookups(g, wf, staging, staged, success, failed);
      forall k | 0 <= k < 5 ::
        WorkflowSlots(r.graph)[k]
          == if forall j | 0 <= j <= k :: ids[j].Success? then Some(ids[k].value) else WorkflowSlots(g)[k]
    ensures WithSlotsOf(r.graph, g) == g
  {
    AssignSlots(g, SlotLookups(g, wf, staging, staged, success, failed), 0)
  }

  /** When every title resolves, selecting by title is selecting by the
      resolved ids. */
  lemma WorkflowDataByNameResolves(g: Graph, wf: string, staging: string, staged: string,
                                   success: string, failed: string)
    requires forall k | 0 <= k < 5 :: SlotLookups(g, wf, staging, staged, success, failed)[k].Success?
    ensures var ids := SlotLookups(g, wf, staging, staged, success, failed);
      SetSelectedWorkflowDataByName(g, wf, staging, staged, success, failed)
        == Effect(SetSelectedWorkflowData(g, ids[0].value, ids[1].value, ids[2].value, ids[3].value, ids[4].value), None)
  {
    var ids := SlotLookups(g, wf, staging, staged, success, failed);
    var r := SetSelectedWorkflowDataByName(g, wf, staging, staged, success, failed);
    var s := SetSelectedWorkflowData(g, ids[0].value, ids[1].value, ids[2].value, ids[3].value, ids[4].value);
    assert WorkflowSlots(r.graph) == WorkflowSlots(s);
  }

  // ---------------------------------------------------------------------
  // Staging-table columns

  /** The columns accumulated for one staging table; a kind never added to
      reads as empty here (the render passes instead raise on it). */
  function Columns(g: Graph, column: ColumnType): seq<string> {
    if column in g.stagingTableColumns then g.stagingTableColumns[column] else []
  }

  /** Appends columns to one staging table's list, creating it if absent. */
  function AddStagingTableColumns(g: Graph, column: ColumnType, columns: seq<string>): (r: Graph)
    ensures column in r.stagingTableColumns
    ensures r.stagingTableColumns[column] == Columns(g, column) + columns
    ensures forall c | c != column ::
      (c in r.stagingTableColumns <==> c in g.stagingTableColumns) && Columns(r, c) == Columns(g, c)
    ensures r.(stagingTableColumns := g.stagingTableColumns) == g
  {
    g.(stagingTableColumns := g.stagingTableColumns[column := Columns(g, column) + columns])
  }

  /** Two appends to the same table are one append of both lists. */
  lemma AddStagingTableColumnsComposes(g: Graph, column: ColumnType, a: seq<string>, b: seq<string>)
    ensures AddStagingTableColumns(AddStagingTableColumns(g, column, a), column, b)
      == AddStagingTableColumns(g, column, a + b)
  {
    assert Columns(g, column) + a + b == Columns(g, column) + (a + b);
  }

  // ---------------------------------------------------------------------
  // Render passes

  /** The three render passes: `create_prompt_type_string` (typed column
      declarations), `create_prompt_string` (plain column references) and
      `create_id_string` (property ids, or stamp select expressions). */
  datatype Pass = Typed | Plain | Ids

  /** The fragment a property contributes to a pass. Only the typed pass
      reads the data-type code. */
  function PropertyFragment(p: Propertys.Property, pass: Pass): (r: Result<string>)
    ensures r.Success? ==> IsFragment(r.value)
    ensures r.Failure? <==> pass == Typed && !(0 <= p.DataType <= 4)
    ensures r.Failure? ==> r.error == InvalidDataType
  {
    match pass
    case Typed => Propertys.PromptTypeString(p)
    case Plain => Success(Propertys.PromptString(p))
    case Ids => Success(Propertys.IdString(p))
  }

  /** The fragment a stamp field contributes to a pass. The typed pass and the
      select pass both read the data-type code. */
  function FieldFragment(f: Stamps.DistributionStampField, pass: Pass): (r: Result<string>)
    ensures r.Success? ==> IsFragment(r.value)
    ensures r.Failure? <==> pass != Plain && !(0 <= f.DataType <= 4)
    ensures r.Failure? ==> r.error == InvalidDataType
  {
    match pass
    case Typed => Stamps.PromptTypeString(f)
    case Plain => Success(Stamps.PromptString(f))
    case Ids => Stamps.SelectStatementString(f)
  }

  /** The fragment one accumulated column name contributes to a pass: the
      name is resolved to a property (by formatted prompt) or to a stamp
      field (by caption), and that object renders its fragment; a failed
      resolution raises the lookup's error. */
  function Fragment(g: Graph, creation: CreationType, pass: Pass, name: string): (r: Result<string>)
    ensures r.Success? ==> IsFragment(r.value)
    ensures creation == WennSoft ==> r == Failure(InvalidCreationType)
    ensures creation == DocType ==> match GetPropertyByFPrompt(g, name)
      case Failure(e) => r == Failure(e)
      case Success(p) => r == PropertyFragment(p, pass)
    ensures creation == DistStamp ==> match GetDistributionStampFieldByCaption(g, name)
      case Failure(e) => r == Failure(e)
      case Success(f) => r == FieldFragment(f, pass)
  {
    match creation
    case WennSoft => Failure(InvalidCreationType)
    case DocType =>
      (match GetPropertyByFPrompt(g, name)
       case Failure(e) => Failure(e)
       case Success(p) => PropertyFragment(p, pass))
    case DistStamp =>
      match GetDistributionStampFieldByCaption(g, name)
      case Failure(e) => Failure(e)
      case Success(f) => FieldFragment(f, pass)
  }

  /** The fragments of every accumulated name, in accumulated order, or the
      error of the first name that fails. */
  function Fragments(g: Graph, creation: CreationType, pass: Pass, names: seq<string>): (r: Result<seq<string>>)
    ensures r.Success? <==> forall k | 0 <= k < |names| :: Fragment(g, creation, pass, names[k]).Success?
    ensures r.Success? ==> (|r.value| == |names|
      && forall k | 0 <= k < |names| :: r.value[k] == Fragment(g, creation, pass, names[k]).value)
    ensures r.Failure? ==> exists k | 0 <= k < |names| ::
      && Fragment(g, creation, pass, names[k]) == Failure(r.error)
      && forall j | 0 <= j < k :: Fragment(g, creation, pass, names[j]).Success?
  {
    Lists.MapAll(names, name => Fragment(g, creation, pass, name))
  }

  /** One render pass over a staging table. `WennSoft` is refused before the
      table is read; a table never added to raises `KeyError`. The fragments
      are joined and the last three characters dropped, which removes
      exactly the final terminator (an empty table renders as ""). */
  function Render(g: Graph, creation: CreationType, column: ColumnType, pass: Pass): (r: Result<string>)
    ensures creation == WennSoft ==> r == Failure(InvalidCreationType)
    ensures creation != WennSoft && column !in g.stagingTableColumns ==> r == Failure(MissingKey)
    ensures creation != WennSoft && column in g.stagingTableColumns ==>
      (r.Success? <==> Fragments(g, creation, pass, Columns(g, column)).Success?)
    ensures creation != WennSoft && column in g.stagingTableColumns && r.Failure? ==>
      r.error == Fragments(g, creation, pass, Columns(g, column)).error
    ensures r.Success? && Columns(g, column) == [] ==> r.value == ""
    ensures r.Success? && Columns(g, column) != [] ==>
      r.value + Terminator == Concat(Fragments(g, creation, pass, Columns(g, column)).value)
      && r.value[0] == ','
  {
    if creation == WennSoft then Failure(InvalidCreationType)
    else if column !in g.stagingTableColumns then Failure(MissingKey)
    else
      var names := g.stagingTableColumns[column];
      match Fragments(g, creation, pass, names)
      case Failure(e) => Failure(e)
      case Success(parts) =>
        assert forall k | 0 <= k < |parts| :: parts[k] == Fragment(g, creation, pass, names[k]).value;
        Success(JoinFragments(parts))
  }

  /** `"".join(parts)[:-3]` over well-formed fragments: the join without its
      final terminator, which still opens with the first fragment's comma. */
  function JoinFragments(parts: seq<string>): (r: string)
    requires forall k | 0 <= k < |parts| :: IsFragment(parts[k])
    ensures parts == [] ==> r == ""
    ensures parts != [] ==> r + Terminator == Concat(parts) && r != [] && r[0] == ','
  {
    var s := Concat(parts);
    if parts == [] then DropLast3(s)
    else
      assert forall k | 0 <= k < |parts| ::
        IsFragment(parts[k]) && parts[k][|parts[k]| - |Terminator|..] == Terminator;
      ConcatEnds(parts, ',', Terminator);
      assert s[..|s| - 3] + Terminator == s;
      DropLast3(s)
  }

  /** The three passes read the same accumulated list, so when all three
      succeed their k-th fragments come from the same resolved object. */
  lemma RenderPassesAligned(g: Graph, creation: CreationType, column: ColumnType)
    requires Fragments(g, creation, Typed, Columns(g, column)).Success?
    requires Fragments(g, creation, Plain, Columns(g, column)).Success?
    requires Fragments(g, creation, Ids, Columns(g, column)).Success?
    ensures var names := Columns(g, column);
      var typed := Fragments(g, creation, Typed, names).value;
      var plain := Fragments(g, creation, Plain, names).value;
      var ids := Fragments(g, creation, Ids, names).value;
      && |typed| == |plain| == |ids| == |names|
      && (creation == DocType ==> forall k | 0 <= k < |names| ::
            var p := GetPropertyByFPrompt(g, names[k]).value;
            && GetPropertyByFPrompt(g, names[k]).Success?
            && typed[k] == Propertys.PromptTypeString(p).value
            && plain[k] == Propertys.PromptString(p)
            && ids[k] == Propertys.IdString(p))
      && (creation == DistStamp ==> forall k | 0 <= k < |names| ::
            var f := GetDistributionStampFieldByCaption(g, names[k]).value;
            && GetDistributionStampFieldByCaption(g, names[k]).Success?
            && typed[k] == Stamps.PromptTypeString(f).value
            && plain[k] == Stamps.PromptString(f)
            && ids[k] == Stamps.SelectStatementString(f).value)
  {
    var names := Columns(g, column);
    forall k | 0 <= k < |names|
      ensures creation == DocType ==> GetPropertyByFPrompt(g, names[k]).Success?
      ensures creation == DistStamp ==> GetDistributionStampFieldByCaption(g, names[k]).Success?
    {
      assert Fragment(g, creation, Plain, names[k]).Success?;
    }
  }

  /** For document types the plain pass and the id pass fail together (both
      only resolve names), and the typed pass can fail only where they
      succeed. */
  lemma DocTypePlainAndIdPassesAgree(g: Graph, column: ColumnType)
    ensures Render(g, DocType, column, Plain).Success? <==> Render(g, DocType, column, Ids).Success?
    ensures Render(g, DocType, column, Typed).Success? ==> Render(g, DocType, column, Plain).Success?
  {
    var names := Columns(g, column);
    assert forall k | 0 <= k < |names| ::
      Fragment(g, DocType, Plain, names[k]).Success? <==> Fragment(g, DocType, Ids, names[k]).Success?;
    assert forall k | 0 <= k < |names| ::
      Fragment(g, DocType, Typed, names[k]).Success? ==> Fragment(g, DocType, Plain, names[k]).Success?;
  }

  /** For distribution stamps the typed pass and the select pass fail
      together (both read the data-type code), and the plain pass can fail
      only where they succeed. */
  lemma DistStampTypedAndSelectPassesAgree(g: Graph, column: ColumnType)
    ensures Render(g, DistStamp, column, Typed).Success? <==> Render(g, DistStamp, column, Ids).Success?
    ensures Render(g, DistStamp, column, Typed).Success? ==> Render(g, DistStamp, column, Plain).Success?
  {
    var names := Columns(g, column);
    assert forall k | 0 <= k < |names| ::
      Fragment(g, DistStamp, Typed, names[k]).Success? <==> Fragment(g, DistStamp, Ids, names[k]).Success?;
    assert forall k | 0 <= k < |names| ::
      Fragment(g, DistStamp, Typed, names[k]).Success? ==> Fragment(g, DistStamp, Plain, names[k]).Success?;
  }

  /** A pass stops at the first column name that fails and raises its error:
      an unresolvable name raises its kind's invalid-name error, carrying
      the stripped name for document types and the caption for stamps. */
  lemma RenderRaisesFirstFailure(g: Graph, creation: CreationType, column: ColumnType, pass: Pass, k: nat)
    requires creation != WennSoft && column in g.stagingTableColumns
    requires k < |Columns(g, column)|
    requires forall j | 0 <= j < k :: Fragment(g, creation, pass, Columns(g, column)[j]).Success?
    requires Fragment(g, creation, pass, Columns(g, column)[k]).Failure?
    ensures Render(g, creation, column, pass) == Fragment(g, creation, pass, Columns(g, column)[k])
    ensures creation == DocType && GetPropertyByFPrompt(g, Columns(g, column)[k]).Failure? ==>
      Render(g, creation, column, pass)
        == Failure(Invalid(PropertyName, TextKey(Strip(Columns(g, column)[k]))))
    ensures creation == DistStamp && GetDistributionStampFieldByCaption(g, Columns(g, column)[k]).Failure? ==>
      Render(g, creation, column, pass)
        == Failure(Invalid(DistributionStampFieldCaption, TextKey(Columns(g, column)[k])))
  {
    RenderRaisesAt(g, creation, column, pass, k);
    UnresolvedNameError(g, creation, pass, Columns(g, column)[k]);
  }

  /** The render's error is the fragment error at the first failing position. */
  lemma RenderRaisesAt(g: Graph, creation: CreationType, column: ColumnType, pass: Pass, k: nat)
    requires creation != WennSoft && column in g.stagingTableColumns
    requires k < |Columns(g, column)|
    requires forall j | 0 <= j < k :: Fragment(g, creation, pass, Columns(g, column)[j]).Success?
    requires Fragment(g, creation, pass, Columns(g, column)[k]).Failure?
    ensures Render(g, creation, column, pass) == Fragment(g, creation, pass, Columns(g, column)[k])
  {
    var names := Columns(g, column);
    var fs := Fragments(g, creation, pass, names);
    assert fs.Failure?;
    var m :| 0 <= m < |names| && Fragment(g, creation, pass, names[m]) == Failure(fs.error)
      && forall j | 0 <= j < m :: Fragment(g, creation, pass, names[j]).Success?;
    assert !(m < k) && !(k < m);
  }

  /** A name whose lookup fails contributes its kind's invalid-name error. */
  lemma UnresolvedNameError(g: Graph, creation: CreationType, pass: Pass, name: string)
    ensures creation == DocType && GetPropertyByFPrompt(g, name).Failure? ==>
      Fragment(g, creation, pass, name) == Failure(Invalid(PropertyName, TextKey(Strip(name))))
    ensures creation == DistStamp && GetDistributionStampFieldByCaption(g, name).Failure? ==>
      Fragment(g, creation, pass, name) == Failure(Invalid(DistributionStampFieldCaption, TextKey(name)))
  {
  }

  /** A fresh graph has no staging columns: every supported pass raises
      `KeyError`. */
  lemma InitialRenderRaisesKeyError(creation: CreationType, column: ColumnType, pass: Pass)
    requires creation != WennSoft
    ensures Render(Initial, creation, column, pass) == Failure(MissingKey)
  {
  }

  // ---------------------------------------------------------------------
  // Loading from a backend

  /** The answers of a backend's getters, in the order `populate_data_types`
      calls them. The document-type getter is handed the fetched properties. */
  datatype Backend = Backend(
    properties: Result<seq<Propertys.Property>>,
    docTypesWithProps: seq<Propertys.Property> -> Result<seq<Documents.DocumentType>>,
    workflows: Result<seq<Workflow>>,
    workflowActivities: Result<seq<WorkflowActivity>>,
    aiProfiles: Result<seq<string>>,
    eventTaskNames: Result<seq<string>>,
    distStampFields: Result<seq<Stamps.DistributionStampField>>,
    distStampsWithFields: Result<seq<Stamps.DistributionStamp>>)

  /** How many getters, in call order, answered before the first one that
      raised (8 when none raised). */
  function AnsweredCount(b: Backend): (n: nat)
    ensures n <= 8
    ensures n >= 1 ==> b.properties.Success?
  {
    if b.properties.Failure? then 0
    else if b.docTypesWithProps(b.properties.value).Failure? then 1
    else if b.workflows.Failure? then 2
    else if b.workflowActivities.Failure? then 3
    else if b.aiProfiles.Failure? then 4
    else if b.eventTaskNames.Failure? then 5
    else if b.distStampFields.Failure? then 6
    else if b.distStampsWithFields.Failure? then 7
    else 8
  }

  /** The error getter `k` raised, if it raised. */
  function GetterError(b: Backend, k: nat): Option<Error>
    requires k >= 1 ==> b.properties.Success?
  {
    match k
    case 0 => if b.properties.Failure? then Some(b.properties.error) else None
    case 1 => var d := b.docTypesWithProps(b.properties.value); if d.Failure? then Some(d.error) else None
    case 2 => if b.workflows.Failure? then Some(b.workflows.error) else None
    case 3 => if b.workflowActivities.Failure? then Some(b.workflowActivities.error) else None
    case 4 => if b.aiProfiles.Failure? then Some(b.aiProfiles.error) else None
    case 5 => if b.eventTaskNames.Failure? then Some(b.eventTaskNames.error) else None
    case 6 => if b.distStampFields.Failure? then Some(b.distStampFields.error) else None
    case _ => if b.distStampsWithFields.Failure? then Some(b.distStampsWithFields.error) else None
  }

  /** `g` with the eight loaded lists put back to those of `h`. */
  function WithListsOf(g: Graph, h: Graph): Graph {
    g.(properties := h.properties, documentTypes := h.documentTypes, workflows := h.workflows,
       workflowActivities := h.workflowActivities, existingAiProfiles := h.existingAiProfiles,
       existingEventTasks := h.existingEventTasks, distributionStampFields := h.distributionStampFields,
       distributionStamps := h.distributionStamps)
  }

  /** Loads the eight lists from the backend, assigning each as soon as its
      getter answers. A getter that raises stops the load: the lists loaded
      before it keep their new values, the rest keep their old ones. */
  function PopulateDataTypes(g: Graph, b: Backend): (r: Effect)
    ensures r.raised.None? <==> AnsweredCount(b) == 8
    ensures AnsweredCount(b) < 8 ==> r.raised == GetterError(b, AnsweredCount(b))
    ensures r.graph.properties == if AnsweredCount(b) > 0 then b.properties.value else g.properties
    ensures r.graph.documentTypes
      == if AnsweredCount(b) > 1 then b.docTypesWithProps(b.properties.value).value else g.documentTypes
    ensures r.graph.workflows == if AnsweredCount(b) > 2 then b.workflows.value else g.workflows
    ensures r.graph.workflowActivities
      == if AnsweredCount(b) > 3 then b.workflowActivities.value else g.workflowActivities
    ensures r.graph.existingAiProfiles
      == if AnsweredCount(b) > 4 then b.aiProfiles.value else g.existingAiProfiles
    ensures r.graph.existingEventTasks
      == if AnsweredCount(b) > 5 then b.eventTaskNames.value else g.existingEventTasks
    ensures r.graph.distributionStampFields
      == if AnsweredCount(b) > 6 then b.distStampFields.value else g.distributionStampFields
    ensures r.graph.distributionStamps
      == if AnsweredCount(b) > 7 then b.distStampsWithFields.value else g.distributionStamps
    ensures WithListsOf(r.graph, g) == g
  {
    match b.properties
    case Failure(e) => Effect(g, Some(e))
    case Success(props) =>
      var g0 := g.(properties := props);
      match b.docTypesWithProps(props)
      case Failure(e) => Effect(g0, Some(e))
      case Success(docTypes) =>
        var g1 := g0.(documentTypes := docTypes);
        match b.workflows
        case Failure(e) => Effect(g1, Some(e))
        case Success(wfs) =>
          var g2 := g1.(workflows := wfs);
          match b.workflowActivities
          case Failure(e) => Effect(g2, Some(e))
          case Success(acts) =>
            var g3 := g2.(workflowActivities := acts);
            match b.aiProfiles
            case Failure(e) => Effect(g3, Some(e))
            case Success(ai) =>
              var g4 := g3.(existingAiProfiles := ai);
              match b.eventTaskNames
              case Failure(e) => Effect(g4, Some(e))
              case Success(tasks) =>
                var g5 := g4.(existingEventTasks := tasks);
                match b.distStampFields
                case Failure(e) => Effect(g5, Some(e))
                case Success(fields) =>
                  var g6 := g5.(distributionStampFields := fields);
                  match b.distStampsWithFields
                  case Failure(e) => Effect(g6, Some(e))
                  case Success(stamps) => Effect(g6.(distributionStamps := stamps), None)
  }

  /** Loading twice from the same backend is loading once: the second load
      assigns the same lists again and raises the same error. */
  lemma PopulateIdempotent(g: Graph, b: Backend)
    ensures PopulateDataTypes(PopulateDataTypes(g, b).graph, b) == PopulateDataTypes(g, b)
  {
    var r := PopulateDataTypes(g, b);
    var r2 := PopulateDataTypes(r.graph, b);
    assert WithListsOf(r2.graph, r.graph) == r.graph;
  }

  /** A load in which every getter answers replaces all eight lists, so the
      lists the graph held before make no difference. */
  lemma PopulateForgetsOldLists(g: Graph, h: Graph, b: Backend)
    requires AnsweredCount(b) == 8
    requires WithListsOf(g, h) == h
    ensures PopulateDataTypes(g, b) == PopulateDataTypes(h, b)
  {
    var r, q := PopulateDataTypes(g, b), PopulateDataTypes(h, b);
    assert WithListsOf(r.graph, g) == g;
    assert WithListsOf(q.graph, h) == h;
  }
}
