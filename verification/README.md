# doclink_py metadata core, modelled in Dafny

doclink_py reads DocLink metadata through one of two interchangeable
backends and assembles it into one in-memory graph. The first backend is
the DocLink web API (`DocLinkAPI`, which talks through an `HTTPHandler`).
The second is a direct SQL Server connection (`DocLinkSQL`). The assembled
graph is `DocLinkData`. From that graph it renders the SQL column
fragments that staging tables and the document-export procedure are built
from.

This project models that core as pure functions over immutable datatypes:

- **Entities** (`Propertys`, `Stamps`, `Documents`, `Workflows`) are
  properties, distribution stamps and their fields, document types and
  their properties, and workflows and activities. Each entity comes with
  its derived SQL text:
  - the column-type table for each data-type code;
  - the sanitised column identifier;
  - the per-column fragments `,[X] <type>\r\n\t`, `,[X]\r\n\t`, `,[id]\r\n\t`
    and the stamp field's select statement.
- **The graph** (`Graph`) covers:
  - every `get_*_by_*` first-match lookup with its tagged error;
  - the selection setters;
  - the five workflow slots;
  - the staging-column lists;
  - the three render passes, with the trailing-separator trim;
  - `populate_data_types`, including the partial load that remains when a
    getter raises.
- **The procedure table** (`Sprocs`): `populate_sproc_info`,
  `identical_sproc_check`, `set_sproc_action` and `sprocs_exists`. The
  first two are methods with loop invariants.
- **The joins both backends perform** (`Stitch`):
  - linking properties into document-type properties, where the API takes
    the first property with an id and SQL takes the last;
  - grouping document-type properties under their type;
  - the two stamp/field merges.
- **The HTTP handler** (`Http`): header, auth code, prefix and the
  authentication gate.
- **The API backend** (`Api`): the accessible-items cache, the whitelist
  check, the optional-table getters that read a non-whitelisted table as
  empty, and the document-type assembly.
- **The SQL backend** (`Sql`): credential handling in `connect`, the
  procedure probe, the document-type and stamp assembly, the sequence-number
  helpers and the first-column getters.
- **Column-name classifiers and `api_row_to_json`** (`Utilities`).
- **What the two backends share** (`Backends`): on the same rows they
  assemble the same document types, and their procedure probes record the
  same existence flag.
- **The export-procedure arguments and the pivot slice** (`Export`).

Python exceptions become a `Result` carrying an `Error`. The string-tagged
exceptions keep their tag, which `Base.Tag` gives. Built-in exceptions
raised implicitly by the code are named after their class: `KeyError`,
`StopIteration`, `AttributeError` on `None`, `TypeError`, `IndexError`.

A mutator returns an `Effect`: the graph after the call and the exception
it raised, if any. Assignments made before the exception remain, as they
do on the Python object.

The database, the server and the ODBC driver are parameters. Each is a
function or value giving the answer each query would return.

Three behaviours of the code are easy to overlook:

- The SQL backend's stamp merge keeps every stamp, each with an empty field
  list when there are no fields. Only the API backend returns nothing when
  either list is empty.
- Activities are found by scanning the list, not through an index.
- `populate_data_types` assigns each list as soon as its getter answers. A
  getter that raises therefore leaves a partly replaced graph.

## Model

| member | source | states |
|---|---|---|
| Base.TagIdentifiesWhitelistError | dapi/doclink_api.py:227-233 | Comparing an exception's first argument with "TABLE_NOT_WHITELISTED" matches exactly the whitelist error and no other error. |
| Text.ReplaceDrawsFrom | doclink_types/propertys.py:46-48 | `str.replace` with a one-character pattern: every output character comes from the input or the replacement, and the pattern survives only if the replacement contains it. |
| Text.ReplaceWithoutPattern | doclink_types/propertys.py:46-48 | An input that does not contain the pattern comes back unchanged. |
| Text.ReplaceConcat | doclink_types/propertys.py:46-48 | Replacing distributes over concatenation. |
| Text.StripLeft | doclink_types/propertys.py:46-48 | The result is a suffix of the input; only whitespace was removed; the result does not start with whitespace. |
| Text.StripRight | doclink_types/propertys.py:46-48 | The result is a prefix of the input; only whitespace was removed; the result does not end with whitespace. |
| Text.Strip | doclink_types/propertys.py:46-48 | `str.strip`: the result neither starts nor ends with whitespace. |
| Text.StripIsSlice | doclink_types/propertys.py:46-48 | The stripped result is a contiguous slice of the input with only whitespace before it and after it. |
| Text.StripKeepsCharacters | doclink_types/propertys.py:46-48 | Stripping introduces no character that was not in the input. |
| Text.StripFixesStripped | doclink_types/propertys.py:46-48 | Stripping a string that neither starts nor ends with whitespace leaves it unchanged. |
| Text.Lower | utilities.py:98-100 | `str.lower` on ASCII: same length, each character folded independently. |
| Text.LowerIdempotent | utilities.py:118-126 | Lower-casing twice is lower-casing once. |
| Text.DropLast3 | doclink_data.py:421-425 | The `[:-3]` slice: three characters shorter, and putting the removed tail back gives the input; shorter inputs become empty. |
| Text.DropLast3Terminated | doclink_data.py:421-425 | The `[:-3]` trim removes exactly the `\r\n\t` terminator of the last fragment. |
| Text.ConcatEnds | doclink_data.py:413-425 | A join of fragments that all start with `,` and end with the terminator also starts with `,` and ends with the terminator. |
| Text.IntToString | doclink_types/propertys.py:58-60 | The decimal rendering of an integer is non-empty and starts with `-` exactly for negative numbers. |
| Text.IntToStringInjective | doclink_types/propertys.py:58-60 | Different integers render differently, so an id fragment identifies its id. |
| Lists.FirstIndexWith | doclink_types/doclink_type_utilities.py:7-8 | The position of the first matching item: absent iff nothing matches; every earlier item differs. |
| Lists.FirstIndexChecked | doclink_types/documents.py:61-69 | A first-match scan whose attribute read can raise. It finds a match iff some item reads as the value with every earlier read succeeding and differing, and then returns that first position. It raises iff some read raises before any match, and the error is that first raise. A miss means every attribute was read and differs. |
| Lists.FirstIndexCheckedRaises | doclink_types/documents.py:61-69 | When every failing attribute read raises the same error, a failed scan raises that error. |
| Lists.CheckedScanOfTotal | doclink_types/documents.py:61-69 | When no attribute read raises, the checked scan finds what the plain first-match scan finds. |
| Lists.FirstWith | doclink_types/doclink_type_utilities.py:7-8 | `get_object_from_list`: `None` iff no item matches, otherwise the first match in list order. |
| Lists.AllWith | doclink_types/doclink_type_utilities.py:10-11 | `get_all_objects_from_list`: exactly the matching items, each with its multiplicity, in their original order. |
| Lists.SubsequenceCounts | doclink_types/doclink_type_utilities.py:10-11 | A list drawn in order from another holds each item at most as often. |
| Lists.FilteredIsAllWith | doclink_types/doclink_type_utilities.py:10-11 | Only one list holds exactly the matching items, each with its multiplicity, drawn in order: the one `get_all_objects_from_list` returns. |
| Lists.AllWithOfMap | doclink_types/doclink_type_utilities.py:10-11 | Filtering a mapped list, when the map keeps the attribute, gives the map of the filtered list. |
| Lists.MapAll | doclink_data.py:413-419 | A list comprehension whose body can raise: succeeds iff every element does, element-wise; otherwise it raises the first failing element's error. |
| Lists.FirstIsHeadOfAll | doclink_types/doclink_type_utilities.py:7-11 | The first match is the head of the list of all matches, and there is none exactly when that list is empty. |
| Propertys.FormattedDataType | doclink_types/propertys.py:29-44 | A column type exists exactly for codes 0 to 4; any other code raises INVALID_DATA_TYPE. |
| Propertys.FormatPrompt | doclink_types/propertys.py:46-48 | The sanitised identifier contains no space and no `#` and has no surrounding whitespace. |
| Propertys.FormatPromptIdempotent | doclink_types/propertys.py:46-48 | Formatting an already formatted identifier changes nothing. |
| Propertys.FormatPromptJoinsWords | doclink_types/propertys.py:46-48 | Two words separated by a space are joined ("Amount Due" becomes "AmountDue"). |
| Propertys.FormatPromptNumberSign | doclink_types/propertys.py:46-48 | A trailing " #" becomes "No" ("Invoice #" becomes "InvoiceNo"). |
| Propertys.PromptTypeString | doclink_types/propertys.py:50-52 | The typed fragment raises exactly when the data type does, and is otherwise a well-formed fragment (leading `,`, trailing terminator). |
| Propertys.PromptString | doclink_types/propertys.py:54-56 | The plain fragment is always well formed. |
| Propertys.IdString | doclink_types/propertys.py:58-60 | The id fragment is always well formed. |
| Propertys.TypedExtendsPlain | doclink_types/propertys.py:50-56 | The typed fragment is the plain fragment with " <column type>" inserted before the terminator. |
| Propertys.IdStringOnlyId | doclink_types/propertys.py:58-60 | Two properties have the same id fragment iff they have the same id. |
| Stamps.FormattedDataType | doclink_types/stamps.py:87-102 | A stamp field's column type exists exactly for codes 0 to 4; any other code raises INVALID_DATA_TYPE. |
| Stamps.TypeTablesDiffer | doclink_types/stamps.py:87-102 | The field type table agrees with the property table only on codes 0 and 4. Codes 1, 2 and 3 map differently (`decimal`, bare `datetime`, `smallint`). |
| Stamps.FormatCaption | doclink_types/stamps.py:104-106 | The field prompt contains no space and no `#`. |
| Stamps.PromptIsStrippedCaption | doclink_types/stamps.py:104-106 | A property's prompt formatting is the caption formatting followed by `strip()`. |
| Stamps.FormatCaptionIdempotent | doclink_types/stamps.py:104-106 | Formatting an already formatted caption changes nothing. |
| Stamps.FormatCaptionKeepsLeadingWhitespace | doclink_types/stamps.py:104-106 | Because the field prompt is not stripped, leading whitespace other than a space survives it, where the property formatting removes it. |
| Stamps.PromptTypeString | doclink_types/stamps.py:112-114 | The typed fragment raises exactly when the data type does, and is otherwise well formed. |
| Stamps.PromptString | doclink_types/stamps.py:108-110 | The plain fragment is always well formed. |
| Stamps.SelectStatement | doclink_types/stamps.py:116-128 | The select column raises exactly when the data type does. For codes 0, 2 and 3 it is exactly `,` then `[<field id>]` then ` --<prompt>`, fixed by the positions and the total length. For codes 1 and 4 it is `,REPLACE(` then `[<field id>]` then `,'','','''')` then ` --<prompt>`. It wraps the column in `REPLACE(...)` iff the column type is decimal. |
| Stamps.SelectStatementString | doclink_types/stamps.py:130-132 | The select fragment exists exactly for codes 0 to 4 and is well formed. |
| Stamps.TableNameIsRawCaption | doclink_types/stamps.py:134-136 | The table name is the caption as stored. A caption with a space or `#` therefore gives a table name that differs from the field's prompt. |
| Documents.Name | doclink_types/documents.py:25-27 | The name exists iff a property is attached, otherwise AttributeError. It is that property's sanitised prompt. |
| Documents.TableName | doclink_types/documents.py:29-34 | The table name is the name, with the same failure on a missing property. |
| Documents.GetPropertyByName | doclink_types/documents.py:61-69 | Succeeds iff the list exists and some name reads as `name` with every earlier name readable and different, and then returns that first match. PROPERTY_NOT_FOUND iff every name was readable and none matched. AttributeError iff an unattached property is met before any match, so an unattached property after the match does not matter. A missing list raises TypeError. |
| Documents.LinkedLookupIsFirstMatch | doclink_types/documents.py:61-69 | When every property is attached, the lookup is the plain first-match lookup on the sanitised name: found iff some name matches, and PROPERTY_NOT_FOUND otherwise. |
| Graph.Find | doclink_data.py:173-185 | The common lookup scan: the first match, or the given error exactly when nothing matches. |
| Graph.GetDistributionStampById | doclink_data.py:173-185 | First stamp with the security id; INVALID_DISTRIBUTION_STAMP_ID iff none has it. |
| Graph.GetDistributionStampByUuid | doclink_data.py:187-199 | First stamp with the UUID; INVALID_DISTRIBUTION_STAMP_ID iff none has it. |
| Graph.GetDistributionStampByName | doclink_data.py:201-213 | First stamp with the name; INVALID_DISTRIBUTION_STAMP_NAME iff none has it. |
| Graph.GetDistributionStampFieldByName | doclink_data.py:215-227 | First field with the name; INVALID_DISTRIBUTION_STAMP_FIELD_NAME iff none has it. |
| Graph.GetDistributionStampFieldByCaption | doclink_data.py:229-241 | First field with the caption; the caption error (with its doubled underscore) iff none has it. |
| Graph.GetDocumentTypeById | doclink_data.py:243-253 | First document type with the id; INVALID_DOCUMENT_TYPE_ID iff none has it. |
| Graph.GetDocumentTypeByName | doclink_data.py:255-265 | First document type with the name; INVALID_DOCUMENT_TYPE_NAME iff none has it. |
| Graph.GetPropertyById | doclink_data.py:267-274 | First property with the id; INVALID_PROPERTY_ID iff none has it. |
| Graph.GetPropertyByPrompt | doclink_data.py:276-286 | First property whose raw prompt equals the argument; INVALID_PROPERTY_NAME iff none does. |
| Graph.GetPropertyByFPrompt | doclink_data.py:288-299 | First property whose sanitised prompt equals the stripped argument; INVALID_PROPERTY_NAME carrying the stripped argument iff none does. |
| Graph.FPromptIgnoresSurroundingSpace | doclink_data.py:288-299 | Whitespace around the requested name makes no difference to the lookup. |
| Graph.GetWorkflowById | doclink_data.py:301-308 | First workflow with the id; INVALID_WORKFLOW_ID iff none has it. |
| Graph.GetWorkflowByName | doclink_data.py:310-319 | First workflow with the title; INVALID_WORKFLOW_NAME iff none has it. |
| Graph.GetActivitiesByWfId | doclink_data.py:328-335 | Exactly the activities of that workflow, each with its multiplicity, in list order; this list is the only one with those properties. |
| Graph.GetActivitiesByWfName | doclink_data.py:321-326 | The activities of the first workflow with that title, each with its multiplicity, in list order. Raises the workflow-name error iff no workflow has the title. |
| Graph.GetWorkflowActivityById | doclink_data.py:337-358 | The first activity with the id within the scope: the given workflow id, else the named workflow, else all activities. A bad workflow name raises first; the activity-id error iff nothing in scope matches. |
| Graph.GetWorkflowActivityByName | doclink_data.py:360-381 | Same as by id, matching on the activity title and raising the activity-name error. |
| Graph.ScopedActivityLookupAgrees | doclink_data.py:337-358 | With unique activity ids, a successful scoped lookup finds what the unscoped lookup finds. |
| Graph.FindUnique | doclink_data.py:337-358 | When the attribute is unique across the list, the lookup finds the one item that carries the value. |
| Graph.SetSelectedDocById | doclink_data.py:129-133 | Raises iff no type has the id, and then changes nothing. Otherwise selects the first match. Only the selection changes. |
| Graph.SetSelectedDocByName | doclink_data.py:134-137 | Raises iff no type has the name, and then changes nothing. Otherwise selects the first match. Only the selection changes. |
| Graph.SetSelectedDistStampById | doclink_data.py:139-144 | Raises iff no stamp has the id, and then changes nothing. Otherwise selects the first match. Only the selection changes. |
| Graph.SetSelectedDistStampByUuid | doclink_data.py:146-151 | Raises iff no stamp has the UUID, and then changes nothing. Otherwise selects the first match. Only the selection changes. |
| Graph.SetSelectedDistStampByName | doclink_data.py:153-158 | Raises iff no stamp has the name, and then changes nothing. Otherwise selects the first match. Only the selection changes. |
| Graph.SetSelectedObjectByName | doclink_data.py:160-171 | Dispatches on the creation type. WennSoft raises INVALID_CREATION_TYPE with no change. For document types and stamps it raises the type-name or stamp-name error iff nothing has the name; otherwise it selects the first match and touches only its own selection. |
| Graph.SetSelectedWorkflowData | doclink_data.py:483-497 | The five slots hold the five given ids, in order, and nothing else changes. |
| Graph.AssignSlots | doclink_data.py:499-521 | Slot by slot: each id found is assigned; the first failed lookup stops the assignment with its error; later slots keep their old values. |
| Graph.SetSelectedWorkflowDataByName | doclink_data.py:499-521 | Raises iff one of the five lookups fails, raising the first failure. The slots before it hold their new ids, the rest are unchanged, and nothing outside the slots changes. |
| Graph.WorkflowDataByNameResolves | doclink_data.py:483-521 | When all five names resolve, setting by name is setting by the resolved ids. |
| Graph.AddStagingTableColumns | doclink_data.py:388-396 | Appends to one kind's list, creating it if absent; the other kind and the rest of the graph are unchanged. |
| Graph.AddStagingTableColumnsComposes | doclink_data.py:388-396 | Two appends equal one append of the concatenation. |
| Graph.PropertyFragment | doclink_data.py:398-481 | A property's fragment for a pass is well formed. Only the typed pass can fail, and only on a bad data type. |
| Graph.FieldFragment | doclink_data.py:398-481 | A stamp field's fragment for a pass is well formed. The typed and select passes fail on a bad data type; the plain pass never fails. |
| Graph.Fragment | doclink_data.py:398-481 | Resolves a column name through the fprompt lookup (document types) or the caption lookup (stamps). Lookup errors propagate; WennSoft raises INVALID_CREATION_TYPE. |
| Graph.Fragments | doclink_data.py:413-419 | The per-name fragments, aligned with the names. On failure, the error of the first name whose fragment fails, every earlier name succeeding. |
| Graph.Render | doclink_data.py:398-481 | `create_prompt_type_string`, `create_prompt_string` and `create_id_string`. The rendering is the concatenated fragments minus the final terminator, starting with `,`; an empty column list renders as "". A kind never added raises KeyError; otherwise a failure is the first failing fragment's error. |
| Graph.RenderRaisesFirstFailure | doclink_data.py:398-481 | When the fragment at position k is the first to fail, rendering raises its error: the property-name error with the stripped name for document types, the field-caption error with the name for stamps. |
| Graph.JoinFragments | doclink_data.py:413-425 | Joining rendered fragments and trimming with `[:-3]`: with at least one fragment the result opens with `,` and putting the terminator back gives the full join; with no fragments the result is "". |
| Graph.RenderPassesAligned | doclink_data.py:398-481 | The three passes consume the same ordered names: position k of each pass is the corresponding fragment of the same entity. |
| Graph.DocTypePlainAndIdPassesAgree | doclink_data.py:427-481 | For document types the plain and id passes fail together, and a typed success implies a plain success. |
| Graph.DistStampTypedAndSelectPassesAgree | doclink_data.py:398-481 | For stamps the typed and select passes fail together, and a typed success implies a plain success. |
| Graph.InitialRenderRaisesKeyError | doclink_data.py:40-62 | On a freshly constructed graph every render raises KeyError, because no staging column list exists yet. |
| Graph.PopulateDataTypes | doclink_data.py:65-85 | Loads the eight lists in call order. It raises iff a getter raises, with the first such error. Lists loaded before it are replaced, later ones keep their values, and nothing else changes. |
| Graph.PopulateIdempotent | doclink_data.py:65-85 | Loading twice from the same backend is loading once. |
| Graph.PopulateForgetsOldLists | doclink_data.py:65-85 | A load in which every getter answers replaces all eight lists, so the lists held before make no difference. |
| Sprocs.PopulateSprocInfo | doclink_data.py:87-104 | Each probed name gets a row recording whether its count is positive, keeping its other fields; a new name gets a fresh row. The first failing probe stops the loop with its error, and rows of unprobed names are unchanged. |
| Sprocs.IdentityProbe | doclink_data.py:106-117 | An unknown name raises KeyError; the comparison runs only for an existing procedure. |
| Sprocs.IdenticalSprocCheck | doclink_data.py:106-117 | Existing procedures among the checked names get the comparison's answer and other rows are unchanged. The first failure stops the loop with its error. |
| Sprocs.SetSprocAction | doclink_data.py:119-127 | An unknown name raises INVALID_SPROC_NAME with no change; otherwise only that row's action changes. |
| Sprocs.SprocsExists | doclink_data.py:383-386 | KeyError iff the name has no row; otherwise the existence flag the row records. |
| Sprocs.ProbedNamesAnswer | doclink_data.py:87-117 | After probing, `sprocs_exists` answers each probed name with whether its count was positive and is unchanged for every other name. The identity check then meets no missing row for a probed name, and skips a name whose count was not positive. |
| Sprocs.CheckKeepsExistence | doclink_data.py:106-117 | The identity check leaves every answer of `sprocs_exists` unchanged. |
| Http.Init | dapi/http_handler.py:13-25 | A fresh handler is well formed: not authenticated, placeholder auth code in the header, cloud prefix. |
| Http.SetModeOnPrem | dapi/http_handler.py:27-30 | Only the prefix changes, to the on-premises root; well-formedness is kept. |
| Http.UpdateAuthCode | dapi/http_handler.py:42-45 | The auth code and its header entry become the new code. The header keeps its keys and its other entries; nothing else changes. |
| Http.LoggedIn | dapi/http_handler.py:32-35 | Authenticated, with the response as the auth code in the header; base URL and prefix kept. |
| Http.LoggedOut | dapi/http_handler.py:37-40 | Not authenticated and back to the placeholder header; base URL and prefix kept. |
| Http.CheckAuthenticated | dapi/http_handler.py:89-92 | Raises NOT_AUTHENTICATED iff authentication is required and the session is not logged in. |
| Http.RequestUrl | dapi/http_handler.py:54-58 | The request URL is the base URL, then the prefix, then the path. |
| Http.SessionGatesRequests | dapi/http_handler.py:32-40 | After login requests pass; after logout they raise NOT_AUTHENTICATED; requests that do not need authentication always pass. |
| Http.LoginLogoutRestores | dapi/http_handler.py:13-40 | Logging in and then out returns a fresh handler to its initial state. |
| Http.RunPreservesValid | dapi/http_handler.py:13-45 | Any sequence of mode, login, logout and auth-code changes keeps the header in step with the auth code and keeps the base URL. |
| Stitch.IndexBy | sql/doclink_sql.py:114 | A dictionary comprehension keyed by an attribute: one key per attribute value present, holding the last item with it. |
| Stitch.LinkFirst | dapi/doclink_api.py:110-116 | Every document-type property gets the first property with its id, all else unchanged; StopIteration iff some id has no property. |
| Stitch.LinkLast | sql/doclink_sql.py:114-124 | Every document-type property gets the last property with its id, all else unchanged; KeyError iff some id has no property. |
| Stitch.LinksAgreeOnUniqueIds | sql/doclink_sql.py:114-124 | With distinct property ids the API and SQL linking succeed together and give the same result. |
| Stitch.DuplicateIdsLinkDifferently | dapi/doclink_api.py:110-116 | With two properties sharing an id, the API links the first and the SQL backend the second. |
| Stitch.LinkingCommutesWithGrouping | dapi/doclink_api.py:104-117 | Linking all rows and then taking one parent's rows gives the same list as taking that parent's rows and then linking them. |
| Stitch.GroupByParent | sql/doclink_sql.py:135-146 | Each document type gets exactly the document-type properties whose parent is that type, each with its multiplicity, in order; only that list changes. |
| Stitch.OrphansAppearNowhere | sql/doclink_sql.py:135-146 | A document-type property whose parent is no listed type ends up under none of them. |
| Stitch.AttachFields | sql/doclink_sql.py:265-276 | Each stamp gets exactly the fields carrying its UUID, each with its multiplicity, in order; only that list changes. |
| Stitch.ApiMerge | dapi/doclink_api.py:307-328 | Empty iff either the stamps or the fields are empty; otherwise the grouped stamps. |
| Stitch.SqlMerge | sql/doclink_sql.py:260-276 | Every stamp is kept, with exactly its fields (multiplicity and order kept); with no fields each has an empty field list. |
| Stitch.MergesAgreeUnlessEmpty | dapi/doclink_api.py:307-328 | The two merges agree when both lists are non-empty. With stamps but no fields the API returns none while SQL returns them all. |
| Utilities.IsAutoIncluded | utilities.py:118-126 | A column is auto-included iff it is a forbidden name, a voucher analog or a batch analog, case-insensitively. |
| Utilities.LineNumberAnalogsAreLowerCase | utilities.py:7-16 | Every listed line-number spelling is lower case and recognised as a line number. |
| Utilities.ForbiddenColumnNamesAreLowerCase | utilities.py:18 | Every forbidden column name is lower case and recognised as forbidden. |
| Utilities.VoucherAnalogsAreLowerCase | utilities.py:20-28 | Every listed voucher spelling is lower case and recognised as a voucher. |
| Utilities.BatchAnalogsAreLowerCase | utilities.py:30-40 | Every listed batch spelling is lower case and recognised as a batch. |
| Utilities.ClassifiersIgnoreCase | utilities.py:98-126 | Every classifier gives the same answer for a name and its lower case. |
| Utilities.LineNumbersNotAutoIncluded | utilities.py:98-126 | No line-number analog is auto-included. |
| Utilities.VoucherNoIsAutoIncluded | utilities.py:98-126 | "Voucher No" is a voucher analog and is auto-included. |
| Utilities.CompanyIsAutoIncluded | utilities.py:98-126 | "COMPANY" is recognised, after lower-casing, as a forbidden name and is auto-included. |
| Utilities.LineNumberIsNotAutoIncluded | utilities.py:98-126 | "Line Number" is a line number and is not auto-included. |
| Utilities.ApiRowToJson | utilities.py:93-95 | IndexError iff the row is longer than the column list. Otherwise the keys are the names of the row's columns, and each value sits under its column's name unless a later column repeats the name. |
| Utilities.RowRoundTrip | utilities.py:93-95 | With distinct names and one value per column, reading the record back column by column gives the row. |
| Utilities.Head | sql/doclink_sql.py:516-524 | `row[0]`: the first cell, or IndexError for an empty row. |
| Utilities.FirstColumn | sql/doclink_sql.py:516-534 | The first cell of each row, aligned with the rows; IndexError iff some row is empty. |
| Export.Pivot | dapi/doclink_api.py:347-349 | `xs[1:]`: the list without its first element, and nothing for an empty list. |
| Export.DocExportArguments | sql/doclink_sql.py:278-299 | Action and columns are passed through; each id list is passed as is and, without its first element, as the pivot list. |
| Export.PivotDropsLeadingComma | dapi/doclink_api.py:330-352 | On a rendered non-empty column list the pivot slice removes exactly the opening comma. |
| Api.Request | dapi/http_handler.py:47-66 | An authenticated request yields the server's answer. Without login it raises NOT_AUTHENTICATED before sending; a request that fails in transport raises. |
| Api.GetAccessibleItems | dapi/doclink_api.py:562-579 | A filled cache is returned without a request unless a refresh is asked for. Otherwise it succeeds iff the request does, with the server's listing, which replaces the cache. A failed request re-raises the request's error and leaves the cache as it was. |
| Api.CachedReadIgnoresServer | dapi/doclink_api.py:562-579 | A filled cache answers identically for any server and handler. |
| Api.SecondReadIsCached | dapi/doclink_api.py:562-579 | After a successful read, a read without refresh returns the same listing and cache. |
| Api.CheckIfSprocExists | dapi/doclink_api.py:156-166 | Always refreshes. It succeeds iff the listing request does, answering 1 iff the procedure is listed and 0 otherwise. On failure it raises the request's error and leaves the cache unchanged. |
| Api.SprocProbeIgnoresCache | dapi/doclink_api.py:156-166 | The probe's answer does not depend on the cache it starts from. |
| Api.DoesTableExist | dapi/doclink_api.py:168-176 | Always refreshes. It succeeds iff the listing request does, and is true iff the table is listed. On failure it raises the request's error and leaves the cache unchanged. |
| Api.QueryTable | dapi/doclink_api.py:187-201 | TABLE_NOT_WHITELISTED iff the possibly cached listing was read and omits the table, before any query. A failed listing read raises its error; a listed table gives exactly the authenticated request for it. |
| Api.SoftQuery | dapi/doclink_api.py:223-242 | A non-whitelisted table reads as an empty list; every other error is re-raised; an answered query is converted. |
| Api.RecordOf | dapi/doclink_api.py:235-240 | A row becomes a record: IndexError iff the row is longer than the columns; TypeError iff the constructor rejects the keyed row; otherwise the constructed record. |
| Api.Records | dapi/doclink_api.py:235-240 | All rows converted, each the record of its row, aligned with the rows. Otherwise the error of the first row that fails, every earlier row succeeding. |
| Api.FirstCells | dapi/doclink_api.py:520-547 | Succeeds iff every row is non-empty; then the first cell of every row, aligned with the rows; otherwise IndexError. |
| Api.GetWorkflows | dapi/doclink_api.py:223-242 | Empty if the workflow table is not whitelisted. Any other query error is re-raised. An answered query gives the rows as records, as `Api.Records` states. |
| Api.GetWorkflowActivities | dapi/doclink_api.py:244-263 | Empty if the activity table is not whitelisted. Any other query error is re-raised. An answered query gives the rows as records, as `Api.Records` states. |
| Api.GetDistStamps | dapi/doclink_api.py:265-284 | Empty if the stamp table is not whitelisted. Any other query error is re-raised. An answered query gives the rows as records, as `Api.Records` states. |
| Api.GetDistStampFields | dapi/doclink_api.py:286-305 | Empty if the field table is not whitelisted. Any other query error is re-raised. An answered query gives the rows as records, as `Api.Records` states. |
| Api.GetAiProfiles | dapi/doclink_api.py:520-532 | Empty if the profile table is not whitelisted. Any other query error is re-raised. An answered query gives the first cell of each row. |
| Api.GetEventTaskNames | dapi/doclink_api.py:535-547 | Empty if the event-task table is not whitelisted. Any other query error is re-raised. An answered query gives the first cell of each row. |
| Api.UnauthenticatedGettersRaise | dapi/doclink_api.py:223-547 | Only the whitelist error is softened: with a handler that is not authenticated (logged out, or its login failed) and nothing cached, the getters raise NOT_AUTHENTICATED. |
| Api.AttachProperties | dapi/doclink_api.py:104-117 | A type without a property list raises TypeError. Otherwise its properties are linked first-match, and only that list changes. |
| Api.GetDocTypesWithProps | dapi/doclink_api.py:95-119 | The argument is ignored. Succeeds iff the handler is authenticated, both listings arrive and every type links; a missing listing raises a transport error. Each type is linked against the fetched properties, aligned with the fetched types; otherwise the first failing type's error. |
| Api.GetDistStampWithFields | dapi/doclink_api.py:307-328 | The stamps, then the fields (with the cache threaded between them), then the API merge. A failing stamp fetch raises its error before the fields are read. A failing field fetch raises the field error. Empty when either table is not whitelisted. |
| Sql.Connect | sql/doclink_sql.py:37-49 | NO_CREDENTIALS iff none are given or stored, with no change. Given credentials are stored even if the driver rejects them. Connected iff the driver accepts. |
| Sql.ReconnectReusesCredentials | sql/doclink_sql.py:37-49 | After credentials are given once, connecting without arguments reuses them. |
| Sql.CheckIfSprocExists | sql/doclink_sql.py:55-62 | The number of catalogue rows, positive iff any row matched; driver errors propagate. |
| Sql.UsedProperties | sql/doclink_sql.py:102-112 | The given properties if non-empty, otherwise fetched. |
| Sql.GetDocumentTypePropertys | sql/doclink_sql.py:102-126 | Each row linked to the last property with its id; KeyError iff some id has no property. A failing property fetch (when no properties are given), or a failing row fetch, raises that fetch's error. |
| Sql.GivenPropertiesAreNotFetched | sql/doclink_sql.py:102-112 | With non-empty given properties the database's property answer is irrelevant. |
| Sql.GetDocTypesWithProps | sql/doclink_sql.py:128-146 | Succeeds iff both the type fetch and the linked row fetch succeed; the document types with their linked document-type properties grouped under them. A failing type fetch raises its error. Otherwise the row fetch or linking error is raised. |
| Sql.GetDistStampWithFields | sql/doclink_sql.py:260-276 | Succeeds iff both fetches do. A failing stamp fetch raises its error; otherwise a failing field fetch raises the field error. Every stamp is kept, with exactly the fields carrying its UUID, each with its multiplicity, in order. |
| Sql.NextSequence | sql/doclink_sql.py:308-316 | `row[0] + 1`: TypeError on no row, IndexError on an empty row, otherwise one past the count. |
| Sql.GetAutomatedTaskSequenceNumber | sql/doclink_sql.py:308-316 | One past the count of tasks already on the activity. Succeeds iff the query answers a non-empty row. A driver error propagates; no row raises TypeError; an empty row raises IndexError. |
| Sql.GetDocTypeAiSequence | sql/doclink_sql.py:433-439 | One past the count of auto-index profiles already on the document type. Succeeds iff the query answers a non-empty row. A driver error propagates; no row raises TypeError; an empty row raises IndexError. |
| Sql.GetAiProfiles | sql/doclink_sql.py:516-524 | Succeeds iff the query answers and every row is non-empty. Then the first column of every profile row, aligned with the rows. A driver error propagates; an empty row raises IndexError. |
| Sql.GetEventTaskNames | sql/doclink_sql.py:526-534 | Succeeds iff the query answers and every row is non-empty. Then the first column of every event-task row, aligned with the rows. A driver error propagates; an empty row raises IndexError. |
| Backends.DocTypeAssembliesAgree | dapi/doclink_api.py:95-119 | With distinct property ids, an API server that serves the types grouped as the SQL tables relate them yields the same linked document types as a successful SQL assembly. |
| Backends.SprocProbesAgree | sql/doclink_sql.py:55-62 | A catalogue and a listing that agree on a procedure give the same `count > 0` answer. |

## Left out

- HTTP transport, JSON decoding and `raise_for_status` are left out. A
  server answer is a parameter, and a transport failure is one `Transport`
  error.
- The login flows (`connect`, `login_cloud`, `login_on_prem`, `disconnect`)
  are left out. They are network calls; only their effect on the handler
  (`logged_in`, `logged_out`, `set_mode_on_prem`) is modelled.
- The ODBC driver, `sql_handler.py` and the `requires_connection`
  decorator's NO_CONN check are left out. Query results are parameters.
- Reading and writing SQL files, the template text and its `.format`
  substitution are left out: file I/O. `Export.DocExportArguments` models
  the named arguments the template receives.
- `sql_queries.py` is left out. The query text is opaque, and each query's
  answer is a parameter.
- The administrative and scheduling operations (events, schedules, auto
  index, recognition settings, staging-table DDL, `create_basic_sproc`,
  `commit_sproc_from_file`, `run_query`) are left out. They send statements
  and return driver answers, and have no logic of their own.
- The API's `NotImplementedError` stubs (for example the two sequence-number
  helpers) are left out. They always raise, and the `Unsupported` error
  names that outcome.
- Logging is left out.
- Record construction from keyword arguments (`Workflow(**row)` and
  similar) is a `decode` parameter of the API getters. Whether the
  constructor accepts a row's columns depends on the dataclass definitions.
- The SQL getters that build records from rows (`get_properties`,
  `get_workflows`, ...) are modelled by their results: the decoded lists are
  parameters.
- `compare_sproc_from_file` is a parameter of
  `Sprocs.IdenticalSprocCheck`, because it reads a file.
- `indexers.py` is left out, along with the workflow fields the graph does
  not read and `get_workflow_queues`, `get_workflow_next_activities` and
  `get_workflow_placements`. They only fetch rows.
- A UUID is a number compared for equality; its text form is not modelled.
- Text.Lower: folds only ASCII letters, because full Unicode case mapping
  is not modelled.
- The API client's handler before `connect` is `None`, so a getter called
  then raises AttributeError (dapi/doclink_api.py:46). The model's handler
  always exists; a handler that never logged in stands for that state.
