/** Document types and their document-type properties. A document-type
    property refers to a property by id; the property record itself is
    attached once the backend has linked the two. */
module Documents {
  import opened Base
  import opened Text
  import opened Propertys
  import Lists

  datatype DocumentTypeProperty = DocumentTypeProperty(
    DocumentTypePropertyId: int,
    ParentId: int,
    PropertyId: int,
    SequenceNumber: int,
    Property: Option<Property>)

  datatype DocumentType = DocumentType(
    DocumentTypeId: int,
    Name: string,
    Description: string,
    AIEnabled: bool,
    RIEnabled: bool,
    RIMethod: int,
    AIMethod: int,
    Active: bool,
    DocumentTypeProperties: Option<seq<DocumentTypeProperty>>)

  /** The column name of a document-type property: the formatted prompt of
      its attached property. Reading it before a property is attached is an
      attribute read on `None`. */
  function Name(d: DocumentTypeProperty): (r: Result<string>)
    ensures r.Success? <==> d.Property.Some?
    ensures r.Failure? ==> r.error == NoneAttribute
    ensures r.Success? ==> r.value == FormatPrompt(d.Property.value.UserPrompt)
  {
    match d.Property
    case None => Failure(NoneAttribute)
    case Some(p) => Success(FormattedUserPrompt(p))
  }

  /** The staging-table column name of a document-type property: its name,
      with no further change. */
  function TableName(d: DocumentTypeProperty): (r: Result<string>)
    ensures r.Success? <==> d.Property.Some?
    ensures r.Failure? ==> r.error == NoneAttribute
    ensures r.Success? ==> r.value == FormatPrompt(d.Property.value.UserPrompt) && ' ' !in r.value
  {
    Name(d)
  }

  /** `get_property_by_name`: the first document-type property, in list
      order, whose name is `name`, or `PROPERTY_NOT_FOUND` when none is.
      An element without an attached property, met before the match, makes
      the name read fail. */
  function GetPropertyByName(dt: DocumentType, name: string): (r: Result<DocumentTypeProperty>)
    ensures dt.DocumentTypeProperties.None? ==> r == Failure(TypeMismatch)
    ensures r.Success? ==> Lists.IsFirstCheckedMatch(dt.DocumentTypeProperties.value, Name, name, r.value)
    ensures r == Failure(PropertyNotFound(name)) <==>
      dt.DocumentTypeProperties.Some? && Lists.NoCheckedMatch(dt.DocumentTypeProperties.value, Name, name)
    ensures r.Failure? && dt.DocumentTypeProperties.Some? ==>
      r.error == PropertyNotFound(name) || r.error == NoneAttribute
    ensures dt.DocumentTypeProperties.Some? ==>
      forall i | Lists.CheckedMatchAt(dt.DocumentTypeProperties.value, Name, name, i) ::
        r == Success(dt.DocumentTypeProperties.value[i])
    ensures r == Failure(NoneAttribute) <==>
      dt.DocumentTypeProperties.Some? && Lists.IsFirstCheckedRaise(dt.DocumentTypeProperties.value, Name, name, NoneAttribute)
  {
    match dt.DocumentTypeProperties
    case None => Failure(TypeMismatch)
    case Some(ps) =>
      var found := Lists.FirstIndexChecked(ps, Name, name);
      if found.Failure? then
        Lists.FirstIndexCheckedRaises(ps, Name, name, NoneAttribute);
        Failure(found.error)
      else if found.value.None? then Failure(PropertyNotFound(name))
      else Success(ps[found.value.value])
  }

  /** The name of an attached document-type property, and "" for one with
      no property attached. */
  function AttachedName(d: DocumentTypeProperty): string {
    if d.Property.Some? then FormattedUserPrompt(d.Property.value) else ""
  }

  /** Once every document-type property has its property attached, as after
      either backend's linking, the name lookup is the plain first-match
      search on names: it finds what `get_object_from_list` would find, and
      raises `PROPERTY_NOT_FOUND` exactly when that finds nothing. */
  lemma {:induction false} LinkedLookupIsFirstMatch(dt: DocumentType, name: string)
    requires dt.DocumentTypeProperties.Some?
    requires forall i | 0 <= i < |dt.DocumentTypeProperties.value| :: dt.DocumentTypeProperties.value[i].Property.Some?
    ensures var ps := dt.DocumentTypeProperties.value;
      && (GetPropertyByName(dt, name).Success? <==> Lists.FirstWith(ps, AttachedName, name).Some?)
      && (GetPropertyByName(dt, name).Success? ==>
            GetPropertyByName(dt, name).value == Lists.FirstWith(ps, AttachedName, name).value)
      && (GetPropertyByName(dt, name).Failure? ==> GetPropertyByName(dt, name).error == PropertyNotFound(name))
  {
    var ps := dt.DocumentTypeProperties.value;
    forall i | 0 <= i < |ps|
      ensures Name(ps[i]) == Success(AttachedName(ps[i]))
    {
      assert ps[i].Property.Some?;
    }
    Lists.CheckedScanOfTotal(ps, Name, AttachedName, name);
  }
}
