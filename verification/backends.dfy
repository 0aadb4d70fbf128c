/** What the two backends have in common: given the same rows they assemble
    the same document types, and their procedure probes record the same
    existence flag. */
module Backends {
  import opened Base
  import opened Propertys
  import opened Documents
  import Http
  import Lists
  import Stitch
  import Api
  import Sql

  /** An API server that serves the document types already grouped as the
      SQL tables relate them, and the same property list, yields the same
      linked document types as the SQL backend, when property ids are
      distinct and the SQL assembly succeeds. */
  lemma DocTypeAssembliesAgree(h: Http.Handler, s: Api.Server, db: Sql.Database)
    requires h.authenticated
    requires db.documentTypes.Success? && db.documentTypeProperties.Success? && db.properties.Success?
    requires s.properties == Some(db.properties.value)
    requires s.documentTypes == Some(Stitch.GroupByParent(db.documentTypes.value, db.documentTypeProperties.value))
    requires forall i, j | 0 <= i < j < |db.properties.value| ::
      db.properties.value[i].PropertyId != db.properties.value[j].PropertyId
    requires Sql.GetDocTypesWithProps(db, None).Success?
    ensures Api.GetDocTypesWithProps(h, s) == Sql.GetDocTypesWithProps(db, None)
  {
    var props, dtps, docTypes := db.properties.value, db.documentTypeProperties.value, db.documentTypes.value;
    var linked := Stitch.LinkLast(dtps, props);
    assert linked.Success?;
    Stitch.LinksAgreeOnUniqueIds(dtps, props);
    var grouped := Stitch.GroupByParent(docTypes, dtps);
    var want := Stitch.GroupByParent(docTypes, linked.value);
    assert want == Sql.GetDocTypesWithProps(db, None).value;
    forall i | 0 <= i < |grouped|
      ensures Api.AttachProperties(props, grouped[i]) == Success(want[i])
    {
      var id := docTypes[i].DocumentTypeId;
      Lists.FilteredIsAllWith(grouped[i].DocumentTypeProperties.value, dtps, Stitch.ParentOf, id);
      Lists.FilteredIsAllWith(want[i].DocumentTypeProperties.value, linked.value, Stitch.ParentOf, id);
      Stitch.LinkingCommutesWithGrouping(dtps, props, id);
    }
    var r := Api.GetDocTypesWithProps(h, s);
    assert r.Success?;
    assert r.value == want;
  }

  /** Both probes feed the procedure table through `count > 0`: the SQL
      catalogue count is positive exactly when the API answers 1, given a
      catalogue and a listing that agree on the procedure. */
  lemma SprocProbesAgree(h: Http.Handler, c: Api.Cache, s: Api.Server, db: Sql.Database, name: string)
    requires h.authenticated && s.accessibleItems.Some?
    requires db.sprocRows(name).Success?
    requires db.sprocRows(name).value != [] <==> name in s.accessibleItems.value.procedures
    ensures Sql.CheckIfSprocExists(db, name).Success? && Api.CheckIfSprocExists(h, c, s, name).result.Success?
    ensures Sql.CheckIfSprocExists(db, name).value > 0 <==> Api.CheckIfSprocExists(h, c, s, name).result.value > 0
  {
  }
}
