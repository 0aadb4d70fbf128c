/** The joins both backends perform once the rows are fetched: attaching a
    property to each document-type property by property id, grouping
    document-type properties under their document type, and grouping stamp
    fields under their stamp. The API backend links to the first property
    with the id (`next(...)` over the list); the SQL backend links through a
    dictionary built from the list, so the last property with the id wins. */
module Stitch {
  import opened Base
  import opened Propertys
  import opened Documents
  import Stamps
  import Lists

  function PropertyIdOf(p: Property): int { p.PropertyId }
  function ParentOf(d: DocumentTypeProperty): int { d.ParentId }
  function StampOf(f: Stamps.DistributionStampField): Uuid { f.DynamicUIId }

  /** The property ids present in a property list. */
  function Ids(props: seq<Property>): set<int> {
    set i | 0 <= i < |props| :: props[i].PropertyId
  }

  /** `x` is the last item of `xs`, in list order, whose attribute equals
      `value`. */
  ghost predicate IsLastMatch<T, K>(xs: seq<T>, attr: T -> K, value: K, x: T) {
    exists i | 0 <= i < |xs| ::
      xs[i] == x && attr(xs[i]) == value && forall j | i < j < |xs| :: attr(xs[j]) != value
  }

  /** A dictionary comprehension `{attr(x): x for x in xs}`: one entry per
      attribute value, holding the last item with that value. */
  function IndexBy<T, K>(xs: seq<T>, attr: T -> K): (m: map<K, T>)
    ensures m.Keys == set i | 0 <= i < |xs| :: attr(xs[i])
    ensures forall k | k in m :: IsLastMatch(xs, attr, k, m[k])
    decreases |xs|
  {
    if xs == [] then map[]
    else
      var n := |xs| - 1;
      var front := xs[..n];
      var m := IndexBy(front, attr);
      assert xs == front + [xs[n]];
      IndexByStep(front, xs[n], attr, m, m[attr(xs[n]) := xs[n]]);
      m[attr(xs[n]) := xs[n]]
  }

  /** Adding one more item at the end of the indexed list. */
  lemma IndexByStep<T, K>(front: seq<T>, last: T, attr: T -> K, m: map<K, T>, m': map<K, T>)
    requires m.Keys == set i | 0 <= i < |front| :: attr(front[i])
    requires forall k | k in m :: IsLastMatch(front, attr, k, m[k])
    requires m' == m[attr(last) := last]
    ensures m'.Keys == set i | 0 <= i < |front + [last]| :: attr((front + [last])[i])
    ensures forall k | k in m' :: IsLastMatch(front + [last], attr, k, m'[k])
  {
    var xs := front + [last];
    var n := |front|;
    assert forall i | 0 <= i < n :: xs[i] == front[i];
    assert xs[n] == last;
    forall k | k in m'
      ensures IsLastMatch(xs, attr, k, m'[k])
    {
      if k == attr(last) {
        assert xs[n] == m'[k];
      } else {
        var i :| 0 <= i < |front| && front[i] == m[k] && attr(front[i]) == k
          && forall j | i < j < |front| :: attr(front[j]) != k;
        assert xs[i] == m'[k];
      }
    }
  }

  /** A document-type property whose property record is now attached, and
      which is otherwise unchanged. */
  predicate Linked(before: DocumentTypeProperty, after: DocumentTypeProperty) {
    after.Property.Some? && after == before.(Property := after.Property)
  }

  function LinkFirstOne(props: seq<Property>, d: DocumentTypeProperty): Result<DocumentTypeProperty> {
    match Lists.FirstWith(props, PropertyIdOf, d.PropertyId)
    case None => Failure(NoMatch)
    case Some(p) => Success(d.(Property := Some(p)))
  }

  /** The API's linking loop: each document-type property gets the first
      property with its id; an id with no property stops the loop with
      `StopIteration`. */
  function LinkFirst(dtps: seq<DocumentTypeProperty>, props: seq<Property>): (r: Result<seq<DocumentTypeProperty>>)
    ensures r.Success? <==> forall i | 0 <= i < |dtps| :: dtps[i].PropertyId in Ids(props)
    ensures r.Failure? ==> r.error == NoMatch
    ensures r.Success? ==> |r.value| == |dtps| && forall i | 0 <= i < |dtps| ::
      && Linked(dtps[i], r.value[i])
      && Lists.IsFirstMatch(props, PropertyIdOf, dtps[i].PropertyId, r.value[i].Property.value)
    ensures r.Success? ==> forall i | 0 <= i < |dtps| :: Success(r.value[i]) == LinkFirstOne(props, dtps[i])
  {
    Lists.MapAll(dtps, d => LinkFirstOne(props, d))
  }

  /** One document-type property linked as the API links it, or left alone
      when no property has its id. */
  function LinkedTo(props: seq<Property>, d: DocumentTypeProperty): DocumentTypeProperty {
    match LinkFirstOne(props, d)
    case Success(x) => x
    case Failure(_) => d
  }

  /** Linking and then taking the rows of one parent gives what taking the
      rows of that parent and then linking gives. */
  lemma LinkingCommutesWithGrouping(dtps: seq<DocumentTypeProperty>, props: seq<Property>, parent: int)
    requires forall i | 0 <= i < |dtps| :: dtps[i].PropertyId in Ids(props)
    ensures LinkFirst(Lists.AllWith(dtps, ParentOf, parent), props)
      == Success(Lists.AllWith(LinkFirst(dtps, props).value, ParentOf, parent))
  {
    var linked := LinkFirst(dtps, props).value;
    LinkedToAligned(dtps, props, linked);
    GroupOfLinked(dtps, props, linked, parent);
    LinkingKnownIds(dtps, props, Lists.AllWith(dtps, ParentOf, parent), Lists.AllWith(linked, ParentOf, parent));
  }

  /** The rows of one parent in the linked list are the linked rows of that
      parent, in the same order. */
  lemma GroupOfLinked(dtps: seq<DocumentTypeProperty>, props: seq<Property>,
                      linked: seq<DocumentTypeProperty>, parent: int)
    requires |linked| == |dtps|
    requires forall i | 0 <= i < |dtps| :: linked[i] == LinkedTo(props, dtps[i]) && linked[i].ParentId == dtps[i].ParentId
    ensures var a, b := Lists.AllWith(dtps, ParentOf, parent), Lists.AllWith(linked, ParentOf, parent);
      |b| == |a| && forall i | 0 <= i < |a| :: b[i] == LinkedTo(props, a[i])
  {
    Lists.AllWithOfMap(dtps, linked, d => LinkedTo(props, d), ParentOf, ParentOf, parent);
  }

  /** Items drawn from a list whose ids all name a property link, and they
      link to what `LinkedTo` gives each of them. */
  lemma LinkingKnownIds(dtps: seq<DocumentTypeProperty>, props: seq<Property>,
                        a: seq<DocumentTypeProperty>, b: seq<DocumentTypeProperty>)
    requires forall i | 0 <= i < |dtps| :: dtps[i].PropertyId in Ids(props)
    requires forall x | x in a :: x in dtps
    requires |b| == |a| && forall i | 0 <= i < |a| :: b[i] == LinkedTo(props, a[i])
    ensures LinkFirst(a, props) == Success(b)
  {
    forall i | 0 <= i < |a|
      ensures a[i].PropertyId in Ids(props)
    {
      assert a[i] in dtps;
    }
    var la := LinkFirst(a, props).value;
    LinkedToAligned(a, props, la);
    assert la == b;
  }

  /** The API's linked list, item by item, as `LinkedTo`. */
  lemma LinkedToAligned(dtps: seq<DocumentTypeProperty>, props: seq<Property>, linked: seq<DocumentTypeProperty>)
    requires LinkFirst(dtps, props) == Success(linked)
    ensures |linked| == |dtps|
    ensures forall i | 0 <= i < |dtps| :: linked[i] == LinkedTo(props, dtps[i]) && linked[i].ParentId == dtps[i].ParentId
  {
    forall i | 0 <= i < |dtps|
      ensures linked[i] == LinkedTo(props, dtps[i]) && linked[i].ParentId == dtps[i].ParentId
    {
      assert Success(linked[i]) == LinkFirstOne(props, dtps[i]);
    }
  }

  function LinkLastOne(index: map<int, Property>, d: DocumentTypeProperty): Result<DocumentTypeProperty> {
    if d.PropertyId in index then Success(d.(Property := Some(index[d.PropertyId]))) else Failure(MissingKey)
  }

  /** The SQL backend's linking loop: each document-type property gets the
      dictionary entry for its id, which is the last property with that id;
      an id with no property raises `KeyError`. */
  function LinkLast(dtps: seq<DocumentTypeProperty>, props: seq<Property>): (r: Result<seq<DocumentTypeProperty>>)
    ensures r.Success? <==> forall i | 0 <= i < |dtps| :: dtps[i].PropertyId in Ids(props)
    ensures r.Failure? ==> r.error == MissingKey
    ensures r.Success? ==> |r.value| == |dtps| && forall i | 0 <= i < |dtps| ::
      && Linked(dtps[i], r.value[i])
      && IsLastMatch(props, PropertyIdOf, dtps[i].PropertyId, r.value[i].Property.value)
  {
    var index := IndexBy(props, PropertyIdOf);
    assert index.Keys == Ids(props);
    Lists.MapAll(dtps, d => LinkLastOne(index, d))
  }

  /** With distinct property ids the first and the last property with an id
      are the same, so both backends link alike; they differ only in the
      error a missing id raises. */
  lemma LinksAgreeOnUniqueIds(dtps: seq<DocumentTypeProperty>, props: seq<Property>)
    requires forall i, j | 0 <= i < j < |props| :: props[i].PropertyId != props[j].PropertyId
    ensures LinkFirst(dtps, props).Success? <==> LinkLast(dtps, props).Success?
    ensures LinkFirst(dtps, props).Success? ==> LinkFirst(dtps, props) == LinkLast(dtps, props)
  {
    var a := LinkFirst(dtps, props);
    var b := LinkLast(dtps, props);
    if a.Success? {
      forall i | 0 <= i < |dtps|
        ensures a.value[i] == b.value[i]
      {
        var p := a.value[i].Property.value;
        var q := b.value[i].Property.value;
        var x :| 0 <= x < |props| && props[x] == p && props[x].PropertyId == dtps[i].PropertyId
          && forall j | 0 <= j < x :: props[j].PropertyId != dtps[i].PropertyId;
        var y :| 0 <= y < |props| && props[y] == q && props[y].PropertyId == dtps[i].PropertyId
          && forall j | y < j < |props| :: props[j].PropertyId != dtps[i].PropertyId;
        assert x == y;
      }
      assert a.value == b.value;
    }
  }

  /** When the head of a list matches, it is the first match. */
  lemma FirstMatchOfHead<T, K>(xs: seq<T>, attr: T -> K, value: K, x: T)
    requires xs != [] && attr(xs[0]) == value
    requires Lists.IsFirstMatch(xs, attr, value, x)
    ensures x == xs[0]
  {
  }

  /** When the last item of a list matches, it is the last match. */
  lemma LastMatchOfLast<T, K>(xs: seq<T>, attr: T -> K, value: K, x: T)
    requires xs != [] && attr(xs[|xs| - 1]) == value
    requires IsLastMatch(xs, attr, value, x)
    ensures x == xs[|xs| - 1]
  {
  }

  /** With two properties sharing an id, the API links the first and the SQL
      backend links the second. */
  lemma DuplicateIdsLinkDifferently()
    ensures var first := Property(7, "Amount", "Amount", 4, "AMT");
      var second := Property(7, "Total", "Total", 4, "TOT");
      var d := DocumentTypeProperty(1, 10, 7, 0, None);
      && LinkFirst([d], [first, second]) == Success([d.(Property := Some(first))])
      && LinkLast([d], [first, second]) == Success([d.(Property := Some(second))])
  {
    var first := Property(7, "Amount", "Amount", 4, "AMT");
    var second := Property(7, "Total", "Total", 4, "TOT");
    var d := DocumentTypeProperty(1, 10, 7, 0, None);
    var props := [first, second];
    assert 7 in Ids(props) by { assert props[0].PropertyId == 7; }
    var a := LinkFirst([d], props);
    var b := LinkLast([d], props);
    assert [d][0] == d;
    assert a.Success? && b.Success?;
    assert Linked(d, a.value[0]) && Linked(d, b.value[0]);
    assert a.value == [a.value[0]] && b.value == [b.value[0]];
    FirstMatchOfHead(props, PropertyIdOf, 7, a.value[0].Property.value);
    LastMatchOfLast(props, PropertyIdOf, 7, b.value[0].Property.value);
    assert a == Success([d.(Property := Some(first))]);
    assert b == Success([d.(Property := Some(second))]);
  }

  /** The SQL grouping: every document type gets exactly the document-type
      properties whose parent is that type, in their original order. Only
      the property list of each type changes. */
  function GroupByParent(docTypes: seq<DocumentType>, dtps: seq<DocumentTypeProperty>): (r: seq<DocumentType>)
    ensures |r| == |docTypes|
    ensures forall i | 0 <= i < |r| ::
      && r[i].(DocumentTypeProperties := docTypes[i].DocumentTypeProperties) == docTypes[i]
      && r[i].DocumentTypeProperties.Some?
    ensures forall i | 0 <= i < |r| ::
      && (forall d | d in r[i].DocumentTypeProperties.value :: d.ParentId == docTypes[i].DocumentTypeId && d in dtps)
      && (forall j | 0 <= j < |dtps| && dtps[j].ParentId == docTypes[i].DocumentTypeId ::
            dtps[j] in r[i].DocumentTypeProperties.value)
      && Lists.Filtered(r[i].DocumentTypeProperties.value, dtps, ParentOf, docTypes[i].DocumentTypeId)
  {
    seq(|docTypes|, i requires 0 <= i < |docTypes| =>
      docTypes[i].(DocumentTypeProperties := Some(Lists.AllWith(dtps, ParentOf, docTypes[i].DocumentTypeId))))
  }

  /** A document-type property whose parent is no listed document type ends
      up under none of them. */
  lemma OrphansAppearNowhere(docTypes: seq<DocumentType>, dtps: seq<DocumentTypeProperty>, d: DocumentTypeProperty)
    requires forall i | 0 <= i < |docTypes| :: docTypes[i].DocumentTypeId != d.ParentId
    ensures forall i | 0 <= i < |docTypes| :: d !in GroupByParent(docTypes, dtps)[i].DocumentTypeProperties.value
  {
  }

  /** `r` is `stamps` with every stamp given exactly the fields whose stamp
      id is its id, each with its multiplicity, in field order; nothing else
      about a stamp changes. */
  ghost predicate FieldsGrouped(r: seq<Stamps.DistributionStamp>, stamps: seq<Stamps.DistributionStamp>,
                                fields: seq<Stamps.DistributionStampField>) {
    && |r| == |stamps|
    && (forall i | 0 <= i < |r| ::
          && r[i].(DistributionStampFields := stamps[i].DistributionStampFields) == stamps[i]
          && r[i].DistributionStampFields.Some?)
    && (forall i | 0 <= i < |r| ::
          && (forall f | f in r[i].DistributionStampFields.value ::
                f.DynamicUIId == stamps[i].DynamicUiId && f in fields)
          && (forall j | 0 <= j < |fields| && fields[j].DynamicUIId == stamps[i].DynamicUiId ::
                fields[j] in r[i].DistributionStampFields.value)
          && Lists.Filtered(r[i].DistributionStampFields.value, fields, StampOf, stamps[i].DynamicUiId))
  }

  /** Both backends' stamp grouping: every stamp gets exactly the fields
      whose stamp id is its id, in field order. Only the field list of each
      stamp changes. */
  function AttachFields(stamps: seq<Stamps.DistributionStamp>, fields: seq<Stamps.DistributionStampField>)
    : (r: seq<Stamps.DistributionStamp>)
    ensures FieldsGrouped(r, stamps, fields)
  {
    seq(|stamps|, i requires 0 <= i < |stamps| =>
      stamps[i].(DistributionStampFields := Some(Lists.AllWith(fields, StampOf, stamps[i].DynamicUiId))))
  }

  /** The API's merge: nothing at all when either list is empty, the
      grouped stamps otherwise. */
  function ApiMerge(stamps: seq<Stamps.DistributionStamp>, fields: seq<Stamps.DistributionStampField>)
    : (r: seq<Stamps.DistributionStamp>)
    ensures r == [] <==> stamps == [] || fields == []
    ensures r != [] ==> r == AttachFields(stamps, fields) && FieldsGrouped(r, stamps, fields)
  {
    if stamps == [] || fields == [] then [] else AttachFields(stamps, fields)
  }

  /** The SQL merge has no empty short-circuit: every stamp is returned,
      with an empty field list when no field belongs to it. */
  function SqlMerge(stamps: seq<Stamps.DistributionStamp>, fields: seq<Stamps.DistributionStampField>)
    : (r: seq<Stamps.DistributionStamp>)
    ensures FieldsGrouped(r, stamps, fields)
    ensures fields == [] ==> forall i | 0 <= i < |r| :: r[i].DistributionStampFields == Some([])
  {
    AttachFields(stamps, fields)
  }

  /** The two merges agree whenever both lists are non-empty; with stamps but
      no fields the API returns no stamps while SQL returns all of them. */
  lemma MergesAgreeUnlessEmpty(stamps: seq<Stamps.DistributionStamp>, fields: seq<Stamps.DistributionStampField>)
    ensures stamps != [] && fields != [] ==> ApiMerge(stamps, fields) == SqlMerge(stamps, fields)
    ensures stamps != [] && fields == [] ==> ApiMerge(stamps, fields) == [] && |SqlMerge(stamps, fields)| == |stamps|
  {
  }
}
