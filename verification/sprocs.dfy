/** The graph's stored-procedure table: one row per procedure name, with
    whether the procedure exists on the server, the action chosen for it
    (create or alter) and whether its server text matches the shipped file.
    Probing the server is a parameter: `count` answers the backend's
    `check_if_sproc_exists`, `compare` its `compare_sproc_from_file`. */
module Sprocs {
  import opened Base
  import opened Graph

  /** The row a probed procedure ends up with: an existing row with only its
      existence flag refreshed, or a new row with no action that is not
      known to be identical. */
  function Refreshed(info: map<string, SprocInfo>, name: string, present: bool): SprocInfo {
    if name in info then info[name].(sprocExists := present) else SprocInfo(name, present, None, false)
  }

  /** How many names, in order, are probed before the first probe that
      raises (all of them when none raises). */
  function ProbedPrefix(count: string -> Result<int>, names: seq<string>): (n: nat)
    ensures n <= |names|
    ensures forall j | 0 <= j < n :: count(names[j]).Success?
    ensures n < |names| ==> count(names[n]).Failure?
  {
    if names == [] || count(names[0]).Failure? then 0
    else 1 + ProbedPrefix(count, names[1..])
  }

  /** `info` is `orig` after the rows of the first `n` names were refreshed
      or added, and no other row was touched. */
  ghost predicate ProbedRows(orig: map<string, SprocInfo>, info: map<string, SprocInfo>,
                             count: string -> Result<int>, names: seq<string>, n: nat)
    requires n <= |names|
    requires forall j | 0 <= j < n :: count(names[j]).Success?
  {
    && (forall k :: k in info <==> k in orig || k in names[..n])
    && (forall k | k in orig && k !in names[..n] :: info[k] == orig[k])
    && (forall j | 0 <= j < n :: names[j] in info
          && info[names[j]] == Refreshed(orig, names[j], count(names[j]).value > 0))
  }

  /** Refreshing the row of the next name extends the refreshed prefix. */
  lemma ProbeStep(orig: map<string, SprocInfo>, info: map<string, SprocInfo>,
                  count: string -> Result<int>, names: seq<string>, n: nat)
    requires n < |names|
    requires forall j | 0 <= j <= n :: count(names[j]).Success?
    requires ProbedRows(orig, info, count, names, n)
    ensures ProbedRows(orig, info[names[n] := Refreshed(info, names[n], count(names[n]).value > 0)],
                       count, names, n + 1)
  {
    assert names[..n + 1] == names[..n] + [names[n]];
  }

  /** Probes each name in order and refreshes or adds its row. A raising
      probe stops the loop with the rows of the names before it updated. */
  method PopulateSprocInfo(g: Graph, count: string -> Result<int>, names: seq<string>) returns (r: Effect)
    ensures r.graph.(sprocInfo := g.sprocInfo) == g
    ensures r.raised.None? <==> ProbedPrefix(count, names) == |names|
    ensures ProbedPrefix(count, names) < |names| ==>
      r.raised == Some(count(names[ProbedPrefix(count, names)]).error)
    ensures forall k :: k in r.graph.sprocInfo <==>
      k in g.sprocInfo || k in names[..ProbedPrefix(count, names)]
    ensures forall k | k in g.sprocInfo && k !in names[..ProbedPrefix(count, names)] ::
      r.graph.sprocInfo[k] == g.sprocInfo[k]
    ensures forall j | 0 <= j < ProbedPrefix(count, names) ::
      r.graph.sprocInfo[names[j]] == Refreshed(g.sprocInfo, names[j], count(names[j]).value > 0)
    ensures ProbedRows(g.sprocInfo, r.graph.sprocInfo, count, names, ProbedPrefix(count, names))
  {
    var info := g.sprocInfo;
    var i := 0;
    while i < |names|
      invariant 0 <= i <= |names|
      invariant forall j | 0 <= j < i :: count(names[j]).Success?
      invariant ProbedRows(g.sprocInfo, info, count, names, i)
    {
      var probe := count(names[i]);
      if probe.Failure? {
        assert ProbedPrefix(count, names) == i;
        return Effect(g.(sprocInfo := info), Some(probe.error));
      }
      ProbeStep(g.sprocInfo, info, count, names, i);
      info := info[names[i] := Refreshed(info, names[i], probe.value > 0)];
      i := i + 1;
    }
    assert names[..i] == names;
    r := Effect(g.(sprocInfo := info), None);
  }

  /** What `identical_sproc_check` does with one name: a missing row raises
      `KeyError`, a procedure that does not exist is skipped (`None`), and
      otherwise the comparison's answer is recorded. */
  function IdentityProbe(info: map<string, SprocInfo>, compare: string -> Result<bool>, name: string)
    : (r: Result<Option<bool>>)
    ensures r.Failure? <==> name !in info || (info[name].sprocExists && compare(name).Failure?)
    ensures name !in info ==> r == Failure(MissingKey)
    ensures r.Success? && r.value.Some? ==> info[name].sprocExists && r.value.value == compare(name).value
  {
    if name !in info then Failure(MissingKey)
    else if !info[name].sprocExists then Success(None)
    else match compare(name)
      case Failure(e) => Failure(e)
      case Success(same) => Success(Some(same))
  }

  /** How many names, in order, are checked before the first that raises. */
  function CheckedPrefix(info: map<string, SprocInfo>, compare: string -> Result<bool>, names: seq<string>)
    : (n: nat)
    ensures n <= |names|
    ensures forall j | 0 <= j < n :: IdentityProbe(info, compare, names[j]).Success?
    ensures n < |names| ==> IdentityProbe(info, compare, names[n]).Failure?
  {
    if names == [] || IdentityProbe(info, compare, names[0]).Failure? then 0
    else 1 + CheckedPrefix(info, compare, names[1..])
  }

  /** `info` is `orig` after the identical flags of the existing
      procedures among the first `n` names were set to the comparison's
      answer (each of those comparisons answered); no row was added, removed
      or otherwise changed. */
  ghost predicate CheckedRows(orig: map<string, SprocInfo>, info: map<string, SprocInfo>,
                              compare: string -> Result<bool>, names: seq<string>, n: nat)
    requires n <= |names|
  {
    && info.Keys == orig.Keys
    && (forall k | k in orig && k in names[..n] && orig[k].sprocExists :: compare(k).Success?)
    && forall k | k in orig ::
         info[k]
           == if k in names[..n] && orig[k].sprocExists
              then orig[k].(sprocIdentical := compare(k).value)
              else orig[k]
  }

  /** Checking the next name extends the checked prefix. */
  lemma CheckStep(orig: map<string, SprocInfo>, info: map<string, SprocInfo>,
                  compare: string -> Result<bool>, names: seq<string>, n: nat)
    requires n < |names|
    requires IdentityProbe(orig, compare, names[n]).Success?
    requires CheckedRows(orig, info, compare, names, n)
    ensures var probe := IdentityProbe(orig, compare, names[n]).value;
      CheckedRows(orig, if probe.Some? then info[names[n] := info[names[n]].(sprocIdentical := probe.value)] else info,
                  compare, names, n + 1)
  {
    assert names[..n + 1] == names[..n] + [names[n]];
  }

  /** Records, for each named procedure that exists, whether its server text
      matches the file. Only the `sprocIdentical` flags change. */
  method IdenticalSprocCheck(g: Graph, compare: string -> Result<bool>, names: seq<string>) returns (r: Effect)
    ensures r.graph.(sprocInfo := g.sprocInfo) == g
    ensures r.graph.sprocInfo.Keys == g.sprocInfo.Keys
    ensures var n := CheckedPrefix(g.sprocInfo, compare, names);
      r.raised.None? <==> n == |names|
    ensures var n := CheckedPrefix(g.sprocInfo, compare, names);
      n < |names| ==> r.raised == Some(IdentityProbe(g.sprocInfo, compare, names[n]).error)
    ensures CheckedRows(g.sprocInfo, r.graph.sprocInfo, compare, names,
      CheckedPrefix(g.sprocInfo, compare, names))
  {
    var info := g.sprocInfo;
    var i := 0;
    while i < |names|
      invariant 0 <= i <= |names|
      invariant forall j | 0 <= j < i :: IdentityProbe(g.sprocInfo, compare, names[j]).Success?
      invariant CheckedRows(g.sprocInfo, info, compare, names, i)
    {
      var name := names[i];
      var probe := IdentityProbe(g.sprocInfo, compare, name);
      if probe.Failure? {
        assert CheckedPrefix(g.sprocInfo, compare, names) == i;
        return Effect(g.(sprocInfo := info), Some(probe.error));
      }
      CheckStep(g.sprocInfo, info, compare, names, i);
      if probe.value.Some? {
        info := info[name := info[name].(sprocIdentical := probe.value.value)];
      }
      i := i + 1;
    }
    assert names[..i] == names;
    r := Effect(g.(sprocInfo := info), None);
  }

  /** Sets the action of one known procedure; an unknown name raises and
      changes nothing. */
  function SetSprocAction(g: Graph, name: string, action: string): (r: Effect)
    ensures r.raised.Some? <==> name !in g.sprocInfo
    ensures r.raised.Some? ==> r == Effect(g, Some(InvalidSprocName(name)))
    ensures r.graph.(sprocInfo := g.sprocInfo) == g
    ensures r.graph.sprocInfo.Keys == g.sprocInfo.Keys
    ensures forall k | k in g.sprocInfo && k != name :: r.graph.sprocInfo[k] == g.sprocInfo[k]
    ensures name in g.sprocInfo ==>
      && r.graph.sprocInfo[name].action == Some(action)
      && r.graph.sprocInfo[name].(action := g.sprocInfo[name].action) == g.sprocInfo[name]
  {
    if name !in g.sprocInfo then Effect(g, Some(InvalidSprocName(name)))
    else Effect(g.(sprocInfo := g.sprocInfo[name := g.sprocInfo[name].(action := Some(action))]), None)
  }

  /** Whether a procedure exists, as last probed; an unknown name raises
      `KeyError`. */
  function SprocsExists(g: Graph, name: string): (r: Result<bool>)
    ensures r.Failure? <==> name !in g.sprocInfo
    ensures r.Failure? ==> r.error == MissingKey
    ensures r.Success? ==> r.value == g.sprocInfo[name].sprocExists
  {
    if name in g.sprocInfo then Success(g.sprocInfo[name].sprocExists) else Failure(MissingKey)
  }

  /** After probing, `sprocs_exists` answers for every probed name whether
      its count was positive, and for every other name what it answered
      before. The identity check can then run over the probed names without
      a `KeyError`, and it skips those whose count was not positive. */
  lemma ProbedNamesAnswer(g: Graph, g': Graph, count: string -> Result<int>, compare: string -> Result<bool>,
                          names: seq<string>, n: nat)
    requires n <= |names|
    requires forall j | 0 <= j < n :: count(names[j]).Success?
    requires ProbedRows(g.sprocInfo, g'.sprocInfo, count, names, n)
    ensures forall j | 0 <= j < n :: SprocsExists(g', names[j]) == Success(count(names[j]).value > 0)
    ensures forall k | k !in names[..n] :: SprocsExists(g', k) == SprocsExists(g, k)
    ensures forall j | 0 <= j < n :: IdentityProbe(g'.sprocInfo, compare, names[j]).Failure? ==>
      count(names[j]).value > 0 && compare(names[j]).Failure?
    ensures forall j | 0 <= j < n && count(names[j]).value <= 0 ::
      IdentityProbe(g'.sprocInfo, compare, names[j]) == Success(None)
  {
    forall j | 0 <= j < n
      ensures names[j] in names[..n]
    {
      assert names[..n][j] == names[j];
    }
  }

  /** The identity check leaves every answer of `sprocs_exists` as it was. */
  lemma CheckKeepsExistence(g: Graph, g': Graph, compare: string -> Result<bool>, names: seq<string>, n: nat)
    requires n <= |names|
    requires CheckedRows(g.sprocInfo, g'.sprocInfo, compare, names, n)
    ensures forall k :: SprocsExists(g', k) == SprocsExists(g, k)
  {
  }
}
