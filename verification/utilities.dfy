/** Column-name classifiers and the API's row-to-record conversion. A
    classifier compares the lower-cased name against a fixed list of
    spellings; the auto-include rule is the union of three of them. */
module Utilities {
  import opened Base
  import opened Text
  import Lists

  const LineNumberAnalogs: seq<string> := [
    "line number", "linenumber", "line num", "linenum", "line no", "lineno", "line#", "line #"]

  const ForbiddenColumnNames: seq<string> := ["company", "companyno"]

  const VoucherAnalogs: seq<string> := [
    "vouchernumber", "voucherno", "vouchernum", "voucher number", "voucher no", "voucher num", "voucher"]

  /** The batch spellings; the list includes the misspelling "batchn umber". */
  const BatchAnalogs: seq<string> := [
    "batchnumber", "batchno", "batchnum", "batchid", "batch", "batchn umber", "batch no", "batch num", "batch id"]

  predicate IsLineNumber(text: string) {
    Lower(text) in LineNumberAnalogs
  }

  predicate IsForbiddenColumnName(text: string) {
    Lower(text) in ForbiddenColumnNames
  }

  predicate IsVoucherAnalog(text: string) {
    Lower(text) in VoucherAnalogs
  }

  predicate IsBatchAnalog(text: string) {
    Lower(text) in BatchAnalogs
  }

  /** Whether a column is included without being asked for: a forbidden
      name, a voucher analog or a batch analog. Line-number analogs are not
      part of the rule. The name is lower-cased before the three checks,
      which lower-case it again. */
  function IsAutoIncluded(text: string): (r: bool)
    ensures r <==> IsForbiddenColumnName(text) || IsVoucherAnalog(text) || IsBatchAnalog(text)
  {
    var t := Lower(text);
    LowerIdempotent(text);
    IsForbiddenColumnName(t) || IsVoucherAnalog(t) || IsBatchAnalog(t)
  }

  /** Every spelling of a list without upper-case ASCII letters is its own
      lower case. */
  lemma ListIsLowerCase(xs: seq<string>)
    requires forall k, i | 0 <= k < |xs| && 0 <= i < |xs[k]| :: !('A' <= xs[k][i] <= 'Z')
    ensures forall a | a in xs :: Lower(a) == a
  {
    forall a | a in xs
      ensures Lower(a) == a
    {
      LowerFixesLowerCase(a);
    }
  }

  /** Every line-number spelling is lower case and recognised as one. */
  lemma LineNumberAnalogsAreLowerCase()
    ensures forall a | a in LineNumberAnalogs :: Lower(a) == a && IsLineNumber(a)
  {
    ListIsLowerCase(LineNumberAnalogs);
  }

  /** Every forbidden name is lower case and recognised as one. */
  lemma ForbiddenColumnNamesAreLowerCase()
    ensures forall a | a in ForbiddenColumnNames :: Lower(a) == a && IsForbiddenColumnName(a)
  {
    ListIsLowerCase(ForbiddenColumnNames);
  }

  /** Every voucher spelling is lower case and recognised as one. */
  lemma VoucherAnalogsAreLowerCase()
    ensures forall a | a in VoucherAnalogs :: Lower(a) == a && IsVoucherAnalog(a)
  {
    ListIsLowerCase(VoucherAnalogs);
  }

  /** Every batch spelling is lower case and recognised as one. */
  lemma BatchAnalogsAreLowerCase()
    ensures forall a | a in BatchAnalogs :: Lower(a) == a && IsBatchAnalog(a)
  {
    ListIsLowerCase(BatchAnalogs);
  }

  /** A string with no upper-case ASCII letter is its own lower case. */
  lemma LowerFixesLowerCase(s: string)
    requires forall i | 0 <= i < |s| :: !('A' <= s[i] <= 'Z')
    ensures Lower(s) == s
  {
  }

  /** The classifiers ignore case: a name and its lower case are classified
      alike. */
  lemma ClassifiersIgnoreCase(text: string)
    ensures IsLineNumber(Lower(text)) == IsLineNumber(text)
    ensures IsForbiddenColumnName(Lower(text)) == IsForbiddenColumnName(text)
    ensures IsVoucherAnalog(Lower(text)) == IsVoucherAnalog(text)
    ensures IsBatchAnalog(Lower(text)) == IsBatchAnalog(text)
    ensures IsAutoIncluded(Lower(text)) == IsAutoIncluded(text)
  {
    LowerIdempotent(text);
  }

  /** No line-number analog is auto-included: the four lists share no
      spelling with the line-number list. */
  lemma LineNumbersNotAutoIncluded(text: string)
    requires IsLineNumber(text)
    ensures !IsAutoIncluded(text)
  {
    var t := Lower(text);
    assert t in LineNumberAnalogs;
    assert t !in ForbiddenColumnNames + VoucherAnalogs + BatchAnalogs;
  }

  /** `t` is the lower case of `s`, checked character by character. */
  lemma LowerIs(s: string, t: string)
    requires |s| == |t| && forall i | 0 <= i < |s| :: LowerChar(s[i]) == t[i]
    ensures Lower(s) == t
  {
  }

  /** A voucher spelling in mixed case is auto-included. */
  lemma VoucherNoIsAutoIncluded()
    ensures IsVoucherAnalog("Voucher No") && IsAutoIncluded("Voucher No")
  {
    LowerIs("Voucher No", "voucher no");
    assert VoucherAnalogs[4] == "voucher no";
  }

  /** The company column in upper case is auto-included. */
  lemma CompanyIsAutoIncluded()
    ensures IsForbiddenColumnName("COMPANY") && IsAutoIncluded("COMPANY")
  {
    LowerIs("COMPANY", "company");
    assert ForbiddenColumnNames[0] == "company";
  }

  /** A line-number spelling in mixed case is recognised as one, and is not
      auto-included. */
  lemma LineNumberIsNotAutoIncluded()
    ensures IsLineNumber("Line Number") && !IsAutoIncluded("Line Number")
  {
    LowerIs("Line Number", "line number");
    assert LineNumberAnalogs[0] == "line number";
    LineNumbersNotAutoIncluded("Line Number");
  }

  /** `api_row_to_json`: the row as a record keyed by column name. The
      `i`-th value goes under the `i`-th column's name; a later column with
      the same name overrides an earlier one; a row longer than the column
      list raises `IndexError`. */
  function ApiRowToJson<V>(row: seq<V>, names: seq<string>): (r: Result<map<string, V>>)
    ensures r.Failure? <==> |row| > |names|
    ensures r.Failure? ==> r.error == IndexOutOfRange
    ensures r.Success? ==> r.value.Keys == set i | 0 <= i < |row| :: names[i]
    ensures r.Success? ==> forall i | 0 <= i < |row| ::
      (forall j | i < j < |row| :: names[j] != names[i]) ==> r.value[names[i]] == row[i]
  {
    if |row| > |names| then Failure(IndexOutOfRange) else Success(Record(row, names))
  }

  function Record<V>(row: seq<V>, names: seq<string>): (m: map<string, V>)
    requires |row| <= |names|
    ensures m.Keys == set i | 0 <= i < |row| :: names[i]
    ensures forall i | 0 <= i < |row| ::
      (forall j | i < j < |row| :: names[j] != names[i]) ==> m[names[i]] == row[i]
    decreases |row|
  {
    if row == [] then map[]
    else
      var n := |row| - 1;
      var m := Record(row[..n], names);
      assert row == row[..n] + [row[n]];
      RecordStep(row[..n], row[n], names, m);
      m[names[n] := row[n]]
  }

  /** Adding the next column's value to the record of the columns before it. */
  lemma RecordStep<V>(front: seq<V>, last: V, names: seq<string>, m: map<string, V>)
    requires |front| < |names|
    requires m.Keys == set i | 0 <= i < |front| :: names[i]
    requires forall i | 0 <= i < |front| ::
      (forall j | i < j < |front| :: names[j] != names[i]) ==> m[names[i]] == front[i]
    ensures var row := front + [last];
      var m' := m[names[|front|] := last];
      && m'.Keys == (set i | 0 <= i < |row| :: names[i])
      && forall i | 0 <= i < |row| ::
        (forall j | i < j < |row| :: names[j] != names[i]) ==> m'[names[i]] == row[i]
  {
    var row := front + [last];
    var n := |front|;
    var m' := m[names[n] := last];
    assert forall i | 0 <= i < n :: row[i] == front[i];
    assert m'.Keys == m.Keys + {names[n]};
    assert (set i | 0 <= i < |row| :: names[i]) == (set i | 0 <= i < n :: names[i]) + {names[n]};
  }

  /** With distinct column names and a value for every column, reading the
      record back column by column gives the row. */
  lemma RowRoundTrip<V>(row: seq<V>, names: seq<string>)
    requires |row| == |names|
    requires forall i, j | 0 <= i < j < |names| :: names[i] != names[j]
    ensures ApiRowToJson(row, names).Success?
    ensures var m := ApiRowToJson(row, names).value;
      forall i | 0 <= i < |names| :: names[i] in m && m[names[i]] == row[i]
  {
  }

  /** The first value of a row, or `IndexError` for an empty row. */
  function Head<V>(row: seq<V>): (r: Result<V>)
    ensures r.Success? <==> row != []
    ensures r.Success? ==> r.value == row[0]
    ensures r.Failure? ==> r.error == IndexOutOfRange
  {
    if row == [] then Failure(IndexOutOfRange) else Success(row[0])
  }

  /** The first column of every row, in row order, as the AI-profile and
      event-task getters of both backends return it. */
  function FirstColumn<V>(rows: seq<seq<V>>): (r: Result<seq<V>>)
    ensures r.Success? <==> forall i | 0 <= i < |rows| :: rows[i] != []
    ensures r.Success? ==> |r.value| == |rows| && forall i | 0 <= i < |rows| :: r.value[i] == rows[i][0]
    ensures r.Failure? ==> r.error == IndexOutOfRange
  {
    Lists.MapAll(rows, Head)
  }
}
