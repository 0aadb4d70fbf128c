/** Distribution stamps (dynamic UIs) and their fields, with the SQL text a
    field contributes to a stamp export: column type, identifier, the three
    per-column fragments, and the select expression that quote-escapes money
    columns. */
module Stamps {
  import opened Base
  import opened Text
  import Propertys

  /** The fields of a distribution-stamp field row that the model reads. */
  datatype DistributionStampField = DistributionStampField(
    DynamicUIFieldId: int,
    DynamicUIId: Uuid,
    Name: string,
    Caption: string,
    DataType: int,
    Sequence: int)

  /** A distribution stamp; its field list is attached after construction. */
  datatype DistributionStamp = DistributionStamp(
    DynamicUiId: Uuid,
    DynamicUISecurityId: int,
    Name: string,
    Description: string,
    DistributionStampFields: Option<seq<DistributionStampField>>)

  const DecimalType := "[decimal](18, 2) NULL"

  /** The SQL column type for a stamp-field data-type code. Unlike the
      property table, code 1 is a decimal, 2 and 3 are not nullable, and 3 is
      a small integer. */
  function FormattedDataType(f: DistributionStampField): (r: Result<string>)
    ensures r.Success? <==> 0 <= f.DataType <= 4
    ensures r.Failure? ==> r.error == InvalidDataType
  {
    match f.DataType
    case 0 => Success("[varchar](250) NULL")
    case 3 => Success("[smallint]")
    case 2 => Success("[datetime]")
    case 1 => Success(DecimalType)
    case 4 => Success(DecimalType)
    case _ => Failure(InvalidDataType)
  }

  /** The two type tables give the same SQL type for codes 0 and 4 only. */
  lemma TypeTablesDiffer(p: Propertys.Property, f: DistributionStampField)
    requires p.DataType == f.DataType && 0 <= f.DataType <= 4
    ensures Propertys.FormattedDataType(p) == FormattedDataType(f)
      <==> f.DataType == 0 || f.DataType == 4
  {
  }

  /** A caption turned into a column identifier: spaces removed and `#`
      spelled `No`, but, unlike a property prompt, not stripped. */
  function FormatCaption(caption: string): (r: string)
    ensures ' ' !in r && '#' !in r
  {
    var spaceless := Replace(caption, ' ', "");
    ReplaceDrawsFrom(caption, ' ', "");
    ReplaceDrawsFrom(spaceless, '#', "No");
    Replace(spaceless, '#', "No")
  }

  function UserPrompt(f: DistributionStampField): string {
    FormatCaption(f.Caption)
  }

  /** A property prompt is formatted exactly like a caption and then stripped. */
  lemma PromptIsStrippedCaption(s: string)
    ensures Propertys.FormatPrompt(s) == Strip(FormatCaption(s))
  {
  }

  /** Formatting a formatted caption changes nothing. */
  lemma FormatCaptionIdempotent(caption: string)
    ensures FormatCaption(FormatCaption(caption)) == FormatCaption(caption)
  {
    var t := FormatCaption(caption);
    ReplaceWithoutPattern(t, ' ', "");
    ReplaceWithoutPattern(t, '#', "No");
  }

  /** Leading whitespace other than a space survives caption formatting,
      where property-prompt formatting would strip it. */
  lemma {:induction false} FormatCaptionKeepsLeadingWhitespace(c: char, rest: string)
    requires IsSpace(c) && c != ' '
    ensures FormatCaption([c] + rest) == [c] + FormatCaption(rest)
    ensures Propertys.FormatPrompt([c] + rest) == Strip(FormatCaption(rest))
  {
    ReplaceConcat([c], rest, ' ', "");
    ReplaceConcat([c], Replace(rest, ' ', ""), '#', "No");
    var t := FormatCaption([c] + rest);
    assert StripLeft(t) == StripLeft(FormatCaption(rest)) by {
      assert t[1..] == FormatCaption(rest);
    }
  }

  /** Typed column declaration `,[Caption] <type>` plus terminator. */
  function PromptTypeString(f: DistributionStampField): (r: Result<string>)
    ensures r.Success? <==> 0 <= f.DataType <= 4
    ensures r.Failure? ==> r.error == InvalidDataType
    ensures r.Success? ==> IsFragment(r.value)
  {
    match FormattedDataType(f)
    case Failure(e) => Failure(e)
    case Success(t) => Success(",[" + UserPrompt(f) + "] " + t + Terminator)
  }

  /** Plain column reference `,[Caption]` plus terminator. */
  function PromptString(f: DistributionStampField): (r: string)
    ensures IsFragment(r)
  {
    ",[" + UserPrompt(f) + "]" + Terminator
  }

  /** The bracketed field id a select expression reads, `[<id>]`. */
  function SelectedColumn(f: DistributionStampField): string {
    "[" + IntToString(f.DynamicUIFieldId) + "]"
  }

  /** The trailing SQL comment naming the field, ` --<prompt>`. */
  function PromptComment(f: DistributionStampField): string {
    " --" + UserPrompt(f)
  }

  /** The select expression for one field, with the formatted caption as a
      trailing SQL comment. Money columns (codes 1 and 4) are wrapped in a
      `REPLACE` that doubles single quotes; the others are selected as is.
      It accepts exactly the codes the type table accepts. */
  function SelectStatement(f: DistributionStampField): (r: Result<string>)
    ensures r.Success? <==> FormattedDataType(f).Success?
    ensures r.Failure? ==> r.error == InvalidDataType
    ensures r.Success? ==> |r.value| > 1 && r.value[0] == ','
    ensures r.Success? ==> (r.value[1] == 'R' <==> FormattedDataType(f).value == DecimalType)
    ensures f.DataType == 1 || f.DataType == 4 ==> r.Success? && |r.value| > 10 && r.value[..10] == ",REPLACE(["
    ensures f.DataType == 0 || f.DataType == 2 || f.DataType == 3 ==>
      && r.Success?
      && |r.value| == 1 + |SelectedColumn(f)| + |PromptComment(f)|
      && r.value[1..1 + |SelectedColumn(f)|] == SelectedColumn(f)
    ensures f.DataType == 1 || f.DataType == 4 ==>
      && 9 + |SelectedColumn(f)| + |PromptComment(f)| <= |r.value|
      && r.value[9..9 + |SelectedColumn(f)|] == SelectedColumn(f)
      && r.value[9 + |SelectedColumn(f)|..|r.value| - |PromptComment(f)|] == ",'','','''')"
    ensures r.Success? ==>
      |PromptComment(f)| <= |r.value| && r.value[|r.value| - |PromptComment(f)|..] == PromptComment(f)
  {
    var column := SelectedColumn(f);
    var comment := PromptComment(f);
    if f.DataType == 0 || f.DataType == 2 || f.DataType == 3 then
      Success(Assemble(",", column, "", comment))
    else if f.DataType == 1 || f.DataType == 4 then
      Success(Assemble(",REPLACE(", column, ",'','','''')", comment))
    else
      Failure(InvalidDataType)
  }

  /** `lead + column + rest + comment`, with where each part sits. */
  function Assemble(lead: string, column: string, rest: string, comment: string): (s: string)
    ensures |lead| + |column| + |comment| <= |s|
    ensures s[..|lead|] == lead
    ensures s[|lead|..|lead| + |column|] == column
    ensures s[|s| - |comment|..] == comment
    ensures |s| == |lead| + |column| + |rest| + |comment|
    ensures s[|lead| + |column|..|s| - |comment|] == rest
  {
    var s := lead + column + rest + comment;
    assert s[..|lead|] == lead;
    assert s[|lead|..|lead| + |column|] == column;
    assert s[|s| - |comment|..] == comment;
    assert s[|lead| + |column|..|s| - |comment|] == rest;
    s
  }

  /** The select expression plus terminator. */
  function SelectStatementString(f: DistributionStampField): (r: Result<string>)
    ensures r.Success? <==> 0 <= f.DataType <= 4
    ensures r.Success? ==> IsFragment(r.value)
  {
    match SelectStatement(f)
    case Failure(e) => Failure(e)
    case Success(s) => Success(s + Terminator)
  }

  /** A field's staging table column name is its caption, unformatted. */
  function TableName(f: DistributionStampField): string {
    f.Caption
  }

  /** The table name keeps the caption as it is, so a caption with a space
      or a `#` gives a table name that differs from the field's prompt. */
  lemma TableNameIsRawCaption(f: DistributionStampField)
    ensures TableName(f) == f.Caption
    ensures (' ' in f.Caption || '#' in f.Caption) ==> TableName(f) != UserPrompt(f)
  {
  }
}
