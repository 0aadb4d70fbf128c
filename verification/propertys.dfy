/** A DocLink property and the SQL text derived from it: its column type,
    its sanitised column identifier, and the three per-column fragments the
    staging-table and export-procedure renderers concatenate. */
module Propertys {
  import opened Base
  import opened Text

  /** The fields of a property row that the model reads. */
  datatype Property = Property(
    PropertyId: int,
    PropertyName: string,
    UserPrompt: string,
    DataType: int,
    FieldName: string)

  /** The SQL column type for a property data-type code. */
  function FormattedDataType(p: Property): (r: Result<string>)
    ensures r.Success? <==> 0 <= p.DataType <= 4
    ensures r.Failure? ==> r.error == InvalidDataType
  {
    match p.DataType
    case 0 => Success("[varchar](250) NULL")
    case 3 => Success("[varchar](250) NULL")
    case 1 => Success("[int] NULL")
    case 2 => Success("[datetime] NULL")
    case 4 => Success("[decimal](18, 2) NULL")
    case _ => Failure(InvalidDataType)
  }

  /** A prompt turned into a column identifier: spaces removed, `#` spelled
      `No`, surrounding whitespace stripped. */
  function FormatPrompt(prompt: string): (r: string)
    ensures ' ' !in r && '#' !in r
    ensures Stripped(r)
  {
    var spaceless := Replace(prompt, ' ', "");
    var numbered := Replace(spaceless, '#', "No");
    ReplaceDrawsFrom(prompt, ' ', "");
    ReplaceDrawsFrom(spaceless, '#', "No");
    StripKeepsCharacters(numbered);
    Strip(numbered)
  }

  function FormattedUserPrompt(p: Property): string {
    FormatPrompt(p.UserPrompt)
  }

  /** Formatting an identifier that is already formatted changes nothing. */
  lemma FormatPromptIdempotent(prompt: string)
    ensures FormatPrompt(FormatPrompt(prompt)) == FormatPrompt(prompt)
  {
    var t := FormatPrompt(prompt);
    ReplaceWithoutPattern(t, ' ', "");
    ReplaceWithoutPattern(t, '#', "No");
    StripFixesStripped(t);
  }

  /** An identifier-safe word: non-empty, no space, no `#`, not starting
      with whitespace. */
  predicate PlainWord(w: string) {
    w != [] && ' ' !in w && '#' !in w && !IsSpace(w[0])
  }

  /** Two words separated by a space are joined: `"Amount Due"` becomes
      `"AmountDue"`. */
  lemma FormatPromptJoinsWords(a: string, b: string)
    requires PlainWord(a) && PlainWord(b) && !IsSpace(b[|b| - 1])
    ensures FormatPrompt(a + " " + b) == a + b
  {
    var joined := Replace(a + " " + b, ' ', "");
    assert joined == a + b by {
      ReplaceConcat(a + " ", b, ' ', "");
      ReplaceConcat(a, " ", ' ', "");
      ReplaceWithoutPattern(a, ' ', "");
      ReplaceWithoutPattern(b, ' ', "");
      assert Replace(" ", ' ', "") == "";
    }
    ReplaceWithoutPattern(joined, '#', "No");
    assert Stripped(joined);
    StripFixesStripped(joined);
  }

  /** A trailing `" #"` becomes `"No"`: `"Invoice #"` becomes `"InvoiceNo"`. */
  lemma FormatPromptNumberSign(a: string)
    requires PlainWord(a)
    ensures FormatPrompt(a + " #") == a + "No"
  {
    var joined := Replace(a + " #", ' ', "");
    assert joined == a + "#" by {
      assert a + " #" == (a + " ") + "#";
      ReplaceConcat(a + " ", "#", ' ', "");
      ReplaceConcat(a, " ", ' ', "");
      ReplaceWithoutPattern(a, ' ', "");
      assert Replace(" ", ' ', "") == "";
      assert Replace("#", ' ', "") == "#";
    }
    var numbered := Replace(joined, '#', "No");
    assert numbered == a + "No" by {
      ReplaceConcat(a, "#", '#', "No");
      ReplaceWithoutPattern(a, '#', "No");
      assert Replace("#", '#', "No") == "No";
    }
    assert Stripped(numbered);
    StripFixesStripped(numbered);
  }

  /** Typed column declaration `,[Prompt] <type>` plus terminator. */
  function PromptTypeString(p: Property): (r: Result<string>)
    ensures r.Success? <==> 0 <= p.DataType <= 4
    ensures r.Failure? ==> r.error == InvalidDataType
    ensures r.Success? ==> IsFragment(r.value)
  {
    match FormattedDataType(p)
    case Failure(e) => Failure(e)
    case Success(t) => Success(",[" + FormattedUserPrompt(p) + "] " + t + Terminator)
  }

  /** Plain column reference `,[Prompt]` plus terminator. */
  function PromptString(p: Property): (r: string)
    ensures IsFragment(r)
  {
    ",[" + FormattedUserPrompt(p) + "]" + Terminator
  }

  /** Column reference by numeric id `,[PropertyId]` plus terminator. */
  function IdString(p: Property): (r: string)
    ensures IsFragment(r)
  {
    ",[" + IntToString(p.PropertyId) + "]" + Terminator
  }

  /** The typed declaration is the plain reference with the type spliced in
      before the terminator, so both passes name the same column. */
  lemma TypedExtendsPlain(p: Property)
    requires 0 <= p.DataType <= 4
    ensures var plain := PromptString(p);
      PromptTypeString(p).value
        == plain[..|plain| - |Terminator|] + " " + FormattedDataType(p).value + Terminator
  {
    SpliceBeforeTerminator(FormattedUserPrompt(p), FormattedDataType(p).value);
  }

  /** The bracketed word with a type appended equals the bracketed word's
      fragment cut before its terminator, then the type. */
  lemma SpliceBeforeTerminator(w: string, t: string)
    ensures var plain := ",[" + w + "]" + Terminator;
      ",[" + w + "] " + t + Terminator == plain[..|plain| - |Terminator|] + " " + t + Terminator
  {
    var plain := ",[" + w + "]" + Terminator;
    assert plain[..|plain| - |Terminator|] == ",[" + w + "]";
  }

  /** The id fragment is determined by the property id alone and tells
      distinct ids apart; prompt and data type play no part. */
  lemma IdStringOnlyId(p: Property, q: Property)
    ensures IdString(p) == IdString(q) <==> p.PropertyId == q.PropertyId
  {
    if IdString(p) == IdString(q) {
      var a, b := IntToString(p.PropertyId), IntToString(q.PropertyId);
      assert IdString(p)[2..|IdString(p)| - 4] == a;
      assert IdString(q)[2..|IdString(q)| - 4] == b;
      IntToStringInjective(p.PropertyId, q.PropertyId);
    }
  }
}
