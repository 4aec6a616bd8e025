/** The survey rows as the CSV loader delivers them, and their normalisation
    (Homework3/nigomez/main.js:29-39, Homework2/nigomez/main.js:28-38). */
module Survey {
  import opened Wrappers

  /** One cell of a row object. The loader fills cells with text (`Absent` is a
      column the file does not have, read as `undefined`); normalisation
      overwrites numeric cells with numbers, where `Number(None)` is NaN. */
  datatype Value = Absent | Text(s: string) | Number(n: Option<real>)

  /** The nine columns the charts read; other columns are never touched. */
  datatype Row = Row(
    hoursPerDay: Value, anxiety: Value, depression: Value, insomnia: Value, ocd: Value, age: Value,
    primaryStreamingService: Value, musicEffects: Value, favGenre: Value)

  /** A normalised row with typed fields: a missing number is `None`. */
  datatype Record = Record(
    hoursPerDay: Option<real>, anxiety: Option<real>, depression: Option<real>,
    insomnia: Option<real>, ocd: Option<real>, age: Option<real>,
    primaryStreamingService: string, musicEffects: string, favGenre: string)

  const Unknown: string := "Unknown"

  /** JavaScript truthiness: `undefined`, `""`, `0` and NaN are falsy. */
  predicate Truthy(v: Value)
  {
    match v
    case Absent => false
    case Text(s) => s != ""
    case Number(n) => n.Some? && n.value != 0.0
  }

  /** JavaScript `Number(v)`; the parse of a string is left abstract as `parse`. */
  function ToNumber(v: Value, parse: string -> Option<real>): Option<real>
  {
    match v
    case Absent => None
    case Text(s) => parse(s)
    case Number(n) => n
  }

  /** `d.x ? Number(d.x) : NaN` */
  function NumericField(v: Value, parse: string -> Option<real>): (r: Value)
    ensures r.Number?
    ensures !Truthy(v) ==> r.n.None?
  {
    if Truthy(v) then Number(ToNumber(v, parse)) else Number(None)
  }

  /** `d.x || "Unknown"` */
  function CategoricalField(v: Value): (r: Value)
    ensures Truthy(r)
    ensures Truthy(v) ==> r == v
  {
    if Truthy(v) then v else Text(Unknown)
  }

  /** The rewrite the loader's `forEach` applies to one row. */
  function NormalizeRow(d: Row, parse: string -> Option<real>): Row
  {
    d.(hoursPerDay := NumericField(d.hoursPerDay, parse),
       anxiety := NumericField(d.anxiety, parse),
       depression := NumericField(d.depression, parse),
       insomnia := NumericField(d.insomnia, parse),
       ocd := NumericField(d.ocd, parse),
       age := NumericField(d.age, parse),
       primaryStreamingService := CategoricalField(d.primaryStreamingService),
       musicEffects := CategoricalField(d.musicEffects),
       favGenre := CategoricalField(d.favGenre))
  }

  predicate IsRawValue(v: Value)
  {
    v.Absent? || v.Text?
  }

  /** A row as the CSV loader produces it: every cell is text or absent. */
  predicate IsRaw(d: Row)
  {
    IsRawValue(d.hoursPerDay) && IsRawValue(d.anxiety) && IsRawValue(d.depression) &&
    IsRawValue(d.insomnia) && IsRawValue(d.ocd) && IsRawValue(d.age) &&
    IsRawValue(d.primaryStreamingService) && IsRawValue(d.musicEffects) && IsRawValue(d.favGenre)
  }

  predicate IsCategory(v: Value)
  {
    v.Text? && v.s != ""
  }

  /** A row after normalisation: numbers in the numeric cells, non-empty text in the others. */
  predicate IsNormalized(d: Row)
  {
    d.hoursPerDay.Number? && d.anxiety.Number? && d.depression.Number? &&
    d.insomnia.Number? && d.ocd.Number? && d.age.Number? &&
    IsCategory(d.primaryStreamingService) && IsCategory(d.musicEffects) && IsCategory(d.favGenre)
  }

  /** The raw text of a cell, with a missing column read as the empty string. */
  function RawText(v: Value): string
  {
    if v.Text? then v.s else ""
  }

  /** The typed reading of a normalised row. */
  function ToRecord(d: Row): Record
    requires IsNormalized(d)
  {
    Record(d.hoursPerDay.n, d.anxiety.n, d.depression.n, d.insomnia.n, d.ocd.n, d.age.n,
           d.primaryStreamingService.s, d.musicEffects.s, d.favGenre.s)
  }

  function Records(rows: seq<Row>): (recs: seq<Record>)
    requires forall i :: 0 <= i < |rows| ==> IsNormalized(rows[i])
    ensures |recs| == |rows|
  {
    seq(|rows|, i requires 0 <= i < |rows| => ToRecord(rows[i]))
  }

  /** What normalisation makes of a numeric column, stated on the raw text:
      missing when that text is empty or absent, otherwise `Number`'s reading
      of it (which is missing too for text `Number` cannot read). */
  function ParsedOrMissing(v: Value, parse: string -> Option<real>): Option<real>
  {
    if RawText(v) == "" then None else parse(RawText(v))
  }

  /** What normalisation makes of a categorical column, stated on the raw text. */
  function TextOrUnknown(v: Value): string
  {
    if RawText(v) == "" then Unknown else RawText(v)
  }

  /** A raw row normalises to a typed record whose numeric fields are missing
      when the raw text is empty or absent and are otherwise `Number`'s reading
      of the text (so "0" is kept, and text it cannot read is missing too), and
      whose categorical fields are the raw text, or "Unknown" in place of an
      empty one. */
  lemma NormalizeRowSpec(d: Row, parse: string -> Option<real>)
    requires IsRaw(d)
    ensures IsNormalized(NormalizeRow(d, parse))
    ensures var r := ToRecord(NormalizeRow(d, parse));
      r.hoursPerDay == ParsedOrMissing(d.hoursPerDay, parse) &&
      r.anxiety == ParsedOrMissing(d.anxiety, parse) &&
      r.depression == ParsedOrMissing(d.depression, parse) &&
      r.insomnia == ParsedOrMissing(d.insomnia, parse) &&
      r.ocd == ParsedOrMissing(d.ocd, parse) &&
      r.age == ParsedOrMissing(d.age, parse) &&
      r.primaryStreamingService == TextOrUnknown(d.primaryStreamingService) &&
      r.musicEffects == TextOrUnknown(d.musicEffects) &&
      r.favGenre == TextOrUnknown(d.favGenre) &&
      r.primaryStreamingService != "" && r.musicEffects != "" && r.favGenre != ""
  {
  }

  /** The loader's `forEach`: rewrites every row in place, field by field,
      keeping the number and order of rows. */
  method NormalizeRows(rows: array<Row>, parse: string -> Option<real>)
    modifies rows
    ensures forall i :: 0 <= i < rows.Length ==> rows[i] == NormalizeRow(old(rows[i]), parse)
    ensures (forall i :: 0 <= i < rows.Length ==> IsRaw(old(rows[i]))) ==>
              forall i :: 0 <= i < rows.Length ==> IsNormalized(rows[i])
  {
    var i := 0;
    while i < rows.Length
      invariant 0 <= i <= rows.Length
      invariant forall k :: 0 <= k < i ==> rows[k] == NormalizeRow(old(rows[k]), parse)
      invariant forall k :: i <= k < rows.Length ==> rows[k] == old(rows[k])
    {
      var d := rows[i];
      d := d.(hoursPerDay := NumericField(d.hoursPerDay, parse));
      d := d.(anxiety := NumericField(d.anxiety, parse));
      d := d.(depression := NumericField(d.depression, parse));
      d := d.(insomnia := NumericField(d.insomnia, parse));
      d := d.(ocd := NumericField(d.ocd, parse));
      d := d.(age := NumericField(d.age, parse));
      d := d.(primaryStreamingService := CategoricalField(d.primaryStreamingService));
      d := d.(musicEffects := CategoricalField(d.musicEffects));
      d := d.(favGenre := CategoricalField(d.favGenre));
      rows[i] := d;
      i := i + 1;
    }
    forall i | 0 <= i < rows.Length && IsRaw(old(rows[i]))
      ensures IsNormalized(rows[i])
    {
      NormalizeRowSpec(old(rows[i]), parse);
    }
  }
}
