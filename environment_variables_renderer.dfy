/**
  `EnvironmentVariablesRenderer`: the help-section renderer that lists
  environment variables with their descriptions as a two-column table.

  The table itself belongs to picocli's `TextTable`; here it is a sink that
  records its columns, its CJK line-break flag and the rows it is given,
  and `Layout` is what `toString()` would turn into text.
 */
module EnvironmentVariablesRenderer {
  import opened JavaLang

  /** One entry of the `LinkedHashMap` of variable names to descriptions. */
  datatype Entry = Entry(key: string, value: string)

  /** The map's entries in insertion order, the order `entrySet()` yields. */
  type Env = seq<Entry>

  /** `env.keySet()`. */
  function KeySet(env: Env): (keys: set<string>)
    ensures forall i :: 0 <= i < |env| ==> env[i].key in keys
    ensures forall k :: k in keys ==> exists i :: 0 <= i < |env| && env[i].key == k
  {
    set i | 0 <= i < |env| :: env[i].key
  }

  /** What the renderer reads from `CommandLine.Help`: the usage width and
      whether line breaks are adjusted for wide CJK characters. */
  datatype Help = Help(width: int32, adjustCJK: bool)

  /** `Column.Overflow`. */
  datatype Overflow = Span | Wrap

  /** `new Column(width, indent, overflow)`. */
  datatype Column = Column(width: int32, indent: int32, overflow: Overflow)

  /** Everything a `TextTable` renders from: its columns, its CJK flag and
      the values of each row. */
  datatype Layout = Layout(columns: seq<Column>, adjustCJK: bool, rows: seq<seq<string>>)

  /** What `render` returns: a plain string, or the text of a table. */
  datatype SectionText = Text(text: string) | Table(layout: Layout)

  /** picocli's `TextTable`, reduced to the state `render` gives it. */
  class TextTable {
    var columns: seq<Column>
    var adjustLineBreaksForWideCJKCharacters: bool
    var rows: seq<seq<string>>

    /** `TextTable.forColumns(ansi, columns...)`: a table with no rows. */
    constructor ForColumns(columns: seq<Column>)
      ensures this.columns == columns && rows == []
    {
      this.columns := columns;
      adjustLineBreaksForWideCJKCharacters := true;
      rows := [];
    }

    method SetAdjustLineBreaksForWideCJKCharacters(adjust: bool)
      modifies this
      ensures adjustLineBreaksForWideCJKCharacters == adjust
      ensures columns == old(columns) && rows == old(rows)
    {
      adjustLineBreaksForWideCJKCharacters := adjust;
    }

    /** `addRowValues(values...)`: appends one row. */
    method AddRowValues(values: seq<string>)
      modifies this
      ensures rows == old(rows) + [values]
      ensures columns == old(columns)
      ensures adjustLineBreaksForWideCJKCharacters == old(adjustLineBreaksForWideCJKCharacters)
    {
      rows := rows + [values];
    }

    /** What `toString()` renders: the columns, the flag and the rows
        as the table holds them now. */
    function Content(): (layout: Layout)
      reads this
      ensures layout.columns == columns && layout.rows == rows
      ensures layout.adjustCJK == adjustLineBreaksForWideCJKCharacters
    {
      Layout(columns, adjustLineBreaksForWideCJKCharacters, rows)
    }
  }

  /** n is the longest length among keys, and 0 when there are no keys. */
  ghost predicate IsMaxLength(n: nat, keys: set<string>)
  {
    && (forall k :: k in keys ==> |k| <= n)
    && (if keys == {} then n == 0 else exists k :: k in keys && |k| == n)
  }

  /** The longest key length, defined by taking keys out one at a time. */
  ghost function LongestKeyLength(keys: set<string>): (n: nat)
    ensures IsMaxLength(n, keys)
    decreases keys
  {
    if keys == {} then 0
    else
      var k :| k in keys;
      var m := LongestKeyLength(keys - {k});
      if |k| < m then m else |k|
  }

  /** There is only one longest length. */
  lemma MaxLengthUnique(a: nat, b: nat, keys: set<string>)
    requires IsMaxLength(a, keys) && IsMaxLength(b, keys)
    ensures a == b
  {
  }

  /** `maxLength(keySet)`: the accumulator `result` starts at 0 and takes
      `Math.max(result, k.length())` for every key. */
  method MaxLength(keySet: set<string>) returns (result: nat)
    ensures forall k :: k in keySet ==> |k| <= result
    ensures keySet == {} ==> result == 0
    ensures keySet != {} ==> exists k :: k in keySet && |k| == result
  {
    result := 0;
    var remaining := keySet;
    while remaining != {}
      invariant remaining <= keySet
      invariant forall k :: k in keySet - remaining ==> |k| <= result
      invariant result == 0 || exists k :: k in keySet - remaining && |k| == result
      decreases remaining
    {
      var k :| k in remaining;
      if |k| > result {
        result := |k|;
      }
      remaining := remaining - {k};
    }
    if keySet != {} && result == 0 {
      var k :| k in keySet;
      assert |k| == 0;
    }
  }

  /** Width of the key column, `keyLength + 3` in Java `int` arithmetic:
      two places of indent, the key, and one place before the description. */
  function KeyColumnWidth(keyLength: nat): (w: int32)
    ensures keyLength + 3 <= INT_MAX ==> w == keyLength + 3
  {
    Int32(keyLength + 3)
  }

  /** Width of the description column, `width - (keyLength + 3)` in Java
      `int` arithmetic. */
  function DescriptionColumnWidth(width: int32, keyLength: nat): (w: int32)
    ensures INT_MIN <= width - KeyColumnWidth(keyLength) <= INT_MAX ==>
      w == width - KeyColumnWidth(keyLength)
  {
    Int32(width - KeyColumnWidth(keyLength))
  }

  /** The two columns share the usage width: their widths add up to it
      modulo 2^32 always, and add up with no wrap-around if the width is
      not negative and `keyLength + 3` does not overflow. */
  lemma ColumnWidthsAddUp(width: int32, keyLength: nat)
    ensures Int32(KeyColumnWidth(keyLength) + DescriptionColumnWidth(width, keyLength)) == width
    ensures 0 <= width && keyLength + 3 <= INT_MAX ==>
      KeyColumnWidth(keyLength) + DescriptionColumnWidth(width, keyLength) == width
  {
  }

  /** The columns `render` lays the table out with, for the longest key
      length: a key column that may span into the next one and a description
      column that wraps, both indented by two places, sharing the width. */
  function Columns(width: int32, keyLength: nat): (columns: seq<Column>)
    ensures |columns| == 2
    ensures columns[0].indent == 2 && columns[0].overflow == Span
    ensures columns[1].indent == 2 && columns[1].overflow == Wrap
    ensures keyLength + 3 <= INT_MAX ==> columns[0].width == keyLength + 3
    ensures Int32(columns[0].width + columns[1].width) == width
    ensures 0 <= width && keyLength + 3 <= INT_MAX ==> columns[0].width + columns[1].width == width
  {
    ColumnWidthsAddUp(width, keyLength);
    [ Column(KeyColumnWidth(keyLength), 2, Span),
      Column(DescriptionColumnWidth(width, keyLength), 2, Wrap) ]
  }

  /** `render(help)`: nothing for an empty map; otherwise a table whose key
      column fits the longest key and whose rows are the entries in order. */
  method Render(env: Env, help: Help) returns (text: SectionText)
    ensures text.Text? <==> env == []
    ensures text.Text? ==> text.text == ""
    ensures text.Table? ==>
      && text.layout.columns == Columns(help.width, LongestKeyLength(KeySet(env)))
      && text.layout.adjustCJK == help.adjustCJK
      && |text.layout.rows| == |env|
      && forall i :: 0 <= i < |env| ==> text.layout.rows[i] == [env[i].key, env[i].value]
  {
    if |env| == 0 {
      return Text("");
    }
    assert env[0].key in KeySet(env);
    var keyLength := MaxLength(KeySet(env));
    MaxLengthUnique(keyLength, LongestKeyLength(KeySet(env)), KeySet(env));
    var textTable := new TextTable.ForColumns(Columns(help.width, keyLength));
    textTable.SetAdjustLineBreaksForWideCJKCharacters(help.adjustCJK);
    for i := 0 to |env|
      invariant textTable.columns == Columns(help.width, keyLength)
      invariant textTable.adjustLineBreaksForWideCJKCharacters == help.adjustCJK
      invariant |textTable.rows| == i
      invariant forall j :: 0 <= j < i ==> textTable.rows[j] == [env[j].key, env[j].value]
    {
      textTable.AddRowValues([env[i].key, env[i].value]);
    }
    text := Table(textTable.Content());
  }

  /** The map built by the example's `main`, rendered at width 80: the
      key column is 14 wide, the description column 66, and the rows keep
      the insertion order. */
  method RenderExample() {
    var env := [ Entry("FOO_CREATOR", "The foo's creator"),
                 Entry("BAR_CREATOR", "The bar's creator"),
                 Entry("XYZ", "xxxx yyyy zzz") ];
    var keys := KeySet(env);
    assert IsMaxLength(11, keys) by {
      assert "FOO_CREATOR" in keys && |"FOO_CREATOR"| == 11;
    }
    MaxLengthUnique(11, LongestKeyLength(keys), keys);
    var text := Render(env, Help(80, true));
    assert text.layout.columns == [Column(14, 2, Span), Column(66, 2, Wrap)];
    assert text.layout.rows[0] == ["FOO_CREATOR", "The foo's creator"];
    assert text.layout.rows[2] == ["XYZ", "xxxx yyyy zzz"];
    var empty := Render([], Help(80, true));
    assert empty == Text("");
  }
}
