# Environment-variables help section, modelled in Dafny

This project models picocli's `customhelp` example. The example adds an
"Environment Variables" section to a command's usage help. It does this in three steps:

- It registers two section renderers in the command's help section map.
  One prints the heading line. The other prints a two-column table of
  variable names and descriptions.
- It splices the two new section keys into the ordered list of section
  keys, just before the footer heading.
- At render time, the details renderer does three things. It returns `""`
  for an empty map. Otherwise it sizes the key column from the longest
  variable name. Then it adds one table row per map entry, in insertion order.

Modules:

- `JavaLang` covers Java `int` arithmetic, with explicit 32-bit
  wrap-around, and the exception the code can raise, as an error value.
- `JavaUtil` covers `List.indexOf`, with `FirstIndex` as its specification,
  and an `ArrayList` class with the copy constructor and `add(index, element)`.
- `EnvironmentVariablesRenderer` covers `maxLength`, the column widths and
  `render`. picocli's `TextTable` is a class that only records its columns,
  its CJK flag and its rows.
- `EnvironmentVariablesSection` covers `insertKey`, the splice
  properties, a `CommandLine` class holding the help section map and the
  key list, and `installRenderers`.

Inputs that picocli would supply are plain parameters. The usage width
(`width`) is an `int32` and the CJK line-break flag (`adjustCJK`) is a
`bool`, both in `Help`. The example's environment map is a sequence of
entries in insertion order.

Three points of the code's behaviour that the model keeps:

- The code registers both renderers (lines 53-58) before it calls
  `insertKey` (line 59). So when the footer heading is missing, the
  section map has already changed and the key list has not.
  `InstallRenderers` states exactly that.
- When the footer heading is missing, `indexOf` answers -1 and
  `ArrayList.add(-1, ...)` throws `IndexOutOfBoundsException` (lines 64-66).
  The model returns `Failure(IndexOutOfBounds(-1, size))`.
- The renderer keeps a reference to the caller's map (lines 73-77), not a
  copy (see "Left out").

## Model

| member | source | states |
|---|---|---|
| `JavaLang.Int32` | picocli-examples/src/main/java/picocli/examples/customhelp/EnvironmentVariablesSection.java:84-85 | Java `int` arithmetic: the result is within the `int` range, congruent to the exact value modulo 2^32, and equal to it when the exact value fits |
| `JavaUtil.FirstIndex` | picocli-examples/src/main/java/picocli/examples/customhelp/EnvironmentVariablesSection.java:64 | what `indexOf` answers: -1 exactly when the key is absent, otherwise an index that holds the key with no earlier occurrence |
| `JavaUtil.IndexOf` | picocli-examples/src/main/java/picocli/examples/customhelp/EnvironmentVariablesSection.java:64 | the front-to-back scan answers `FirstIndex` of the list |
| `JavaUtil.FirstIndexIsFirst` | picocli-examples/src/main/java/picocli/examples/customhelp/EnvironmentVariablesSection.java:64 | any position holding the key with no earlier occurrence is the one `indexOf` answers |
| `JavaUtil.ArrayList.Copy` | picocli-examples/src/main/java/picocli/examples/customhelp/EnvironmentVariablesSection.java:65 | the new list holds exactly the caller's keys |
| `JavaUtil.ArrayList.Add` | picocli-examples/src/main/java/picocli/examples/customhelp/EnvironmentVariablesSection.java:66-67 | inserts at the index and shifts the tail right when 0 <= index <= size; otherwise throws `IndexOutOfBounds(index, size)` and leaves the list unchanged |
| `EnvironmentVariablesRenderer.MaxLength` | picocli-examples/src/main/java/picocli/examples/customhelp/EnvironmentVariablesSection.java:102-106 | the result is at least every key's length, is 0 for an empty key set, and otherwise equals some key's length |
| `EnvironmentVariablesRenderer.LongestKeyLength` | picocli-examples/src/main/java/picocli/examples/customhelp/EnvironmentVariablesSection.java:82 | reference definition of the longest key length, proved to be the maximum (0 for no keys) |
| `EnvironmentVariablesRenderer.MaxLengthUnique` | picocli-examples/src/main/java/picocli/examples/customhelp/EnvironmentVariablesSection.java:82 | the maximum key length is unique, so `maxLength` and the reference definition agree |
| `EnvironmentVariablesRenderer.KeyColumnWidth` | picocli-examples/src/main/java/picocli/examples/customhelp/EnvironmentVariablesSection.java:84 | the key column is `keyLength + 3` wide whenever that sum fits in an `int` |
| `EnvironmentVariablesRenderer.DescriptionColumnWidth` | picocli-examples/src/main/java/picocli/examples/customhelp/EnvironmentVariablesSection.java:85 | the description column is `width - (keyLength + 3)` wide whenever that difference fits in an `int` |
| `EnvironmentVariablesRenderer.ColumnWidthsAddUp` | picocli-examples/src/main/java/picocli/examples/customhelp/EnvironmentVariablesSection.java:84-85 | the two widths always add up to the usage width modulo 2^32, and add up with no wrap-around if the width is not negative and `keyLength + 3` does not overflow |
| `EnvironmentVariablesRenderer.TextTable.ForColumns` | picocli-examples/src/main/java/picocli/examples/customhelp/EnvironmentVariablesSection.java:83-85 | a new table has the given columns and no rows |
| `EnvironmentVariablesRenderer.TextTable.SetAdjustLineBreaksForWideCJKCharacters` | picocli-examples/src/main/java/picocli/examples/customhelp/EnvironmentVariablesSection.java:86 | sets the CJK flag; columns and rows are unchanged |
| `EnvironmentVariablesRenderer.TextTable.AddRowValues` | picocli-examples/src/main/java/picocli/examples/customhelp/EnvironmentVariablesSection.java:89 | appends exactly one row; columns and the flag are unchanged |
| `EnvironmentVariablesRenderer.TextTable.Content` | picocli-examples/src/main/java/picocli/examples/customhelp/EnvironmentVariablesSection.java:91 | what `textTable.toString()` renders from: the table's current columns, CJK flag and rows |
| `EnvironmentVariablesRenderer.KeySet` | picocli-examples/src/main/java/picocli/examples/customhelp/EnvironmentVariablesSection.java:82 | `env.keySet()`: every entry's key is in the set, and every key in the set is some entry's key |
| `EnvironmentVariablesRenderer.Columns` | picocli-examples/src/main/java/picocli/examples/customhelp/EnvironmentVariablesSection.java:83-85 | exactly two columns: the key column indented 2 with SPAN overflow and `keyLength + 3` wide when that fits; the description column indented 2 with WRAP overflow; their widths add up to the usage width modulo 2^32, and with no wrap-around if the width is not negative and `keyLength + 3` fits |
| `EnvironmentVariablesRenderer.Render` | picocli-examples/src/main/java/picocli/examples/customhelp/EnvironmentVariablesSection.java:80-92 | returns `""` exactly when the map is empty. Otherwise returns a table with two columns: key column `keyLength + 3` (SPAN), description column `width - (keyLength + 3)` (WRAP), both indented 2. `keyLength` is the longest key. The table has the context's CJK flag and one row `[key, value]` per entry, in insertion order |
| `EnvironmentVariablesSection.InsertKey` | picocli-examples/src/main/java/picocli/examples/customhelp/EnvironmentVariablesSection.java:62-69 | fails with `IndexOutOfBounds(-1, size)` exactly when the footer heading is absent. Otherwise, with i the footer heading's first index: the result is 2 longer, keys before i are unchanged, the header key is at i, the details key at i+1, the footer heading at i+2, and each input key at j >= i is at j+2. The input is a value and is not changed |
| `EnvironmentVariablesSection.SpliceUndone` | picocli-examples/src/main/java/picocli/examples/customhelp/EnvironmentVariablesSection.java:65-67 | removing the two inserted keys gives back the original list |
| `EnvironmentVariablesSection.SpliceMultiset` | picocli-examples/src/main/java/picocli/examples/customhelp/EnvironmentVariablesSection.java:65-67 | the result holds the original keys plus exactly the two new ones |
| `EnvironmentVariablesSection.SpliceKeepsOrder` | picocli-examples/src/main/java/picocli/examples/customhelp/EnvironmentVariablesSection.java:65-67 | each original key keeps its relative order. Section keys stay unique when the two new keys were not already present |
| `EnvironmentVariablesSection.WithEnvironmentRenderers` | picocli-examples/src/main/java/picocli/examples/customhelp/EnvironmentVariablesSection.java:53-58 | after the two `put` calls the map has both new keys, with the header and details renderers. Every other key keeps its renderer and no other key is added |
| `EnvironmentVariablesSection.InstallRenderers` | picocli-examples/src/main/java/picocli/examples/customhelp/EnvironmentVariablesSection.java:52-60 | the section map always gets both renderers. The key list becomes the spliced list exactly when the footer heading is present. Otherwise the key list is unchanged and the `IndexOutOfBounds(-1, size)` error propagates |
| `EnvironmentVariablesSection.InstallKeepsEveryKeyRendered` | picocli-examples/src/main/java/picocli/examples/customhelp/EnvironmentVariablesSection.java:52-60 | if every key had a renderer before installation, every key of the spliced list has one after it |

## Left out

- picocli's `TextTable` rendering is not modelled: `toString()`, column wrapping, the SPAN/WRAP overflow behaviour and CJK line breaking. It is an external library, so the table is only a record of columns, flag and rows. `TextTable.forColumns` also takes `help.ansi()`, and that argument is not modelled.
- `String.format` is treated as the identity on each key and value (source line 89). Java would expand or reject `%` conversions in them, and that is not modelled.
- The header renderer (source lines 54-56) appears only as the `EnvironmentVariablesHeader` tag. Its text is "Environment Variables:" plus the platform line separator from `%n`, and that formatting is not modelled.
- `EnvironmentVariablesRenderer` keeps a reference to the caller's `LinkedHashMap`. The model holds the entries as a value, so a later change to the caller's map is not modelled. The model also does not need the map's keys to be unique.
- `main`, `cmd.usage(System.out)` and the `@Command` annotation are I/O and framework wiring, so they are not modelled.
- The help getters `width(help)` and `adjustCJK(help)` are plain inputs here.
- picocli's own behaviour behind `getHelpSectionMap`, `getHelpSectionKeys` and `setHelpSectionKeys` is not modelled, including copying the keys to subcommands. `CommandLine.java` is not part of this model. In the model these calls read and assign two fields. The value "footerHeading" of `SECTION_KEY_FOOTER_HEADING` is picocli's constant.
- Null keys and null values of the `LinkedHashMap` cannot be represented, because a Dafny `string` is never null. Java would throw `NullPointerException` at `k.length()` (line 104) for a null key and at `String.format` (line 89) for a null key or value. That exception is not modelled, so `Render` always succeeds.
- MaxLength: `k.length()` counts UTF-16 code units, but the model counts characters. A key with characters outside the Basic Multilingual Plane is therefore shorter in the model. The result is a `nat`. Java string lengths stay below 2^31, so `Math.max` never wraps.
- Render: when the usage width is below `keyLength + 4`, the description column is zero or negative. The model computes that value as Java does. What `TextTable` then does with it is not modelled.
