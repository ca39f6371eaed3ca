# Application-form PDF generator, modelled in Dafny

A Netlify function takes a mobile-plan application as a flat JSON object of
strings. A GET request carries it base64url-encoded in the `d` query
parameter, and a POST request carries it in the body. The function
fills the fields of a PDF template from that object, under the control of
a field mapping (page, x, y, size, type, source and on_value per field).

This project models the deterministic core of that function:

- `base64url.dfy`: the character rewrite of `b64urlDecode`. It maps `-`
  to `+` and `_` to `/` and adds the `=` padding. It also has the reverse
  rewrite, and proves that the two form a round trip for URL-safe payloads
  (payloads without `=`, `+` or `/`).
- `source.dfy`: `getValueFromSource`, which decides whether a field takes
  its value from a list of keys, from one key, or from its own name.
- `strings.dfy`: the JavaScript string operations these rely on, as pure
  functions with their lemmas. These are white space as `trim` and `\s`
  see it, `trim`, the `\s+` collapse, `toLowerCase` for the comparisons at
  hand, `split(/\r?\n/)`, `join('\n')`, `String(n)` and `padStart(2, '0')`.
- `derive.dfy`: the handler edits the copied data object in place
  (lines 42-129), in this order:
  - the port gating and the mnp flags;
  - the date split;
  - the composed address;
  - the passport block;
  - the eSIM block.

  Each block is a method on the map. `DeriveFields` runs them in the
  handler's order and is proved equal to the specification function
  `Derived`. The lemmas state each rule of the handler about `Derived`.
- `render.dfy`: the loop over the mapping entries (lines 159-224), as
  methods that append draw commands `(page, text, x, y, size)`. They are
  proved equal to the specification function `Layout`, and the lemmas state
  the drawing rules about it.
- `generate.dfy`: both halves together. A field "reads key `k`" when its
  `source` is `k` or `[k]`, or when it has no usable `source` and is itself
  named `k` (the line 20 fallback). It proves three things:
  - `ClearedNeverPrints`: a key the handler clears never prints in a text
    field or a checkbox without `on_value` that reads it;
  - `MnpCheckboxTicked`: an mnp checkbox that reads its flag, with no
    `on_value` or with `on_value` `"1"`, is ticked exactly for a porting
    application;
  - `AddressPrinted`: a text field that reads `addr` prints unless both
    parts of the address are blank.

  A checkbox whose `on_value` is `""` is ticked by an empty value, so
  a cleared key read by such a checkbox is not covered.
- `wrappers.dfy`: `Option`.

The date comes in as the parameters `year`, `month` and `day`, not from a
clock. The number of template pages comes in as `pageCount`. The mapping
entries come in as a sequence of `(key, descriptor)` pairs, in the order
`Object.entries` gives.

The code and the natural reading of the porting rule differ. `join_type`
is lower-cased but not trimmed before it is compared with `port` (line 46),
so `" port"` does not count as porting. The model follows the code, and
`Derive.PortSpelling` states exactly which spellings count.

## Model

| member | source | states |
|---|---|---|
| Base64Url.Padding | netlify/functions/generate.js:8 | `"===".slice((n + 3) % 4)` is `PadCount(n)` equal signs: 0, 3, 2, 1 for lengths 0, 1, 2, 3 modulo 4 |
| Base64Url.ToBase64 | netlify/functions/generate.js:6-10 | the rewritten text has a length that is a multiple of four; it has no `-` or `_`; a `+` or `/` appears exactly where the payload had `-`/`+` or `_`/`/`; everything after the payload is `=` |
| Base64Url.StripPadding | netlify/functions/generate.js:8 | removing trailing `=` leaves a prefix that does not end in `=` |
| Base64Url.StripPaddingOf | netlify/functions/generate.js:8 | a payload without `=` followed by any run of `=` strips back to the payload |
| Base64Url.RoundTrip | netlify/functions/generate.js:6-10 | the rewrite loses nothing: for every URL-safe payload, converting back to base64url gives the payload again |
| Source.ListSourceValue | netlify/functions/generate.js:13-16 | a non-empty array source is the in-order concatenation of its keys' values, split at the first key and at the last key |
| Source.ConcatAppend | netlify/functions/generate.js:15 | concatenating over a list split in two is the concatenation of the two parts |
| Source.ConcatIgnoresMissing | netlify/functions/generate.js:15 | a missing key contributes `""`: the value over all keys equals the value over the keys that are present |
| Source.SingleKeySource | netlify/functions/generate.js:13-19 | a one-key array and the key as a string give the same value, which is the key's value or `""` when it is absent |
| Source.FallbackSource | netlify/functions/generate.js:20 | an absent source, `""` or `[]` falls back to the field's own key |
| Source.ReadsKeyValue | netlify/functions/generate.js:12-21 | a source naming `k`, a one-key list `[k]`, or no usable source on a field named `k` all read `data[k] ?? ""` |
| Strings.Trim | netlify/functions/generate.js:74-76 | `trim` leaves no white space at either end, and it gives `""` exactly for an all-white-space string |
| Strings.TrimNonSpace | netlify/functions/generate.js:74-76 | `trim` removes only white space |
| Strings.CollapseNonSpace | netlify/functions/generate.js:76 | `replace(/\s+/g, ' ')` keeps every non-space character in order |
| Strings.TrimSlice | netlify/functions/generate.js:74-75 | `trim` gives the contiguous middle of the string, and what it drops before and after is all white space |
| Strings.CollapseRun | netlify/functions/generate.js:76 | a non-empty white-space run before a word, or at the end, becomes exactly one plain space |
| Strings.CollapseBetween | netlify/functions/generate.js:76 | a white-space run of any length between two words becomes exactly one plain space, and the words' own collapses are kept on either side |
| Strings.CollapseSingleSpaced | netlify/functions/generate.js:76 | after the collapse, every white-space character is a plain space and no two of them are adjacent |
| Strings.SplitJoin | netlify/functions/generate.js:87 | `split(/\r?\n/)` undoes `join('\n')` on lines without a line feed or a trailing carriage return |
| Strings.SplitKeepsText | netlify/functions/generate.js:180-182 | a value with a non-space character splits into at least one non-empty line |
| Strings.DecimalRoundTrip | netlify/functions/generate.js:68-70 | `String(n)` is all digits, has no leading zero, and reads back as `n` |
| Strings.TwoDigits | netlify/functions/generate.js:69-70 | `padStart(2, '0')` of a number below 100 is two digits that read back as the number |
| Strings.LowerEqualsAscii | netlify/functions/generate.js:46 | lower-casing equals an ASCII lower-case word exactly when each character is that letter in lower or upper case, or the Kelvin sign for `k` |
| Derive.GatePort | netlify/functions/generate.js:46-64 | the in-place port and mnp edits give the port gating and the mnp flags of the input's own join type |
| Derive.SplitDate | netlify/functions/generate.js:66-70 | the three date keys become the year and the zero-padded month and day |
| Derive.SetAddress | netlify/functions/generate.js:73-78 | `addr` becomes the composed address of the map's road and detail |
| Derive.PushLine | netlify/functions/generate.js:82-86 | one guarded `lines.push`: a line is added only for a non-empty value |
| Derive.BuildPassportBlock | netlify/functions/generate.js:81-87 | the pushes and the join give the passport block of the five passport values |
| Derive.SetPassportBlock | netlify/functions/generate.js:79-95 | the passport branch sets the block, and the other branch clears the block and the five source keys |
| Derive.BuildEsimBlock | netlify/functions/generate.js:106-121 | the trimmed values give the eSIM block: all four lines, or `""` when all four are blank |
| Derive.SetEsimBlock | netlify/functions/generate.js:105-129 | the eSIM branch sets the block, and the other branch clears the block and the four source keys |
| Derive.DeriveFields | netlify/functions/generate.js:42-129 | the whole in-place derivation computes `Derived` of the input and the date |
| Derive.PortKeepsReads | netlify/functions/generate.js:47-52 | clearing the port keys leaves every key that a later block reads unchanged |
| Derive.MnpKeepsReads | netlify/functions/generate.js:56-64 | setting the mnp flags leaves every key that a later block reads unchanged |
| Derive.DateKeepsReads | netlify/functions/generate.js:68-70 | writing the date leaves every key that a later block reads unchanged |
| Derive.AddressKeepsReads | netlify/functions/generate.js:78 | writing `addr` leaves the keys that the passport and eSIM blocks read unchanged |
| Derive.PassportKeepsEsimReads | netlify/functions/generate.js:80-95 | the passport block leaves the keys that the eSIM block reads unchanged |
| Derive.PortGating | netlify/functions/generate.js:46-52 | each of `prev_carrier`, `mnp_pay_type`, `port_number` and `mvno_name` keeps its input value for a porting application, and is `""` otherwise |
| Derive.MnpFlags | netlify/functions/generate.js:56-64 | each of `mnp1`, `mnp2` and `mnp3` is `"1"` exactly for a porting application, and `""` exactly otherwise |
| Derive.PortSpelling | netlify/functions/generate.js:46 | an application is porting exactly when `join_type` is four characters spelling `port` in any mix of cases, with no trimming |
| Derive.DateFields | netlify/functions/generate.js:66-70 | the year is the decimal year; the month and the day are zero-padded decimals, and are exactly two characters when below 100 |
| Derive.JoinPartsShape | netlify/functions/generate.js:76 | `[road, detail].filter(Boolean).join(' ')` of trimmed parts is empty only when both parts are; it starts and ends with a non-space character; it keeps both parts' text; a single part stands alone with no separator |
| Derive.AddressShape | netlify/functions/generate.js:74-76 | the address has no white space at either end and no run of two white-space characters; it keeps every non-space character of road then detail; it is `""` exactly when both are blank |
| Derive.AddressParts | netlify/functions/generate.js:74-76 | with both parts non-blank the address is the collapsed trimmed road, one space, then the collapsed trimmed detail; with one part blank it is the other part's collapse alone |
| Derive.AddressField | netlify/functions/generate.js:73-78 | `addr` after derivation is the address composed from the input's own road and detail |
| Derive.PassportFields | netlify/functions/generate.js:79-95 | for an exact `passport` document type, `passport_info_print` is the block of the input's values and the five keys keep their values; otherwise all six are `""` |
| Derive.EsimFields | netlify/functions/generate.js:105-129 | for an exact `esim` SIM type, `esim_info_print` is the block of the input's values and the four keys keep their values; otherwise all five are `""` |
| Derive.PassThrough | netlify/functions/generate.js:43 | every key that no rule names is present after derivation exactly when it was before, with the same value |
| Derive.DerivedKeys | netlify/functions/generate.js:42-129 | the derived keys are the input's keys plus exactly the keys the handler assigns on this input's branches |
| Derive.LabelledLinesOnly | netlify/functions/generate.js:82-86 | every pushed line is some label followed by its own non-empty value |
| Derive.LabelledLinesUpTo | netlify/functions/generate.js:82-86 | the pushes for the first `n` fields give one line per non-empty value among them, and line `j` is the `j`-th such field's label and value |
| Derive.LabelledLinesInOrder | netlify/functions/generate.js:82-86 | the block's lines are exactly one per non-empty value, no more, in field order, each its label followed by its value |
| Derive.LabelledLineAt | netlify/functions/generate.js:82-86 | a non-empty value's line comes right after the lines of the fields before it, so the lines keep the fixed field order |
| Derive.LabelledLinesEmpty | netlify/functions/generate.js:81-86 | no line is pushed exactly when every value is empty |
| Derive.PassportBlockEmpty | netlify/functions/generate.js:81-87 | the passport block is `""` exactly when all five values are empty |
| Derive.PassportBlockLines | netlify/functions/generate.js:81-87 | for single-line values, splitting the passport block at line feeds gives back exactly the pushed lines |
| Derive.EsimBlockEmpty | netlify/functions/generate.js:106-121 | the eSIM block is `""` exactly when all four raw values are blank |
| Derive.EsimBlockLines | netlify/functions/generate.js:112-118 | for single-line values of which one is not blank, the eSIM block splits into exactly the four labelled lines, empty values included |
| Render.Render | netlify/functions/generate.js:166-224 | the loop over the entries draws `Layout` of the data, entry after entry |
| Render.DrawField | netlify/functions/generate.js:167-223 | one entry appends exactly that entry's commands |
| Render.DrawText | netlify/functions/generate.js:176-204 | a text field appends its commands: nothing for a blank value, its lines otherwise |
| Render.DrawLines | netlify/functions/generate.js:195-204 | the inner loop appends one command per non-empty line, each one line height lower than the last |
| Render.FieldCommands | netlify/functions/generate.js:167-175 | an entry whose page is outside the template, or whose type is neither text nor checkbox, draws nothing |
| Render.FieldPage | netlify/functions/generate.js:167-169 | every command of an entry is on the entry's page, and that page exists |
| Render.LayoutPages | netlify/functions/generate.js:166-169 | every command of the whole layout is on an existing page |
| Render.LayoutAppend | netlify/functions/generate.js:166 | the layout of two runs of entries is the first run's commands followed by the second run's |
| Render.TextDrawsUnlessBlank | netlify/functions/generate.js:180 | a text field draws nothing exactly when its value is all white space |
| Render.TextFieldBlank | netlify/functions/generate.js:176-180 | a text entry on an existing page draws nothing exactly when its resolved value is blank |
| Render.TextLineDrawn | netlify/functions/generate.js:195-204 | every non-empty line `i` is drawn at `i * 1.2 * size` below the first baseline |
| Render.TextOnlyLines | netlify/functions/generate.js:195-204 | a text field draws nothing but its non-empty lines, each at its own baseline |
| Strings.NonEmptyShape | netlify/functions/generate.js:195-197 | the indices of the non-empty strings are strictly increasing, each names a non-empty string, and every non-empty string is among them |
| Render.LineCommandsInOrder | netlify/functions/generate.js:195-204 | the inner loop draws one command per non-empty line and no more, and command `j` is the `j`-th non-empty line at its own baseline |
| Render.TextLinesInOrder | netlify/functions/generate.js:176-204 | a non-blank text field draws exactly its non-empty lines, in line order, each at its own baseline |
| Render.ShortNameCentered | netlify/functions/generate.js:188-193 | a one-line subscriber or autopay holder name is drawn once, at `y - 0.6 * size` |
| Render.OneLineAtBaseline | netlify/functions/generate.js:188-204 | any other one-line value is drawn once, at `y` |
| Render.CheckboxMark | netlify/functions/generate.js:205-223 | a checkbox draws one `V` at its own position and `size + 2` exactly when it is ticked; with `on_value` it is ticked exactly when the value equals it; without one, exactly when the value is not `""`, `"0"`, `"false"` or `"off"` |
| Render.BlankNeverPrints | netlify/functions/generate.js:176-215 | an empty value draws nothing, in a text field or in a checkbox without `on_value` |
| Generate.FillForm | netlify/functions/generate.js:42-224 | deriving the fields and then drawing the mapping gives the layout of the derived data |
| Generate.ClearedIsEmpty | netlify/functions/generate.js:45-129 | every key cleared on the input's branches is `""` after derivation |
| Generate.ClearedNeverPrints | netlify/functions/generate.js:45-129 | a cleared key never prints in a text field or a checkbox without `on_value` that reads it through `k`, `[k]` or its own name |
| Generate.MnpCheckboxTicked | netlify/functions/generate.js:56-64 | an mnp checkbox reading its flag through `k`, `[k]` or its own name, with no `on_value` or with `on_value` `"1"`, draws its `V` exactly for a porting application |
| Generate.AddressPrinted | netlify/functions/generate.js:73-78 | a text field reading `addr` through `addr`, `["addr"]` or its own name draws nothing exactly when both road and detail are blank |

## Left out

- HTTP method dispatch, the query and body parsing, the 405 answer, the
  response and its headers, and the error handler (lines 25-40 and
  226-243). These are a thin adapter around the core, and `JSON.parse` is
  library parsing.
- The file-system checks and reads of the template, the font and the
  mapping (lines 131-157). These are I/O. The mapping's entries and the page
  count are parameters.
- pdf-lib and fontkit: loading, font embedding, `drawText` and `save`. A
  draw command stands for each `drawText` call, and the font argument is
  not modelled.
- The byte half of `b64urlDecode` (`Buffer.from(…, 'base64')` and the UTF-8
  decode, line 9). This is a foreign library call. Only the string rewrite
  is modelled.
- The clock (`new Date()`, line 67). The date is passed in as the
  parameters `year`, `month` and `day`.
- Non-string JSON values in the data object. Every value is a string, an
  absent key reads as `""`, and truthiness of a value is therefore
  non-emptiness. Absent keys and keys holding `""` are therefore one case
  for what is printed. `Derive.DerivedKeys` and `Derive.PassThrough` still
  state which keys are present.
- IEEE-754 arithmetic on coordinates. `x`, `y`, `size`, `size * 1.2` and
  `size + 2` are exact reals.
- Descriptor values other than those modelled. An absent number is `0` and
  takes the default. A fractional or non-numeric `page` is not modelled
  (the page is an integer), and a non-string `on_value` is taken as already
  converted by `String(…)`.
- `toLowerCase` beyond what the comparisons need. `Strings.Lower` maps
  ASCII letters and the Kelvin sign, the only non-ASCII character whose
  lower case is an ASCII letter. This is exact for comparisons against
  `port`, `text` and `checkbox`, and is not a general Unicode lower-casing.
- Derive.DateFields: states the two-character width of month and day only
  for values below 100. The month and day come from the clock, which is
  not modelled, so the parameters are not bounded to calendar ranges.
- Base64Url.ToBase64: counts the payload's length in Unicode characters,
  while JavaScript's `str.length` counts UTF-16 code units. A character
  outside the Basic Multilingual Plane counts twice in JavaScript, so the
  padding differs for such a payload. Dafny strings cannot hold a lone
  surrogate. A real query parameter is ASCII, where the two agree.
- Source.ValueFromSource: reads an absent key as `""`. In JavaScript,
  `data[k]` for an absent key named like an `Object.prototype` member
  (`constructor`, `toString` and the like) reads the inherited value, not
  `undefined` (lines 15, 18 and 20). The map model has no prototype chain.
