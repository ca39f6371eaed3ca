/** The drawing half of the handler: every entry of the field mapping becomes
    zero or more text-drawing commands on the template's pages. */
module Render {
  import opened Strings
  import opened Source
  import opened Wrappers

  /** One entry of the mapping's `fields` object. Absent numbers are `0` and
      an absent type is `""`, which is what `||` replaces by its default;
      `onValue` is `None` when the entry has no `on_value`. */
  datatype Descriptor = Descriptor(
    page: int, x: real, y: real, size: real,
    fieldType: string, source: Source, onValue: Option<string>)

  /** One `page.drawText(text, { x, y, size })` call on page `page`, counted
      from 0. */
  datatype DrawCommand = DrawCommand(page: nat, text: string, x: real, y: real, size: real)

  /** The drawn mark of a ticked checkbox. */
  const CheckMark: string := "V"

  /** `(cfg.page || 1) - 1`. */
  function PageIndex(d: Descriptor): int {
    (if d.page == 0 then 1 else d.page) - 1
  }

  /** `Number(cfg.size || 10)`. */
  function EffectiveSize(d: Descriptor): real {
    if d.size == 0.0 then 10.0 else d.size
  }

  /** `(cfg.type || "text").toLowerCase()`. */
  function FieldType(d: Descriptor): string {
    Lower(if d.fieldType == "" then "text" else d.fieldType)
  }

  /** The distance between the baselines of consecutive lines. */
  function LineHeight(size: real): real {
    size * 1.2
  }

  /** The two name fields that are lowered by half a line when they fit on
      one line, so that they sit between the two lines of their box. */
  predicate CentersShort(key: string) {
    key == "subscriber_name_print" || key == "autopay_holder_print"
  }

  /** The baseline of the first line of a text field. */
  function BaseY(key: string, y: real, size: real, lineCount: nat): real {
    if CentersShort(key) && lineCount == 1 then y - LineHeight(size) * 0.5 else y
  }

  /** The baseline of line `i` of a text field whose first line sits at
      `yBase`. */
  function LineY(yBase: real, size: real, i: nat): real {
    yBase - i as real * LineHeight(size)
  }

  /** The commands for the first `n` lines: line `i` is drawn at
      `yBase - i * lineHeight` unless it is empty. */
  function LineCommands(pi: nat, lines: seq<string>, x: real, yBase: real, size: real, n: nat): seq<DrawCommand>
    requires n <= |lines|
  {
    if n == 0 then []
    else
      var i := n - 1;
      LineCommands(pi, lines, x, yBase, size, i)
        + (if lines[i] != "" then [DrawCommand(pi, lines[i], x, LineY(yBase, size, i), size)] else [])
  }

  /** The commands for a text field with value `value`. */
  function TextCommands(pi: nat, key: string, value: string, x: real, y: real, size: real): seq<DrawCommand> {
    if AllSpace(value) then []
    else
      var lines := SplitLines(value);
      LineCommands(pi, lines, x, BaseY(key, y, size, |lines|), size, |lines|)
  }

  /** Whether a checkbox with current value `cur` is ticked: equal to
      `on_value` when there is one, otherwise any value but `""`, `"0"`,
      `"false"` and `"off"`. */
  predicate Checked(cur: string, onValue: Option<string>) {
    match onValue
    case Some(v) => cur == v
    case None => cur != "" && cur != "0" && cur != "false" && cur != "off"
  }

  /** The commands for the field `key` described by `d`, on a template of
      `pageCount` pages. */
  function FieldCommands(data: map<string, string>, key: string, d: Descriptor, pageCount: nat): (r: seq<DrawCommand>)
    ensures !(0 <= PageIndex(d) < pageCount) ==> r == []
    ensures FieldType(d) != "text" && FieldType(d) != "checkbox" ==> r == []
  {
    var pi := PageIndex(d);
    if pi < 0 || pi >= pageCount then []
    else
      var value := ValueFromSource(data, d.source, key);
      if FieldType(d) == "text" then
        TextCommands(pi, key, value, d.x, d.y, EffectiveSize(d))
      else if FieldType(d) == "checkbox" then
        if Checked(value, d.onValue) then [DrawCommand(pi, CheckMark, d.x, d.y, EffectiveSize(d) + 2.0)] else []
      else []
  }

  /** The commands for a whole mapping, in the order of its entries. */
  function Layout(data: map<string, string>, fields: seq<(string, Descriptor)>, pageCount: nat): seq<DrawCommand> {
    if fields == [] then []
    else
      var n := |fields| - 1;
      Layout(data, fields[..n], pageCount) + FieldCommands(data, fields[n].0, fields[n].1, pageCount)
  }

  /** Lines 159-224: walk the mapping's entries in order, drawing each text
      field line by line and each ticked checkbox as a `V`. */
  method Render(data: map<string, string>, fields: seq<(string, Descriptor)>, pageCount: nat)
    returns (cmds: seq<DrawCommand>)
    ensures cmds == Layout(data, fields, pageCount)
  {
    cmds := [];
    for n := 0 to |fields|
      invariant cmds == Layout(data, fields[..n], pageCount)
    {
      assert fields[..n + 1][..n] == fields[..n];
      var (key, cfg) := fields[n];
      cmds := DrawField(cmds, data, key, cfg, pageCount);
    }
    assert fields[..|fields|] == fields;
  }

  /** Lines 167-223: one entry of the mapping. */
  method DrawField(cmds: seq<DrawCommand>, data: map<string, string>, key: string, cfg: Descriptor, pageCount: nat)
    returns (out: seq<DrawCommand>)
    ensures out == cmds + FieldCommands(data, key, cfg, pageCount)
  {
    out := cmds;
    var pageIndex := (if cfg.page == 0 then 1 else cfg.page) - 1;
    if pageIndex < 0 || pageIndex >= pageCount {
      return;
    }
    var size := if cfg.size == 0.0 then 10.0 else cfg.size;
    var fieldType := Lower(if cfg.fieldType == "" then "text" else cfg.fieldType);
    if fieldType == "text" {
      var value := ValueFromSource(data, cfg.source, key);
      out := DrawText(out, pageIndex, key, value, cfg.x, cfg.y, size);
    } else if fieldType == "checkbox" {
      var cur := ValueFromSource(data, cfg.source, key);
      var checked := match cfg.onValue
        case Some(onv) => cur == onv
        case None => cur != "" && cur != "0" && cur != "false" && cur != "off";
      if checked {
        out := out + [DrawCommand(pageIndex, CheckMark, cfg.x, cfg.y, size + 2.0)];
      }
    }
  }

  /** Lines 177-204: a text field, skipped when blank, otherwise split into
      lines that are drawn one line height apart. */
  method DrawText(cmds: seq<DrawCommand>, pageIndex: nat, key: string, value: string, x: real, y: real, size: real)
    returns (out: seq<DrawCommand>)
    ensures out == cmds + TextCommands(pageIndex, key, value, x, y, size)
  {
    out := cmds;
    if Trim(value) == "" {
      return;
    }
    var lines := SplitLines(value);
    var lineHeight := size * 1.2;
    var yBase := y;
    var needsMidlineForShort := key == "subscriber_name_print" || key == "autopay_holder_print";
    if needsMidlineForShort && |lines| == 1 {
      yBase := y - lineHeight * 0.5;
    }
    out := DrawLines(cmds, pageIndex, lines, x, yBase, size);
  }

  /** Lines 195-204: every non-empty line, one line height below the one
      before. */
  method DrawLines(cmds: seq<DrawCommand>, pageIndex: nat, lines: seq<string>, x: real, yBase: real, size: real)
    returns (out: seq<DrawCommand>)
    ensures out == cmds + LineCommands(pageIndex, lines, x, yBase, size, |lines|)
  {
    out := cmds;
    var lineHeight := size * 1.2;
    assert lineHeight == LineHeight(size);
    for i := 0 to |lines|
      invariant out == cmds + LineCommands(pageIndex, lines, x, yBase, size, i)
    {
      var line := lines[i];
      if line == "" {
        continue;
      }
      ghost var done := LineCommands(pageIndex, lines, x, yBase, size, i);
      var lineY := yBase - i as real * lineHeight;
      assert lineY == LineY(yBase, size, i);
      var c := DrawCommand(pageIndex, line, x, lineY, size);
      assert LineCommands(pageIndex, lines, x, yBase, size, i + 1) == done + [c];
      Associative(cmds, done, [c]);
      out := out + [c];
    }
  }

  // ---------------------------------------------------------------------
  // Properties of the layout

  /** Every line command is on page `pi`. */
  lemma {:induction false} LineCommandsPage(pi: nat, lines: seq<string>, x: real, yBase: real, size: real, n: nat)
    requires n <= |lines|
    ensures forall c :: c in LineCommands(pi, lines, x, yBase, size, n) ==> c.page == pi
  {
    if n > 0 {
      LineCommandsPage(pi, lines, x, yBase, size, n - 1);
    }
  }

  /** Every command of a field is on the field's page, and that page exists. */
  lemma FieldPage(data: map<string, string>, key: string, d: Descriptor, pageCount: nat)
    ensures forall c :: c in FieldCommands(data, key, d, pageCount) ==> c.page == PageIndex(d) && c.page < pageCount
  {
    var pi := PageIndex(d);
    if 0 <= pi < pageCount && FieldType(d) == "text" {
      var value := ValueFromSource(data, d.source, key);
      var lines := SplitLines(value);
      LineCommandsPage(pi, lines, d.x, BaseY(key, d.y, EffectiveSize(d), |lines|), EffectiveSize(d), |lines|);
    }
  }

  /** Every command of a layout is on one of the template's pages. */
  lemma {:induction false} LayoutPages(data: map<string, string>, fields: seq<(string, Descriptor)>, pageCount: nat)
    ensures forall c :: c in Layout(data, fields, pageCount) ==> c.page < pageCount
  {
    if fields != [] {
      var n := |fields| - 1;
      LayoutPages(data, fields[..n], pageCount);
      FieldPage(data, fields[n].0, fields[n].1, pageCount);
    }
  }

  /** Every non-empty line among the first `n` is drawn, at its own baseline. */
  lemma {:induction false} LineCommandsDraw(pi: nat, lines: seq<string>, x: real, yBase: real, size: real, n: nat, i: nat)
    requires i < n <= |lines| && lines[i] != ""
    ensures DrawCommand(pi, lines[i], x, LineY(yBase, size, i), size) in LineCommands(pi, lines, x, yBase, size, n)
  {
    var prefix := LineCommands(pi, lines, x, yBase, size, n - 1);
    if i < n - 1 {
      LineCommandsDraw(pi, lines, x, yBase, size, n - 1, i);
      assert LineCommands(pi, lines, x, yBase, size, n)[..|prefix|] == prefix;
    } else {
      var c := DrawCommand(pi, lines[i], x, LineY(yBase, size, i), size);
      assert LineCommands(pi, lines, x, yBase, size, n) == prefix + [c];
      assert LineCommands(pi, lines, x, yBase, size, n)[|prefix|] == c;
    }
  }

  /** The commands for the first `n` lines are exactly one per non-empty
      line, in line order: command `j` draws the `j`-th non-empty line. */
  lemma {:induction false} LineCommandsInOrder(pi: nat, lines: seq<string>, x: real, yBase: real, size: real, n: nat)
    requires n <= |lines|
    ensures |LineCommands(pi, lines, x, yBase, size, n)| == |NonEmpty(lines, n)|
    ensures forall j :: 0 <= j < |NonEmpty(lines, n)| ==>
      NonEmpty(lines, n)[j] < |lines| &&
      LineCommands(pi, lines, x, yBase, size, n)[j]
        == DrawCommand(pi, lines[NonEmpty(lines, n)[j]], x, LineY(yBase, size, NonEmpty(lines, n)[j]), size)
  {
    if n > 0 {
      LineCommandsInOrder(pi, lines, x, yBase, size, n - 1);
      NonEmptyShape(lines, n - 1);
      var p := NonEmpty(lines, n - 1);
      var c := LineCommands(pi, lines, x, yBase, size, n - 1);
      var idx := NonEmpty(lines, n);
      var cmds := LineCommands(pi, lines, x, yBase, size, n);
      forall j | 0 <= j < |idx|
        ensures idx[j] < |lines|
        ensures cmds[j] == DrawCommand(pi, lines[idx[j]], x, LineY(yBase, size, idx[j]), size)
      {
        if j < |p| {
          assert idx[j] == p[j];
          assert cmds[j] == c[j];
        }
      }
    }
  }

  /** Nothing but those lines is drawn. */
  lemma {:induction false} LineCommandsOnly(pi: nat, lines: seq<string>, x: real, yBase: real, size: real, n: nat, c: DrawCommand)
    requires n <= |lines|
    requires c in LineCommands(pi, lines, x, yBase, size, n)
    ensures exists i :: (0 <= i < n && lines[i] != ""
      && c == DrawCommand(pi, lines[i], x, LineY(yBase, size, i), size))
  {
    var i := n - 1;
    if c !in LineCommands(pi, lines, x, yBase, size, i) {
      assert lines[i] != "" && c == DrawCommand(pi, lines[i], x, LineY(yBase, size, i), size);
      assert 0 <= i < n;
    } else {
      LineCommandsOnly(pi, lines, x, yBase, size, i, c);
    }
  }

  /** The layout of two parts of a mapping is the layout of the first part
      followed by that of the second. */
  lemma {:induction false} LayoutAppend(data: map<string, string>, a: seq<(string, Descriptor)>, b: seq<(string, Descriptor)>, pageCount: nat)
    ensures Layout(data, a + b, pageCount) == Layout(data, a, pageCount) + Layout(data, b, pageCount)
  {
    if b == [] {
      assert a + b == a;
    } else {
      var n := |b| - 1;
      var last := FieldCommands(data, b[n].0, b[n].1, pageCount);
      assert (a + b)[..|a + b| - 1] == a + b[..n];
      assert (a + b)[|a + b| - 1] == b[n];
      assert Layout(data, a + b, pageCount) == Layout(data, a + b[..n], pageCount) + last;
      LayoutAppend(data, a, b[..n], pageCount);
      assert Layout(data, b, pageCount) == Layout(data, b[..n], pageCount) + last;
      Associative(Layout(data, a, pageCount), Layout(data, b[..n], pageCount), last);
    }
  }

  /** A text field whose value is blank draws nothing; any other draws at
      least one line. */
  lemma TextDrawsUnlessBlank(pi: nat, key: string, value: string, x: real, y: real, size: real)
    ensures TextCommands(pi, key, value, x, y, size) == [] <==> AllSpace(value)
  {
    if !AllSpace(value) {
      var k :| 0 <= k < |value| && !IsSpace(value[k]);
      SplitKeepsText(value, k);
      var lines := SplitLines(value);
      var j :| 0 <= j < |lines| && lines[j] != "";
      LineCommandsDraw(pi, lines, x, BaseY(key, y, size, |lines|), size, |lines|, j);
    }
  }

  /** A text field draws every non-empty line, line `i` at
      `i * 1.2 * size` below the first baseline. */
  lemma TextLineDrawn(pi: nat, key: string, value: string, x: real, y: real, size: real, i: nat)
    requires !AllSpace(value)
    requires i < |SplitLines(value)| && SplitLines(value)[i] != ""
    ensures var lines := SplitLines(value);
      DrawCommand(pi, lines[i], x, LineY(BaseY(key, y, size, |lines|), size, i), size)
        in TextCommands(pi, key, value, x, y, size)
  {
    var lines := SplitLines(value);
    LineCommandsDraw(pi, lines, x, BaseY(key, y, size, |lines|), size, |lines|, i);
  }

  /** A text field draws nothing but its non-empty lines, each at its own
      baseline. */
  lemma TextOnlyLines(pi: nat, key: string, value: string, x: real, y: real, size: real, c: DrawCommand)
    requires c in TextCommands(pi, key, value, x, y, size)
    ensures exists i :: (0 <= i < |SplitLines(value)| && SplitLines(value)[i] != ""
      && c == DrawCommand(pi, SplitLines(value)[i], x,
        LineY(BaseY(key, y, size, |SplitLines(value)|), size, i), size))
  {
    var lines := SplitLines(value);
    var yBase := BaseY(key, y, size, |lines|);
    assert !AllSpace(value);
    assert c in LineCommands(pi, lines, x, yBase, size, |lines|);
    LineCommandsOnly(pi, lines, x, yBase, size, |lines|, c);
    var i :| 0 <= i < |lines| && lines[i] != ""
      && c == DrawCommand(pi, lines[i], x, LineY(yBase, size, i), size);
  }

  /** A text field that is not blank draws each non-empty line exactly once,
      in line order, at that line's own baseline. */
  lemma TextLinesInOrder(pi: nat, key: string, value: string, x: real, y: real, size: real)
    requires !AllSpace(value)
    ensures var lines := SplitLines(value);
      var idx := NonEmpty(lines, |lines|);
      var cmds := TextCommands(pi, key, value, x, y, size);
      |cmds| == |idx| &&
      forall j :: 0 <= j < |idx| ==>
        (idx[j] < |lines| &&
         cmds[j] == DrawCommand(pi, lines[idx[j]], x, LineY(BaseY(key, y, size, |lines|), size, idx[j]), size))
  {
    var lines := SplitLines(value);
    LineCommandsInOrder(pi, lines, x, BaseY(key, y, size, |lines|), size, |lines|);
  }

  /** A name that fits on one line is drawn once, half a line height below
      the configured baseline. */
  lemma ShortNameCentered(pi: nat, key: string, value: string, x: real, y: real, size: real)
    requires CentersShort(key) && !AllSpace(value)
    requires forall k :: 0 <= k < |value| ==> value[k] != '\n'
    ensures TextCommands(pi, key, value, x, y, size) == [DrawCommand(pi, value, x, y - 0.6 * size, size)]
  {
    SplitSingleLine(value);
    var lines := SplitLines(value);
    assert value != [] && lines[0] == value;
    assert BaseY(key, y, size, |lines|) == y - 0.6 * size;
    assert LineCommands(pi, lines, x, y - 0.6 * size, size, 0) == [];
  }

  /** Any other single-line value starts at the configured baseline. */
  lemma OneLineAtBaseline(pi: nat, key: string, value: string, x: real, y: real, size: real)
    requires !CentersShort(key) && !AllSpace(value)
    requires forall k :: 0 <= k < |value| ==> value[k] != '\n'
    ensures TextCommands(pi, key, value, x, y, size) == [DrawCommand(pi, value, x, y, size)]
  {
    SplitSingleLine(value);
    var lines := SplitLines(value);
    assert value != [] && lines[0] == value;
    assert BaseY(key, y, size, |lines|) == y;
    assert LineCommands(pi, lines, x, y, size, 0) == [];
  }

  /** A checkbox draws one `V`, two points larger than the field's size and
      at the field's own position, exactly when it is ticked; without an
      `on_value`, the values `""`, `"0"`, `"false"` and `"off"` leave it
      unticked and every other value ticks it. */
  lemma CheckboxMark(data: map<string, string>, key: string, d: Descriptor, pageCount: nat)
    requires 0 <= PageIndex(d) < pageCount && FieldType(d) == "checkbox"
    ensures var cur := ValueFromSource(data, d.source, key);
      FieldCommands(data, key, d, pageCount)
        == if Checked(cur, d.onValue) then [DrawCommand(PageIndex(d), "V", d.x, d.y, EffectiveSize(d) + 2.0)] else []
    ensures d.onValue.Some? ==>
      (FieldCommands(data, key, d, pageCount) != [] <==> ValueFromSource(data, d.source, key) == d.onValue.value)
    ensures d.onValue.None? ==>
      (FieldCommands(data, key, d, pageCount) == [] <==> ValueFromSource(data, d.source, key) in {"", "0", "false", "off"})
  {
    assert FieldType(d) != "text";
  }

  /** An empty value draws nothing, in a text field or in a checkbox without
      `on_value`. */
  lemma BlankNeverPrints(data: map<string, string>, key: string, d: Descriptor, pageCount: nat)
    requires ValueFromSource(data, d.source, key) == ""
    requires FieldType(d) == "text" || (FieldType(d) == "checkbox" && d.onValue.None?)
    ensures FieldCommands(data, key, d, pageCount) == []
  {
    if 0 <= PageIndex(d) < pageCount && FieldType(d) == "checkbox" {
      CheckboxMark(data, key, d, pageCount);
    }
  }

  /** The same for a descriptor that reads one key holding nothing. */
  lemma KeyBlankNeverPrints(data: map<string, string>, k: string, key: string, d: Descriptor, pageCount: nat)
    requires k != "" && ReadsKey(d.source, key, k) && Lookup(data, k) == ""
    requires FieldType(d) == "text" || (FieldType(d) == "checkbox" && d.onValue.None?)
    ensures FieldCommands(data, key, d, pageCount) == []
  {
    ReadsKeyValue(data, d.source, key, k);
    BlankNeverPrints(data, key, d, pageCount);
  }

  /** A text field on an existing page draws nothing exactly when its value
      is blank. */
  lemma TextFieldBlank(data: map<string, string>, key: string, d: Descriptor, pageCount: nat)
    requires FieldType(d) == "text" && 0 <= PageIndex(d) < pageCount
    ensures FieldCommands(data, key, d, pageCount) == [] <==> AllSpace(ValueFromSource(data, d.source, key))
  {
    TextDrawsUnlessBlank(PageIndex(d), key, ValueFromSource(data, d.source, key), d.x, d.y, EffectiveSize(d));
  }
}
