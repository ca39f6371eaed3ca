/** The handler's two halves together: the submitted application becomes the
    printable field values, and those are drawn onto the template through
    the field mapping. */
module Generate {
  import opened Strings
  import opened Source
  import opened Wrappers
  import opened Derive
  import opened Render

  /** Lines 42-224: derive the fields of the application as of the given
      date, then draw every entry of the mapping from them. */
  method FillForm(input: map<string, string>, year: nat, month: nat, day: nat,
                  fields: seq<(string, Descriptor)>, pageCount: nat)
    returns (cmds: seq<DrawCommand>)
    ensures cmds == Layout(Derived(input, year, month, day), fields, pageCount)
  {
    var data := DeriveFields(input, year, month, day);
    cmds := Render.Render(data, fields, pageCount);
  }

  /** The keys the handler blanks for the application at hand: the porting
      keys and mnp flags of a new number, the passport keys and block of
      another identity document, the eSIM keys and block of a physical SIM. */
  predicate Cleared(input: map<string, string>, k: string) {
    (!IsPort(input) && (IsPortKey(k) || IsMnpKey(k)))
    || (!IsPassport(input) && (IsPassportKey(k) || k == "passport_info_print"))
    || (!IsEsim(input) && (IsEsimKey(k) || k == "esim_info_print"))
  }

  /** Every cleared key holds the empty string after derivation, whatever the
      submission said. */
  lemma ClearedIsEmpty(input: map<string, string>, year: nat, month: nat, day: nat, k: string)
    requires Cleared(input, k)
    ensures k != "" && Lookup(Derived(input, year, month, day), k) == ""
  {
    if !IsPort(input) && (IsPortKey(k) || IsMnpKey(k)) {
      PortCleared(input, year, month, day, k);
    } else if !IsPassport(input) && (IsPassportKey(k) || k == "passport_info_print") {
      PassportCleared(input, year, month, day, k);
    } else {
      EsimCleared(input, year, month, day, k);
    }
  }

  lemma PortCleared(input: map<string, string>, year: nat, month: nat, day: nat, k: string)
    requires !IsPort(input) && (IsPortKey(k) || IsMnpKey(k))
    ensures k != "" && Lookup(Derived(input, year, month, day), k) == ""
  {
    if IsPortKey(k) {
      PortGating(input, year, month, day, k);
    } else {
      MnpFlags(input, year, month, day, k);
    }
  }

  lemma PassportCleared(input: map<string, string>, year: nat, month: nat, day: nat, k: string)
    requires !IsPassport(input) && (IsPassportKey(k) || k == "passport_info_print")
    ensures k != "" && Lookup(Derived(input, year, month, day), k) == ""
  {
    PassportFields(input, year, month, day, if IsPassportKey(k) then k else "passport_no");
  }

  lemma EsimCleared(input: map<string, string>, year: nat, month: nat, day: nat, k: string)
    requires !IsEsim(input) && (IsEsimKey(k) || k == "esim_info_print")
    ensures k != "" && Lookup(Derived(input, year, month, day), k) == ""
  {
    EsimFields(input, year, month, day, if IsEsimKey(k) then k else "esim_model");
  }

  /** Lines 45 and 123: a cleared key never reaches the page, whether a text
      field or a checkbox without `on_value` reads it, by its source or by
      its own name. */
  lemma ClearedNeverPrints(input: map<string, string>, year: nat, month: nat, day: nat, k: string,
                           key: string, d: Descriptor, pageCount: nat)
    requires Cleared(input, k) && ReadsKey(d.source, key, k)
    requires FieldType(d) == "text" || (FieldType(d) == "checkbox" && d.onValue.None?)
    ensures FieldCommands(Derived(input, year, month, day), key, d, pageCount) == []
  {
    ClearedIsEmpty(input, year, month, day, k);
    KeyBlankNeverPrints(Derived(input, year, month, day), k, key, d, pageCount);
  }

  /** Lines 56-64 with 205-223: an mnp checkbox, read by its source or by
      its own name, without `on_value` or with `on_value` `"1"`, is ticked
      exactly for a `port` application. */
  lemma MnpCheckboxTicked(input: map<string, string>, year: nat, month: nat, day: nat, k: string,
                          key: string, d: Descriptor, pageCount: nat)
    requires IsMnpKey(k) && ReadsKey(d.source, key, k)
    requires FieldType(d) == "checkbox" && 0 <= PageIndex(d) < pageCount
    requires d.onValue == None || d.onValue == Some("1")
    ensures FieldCommands(Derived(input, year, month, day), key, d, pageCount)
      == if IsPort(input) then [DrawCommand(PageIndex(d), CheckMark, d.x, d.y, EffectiveSize(d) + 2.0)] else []
  {
    var data := Derived(input, year, month, day);
    MnpFlags(input, year, month, day, k);
    ReadsKeyValue(data, d.source, key, k);
    CheckboxMark(data, key, d, pageCount);
  }

  /** Lines 73-78 with 176-180: a text field reading `addr`, by its source or
      as the field named `addr` (line 77), draws something exactly when the
      road or the detail has a character that is not white space. */
  lemma AddressPrinted(input: map<string, string>, year: nat, month: nat, day: nat,
                       key: string, d: Descriptor, pageCount: nat)
    requires ReadsKey(d.source, key, "addr") && FieldType(d) == "text" && 0 <= PageIndex(d) < pageCount
    ensures FieldCommands(Derived(input, year, month, day), key, d, pageCount) == []
      <==> AllSpace(Lookup(input, "addr_road")) && AllSpace(Lookup(input, "addr_detail"))
  {
    var addr := ComposeAddress(Trim(Lookup(input, "addr_road")), Trim(Lookup(input, "addr_detail")));
    AddressField(input, year, month, day);
    AddressShape(Lookup(input, "addr_road"), Lookup(input, "addr_detail"));
    TrimOfTrimmed(addr);
    ReadsKeyValue(Derived(input, year, month, day), d.source, key, "addr");
    TextFieldBlank(Derived(input, year, month, day), key, d, pageCount);
  }
}
