/** The request-independent part of the handler: the copy of the input record
    that is edited key by key before anything is drawn. */
module Derive {
  import opened Strings
  import opened Source

  const PassportKeys: seq<string> := ["passport_no", "nationality", "passport_birth", "stay_status", "stay_expiry"]
  const PassportLabels: seq<string> := [
    "-\U{C5EC}\U{AD8C}\U{BC88}\U{D638} : ",                    // passport number
    "-\U{AD6D}\U{C801} : ",                                    // nationality
    "-\U{C0DD}\U{B144}\U{C6D4}\U{C77C} : ",                    // date of birth
    "-\U{CCB4}\U{B958}\U{C790}\U{ACA9} : ",                    // residence status
    "-\U{CCB4}\U{B958}\U{AE30}\U{AC04} \U{B9CC}\U{B8CC}\U{C77C} : " // end of stay
  ]

  const EsimKeys: seq<string> := ["esim_model", "imei1", "imei2", "eid"]
  const EsimLabels: seq<string> := ["-\U{BAA8}\U{B378}\U{BA85}: ", "-imei: ", "-imei2: ", "-EID: "]

  /** `String(data.join_type || '').toLowerCase() === 'port'`: lower-cased,
      not trimmed. */
  predicate IsPort(data: map<string, string>) {
    Lower(Lookup(data, "join_type")) == "port"
  }

  /** `String(data.id_doc_type || '') === 'passport'`: exact match. */
  predicate IsPassport(data: map<string, string>) {
    Lookup(data, "id_doc_type") == "passport"
  }

  /** `String(data.sim_type || '') === 'esim'`: exact match. */
  predicate IsEsim(data: map<string, string>) {
    Lookup(data, "sim_type") == "esim"
  }

  function Values(data: map<string, string>, keys: seq<string>): (r: seq<string>)
    ensures |r| == |keys|
    ensures forall i :: 0 <= i < |keys| ==> r[i] == Lookup(data, keys[i])
  {
    seq(|keys|, i requires 0 <= i < |keys| => Lookup(data, keys[i]))
  }

  /** `if (value) lines.push(title + value)`. */
  function PushIfPresent(lines: seq<string>, title: string, value: string): seq<string> {
    if value != "" then lines + [title + value] else lines
  }

  /** One `label + value` line for every non-empty value, in order. */
  function LabelledLines(labels: seq<string>, values: seq<string>): seq<string>
    requires |labels| == |values|
  {
    if labels == [] then []
    else
      var n := |labels| - 1;
      PushIfPresent(LabelledLines(labels[..n], values[..n]), labels[n], values[n])
  }

  /** The passport block: one labelled line per non-empty passport field. */
  function PassportBlock(values: seq<string>): string
    requires |values| == 5
  {
    JoinLines(LabelledLines(PassportLabels, values))
  }

  /** The trimmed eSIM values, in label order. */
  function Trimmed4(raw: seq<string>): (r: seq<string>)
    requires |raw| == 4
    ensures |r| == 4
  {
    [Trim(raw[0]), Trim(raw[1]), Trim(raw[2]), Trim(raw[3])]
  }

  /** The eSIM block: all four labelled lines, or nothing when every trimmed
      value is empty. */
  function EsimBlock(raw: seq<string>): string
    requires |raw| == 4
  {
    var v := Trimmed4(raw);
    if v[0] != "" || v[1] != "" || v[2] != "" || v[3] != "" then
      JoinLines(EsimLines(v))
    else ""
  }

  /** The four eSIM lines, each label followed by its value. */
  function EsimLines(v: seq<string>): (r: seq<string>)
    requires |v| == 4
    ensures |r| == 4
  {
    [EsimLabels[0] + v[0], EsimLabels[1] + v[1], EsimLabels[2] + v[2], EsimLabels[3] + v[3]]
  }

  /** `[road, detail].filter(Boolean).join(' ')`: the non-empty parts with a
      space between them. */
  function JoinParts(road: string, detail: string): string {
    var parts := (if road != "" then [road] else []) + (if detail != "" then [detail] else []);
    if |parts| == 2 then parts[0] + " " + parts[1] else if |parts| == 1 then parts[0] else ""
  }

  /** `.replace(/\s+/g, ' ').trim()` on the joined parts. */
  function ComposeAddress(road: string, detail: string): string {
    Trim(Collapse(JoinParts(road, detail)))
  }

  /** Lines 74-78: the printable address from the raw road and detail. */
  function AddressOf(input: map<string, string>): string {
    ComposeAddress(Trim(Lookup(input, "addr_road")), Trim(Lookup(input, "addr_detail")))
  }

  /** What the handler computes from the input before it writes anything:
      the port decision, the date strings, the address, and the passport
      and eSIM decisions with their blocks. */
  datatype Facts = Facts(port: bool, year: string, month: string, day: string, addr: string,
                         passport: bool, passportBlock: string, esim: bool, esimBlock: string)

  /** The facts of an input on a given date. Every fact reads only keys that
      no block of the handler writes, so all of them can be read off the
      input. */
  function FactsOf(input: map<string, string>, year: nat, month: nat, day: nat): Facts {
    Facts(IsPort(input), DecimalString(year), PadStart2(DecimalString(month)), PadStart2(DecimalString(day)),
          AddressOf(input),
          IsPassport(input), PassportBlock(Values(input, PassportKeys)),
          IsEsim(input), EsimBlock(Values(input, EsimKeys)))
  }

  /** Lines 47-52: the number-portability keys cleared unless `port`. */
  function ApplyPort(data: map<string, string>, port: bool): map<string, string> {
    if port then data
    else data["prev_carrier" := ""]["mnp_pay_type" := ""]["port_number" := ""]["mvno_name" := ""]
  }

  /** Lines 56-64: the three mnp flags, `"1"` exactly when `port`. */
  function ApplyMnp(data: map<string, string>, port: bool): map<string, string> {
    var flag := if port then "1" else "";
    data["mnp1" := flag]["mnp2" := flag]["mnp3" := flag]
  }

  /** Lines 67-70: the three date keys. */
  function ApplyDate(data: map<string, string>, year: string, month: string, day: string): map<string, string> {
    data["apply_date_year" := year]["apply_date_month" := month]["apply_date_day" := day]
  }

  /** Line 78: the printable address. */
  function ApplyAddress(data: map<string, string>, addr: string): map<string, string> {
    data["addr" := addr]
  }

  /** Lines 80-95: the passport block for a passport, otherwise an empty
      block and the passport keys cleared. */
  function ApplyPassport(data: map<string, string>, passport: bool, block: string): map<string, string> {
    if passport then data["passport_info_print" := block]
    else data["passport_info_print" := ""]["passport_no" := ""]["nationality" := ""]
             ["passport_birth" := ""]["stay_status" := ""]["stay_expiry" := ""]
  }

  /** Lines 105-129: the eSIM block for an eSIM, otherwise an empty block and
      the eSIM keys cleared. */
  function ApplyEsim(data: map<string, string>, esim: bool, block: string): map<string, string> {
    if esim then data["esim_info_print" := block]
    else data["esim_info_print" := ""]["esim_model" := ""]["imei1" := ""]["imei2" := ""]["eid" := ""]
  }

  /** The blocks of lines 45-70: port gating, mnp flags and the date. */
  function Early(input: map<string, string>, f: Facts): map<string, string> {
    ApplyDate(ApplyMnp(ApplyPort(input, f.port), f.port), f.year, f.month, f.day)
  }

  /** The blocks of lines 73-129: address, passport and eSIM. */
  function Late(data: map<string, string>, f: Facts): map<string, string> {
    ApplyEsim(ApplyPassport(ApplyAddress(data, f.addr), f.passport, f.passportBlock), f.esim, f.esimBlock)
  }

  /** The input with every block's writes applied in the handler's order. */
  function Edit(input: map<string, string>, f: Facts): map<string, string> {
    Late(Early(input, f), f)
  }

  /** The keys that only apply to a number-portability application. */
  predicate IsPortKey(k: string) {
    k == "prev_carrier" || k == "mnp_pay_type" || k == "port_number" || k == "mvno_name"
  }

  /** The three checkbox sources that mark a number-portability
      application. */
  predicate IsMnpKey(k: string) {
    k == "mnp1" || k == "mnp2" || k == "mnp3"
  }

  predicate IsPassportKey(k: string) {
    k == "passport_no" || k == "nationality" || k == "passport_birth" || k == "stay_status" || k == "stay_expiry"
  }

  predicate IsEsimKey(k: string) {
    k == "esim_model" || k == "imei1" || k == "imei2" || k == "eid"
  }

  /** The keys the early blocks may write. */
  predicate EarlyKey(k: string) {
    k == "prev_carrier" || k == "mnp_pay_type" || k == "port_number" || k == "mvno_name"
    || k == "mnp1" || k == "mnp2" || k == "mnp3"
    || k == "apply_date_year" || k == "apply_date_month" || k == "apply_date_day"
  }

  /** The keys the late blocks may write. */
  predicate LateKey(k: string) {
    k == "addr" || k == "passport_info_print"
    || k == "passport_no" || k == "nationality" || k == "passport_birth" || k == "stay_status" || k == "stay_expiry"
    || k == "esim_info_print" || k == "esim_model" || k == "imei1" || k == "imei2" || k == "eid"
  }

  /** The derived record. */
  function Derived(input: map<string, string>, year: nat, month: nat, day: nat): map<string, string> {
    Edit(input, FactsOf(input, year, month, day))
  }

  /** The keys the handler writes, given which of the porting, passport and
      eSIM branches it takes: the flags, the date, the address and the two
      blocks always, and the keys it clears on the other branches. */
  function WrittenFor(port: bool, passport: bool, esim: bool): set<string> {
    {"mnp1", "mnp2", "mnp3", "apply_date_year", "apply_date_month", "apply_date_day",
     "addr", "passport_info_print", "esim_info_print"}
    + (if port then {} else {"prev_carrier", "mnp_pay_type", "port_number", "mvno_name"})
    + (if passport then {} else {"passport_no", "nationality", "passport_birth", "stay_status", "stay_expiry"})
    + (if esim then {} else {"esim_model", "imei1", "imei2", "eid"})
  }

  // ---------------------------------------------------------------------
  // The handler's edits, one method per block of the source

  /** Lines 45-64: clear the number-portability keys unless the application
      is a `port` one, and set the three mnp flags accordingly. */
  method GatePort(data: map<string, string>) returns (out: map<string, string>)
    ensures out == ApplyMnp(ApplyPort(data, IsPort(data)), IsPort(data))
  {
    out := data;
    var jt := Lower(Lookup(out, "join_type"));
    if jt != "port" {
      out := out["prev_carrier" := ""];
      out := out["mnp_pay_type" := ""];
      out := out["port_number" := ""];
      out := out["mvno_name" := ""];
    }
    if jt == "port" {
      out := out["mnp1" := "1"];
      out := out["mnp2" := "1"];
      out := out["mnp3" := "1"];
    } else {
      out := out["mnp1" := ""];
      out := out["mnp2" := ""];
      out := out["mnp3" := ""];
    }
  }

  /** Lines 66-70: the application date as year, two-digit month and
      two-digit day. */
  method SplitDate(data: map<string, string>, year: nat, month: nat, day: nat) returns (out: map<string, string>)
    ensures out == ApplyDate(data, DecimalString(year), PadStart2(DecimalString(month)), PadStart2(DecimalString(day)))
  {
    out := data["apply_date_year" := DecimalString(year)];
    out := out["apply_date_month" := PadStart2(DecimalString(month))];
    out := out["apply_date_day" := PadStart2(DecimalString(day))];
  }

  /** Lines 73-78: the printable address from road and detail. */
  method SetAddress(data: map<string, string>) returns (out: map<string, string>)
    ensures out == ApplyAddress(data, AddressOf(data))
  {
    var road := Trim(Lookup(data, "addr_road"));
    var detail := Trim(Lookup(data, "addr_detail"));
    out := data["addr" := ComposeAddress(road, detail)];
  }

  /** `LabelledLines` grows one `PushIfPresent` at a time. */
  lemma LabelledLinesStep(labels: seq<string>, values: seq<string>, n: nat)
    requires |labels| == |values| && n < |labels|
    ensures LabelledLines(labels[..n + 1], values[..n + 1])
      == PushIfPresent(LabelledLines(labels[..n], values[..n]), labels[n], values[n])
  {
    assert labels[..n + 1][..n] == labels[..n];
    assert values[..n + 1][..n] == values[..n];
  }

  /** `if (value) lines.push(title + value)`. */
  method PushLine(lines: seq<string>, title: string, value: string) returns (r: seq<string>)
    ensures r == PushIfPresent(lines, title, value)
  {
    r := lines;
    if value != "" {
      r := r + [title + value];
    }
  }

  /** Lines 81-87: push a labelled line for every non-empty passport field,
      then join the lines. */
  method BuildPassportBlock(data: map<string, string>) returns (block: string)
    ensures block == PassportBlock(Values(data, PassportKeys))
  {
    var values := Values(data, PassportKeys);
    var lines: seq<string> := [];
    assert PassportLabels[..0] == [] && values[..0] == [];
    LabelledLinesStep(PassportLabels, values, 0);
    lines := PushLine(lines, PassportLabels[0], values[0]);
    LabelledLinesStep(PassportLabels, values, 1);
    lines := PushLine(lines, PassportLabels[1], values[1]);
    LabelledLinesStep(PassportLabels, values, 2);
    lines := PushLine(lines, PassportLabels[2], values[2]);
    LabelledLinesStep(PassportLabels, values, 3);
    lines := PushLine(lines, PassportLabels[3], values[3]);
    LabelledLinesStep(PassportLabels, values, 4);
    lines := PushLine(lines, PassportLabels[4], values[4]);
    assert PassportLabels[..5] == PassportLabels && values[..5] == values;
    block := JoinLines(lines);
  }

  /** Lines 79-95: the passport block, or clearing every passport key. */
  method SetPassportBlock(data: map<string, string>) returns (out: map<string, string>)
    ensures out == ApplyPassport(data, IsPassport(data), PassportBlock(Values(data, PassportKeys)))
  {
    if Lookup(data, "id_doc_type") == "passport" {
      var block := BuildPassportBlock(data);
      out := data["passport_info_print" := block];
    } else {
      out := data["passport_info_print" := ""];
      out := out["passport_no" := ""];
      out := out["nationality" := ""];
      out := out["passport_birth" := ""];
      out := out["stay_status" := ""];
      out := out["stay_expiry" := ""];
    }
  }

  /** Lines 106-121: the four trimmed eSIM values as four labelled lines, or
      the empty string when all of them are empty. */
  method BuildEsimBlock(data: map<string, string>) returns (block: string)
    ensures block == EsimBlock(Values(data, EsimKeys))
  {
    var model := Trim(Lookup(data, "esim_model"));
    var imei1 := Trim(Lookup(data, "imei1"));
    var imei2 := Trim(Lookup(data, "imei2"));
    var eid := Trim(Lookup(data, "eid"));
    assert [model, imei1, imei2, eid] == Trimmed4(Values(data, EsimKeys));
    if model != "" || imei1 != "" || imei2 != "" || eid != "" {
      block := JoinLines([EsimLabels[0] + model, EsimLabels[1] + imei1, EsimLabels[2] + imei2, EsimLabels[3] + eid]);
      assert [EsimLabels[0] + model, EsimLabels[1] + imei1, EsimLabels[2] + imei2, EsimLabels[3] + eid]
        == EsimLines(Trimmed4(Values(data, EsimKeys)));
    } else {
      block := "";
    }
  }

  /** Lines 99-129: the eSIM block, or clearing every eSIM key. */
  method SetEsimBlock(data: map<string, string>) returns (out: map<string, string>)
    ensures out == ApplyEsim(data, IsEsim(data), EsimBlock(Values(data, EsimKeys)))
  {
    if Lookup(data, "sim_type") == "esim" {
      var block := BuildEsimBlock(data);
      out := data["esim_info_print" := block];
    } else {
      out := data["esim_info_print" := ""];
      out := out["esim_model" := ""];
      out := out["imei1" := ""];
      out := out["imei2" := ""];
      out := out["eid" := ""];
    }
  }

  /** `a` and `b` hold the same values for the keys the passport and eSIM
      blocks read. */
  predicate SameLateReads(a: map<string, string>, b: map<string, string>) {
    Lookup(a, "id_doc_type") == Lookup(b, "id_doc_type")
    && Values(a, PassportKeys) == Values(b, PassportKeys)
    && SameEsimReads(a, b)
  }

  /** `a` and `b` hold the same values for the keys the eSIM block reads. */
  predicate SameEsimReads(a: map<string, string>, b: map<string, string>) {
    Lookup(a, "sim_type") == Lookup(b, "sim_type") && Values(a, EsimKeys) == Values(b, EsimKeys)
  }

  /** `a` and `b` hold the same values for every key the address, passport
      and eSIM blocks read. */
  predicate SameReads(a: map<string, string>, b: map<string, string>) {
    Lookup(a, "addr_road") == Lookup(b, "addr_road")
    && Lookup(a, "addr_detail") == Lookup(b, "addr_detail")
    && SameLateReads(a, b)
  }

  /** Clearing the portability keys leaves every key a later block reads
      alone. */
  lemma PortKeepsReads(data: map<string, string>, port: bool)
    ensures SameReads(ApplyPort(data, port), data)
  {
  }

  /** Setting the mnp flags leaves every key a later block reads alone. */
  lemma MnpKeepsReads(data: map<string, string>, port: bool)
    ensures SameReads(ApplyMnp(data, port), data)
  {
  }

  /** The date block leaves every key a later block reads alone. */
  lemma DateKeepsReads(data: map<string, string>, year: string, month: string, day: string)
    ensures SameReads(ApplyDate(data, year, month, day), data)
  {
  }

  /** The address block leaves the passport and eSIM reads alone. */
  lemma AddressKeepsReads(data: map<string, string>, addr: string)
    ensures SameLateReads(ApplyAddress(data, addr), data)
  {
  }

  /** The passport block leaves the eSIM reads alone. */
  lemma PassportKeepsEsimReads(data: map<string, string>, passport: bool, block: string)
    ensures SameEsimReads(ApplyPassport(data, passport, block), data)
  {
  }

  /** Lines 42-129 of the handler: edit a copy of `input` in place. The date
      of the request is passed in as `year`, `month` and `day`. */
  method DeriveFields(input: map<string, string>, year: nat, month: nat, day: nat) returns (data: map<string, string>)
    ensures data == Derived(input, year, month, day)
  {
    var d1 := GatePort(input);
    PortKeepsReads(input, IsPort(input));
    MnpKeepsReads(ApplyPort(input, IsPort(input)), IsPort(input));
    var d2 := SplitDate(d1, year, month, day);
    DateKeepsReads(d1, DecimalString(year), PadStart2(DecimalString(month)), PadStart2(DecimalString(day)));
    var d3 := SetAddress(d2);
    AddressKeepsReads(d2, AddressOf(d2));
    var d4 := SetPassportBlock(d3);
    PassportKeepsEsimReads(d3, IsPassport(d3), PassportBlock(Values(d3, PassportKeys)));
    data := SetEsimBlock(d4);
  }

  // ---------------------------------------------------------------------
  // Properties of the edited record, for any facts

  /** The early blocks write only early keys. */
  lemma EarlyFrame(input: map<string, string>, f: Facts, k: string)
    requires !EarlyKey(k)
    ensures k in Early(input, f) <==> k in input
    ensures Lookup(Early(input, f), k) == Lookup(input, k)
  {
  }

  /** The late blocks write only late keys. */
  lemma LateFrame(data: map<string, string>, f: Facts, k: string)
    requires !LateKey(k)
    ensures k in Late(data, f) <==> k in data
    ensures Lookup(Late(data, f), k) == Lookup(data, k)
  {
  }

  lemma PortKeysNotLate(k: string)
    requires IsPortKey(k)
    ensures !LateKey(k)
  {
  }

  lemma FlagsNotLate(k: string)
    requires IsMnpKey(k)
    ensures !LateKey(k)
  {
  }

  lemma DateKeysNotLate()
    ensures !LateKey("apply_date_year") && !LateKey("apply_date_month") && !LateKey("apply_date_day")
  {
  }

  lemma EarlyPortKey(input: map<string, string>, f: Facts, k: string)
    requires IsPortKey(k)
    ensures Lookup(Early(input, f), k) == (if f.port then Lookup(input, k) else "")
  {
  }

  lemma EditPortKey(input: map<string, string>, f: Facts, k: string)
    requires IsPortKey(k)
    ensures Lookup(Edit(input, f), k) == (if f.port then Lookup(input, k) else "")
  {
    PortKeysNotLate(k);
    LateFrame(Early(input, f), f, k);
    EarlyPortKey(input, f, k);
  }

  lemma EarlyFlag(input: map<string, string>, f: Facts, k: string)
    requires IsMnpKey(k)
    ensures Lookup(Early(input, f), k) == (if f.port then "1" else "")
  {
  }

  lemma EditFlag(input: map<string, string>, f: Facts, k: string)
    requires IsMnpKey(k)
    ensures Lookup(Edit(input, f), k) == (if f.port then "1" else "")
  {
    FlagsNotLate(k);
    LateFrame(Early(input, f), f, k);
    EarlyFlag(input, f, k);
  }

  lemma EditDate(input: map<string, string>, f: Facts)
    ensures Lookup(Edit(input, f), "apply_date_year") == f.year
    ensures Lookup(Edit(input, f), "apply_date_month") == f.month
    ensures Lookup(Edit(input, f), "apply_date_day") == f.day
  {
    var d := Early(input, f);
    DateKeysNotLate();
    LateFrame(d, f, "apply_date_year");
    LateFrame(d, f, "apply_date_month");
    LateFrame(d, f, "apply_date_day");
  }

  lemma EditAddress(input: map<string, string>, f: Facts)
    ensures Lookup(Edit(input, f), "addr") == f.addr
  {
  }

  lemma PassportKeysNotEsim(k: string)
    requires k == "passport_info_print" || IsPassportKey(k)
    ensures k != "esim_info_print" && !IsEsimKey(k)
  {
  }

  lemma PassportKeysNotEarly(k: string)
    requires k == "passport_info_print" || IsPassportKey(k)
    ensures !EarlyKey(k) && k != "addr"
  {
  }

  lemma EsimKeysNotEarly(k: string)
    requires k == "esim_info_print" || IsEsimKey(k)
    ensures !EarlyKey(k) && k != "addr"
  {
  }

  lemma EsimKeysNotPassport(k: string)
    requires k == "esim_info_print" || IsEsimKey(k)
    ensures k != "passport_info_print" && !IsPassportKey(k)
  {
  }

  /** The eSIM block writes only its own keys. */
  lemma EsimFrame(data: map<string, string>, esim: bool, block: string, k: string)
    requires k != "esim_info_print" && !IsEsimKey(k)
    ensures k in ApplyEsim(data, esim, block) <==> k in data
    ensures Lookup(ApplyEsim(data, esim, block), k) == Lookup(data, k)
  {
  }

  /** The passport block writes only its own keys. */
  lemma PassportFrame(data: map<string, string>, passport: bool, block: string, k: string)
    requires k != "passport_info_print" && !IsPassportKey(k)
    ensures k in ApplyPassport(data, passport, block) <==> k in data
    ensures Lookup(ApplyPassport(data, passport, block), k) == Lookup(data, k)
  {
  }

  lemma PassportKeyAt(data: map<string, string>, passport: bool, block: string, k: string)
    requires IsPassportKey(k)
    ensures Lookup(ApplyPassport(data, passport, block), k) == if passport then Lookup(data, k) else ""
  {
  }

  lemma EsimKeyAt(data: map<string, string>, esim: bool, block: string, k: string)
    requires IsEsimKey(k)
    ensures Lookup(ApplyEsim(data, esim, block), k) == if esim then Lookup(data, k) else ""
  {
  }

  lemma EditPassportBlock(input: map<string, string>, f: Facts)
    ensures Lookup(Edit(input, f), "passport_info_print") == if f.passport then f.passportBlock else ""
  {
    var d := ApplyPassport(ApplyAddress(Early(input, f), f.addr), f.passport, f.passportBlock);
    PassportKeysNotEsim("passport_info_print");
    EsimFrame(d, f.esim, f.esimBlock, "passport_info_print");
  }

  lemma EditPassportKey(input: map<string, string>, f: Facts, k: string)
    requires IsPassportKey(k)
    ensures Lookup(Edit(input, f), k) == if f.passport then Lookup(input, k) else ""
  {
    var d := ApplyAddress(Early(input, f), f.addr);
    PassportKeysNotEsim(k);
    EsimFrame(ApplyPassport(d, f.passport, f.passportBlock), f.esim, f.esimBlock, k);
    PassportKeyAt(d, f.passport, f.passportBlock, k);
    PassportKeysNotEarly(k);
    EarlyFrame(input, f, k);
  }

  lemma EditEsimBlock(input: map<string, string>, f: Facts)
    ensures Lookup(Edit(input, f), "esim_info_print") == if f.esim then f.esimBlock else ""
  {
  }

  lemma EditEsimKey(input: map<string, string>, f: Facts, k: string)
    requires IsEsimKey(k)
    ensures Lookup(Edit(input, f), k) == if f.esim then Lookup(input, k) else ""
  {
    var d := ApplyAddress(Early(input, f), f.addr);
    EsimKeyAt(ApplyPassport(d, f.passport, f.passportBlock), f.esim, f.esimBlock, k);
    EsimKeysNotPassport(k);
    PassportFrame(d, f.passport, f.passportBlock, k);
    EsimKeysNotEarly(k);
    EarlyFrame(input, f, k);
  }

  /** A key no block writes keeps its value and its presence. */
  lemma EditPassThrough(input: map<string, string>, f: Facts, k: string)
    requires !EarlyKey(k) && !LateKey(k)
    ensures k in Edit(input, f) <==> k in input
    ensures Lookup(Edit(input, f), k) == Lookup(input, k)
  {
    EarlyFrame(input, f, k);
    LateFrame(Early(input, f), f, k);
  }

  lemma EditKeys(input: map<string, string>, f: Facts)
    ensures Edit(input, f).Keys == input.Keys + WrittenFor(f.port, f.passport, f.esim)
  {
  }

  // ---------------------------------------------------------------------
  // Properties of the derived record

  /** Lines 46-52: the four portability keys keep their values for a `port`
      application and are blanked for any other. */
  lemma PortGating(input: map<string, string>, year: nat, month: nat, day: nat, k: string)
    requires IsPortKey(k)
    ensures Lookup(Derived(input, year, month, day), k) == if IsPort(input) then Lookup(input, k) else ""
  {
    EditPortKey(input, FactsOf(input, year, month, day), k);
  }

  /** Lines 56-64: each mnp checkbox source is `"1"` exactly for a `port`
      application and empty otherwise. */
  lemma MnpFlags(input: map<string, string>, year: nat, month: nat, day: nat, k: string)
    requires IsMnpKey(k)
    ensures Lookup(Derived(input, year, month, day), k) == "1" <==> IsPort(input)
    ensures Lookup(Derived(input, year, month, day), k) == "" <==> !IsPort(input)
  {
    EditFlag(input, FactsOf(input, year, month, day), k);
  }

  /** Line 46: the join type is compared after lower-casing but without
      trimming, so `port` in any mix of cases selects number portability and
      a padded value such as `" port"` does not. */
  lemma PortSpelling(input: map<string, string>)
    ensures IsPort(input) <==>
      var jt := Lookup(input, "join_type");
      |jt| == 4 && forall i :: 0 <= i < 4 ==> jt[i] == "port"[i] || jt[i] == "PORT"[i]
  {
    LowerEqualsAscii(Lookup(input, "join_type"), "port");
  }

  /** Lines 67-70: the year in decimal, and the month and day padded to two
      digits; `TwoDigits` and `DecimalRoundTrip` say these read back as the
      numbers. */
  lemma DateFields(input: map<string, string>, year: nat, month: nat, day: nat)
    ensures Lookup(Derived(input, year, month, day), "apply_date_year") == DecimalString(year)
    ensures Lookup(Derived(input, year, month, day), "apply_date_month") == PadStart2(DecimalString(month))
    ensures Lookup(Derived(input, year, month, day), "apply_date_day") == PadStart2(DecimalString(day))
    ensures month < 100 ==> |Lookup(Derived(input, year, month, day), "apply_date_month")| == 2
    ensures day < 100 ==> |Lookup(Derived(input, year, month, day), "apply_date_day")| == 2
  {
    EditDate(input, FactsOf(input, year, month, day));
    if month < 100 { TwoDigits(month); }
    if day < 100 { TwoDigits(day); }
  }

  /** The joined parts of two trimmed strings start and end with a
      non-space character, are empty only when both parts are, and are the
      other part alone, with no separator, when one part is empty. */
  lemma JoinPartsShape(road: string, detail: string)
    requires Trimmed(road) && Trimmed(detail)
    ensures JoinParts(road, detail) == "" <==> road == "" && detail == ""
    ensures var j := JoinParts(road, detail); j != "" ==> !IsSpace(j[0]) && !IsSpace(j[|j| - 1])
    ensures NonSpace(JoinParts(road, detail)) == NonSpace(road) + NonSpace(detail)
    ensures road == "" ==> JoinParts(road, detail) == detail
    ensures detail == "" ==> JoinParts(road, detail) == road
  {
    var j := JoinParts(road, detail);
    if road != "" && detail != "" {
      assert j == road + " " + detail;
      assert j[0] == road[0] && j[|j| - 1] == detail[|detail| - 1];
      NonSpaceSplit(road + " ", detail);
      NonSpaceSplit(road, " ");
      assert NonSpace(" ") == [];
    } else if road != "" {
      assert j == road;
    } else if detail != "" {
      assert j == detail;
    } else {
      assert j == "";
    }
  }

  /** Lines 74-77: the address has no white space at either end, only
      single plain spaces inside, keeps every other character of road and
      detail in order, and is empty exactly when both are blank. */
  lemma AddressShape(road: string, detail: string)
    ensures Trimmed(ComposeAddress(Trim(road), Trim(detail)))
    ensures SingleSpaced(ComposeAddress(Trim(road), Trim(detail)))
    ensures NonSpace(ComposeAddress(Trim(road), Trim(detail))) == NonSpace(road) + NonSpace(detail)
    ensures ComposeAddress(Trim(road), Trim(detail)) == "" <==> AllSpace(road) && AllSpace(detail)
  {
    var r, d := Trim(road), Trim(detail);
    var j := JoinParts(r, d);
    JoinPartsShape(r, d);
    TrimNonSpace(road);
    TrimNonSpace(detail);
    CollapseNonSpace(j);
    TrimNonSpace(Collapse(j));
    if j != "" {
      CollapseTrimmed(j);
      TrimOfTrimmed(Collapse(j));
      CollapseSingleSpaced(j);
    }
  }

  /** Lines 74-76: a run of white space inside road or detail becomes one
      space, road and detail are separated by exactly one space when both
      have text, and a blank part leaves the other part on its own. */
  lemma AddressParts(road: string, detail: string)
    ensures !AllSpace(road) && !AllSpace(detail) ==>
      ComposeAddress(Trim(road), Trim(detail)) == Collapse(Trim(road)) + " " + Collapse(Trim(detail))
    ensures !AllSpace(road) && AllSpace(detail) ==> ComposeAddress(Trim(road), Trim(detail)) == Collapse(Trim(road))
    ensures AllSpace(road) && !AllSpace(detail) ==> ComposeAddress(Trim(road), Trim(detail)) == Collapse(Trim(detail))
  {
    var r, d := Trim(road), Trim(detail);
    if r != "" && d != "" {
      assert JoinParts(r, d) == r + (" " + d);
      CollapseAppend(r, " " + d);
      CollapseSpaceBefore(d);
      var c := Collapse(r) + " " + Collapse(d);
      assert Collapse(JoinParts(r, d)) == c;
      CollapseFirst(r);
      CollapseLast(d);
      assert c[0] == Collapse(r)[0] && c[|c| - 1] == Collapse(d)[|Collapse(d)| - 1];
      TrimOfTrimmed(c);
    } else if r != "" {
      assert JoinParts(r, d) == r;
      CollapseTrimmed(r);
      TrimOfTrimmed(Collapse(r));
    } else if d != "" {
      assert JoinParts(r, d) == d;
      CollapseTrimmed(d);
      TrimOfTrimmed(Collapse(d));
    }
  }

  /** Lines 73-78: `addr` is the composed address of the input's road and
      detail. */
  lemma AddressField(input: map<string, string>, year: nat, month: nat, day: nat)
    ensures Lookup(Derived(input, year, month, day), "addr")
      == ComposeAddress(Trim(Lookup(input, "addr_road")), Trim(Lookup(input, "addr_detail")))
  {
    EditAddress(input, FactsOf(input, year, month, day));
  }

  /** The passport block and the passport keys: the block for a passport,
      and otherwise an empty block with every passport key blanked. */
  lemma PassportFields(input: map<string, string>, year: nat, month: nat, day: nat, k: string)
    requires IsPassportKey(k)
    ensures Lookup(Derived(input, year, month, day), "passport_info_print")
      == if IsPassport(input) then PassportBlock(Values(input, PassportKeys)) else ""
    ensures Lookup(Derived(input, year, month, day), k) == if IsPassport(input) then Lookup(input, k) else ""
  {
    var f := FactsOf(input, year, month, day);
    EditPassportBlock(input, f);
    EditPassportKey(input, f, k);
  }

  /** The eSIM block and the eSIM keys: the block for an eSIM, and otherwise
      an empty block with every eSIM key blanked. */
  lemma EsimFields(input: map<string, string>, year: nat, month: nat, day: nat, k: string)
    requires IsEsimKey(k)
    ensures Lookup(Derived(input, year, month, day), "esim_info_print")
      == if IsEsim(input) then EsimBlock(Values(input, EsimKeys)) else ""
    ensures Lookup(Derived(input, year, month, day), k) == if IsEsim(input) then Lookup(input, k) else ""
  {
    var f := FactsOf(input, year, month, day);
    EditEsimBlock(input, f);
    EditEsimKey(input, f, k);
  }

  /** Every key that no block of lines 45-129 mentions is copied from the
      input unchanged, and is present exactly when it was. */
  lemma PassThrough(input: map<string, string>, year: nat, month: nat, day: nat, k: string)
    requires !EarlyKey(k) && !LateKey(k)
    ensures k in Derived(input, year, month, day) <==> k in input
    ensures Lookup(Derived(input, year, month, day), k) == Lookup(input, k)
  {
    EditPassThrough(input, FactsOf(input, year, month, day), k);
  }

  /** The derived record holds the input's keys and the ones the handler
      writes, and no other. */
  lemma DerivedKeys(input: map<string, string>, year: nat, month: nat, day: nat)
    ensures Derived(input, year, month, day).Keys == input.Keys + WrittenFor(IsPort(input), IsPassport(input), IsEsim(input))
  {
    EditKeys(input, FactsOf(input, year, month, day));
  }

  // ---------------------------------------------------------------------
  // The labelled lines and the two blocks

  /** The lines of a prefix of the fields are a prefix of the lines. */
  lemma {:induction false} LabelledLinesPrefix(labels: seq<string>, values: seq<string>, n: nat)
    requires |labels| == |values| && n <= |labels|
    ensures LabelledLines(labels[..n], values[..n]) <= LabelledLines(labels, values)
    decreases |labels| - n
  {
    if n < |labels| {
      LabelledLinesPrefix(labels, values, n + 1);
      LabelledLinesStep(labels, values, n);
    } else {
      assert labels[..n] == labels && values[..n] == values;
    }
  }

  /** Lines 81-86: field `i` gives a line exactly when its value is not
      empty, and that line is its label followed by its value, placed right
      after the lines of the fields before it. */
  lemma LabelledLineAt(labels: seq<string>, values: seq<string>, i: nat)
    requires |labels| == |values| && i < |labels| && values[i] != ""
    ensures var p := |LabelledLines(labels[..i], values[..i])|;
      p < |LabelledLines(labels, values)| && LabelledLines(labels, values)[p] == labels[i] + values[i]
  {
    LabelledLinesStep(labels, values, i);
    LabelledLinesPrefix(labels, values, i + 1);
  }

  /** The lines of the first `n` fields are one per non-empty value among
      them, in field order: line `j` is the label and value of the `j`-th
      non-empty field. */
  lemma {:induction false} LabelledLinesUpTo(labels: seq<string>, values: seq<string>, n: nat)
    requires |labels| == |values| && n <= |labels|
    ensures |LabelledLines(labels[..n], values[..n])| == |NonEmpty(values, n)|
    ensures forall j :: 0 <= j < |NonEmpty(values, n)| ==>
      NonEmpty(values, n)[j] < |labels| &&
      LabelledLines(labels[..n], values[..n])[j] == labels[NonEmpty(values, n)[j]] + values[NonEmpty(values, n)[j]]
  {
    if n == 0 {
      assert labels[..0] == [] && values[..0] == [];
    } else {
      LabelledLinesUpTo(labels, values, n - 1);
      LabelledLinesStep(labels, values, n - 1);
      var p := NonEmpty(values, n - 1);
      var idx := NonEmpty(values, n);
      var prev := LabelledLines(labels[..n - 1], values[..n - 1]);
      var ls := LabelledLines(labels[..n], values[..n]);
      assert ls == PushIfPresent(prev, labels[n - 1], values[n - 1]);
      forall j | 0 <= j < |idx|
        ensures idx[j] < |labels| && ls[j] == labels[idx[j]] + values[idx[j]]
      {
        if j < |p| {
          assert idx[j] == p[j];
          assert ls[j] == prev[j];
        }
      }
    }
  }

  /** Lines 81-86: the block's lines are exactly one per non-empty value, in
      field order, each its label followed by its value. */
  lemma LabelledLinesInOrder(labels: seq<string>, values: seq<string>)
    requires |labels| == |values|
    ensures |LabelledLines(labels, values)| == |NonEmpty(values, |values|)|
    ensures forall j :: 0 <= j < |NonEmpty(values, |values|)| ==>
      NonEmpty(values, |values|)[j] < |labels| &&
      LabelledLines(labels, values)[j] == labels[NonEmpty(values, |values|)[j]] + values[NonEmpty(values, |values|)[j]]
  {
    LabelledLinesUpTo(labels, values, |labels|);
    assert labels[..|labels|] == labels && values[..|values|] == values;
  }

  /** Every line is the label and value of a field with a non-empty value. */
  lemma {:induction false} LabelledLinesOnly(labels: seq<string>, values: seq<string>)
    requires |labels| == |values|
    ensures forall l :: l in LabelledLines(labels, values) ==>
      exists i :: 0 <= i < |labels| && values[i] != "" && l == labels[i] + values[i]
  {
    if labels != [] {
      var n := |labels| - 1;
      LabelledLinesOnly(labels[..n], values[..n]);
      forall l | l in LabelledLines(labels, values)
        ensures exists i :: 0 <= i < |labels| && values[i] != "" && l == labels[i] + values[i]
      {
        if l in LabelledLines(labels[..n], values[..n]) {
          var i :| 0 <= i < n && values[..n][i] != "" && l == labels[..n][i] + values[..n][i];
          assert values[i] != "" && l == labels[i] + values[i];
        } else {
          assert l == labels[n] + values[n];
        }
      }
    }
  }

  /** There are no lines exactly when every value is empty. */
  lemma {:induction false} LabelledLinesEmpty(labels: seq<string>, values: seq<string>)
    requires |labels| == |values|
    ensures LabelledLines(labels, values) == [] <==> forall i :: 0 <= i < |values| ==> values[i] == ""
  {
    if labels != [] {
      var n := |labels| - 1;
      LabelledLinesEmpty(labels[..n], values[..n]);
      if values[n] == "" {
        assert forall i :: 0 <= i < n ==> values[..n][i] == values[i];
      }
    }
  }

  lemma PassportLabelsPlain()
    ensures forall i :: 0 <= i < 5 ==> PassportLabels[i] != "" && PlainLine(PassportLabels[i])
  {
  }

  /** Lines 81-87: the passport block is empty exactly when all five values
      are empty. */
  lemma PassportBlockEmpty(values: seq<string>)
    requires |values| == 5
    ensures PassportBlock(values) == "" <==> forall i :: 0 <= i < 5 ==> values[i] == ""
  {
    var lines := LabelledLines(PassportLabels, values);
    LabelledLinesEmpty(PassportLabels, values);
    LabelledLinesOnly(PassportLabels, values);
    PassportLabelsPlain();
    forall j | 0 <= j < |lines| ensures lines[j] != "" {
      assert lines[j] in lines;
    }
    JoinLinesEmpty(lines);
  }

  /** Line 87: when no value holds a line break, splitting the passport
      block at its line feeds gives back the labelled lines. */
  lemma PassportBlockLines(values: seq<string>)
    requires |values| == 5
    requires forall i :: 0 <= i < 5 ==> PlainLine(values[i])
    requires exists i :: 0 <= i < 5 && values[i] != ""
    ensures SplitLines(PassportBlock(values)) == LabelledLines(PassportLabels, values)
  {
    var lines := LabelledLines(PassportLabels, values);
    LabelledLinesEmpty(PassportLabels, values);
    LabelledLinesOnly(PassportLabels, values);
    PassportLabelsPlain();
    forall j | 0 <= j < |lines| ensures PlainLine(lines[j]) {
      assert lines[j] in lines;
      var i :| 0 <= i < 5 && values[i] != "" && lines[j] == PassportLabels[i] + values[i];
      PlainLineAppend(PassportLabels[i], values[i]);
    }
    SplitJoin(lines);
  }

  lemma EsimLabelsPlain()
    ensures forall i :: 0 <= i < 4 ==> EsimLabels[i] != "" && PlainLine(EsimLabels[i])
  {
  }

  /** Lines 112-121: the eSIM block is empty exactly when all four values
      are blank. */
  lemma EsimBlockEmpty(raw: seq<string>)
    requires |raw| == 4
    ensures EsimBlock(raw) == "" <==> forall i :: 0 <= i < 4 ==> AllSpace(raw[i])
  {
    var v := Trimmed4(raw);
    EsimLabelsPlain();
    if v[0] != "" || v[1] != "" || v[2] != "" || v[3] != "" {
      assert |EsimBlock(raw)| >= |EsimLabels[0]|;
    }
  }

  lemma EsimLinesPlain(raw: seq<string>)
    requires |raw| == 4
    requires forall i, k :: 0 <= i < 4 && 0 <= k < |raw[i]| ==> raw[i][k] != '\n'
    ensures forall i :: 0 <= i < 4 ==> PlainLine(EsimLines(Trimmed4(raw))[i])
  {
    EsimLabelsPlain();
    forall i | 0 <= i < 4 ensures PlainLine(EsimLines(Trimmed4(raw))[i]) {
      TrimPlain(raw[i]);
      PlainLineAppend(EsimLabels[i], Trim(raw[i]));
    }
  }

  /** Lines 113-118: a non-blank eSIM block always holds four lines, one per
      label, each followed by the trimmed value, even when that value is
      empty. */
  lemma EsimBlockLines(raw: seq<string>)
    requires |raw| == 4
    requires forall i, k :: 0 <= i < 4 && 0 <= k < |raw[i]| ==> raw[i][k] != '\n'
    requires exists i :: 0 <= i < 4 && !AllSpace(raw[i])
    ensures SplitLines(EsimBlock(raw)) == EsimLines(Trimmed4(raw))
  {
    EsimLinesPlain(raw);
    SplitJoin(EsimLines(Trimmed4(raw)));
  }
}
