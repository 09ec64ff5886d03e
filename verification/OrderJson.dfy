/** The generated JSON decoders: one loop over an object's fields that sets a bit for each
    required field it meets, then a loop over the bits still missing. The generated code
    has this shape once per type; here it takes the type's list of fields. */
module OrderJson {
  import opened Wrappers
  import Domain

  // A JSON value, already tokenised.
  datatype Json = JString(text: string) | JNumber(n: int) | JArray(elems: seq<Json>) | JOther

  datatype Kind = UuidField | UuidsField | NumberField | TextField
  datatype Field = Field(name: string, kind: Kind)
  datatype Value = UuidValue(u: string) | UuidsValue(us: seq<string>) | NumberValue(n: int) | TextValue(t: string)

  datatype Outcome =
    | Decoded(values: seq<Value>)
    | BadField(name: string)
    | MissingFields(names: seq<string>)

  // An object is its fields in the order of the text; keys may repeat or be unknown.
  type Object = seq<(string, Json)>

  const GET_ORDER_RESP := [
    Field("order_uuid", UuidField), Field("user_uuid", UuidField), Field("part_uuids", UuidsField),
    Field("total_price", NumberField), Field("transaction_uuid", UuidField),
    Field("payment_method", TextField), Field("status", TextField)]

  const CREATE_ORDER_REQ := [Field("user_uuid", UuidField), Field("part_uuids", UuidsField)]

  // ---- Bytes, as their eight bits, the lowest first --------------------------------

  type Byte = bits: seq<bool> | |bits| == 8 witness seq(8, _ => false)

  const EMPTY: Byte := seq(8, _ => false)

  function And(x: Byte, y: Byte): Byte {
    seq(8, i requires 0 <= i < 8 => x[i] && y[i])
  }

  function Xor(x: Byte, y: Byte): Byte {
    seq(8, i requires 0 <= i < 8 => x[i] != y[i])
  }

  function OnesCount(bits: seq<bool>): nat {
    if bits == [] then 0 else (if bits[0] then 1 else 0) + OnesCount(bits[1..])
  }

  /** The position of the lowest set bit, or the length if there is none. */
  function TrailingZeros(bits: seq<bool>): nat {
    if bits == [] || bits[0] then 0 else 1 + TrailingZeros(bits[1..])
  }

  lemma {:induction false} TrailingZerosIsLowest(bits: seq<bool>)
    ensures TrailingZeros(bits) <= |bits|
    ensures forall j :: 0 <= j < TrailingZeros(bits) ==> !bits[j]
    ensures TrailingZeros(bits) < |bits| ==> bits[TrailingZeros(bits)]
  {
    if bits != [] && !bits[0] {
      TrailingZerosIsLowest(bits[1..]);
      assert forall j :: 0 < j < |bits| ==> bits[j] == bits[1..][j - 1];
    }
  }

  lemma {:induction false} OnesCountMeans(bits: seq<bool>)
    ensures OnesCount(bits) == 0 <==> forall j :: 0 <= j < |bits| ==> !bits[j]
  {
    if bits != [] {
      OnesCountMeans(bits[1..]);
      assert forall j :: 0 < j < |bits| ==> bits[j] == bits[1..][j - 1];
    }
  }

  lemma {:induction false} ResetCounts(bits: seq<bool>, i: nat)
    requires i < |bits| && bits[i]
    ensures OnesCount(bits[i := false]) == OnesCount(bits) - 1
  {
    if i == 0 {
      assert bits[0 := false][1..] == bits[1..];
    } else {
      assert bits[i := false][1..] == bits[1..][i - 1 := false];
      ResetCounts(bits[1..], i - 1);
    }
  }

  /** The bits of the n lowest fields, all required: 0b01111111 for seven. */
  function RequiredMask(n: nat): Byte
    requires n <= 8
  {
    seq(8, i => i < n)
  }

  // ---- What a decoder should return ---------------------------------------------

  ghost predicate Schema(fields: seq<Field>) {
    && |fields| <= 8
    && (forall i, j :: 0 <= i < j < |fields| ==> fields[i].name != fields[j].name)
  }

  /** The switch on the key. */
  function FieldIndex(schema: seq<Field>, key: string): (i: Option<nat>)
    ensures i.Some? ==> i.value < |schema| && schema[i.value].name == key
    ensures i.None? ==> forall j :: 0 <= j < |schema| ==> schema[j].name != key
  {
    if schema == [] then None
    else if schema[0].name == key then Some(0)
    else
      match FieldIndex(schema[1..], key)
      case None => None
      case Some(j) => Some(j + 1)
  }

  function ReadUuids(elems: seq<Json>): Option<seq<string>> {
    if elems == [] then Some([])
    else if !(elems[0].JString? && Domain.UuidText(elems[0].text)) then None
    else
      match ReadUuids(elems[1..])
      case None => None
      case Some(rest) => Some([elems[0].text] + rest)
  }

  function Read(kind: Kind, j: Json): Option<Value> {
    match kind
    case UuidField => if j.JString? && Domain.UuidText(j.text) then Some(UuidValue(j.text)) else None
    case UuidsField =>
      if j.JArray? && ReadUuids(j.elems).Some? then Some(UuidsValue(ReadUuids(j.elems).value)) else None
    case NumberField => if j.JNumber? then Some(NumberValue(j.n)) else None
    case TextField => if j.JString? then Some(TextValue(j.text)) else None
  }

  predicate Present(schema: seq<Field>, obj: Object, i: nat) {
    exists f :: f in obj && FieldIndex(schema, f.0) == Some(i)
  }

  predicate Readable(schema: seq<Field>, f: (string, Json)) {
    match FieldIndex(schema, f.0)
    case None => true
    case Some(i) => Read(schema[i].kind, f.1).Some?
  }

  /** What the last occurrence of field i holds. */
  function Last(schema: seq<Field>, obj: Object, i: nat): Option<Value>
    requires i < |schema|
  {
    if obj == [] then None
    else
      var f := obj[|obj| - 1];
      if FieldIndex(schema, f.0) == Some(i) then Read(schema[i].kind, f.1) else Last(schema, obj[..|obj| - 1], i)
  }

  /** The names of the absent fields, from field i on, in index order. */
  function Absent(schema: seq<Field>, obj: Object, i: nat): seq<string>
    requires i <= |schema|
    decreases |schema| - i
  {
    if i == |schema| then []
    else (if Present(schema, obj, i) then [] else [schema[i].name]) + Absent(schema, obj, i + 1)
  }

  function Zero(kind: Kind): Value {
    match kind
    case UuidField => UuidValue("")
    case UuidsField => UuidsValue([])
    case NumberField => NumberValue(0)
    case TextField => TextValue("")
  }

  // ---- The decoder ----------------------------------------------------------------

  method DecodeUuids(elems: seq<Json>) returns (r: Option<seq<string>>)
    ensures r == ReadUuids(elems)
  {
    var us: seq<string> := [];
    assert elems[0..] == elems && forall rest: seq<string> :: [] + rest == rest;
    for i := 0 to |elems|
      invariant ReadUuids(elems) == match ReadUuids(elems[i..])
                                    case None => None
                                    case Some(rest) => Some(us + rest)
    {
      assert elems[i..][1..] == elems[i + 1..];
      if !(elems[i].JString? && Domain.UuidText(elems[i].text)) {
        return None;
      }
      ghost var before := us;
      us := us + [elems[i].text];
      assert forall rest: seq<string> :: before + ([elems[i].text] + rest) == us + rest;
    }
    assert us + [] == us;
    return Some(us);
  }

  method DecodeValue(kind: Kind, j: Json) returns (r: Option<Value>)
    ensures r == Read(kind, j)
  {
    if kind.UuidsField? && j.JArray? {
      var us := DecodeUuids(j.elems);
      return if us.Some? then Some(UuidsValue(us.value)) else None;
    }
    return Read(kind, j);
  }

  function Digits(n: nat): string {
    if n < 10 then ["0123456789"[n]] else Digits(n / 10) + ["0123456789"[n % 10]]
  }

  function Itoa(n: int): string {
    if n < 0 then "-" + Digits(-n) else Digits(n)
  }

  /** The bit loop: counts the missing bits, then takes the lowest one that many times.
      It lists exactly the absent fields, once each, in index order, by name. */
  method ListMissing(schema: seq<Field>, obj: Object, bits: Byte) returns (failures: seq<string>)
    requires Schema(schema)
    requires forall i :: 0 <= i < |schema| ==> (bits[i] <==> Present(schema, obj, i))
    ensures failures == Absent(schema, obj, 0)
  {
    var mask := RequiredMask(|schema|);
    var result := Xor(And(bits, mask), mask);
    failures := [];
    var missed := OnesCount(result);
    var bitN := 0;
    ghost var from: nat := 0;
    while bitN < missed
      invariant bitN <= missed && OnesCount(result) == missed - bitN
      invariant MissingFrom(schema, obj, result, from)
      invariant Absent(schema, obj, 0) == failures + Absent(schema, obj, from)
    {
      LowestIsNextAbsent(schema, obj, result, from);
      var bitIdx := TrailingZeros(result);
      var name := if bitIdx < |schema| then schema[bitIdx].name else Itoa(bitIdx);
      failures := failures + [name];
      result := result[bitIdx := false];
      from := bitIdx + 1;
      bitN := bitN + 1;
    }
    OnesCountMeans(result);
    SkipPresent(schema, obj, from, |schema|);
  }

  /** The bits left are the absent fields from this one on. */
  ghost predicate MissingFrom(schema: seq<Field>, obj: Object, result: Byte, from: nat) {
    && from <= |schema| <= 8
    && forall j :: 0 <= j < 8 ==> (result[j] <==> from <= j < |schema| && !Present(schema, obj, j))
  }

  lemma LowestIsNextAbsent(schema: seq<Field>, obj: Object, result: Byte, from: nat)
    requires MissingFrom(schema, obj, result, from) && OnesCount(result) > 0
    ensures var i := TrailingZeros(result);
            && from <= i < |schema|
            && Absent(schema, obj, from) == [schema[i].name] + Absent(schema, obj, i + 1)
            && MissingFrom(schema, obj, result[i := false], i + 1)
            && OnesCount(result[i := false]) == OnesCount(result) - 1
  {
    OnesCountMeans(result);
    TrailingZerosIsLowest(result);
    var i := TrailingZeros(result);
    SkipPresent(schema, obj, from, i);
    ResetCounts(result, i);
  }

  lemma {:induction false} SkipPresent(schema: seq<Field>, obj: Object, i: nat, j: nat)
    requires i <= j <= |schema|
    requires forall k :: i <= k < j ==> Present(schema, obj, k)
    ensures Absent(schema, obj, i) == Absent(schema, obj, j)
    decreases j - i
  {
    if i < j {
      assert Absent(schema, obj, i) == [] + Absent(schema, obj, i + 1);
      SkipPresent(schema, obj, i + 1, j);
    }
  }

  /** A decoder: fails on the first known field that does not read; then on the missing
      required ones; otherwise each field is its last occurrence. Unknown keys are
      skipped. */
  method Decode(schema: seq<Field>, obj: Object) returns (r: Outcome)
    requires Schema(schema)
    ensures r.BadField? ==>
              exists k :: 0 <= k < |obj| && !Readable(schema, obj[k]) && obj[k].0 == r.name
                          && (forall l :: 0 <= l < k ==> Readable(schema, obj[l]))
    ensures !r.BadField? ==> forall f :: f in obj ==> Readable(schema, f)
    ensures !r.BadField? ==> r == if Absent(schema, obj, 0) != [] then MissingFields(Absent(schema, obj, 0))
                                  else Decoded(Lasts(schema, obj))
  {
    var bits := EMPTY;
    var values := seq(|schema|, i requires 0 <= i < |schema| => Zero(schema[i].kind));
    for k := 0 to |obj|
      invariant Scanned(schema, obj[..k], bits, values)
    {
      var f := obj[k];
      assert obj[..k + 1] == obj[..k] + [f];
      var at := FieldIndex(schema, f.0);
      if at.None? {
        ScanUnknown(schema, obj[..k], f, bits, values);
      } else {
        var v := DecodeValue(schema[at.value].kind, f.1);
        if v.None? {
          assert forall l :: 0 <= l < k ==> obj[l] == obj[..k][l];
          return BadField(f.0);
        }
        ScanKnown(schema, obj[..k], f, bits, values);
        bits := bits[at.value := true];
        values := values[at.value := v.value];
      }
    }
    assert obj[..|obj|] == obj;
    var failures := ListMissing(schema, obj, bits);
    if |failures| > 0 {
      return MissingFields(failures);
    }
    assert values == Lasts(schema, obj);
    return Decoded(values);
  }

  /** The fields so far all read; the bits say which were met; values holds the last. */
  ghost predicate Scanned(schema: seq<Field>, obj: Object, bits: Byte, values: seq<Value>) {
    && |values| == |schema| <= 8
    && (forall f :: f in obj ==> Readable(schema, f))
    && (forall i :: 0 <= i < |schema| ==> (bits[i] <==> Present(schema, obj, i)))
    && (forall i :: 0 <= i < |schema| ==> values[i] == LastOrZero(schema, obj, i))
  }

  lemma ScanUnknown(schema: seq<Field>, obj: Object, f: (string, Json), bits: Byte, values: seq<Value>)
    requires Scanned(schema, obj, bits, values) && FieldIndex(schema, f.0).None?
    ensures Scanned(schema, obj + [f], bits, values)
  {
    PresentSnoc(schema, obj, f);
  }

  lemma ScanKnown(schema: seq<Field>, obj: Object, f: (string, Json), bits: Byte, values: seq<Value>)
    requires Scanned(schema, obj, bits, values) && FieldIndex(schema, f.0).Some? && Readable(schema, f)
    ensures var i := FieldIndex(schema, f.0).value;
            Scanned(schema, obj + [f], bits[i := true], values[i := Read(schema[i].kind, f.1).value])
  {
    PresentSnoc(schema, obj, f);
  }

  function LastOrZero(schema: seq<Field>, obj: Object, i: nat): Value
    requires i < |schema|
  {
    Last(schema, obj, i).GetOr(Zero(schema[i].kind))
  }

  /** Each field's last occurrence. */
  function Lasts(schema: seq<Field>, obj: Object): seq<Value> {
    seq(|schema|, i requires 0 <= i < |schema| => LastOrZero(schema, obj, i))
  }

  lemma PresentSnoc(schema: seq<Field>, obj: Object, f: (string, Json))
    ensures forall i: nat ::
              Present(schema, obj + [f], i) <==> Present(schema, obj, i) || FieldIndex(schema, f.0) == Some(i)
    ensures forall i: nat :: i < |schema| ==>
              Last(schema, obj + [f], i) ==
              if FieldIndex(schema, f.0) == Some(i) then Read(schema[i].kind, f.1) else Last(schema, obj, i)
  {
    assert (obj + [f])[..|obj|] == obj;
    assert forall g :: g in obj + [f] <==> g in obj || g == f;
  }

  // ---- Round trip -------------------------------------------------------------------

  predicate OfKind(kind: Kind, v: Value) {
    match kind
    case UuidField => v.UuidValue? && Domain.UuidText(v.u)
    case UuidsField => v.UuidsValue? && forall u :: u in v.us ==> Domain.UuidText(u)
    case NumberField => v.NumberValue?
    case TextField => v.TextValue?
  }

  predicate Valid(schema: seq<Field>, values: seq<Value>) {
    |values| == |schema| && forall i :: 0 <= i < |schema| ==> OfKind(schema[i].kind, values[i])
  }

  function WriteUuids(us: seq<string>): seq<Json> {
    if us == [] then [] else [JString(us[0])] + WriteUuids(us[1..])
  }

  function Write(v: Value): Json {
    match v
    case UuidValue(u) => JString(u)
    case UuidsValue(us) => JArray(WriteUuids(us))
    case NumberValue(n) => JNumber(n)
    case TextValue(t) => JString(t)
  }

  /** encodeFields: the fields in declared order. */
  function Encode(schema: seq<Field>, values: seq<Value>): Object
    requires |values| == |schema|
  {
    seq(|schema|, i requires 0 <= i < |schema| => (schema[i].name, Write(values[i])))
  }

  lemma {:induction false} ReadWriteUuids(us: seq<string>)
    requires forall u :: u in us ==> Domain.UuidText(u)
    ensures ReadUuids(WriteUuids(us)) == Some(us)
  {
    if us != [] {
      assert us[0] in us;
      ReadWriteUuids(us[1..]);
      assert WriteUuids(us)[1..] == WriteUuids(us[1..]);
      assert [us[0]] + us[1..] == us;
    }
  }

  lemma ReadWrite(kind: Kind, v: Value)
    requires OfKind(kind, v)
    ensures Read(kind, Write(v)) == Some(v)
  {
    if kind.UuidsField? {
      ReadWriteUuids(v.us);
    }
  }

  lemma {:induction false} WriteReadUuids(elems: seq<Json>)
    requires ReadUuids(elems).Some?
    ensures WriteUuids(ReadUuids(elems).value) == elems
    ensures forall u :: u in ReadUuids(elems).value ==> Domain.UuidText(u)
  {
    if elems != [] {
      WriteReadUuids(elems[1..]);
      var us := ReadUuids(elems).value;
      assert us[0] == elems[0].text && us[1..] == ReadUuids(elems[1..]).value;
      assert elems == [elems[0]] + elems[1..];
      assert forall u :: u in us ==> u == us[0] || u in us[1..];
    }
  }

  /** What a field reads is exactly what its kind of value writes. */
  lemma ReadMeaning(kind: Kind, j: Json, v: Value)
    ensures Read(kind, j) == Some(v) <==> OfKind(kind, v) && Write(v) == j
  {
    if OfKind(kind, v) {
      ReadWrite(kind, v);
    }
    if kind.UuidsField? && Read(kind, j) == Some(v) {
      WriteReadUuids(j.elems);
    }
  }

  /** Last is what the last occurrence of the field reads, None without one. */
  lemma {:induction false} LastMeaning(schema: seq<Field>, obj: Object, i: nat, k: nat)
    requires i < |schema|
    ensures !Present(schema, obj, i) ==> Last(schema, obj, i) == None
    ensures k < |obj| && FieldIndex(schema, obj[k].0) == Some(i)
            && (forall l :: k < l < |obj| ==> FieldIndex(schema, obj[l].0) != Some(i)) ==>
              Last(schema, obj, i) == Read(schema[i].kind, obj[k].1)
    decreases |obj|
  {
    if obj != [] {
      var init, f := obj[..|obj| - 1], obj[|obj| - 1];
      assert obj == init + [f];
      PresentSnoc(schema, init, f);
      LastMeaning(schema, init, i, k);
      assert forall l :: 0 <= l < |init| ==> init[l] == obj[l];
    }
  }

  /** From field i on, a field of this name was not met. */
  ghost predicate NotMet(schema: seq<Field>, obj: Object, i: nat, name: string) {
    exists j :: i <= j < |schema| && schema[j].name == name && !Present(schema, obj, j)
  }

  lemma {:induction false} AbsentAreNotMet(schema: seq<Field>, obj: Object, i: nat, name: string)
    requires i <= |schema|
    ensures name in Absent(schema, obj, i) <==> NotMet(schema, obj, i, name)
    decreases |schema| - i
  {
    if i < |schema| {
      AbsentAreNotMet(schema, obj, i + 1, name);
      var first := if Present(schema, obj, i) then [] else [schema[i].name];
      assert Absent(schema, obj, i) == first + Absent(schema, obj, i + 1);
      assert NotMet(schema, obj, i, name) <==> name in first || NotMet(schema, obj, i + 1, name);
    }
  }

  predicate IndexFrom(schema: seq<Field>, i: nat, name: string) {
    FieldIndex(schema, name).Some? && i <= FieldIndex(schema, name).value
  }

  predicate Earlier(schema: seq<Field>, name: string, other: string) {
    var i, j := FieldIndex(schema, name), FieldIndex(schema, other);
    i.Some? && j.Some? && i.value < j.value
  }

  lemma AbsentIndex(schema: seq<Field>, obj: Object, i: nat, name: string)
    requires Schema(schema) && i <= |schema| && name in Absent(schema, obj, i)
    ensures IndexFrom(schema, i, name)
  {
    AbsentAreNotMet(schema, obj, i, name);
    var j :| i <= j < |schema| && schema[j].name == name && !Present(schema, obj, j);
    IndexOfName(schema, j);
  }

  ghost predicate InIndexOrder(schema: seq<Field>, names: seq<string>) {
    forall a, b :: 0 <= a < b < |names| ==> Earlier(schema, names[a], names[b])
  }

  lemma OneMoreInOrder(schema: seq<Field>, i: nat, rest: seq<string>)
    requires Schema(schema) && i < |schema| && InIndexOrder(schema, rest)
    requires forall n :: n in rest ==> IndexFrom(schema, i + 1, n)
    ensures InIndexOrder(schema, [schema[i].name] + rest)
  {
    IndexOfName(schema, i);
    var names := [schema[i].name] + rest;
    forall a, b | 0 <= a < b < |names|
      ensures Earlier(schema, names[a], names[b])
    {
      assert names[b] == rest[b - 1];
      assert rest[b - 1] in rest && IndexFrom(schema, i + 1, rest[b - 1]);
      if a > 0 {
        assert names[a] == rest[a - 1];
      }
    }
  }

  lemma {:induction false} AbsentInOrder(schema: seq<Field>, obj: Object, i: nat)
    requires Schema(schema) && i <= |schema|
    ensures InIndexOrder(schema, Absent(schema, obj, i))
    decreases |schema| - i
  {
    if i < |schema| {
      AbsentInOrder(schema, obj, i + 1);
      var rest := Absent(schema, obj, i + 1);
      forall n | n in rest
        ensures IndexFrom(schema, i + 1, n)
      {
        AbsentIndex(schema, obj, i + 1, n);
      }
      OneMoreInOrder(schema, i, rest);
      assert [] + rest == rest;
    }
  }

  /** The absent names are those of the fields not met, each once, in index order. */
  lemma AbsentMeaning(schema: seq<Field>, obj: Object)
    requires Schema(schema)
    ensures forall n :: n in Absent(schema, obj, 0) <==> NotMet(schema, obj, 0, n)
    ensures InIndexOrder(schema, Absent(schema, obj, 0))
  {
    forall n
      ensures n in Absent(schema, obj, 0) <==> NotMet(schema, obj, 0, n)
    {
      AbsentAreNotMet(schema, obj, 0, n);
    }
    AbsentInOrder(schema, obj, 0);
  }

  /** How each kind of value is written. */
  lemma {:induction false} WriteMeaning(us: seq<string>, n: int, text: string)
    ensures Write(NumberValue(n)) == JNumber(n)
    ensures Write(TextValue(text)) == Write(UuidValue(text)) == JString(text)
    ensures Write(UuidsValue(us)).JArray? && |Write(UuidsValue(us)).elems| == |us|
    ensures forall i :: 0 <= i < |us| ==> Write(UuidsValue(us)).elems[i] == JString(us[i])
    decreases us
  {
    if us != [] {
      WriteMeaning(us[1..], n, text);
      assert forall i :: 0 < i < |us| ==> us[i] == us[1..][i - 1];
    }
  }

  lemma IndexOfName(schema: seq<Field>, i: nat)
    requires Schema(schema) && i < |schema|
    ensures FieldIndex(schema, schema[i].name) == Some(i)
  {
    var j := FieldIndex(schema, schema[i].name);
    assert j.Some?;
    if j.value < i {
    } else if i < j.value {
    }
  }

  /** The known fields of an object, in its order. */
  function Known(schema: seq<Field>, obj: Object): Object {
    if obj == [] then []
    else (if FieldIndex(schema, obj[0].0).Some? then [obj[0]] else []) + Known(schema, obj[1..])
  }

  lemma {:induction false} KnownMeans(schema: seq<Field>, obj: Object)
    ensures forall f :: f in Known(schema, obj) <==> f in obj && FieldIndex(schema, f.0).Some?
  {
    if obj != [] {
      KnownMeans(schema, obj[1..]);
      assert forall f :: f in obj <==> f == obj[0] || f in obj[1..];
    }
  }

  lemma {:induction false} LastOfOnly(schema: seq<Field>, obj: Object, i: nat, v: Value)
    requires i < |schema|
    requires forall f :: f in obj && FieldIndex(schema, f.0) == Some(i) ==> Read(schema[i].kind, f.1) == Some(v)
    ensures Last(schema, obj, i) == if Present(schema, obj, i) then Some(v) else None
    decreases |obj|
  {
    if obj != [] {
      var init, f := obj[..|obj| - 1], obj[|obj| - 1];
      assert obj == init + [f];
      PresentSnoc(schema, init, f);
      LastOfOnly(schema, init, i, v);
    }
  }

  lemma {:induction false} NoneAbsent(schema: seq<Field>, obj: Object, i: nat)
    requires i <= |schema|
    ensures Absent(schema, obj, i) == [] <==> forall j :: i <= j < |schema| ==> Present(schema, obj, j)
    decreases |schema| - i
  {
    if i < |schema| {
      NoneAbsent(schema, obj, i + 1);
    }
  }

  lemma KnownFieldsAreEncoded(schema: seq<Field>, values: seq<Value>, obj: Object)
    requires Schema(schema) && Valid(schema, values)
    requires multiset(Known(schema, obj)) == multiset(Encode(schema, values))
    ensures forall f :: f in obj && FieldIndex(schema, f.0).Some? ==>
              f == Encode(schema, values)[FieldIndex(schema, f.0).value]
    ensures forall i :: 0 <= i < |schema| ==> Encode(schema, values)[i] in obj
  {
    var enc := Encode(schema, values);
    KnownMeans(schema, obj);
    forall f | f in obj && FieldIndex(schema, f.0).Some?
      ensures f == enc[FieldIndex(schema, f.0).value]
    {
      assert f in multiset(Known(schema, obj));
      var j :| 0 <= j < |enc| && enc[j] == f;
      IndexOfName(schema, j);
    }
    forall i | 0 <= i < |schema|
      ensures enc[i] in obj
    {
      assert enc[i] in multiset(enc);
      assert enc[i] in Known(schema, obj);
    }
  }

  /** Decoding any reordering of an encoded value, with unknown keys mixed in anywhere,
      gives the value back. */
  method DecodeReorderedEncoding(schema: seq<Field>, values: seq<Value>, obj: Object) returns (r: Outcome)
    requires Schema(schema) && Valid(schema, values)
    requires multiset(Known(schema, obj)) == multiset(Encode(schema, values))
    ensures r == Decoded(values)
  {
    KnownFieldsAreEncoded(schema, values, obj);
    AllReadable(schema, values, obj);
    AllThere(schema, values, obj);
    r := Decode(schema, obj);
  }

  lemma AllThere(schema: seq<Field>, values: seq<Value>, obj: Object)
    requires Schema(schema) && Valid(schema, values)
    requires forall f :: f in obj && FieldIndex(schema, f.0).Some? ==>
               f == Encode(schema, values)[FieldIndex(schema, f.0).value]
    requires forall i :: 0 <= i < |schema| ==> Encode(schema, values)[i] in obj
    ensures Absent(schema, obj, 0) == []
    ensures Lasts(schema, obj) == values
  {
    forall i: nat | i < |schema|
      ensures Present(schema, obj, i) && Last(schema, obj, i) == Some(values[i])
    {
      OneField(schema, values, obj, i);
    }
    NoneAbsent(schema, obj, 0);
  }

  lemma OneField(schema: seq<Field>, values: seq<Value>, obj: Object, i: nat)
    requires Schema(schema) && Valid(schema, values) && i < |schema|
    requires forall f :: f in obj && FieldIndex(schema, f.0) == Some(i) ==> f == Encode(schema, values)[i]
    requires Encode(schema, values)[i] in obj
    ensures Present(schema, obj, i) && Last(schema, obj, i) == Some(values[i])
  {
    IndexOfName(schema, i);
    ReadWrite(schema[i].kind, values[i]);
    LastOfOnly(schema, obj, i, values[i]);
  }

  lemma AllReadable(schema: seq<Field>, values: seq<Value>, obj: Object)
    requires Schema(schema) && Valid(schema, values)
    requires forall f :: f in obj && FieldIndex(schema, f.0).Some? ==>
               f == Encode(schema, values)[FieldIndex(schema, f.0).value]
    ensures forall f :: f in obj ==> Readable(schema, f)
  {
    forall f | f in obj && FieldIndex(schema, f.0).Some?
      ensures Readable(schema, f)
    {
      var i := FieldIndex(schema, f.0).value;
      ReadWrite(schema[i].kind, values[i]);
    }
  }

  /** The two generated decoders are instances. */
  lemma GeneratedSchemas()
    ensures Schema(GET_ORDER_RESP) && Schema(CREATE_ORDER_REQ)
  {
    assert "order_uuid"[0] == 'o' && "user_uuid"[0] == 'u' && "part_uuids"[2] == 'r' && "total_price"[1] == 'o'
           && "transaction_uuid"[1] == 'r' && "payment_method"[2] == 'y' && "status"[0] == 's';
  }
}
