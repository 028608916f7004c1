/** Scenario documents: schema-typed values written to JSON trees and read back strictly.

    JSON text, its key order and float formatting stay outside: numbers are their texts, an
    object is its members in any order, and a finite float is its shortest decimal text. */
module Document {

  const MAX_SAFE: int := 0x1F_FFFF_FFFF_FFFF

  // ---------- Schemas, values and trees ----------

  datatype Type =
    | PointerT(elem: Type)
    | StructT(fields: seq<Field>)
    | SliceT(elem: Type)
    | IntT(bits: nat)
    | UintT(bits: nat)
    | FloatT
    | StringT
    | BoolT

  datatype Field = Field(name: string, omitEmpty: bool, ty: Type)

  datatype Float = Finite(text: string) | NaN | Infinite

  datatype Value =
    | Nil
    | Pointer(target: Value)
    | Struct(values: seq<Value>)
    | Slice(isNil: bool, items: seq<Value>)
    | Int(n: int)
    | Float(f: Float)
    | String(s: string)
    | Bool(b: bool)

  datatype Member = Member(name: string, value: Json)

  datatype Json = Null | Boolean(b: bool) | Number(text: string) | Text(s: string) | Array(elems: seq<Json>) | Object(members: seq<Member>)

  datatype Problem =
    | MustNotBeNull | ExpectedObject | ExpectedArray | ExpectedInteger | ExpectedNumber | ExpectedString | ExpectedBoolean
    | DuplicateField | UnknownField | BadInteger | UnsafeInteger | IntegerOutOfRange | NotFinite

  datatype Result<+T> = Ok(value: T) | Err(problem: Problem)

  /** No pointer to a pointer, and no two fields of one name. */
  predicate GoodType(t: Type) {
    match t
    case PointerT(e) => !e.PointerT? && GoodType(e)
    case StructT(fields) =>
      && (forall i, j :: 0 <= i < j < |fields| ==> fields[i].name != fields[j].name)
      && (forall i :: 0 <= i < |fields| ==> GoodType(fields[i].ty))
    case SliceT(e) => GoodType(e)
    case IntT(bits) => bits > 0
    case _ => true
  }

  function Pow2(n: nat): nat {
    if n == 0 then 1 else 2 * Pow2(n - 1)
  }

  predicate FitsInt(n: int, bits: nat)
    requires bits > 0
  {
    0 - Pow2(bits - 1) <= n < Pow2(bits - 1)
  }

  predicate FitsUint(n: int, bits: nat) {
    0 <= n < Pow2(bits)
  }

  predicate Typed(v: Value, t: Type)
    requires GoodType(t)
    decreases v
  {
    match t
    case PointerT(e) => v.Nil? || (v.Pointer? && Typed(v.target, e))
    case StructT(fields) =>
      v.Struct? && |v.values| == |fields| && forall i :: 0 <= i < |fields| ==> Typed(v.values[i], fields[i].ty)
    case SliceT(e) => v.Slice? && (v.isNil ==> v.items == []) && forall i :: 0 <= i < |v.items| ==> Typed(v.items[i], e)
    case IntT(bits) => v.Int? && FitsInt(v.n, bits)
    case UintT(bits) => v.Int? && FitsUint(v.n, bits)
    case FloatT => v.Float?
    case StringT => v.String?
    case BoolT => v.Bool?
  }

  function Zero(t: Type): Value {
    match t
    case PointerT(_) => Nil
    case StructT(fields) => Struct(seq(|fields|, i requires 0 <= i < |fields| => Zero(fields[i].ty)))
    case SliceT(_) => Slice(true, [])
    case IntT(_) => Int(0)
    case UintT(_) => Int(0)
    case FloatT => Float(Finite("0"))
    case StringT => String("")
    case BoolT => Bool(false)
  }

  predicate IsZero(v: Value) {
    match v
    case Nil => true
    case Pointer(_) => false
    case Struct(values) => forall i :: 0 <= i < |values| ==> IsZero(values[i])
    case Slice(isNil, _) => isNil
    case Int(n) => n == 0
    case Float(f) => f == Finite("0")
    case String(s) => s == ""
    case Bool(b) => !b
  }

  /** What an omitted field may hold: nothing, or an empty name or collection. */
  predicate Empty(v: Value) {
    match v
    case Slice(_, items) => items == []
    case String(s) => s == ""
    case _ => IsZero(v)
  }

  predicate Kept(v: Value, field: Field) {
    !(field.omitEmpty && Empty(v))
  }

  /** Equal up to nil versus empty collections. */
  predicate Same(v: Value, w: Value) {
    match v
    case Pointer(x) => w.Pointer? && Same(x, w.target)
    case Struct(values) => w.Struct? && |w.values| == |values| && forall i :: 0 <= i < |values| ==> Same(values[i], w.values[i])
    case Slice(_, items) => w.Slice? && |w.items| == |items| && forall i :: 0 <= i < |items| ==> Same(items[i], w.items[i])
    case _ => v == w
  }

  // ---------- Decimal integers ----------

  function DigitChar(d: nat): char
    requires d < 10
  {
    ('0' as int + d) as char
  }

  predicate IsDigit(c: char) {
    '0' <= c <= '9'
  }

  function Digits(n: nat): string {
    if n < 10 then [DigitChar(n)] else Digits(n / 10) + [DigitChar(n % 10)]
  }

  function FormatInteger(n: int): string {
    if n < 0 then "-" + Digits(-n) else Digits(n)
  }

  predicate AllDigits(text: string) {
    forall i :: 0 <= i < |text| ==> IsDigit(text[i])
  }

  function Unsigned(text: string): string {
    if text != [] && text[0] == '-' then text[1..] else text
  }

  /** An optional minus and digits, without leading zeros. */
  predicate DecimalInteger(text: string) {
    var digits := Unsigned(text);
    digits != [] && (|digits| > 1 ==> digits[0] != '0') && AllDigits(digits)
  }

  function DigitsValue(text: string): nat
    requires AllDigits(text)
    decreases |text|
  {
    if text == [] then 0 else DigitsValue(text[..|text| - 1]) * 10 + (text[|text| - 1] as int - '0' as int)
  }

  function ParseInteger(text: string): int
    requires DecimalInteger(text)
  {
    if text[0] == '-' then 0 - DigitsValue(Unsigned(text)) else DigitsValue(Unsigned(text))
  }

  lemma {:induction false} DigitsParse(n: nat)
    ensures Digits(n) != [] && AllDigits(Digits(n)) && DigitsValue(Digits(n)) == n
    ensures Digits(n)[0] == '0' ==> n == 0
    ensures Digits(n)[0] != '-' && (|Digits(n)| > 1 ==> n >= 10)
    decreases n
  {
    if n < 10 {
      assert Digits(n)[..0] == [];
    } else {
      DigitsParse(n / 10);
      assert Digits(n)[..|Digits(n)| - 1] == Digits(n / 10);
    }
  }

  /** The text of every integer is accepted and read back exactly. */
  lemma IntegerRoundTrip(n: int)
    ensures DecimalInteger(FormatInteger(n)) && ParseInteger(FormatInteger(n)) == n
    ensures FormatInteger(n)[0] == '-' <==> n < 0
  {
    DigitsParse(if n < 0 then -n else n);
    if n < 0 {
      assert FormatInteger(n)[1..] == Digits(-n);
    }
  }

  // ---------- Encoding ----------

  function EncodeInteger(n: int): Json {
    if n < -MAX_SAFE || n > MAX_SAFE then Text(FormatInteger(n)) else Number(FormatInteger(n))
  }

  function Encode(v: Value, t: Type): Result<Json>
    requires GoodType(t) && Typed(v, t)
    decreases v, 1, 0
  {
    match t
    case PointerT(e) => if v.Nil? then Ok(Null) else Encode(v.target, e)
    case StructT(_) =>
      var members := EncodeFields(v, t, 0);
      if members.Err? then Err(members.problem) else Ok(Object(members.value))
    case SliceT(_) =>
      var elems := EncodeItems(v, t, 0);
      if elems.Err? then Err(elems.problem) else Ok(Array(elems.value))
    case IntT(_) => Ok(EncodeInteger(v.n))
    case UintT(_) => Ok(EncodeInteger(v.n))
    case FloatT => if v.f.Finite? then Ok(Number(v.f.text)) else Err(NotFinite)
    case StringT => Ok(Text(v.s))
    case BoolT => Ok(Boolean(v.b))
  }

  function EncodeFields(v: Value, t: Type, k: nat): Result<seq<Member>>
    requires GoodType(t) && t.StructT? && Typed(v, t) && k <= |t.fields|
    decreases v, 0, |t.fields| - k
  {
    if k == |t.fields| then Ok([])
    else if !Kept(v.values[k], t.fields[k]) then EncodeFields(v, t, k + 1)
    else
      var first := Encode(v.values[k], t.fields[k].ty);
      if first.Err? then Err(first.problem) else
        var rest := EncodeFields(v, t, k + 1);
        if rest.Err? then rest else Ok([Member(t.fields[k].name, first.value)] + rest.value)
  }

  function EncodeItems(v: Value, t: Type, k: nat): Result<seq<Json>>
    requires GoodType(t) && t.SliceT? && Typed(v, t) && k <= |v.items|
    decreases v, 0, |v.items| - k
  {
    if k == |v.items| then Ok([])
    else
      var first := Encode(v.items[k], t.elem);
      if first.Err? then Err(first.problem) else
        var rest := EncodeItems(v, t, k + 1);
        if rest.Err? then rest else Ok([first.value] + rest.value)
  }

  // ---------- Decoding ----------

  function FieldIndex(fields: seq<Field>, name: string): (r: Result<nat>)
    ensures r.Ok? ==> r.value < |fields| && fields[r.value].name == name
    ensures r.Err? ==> r == Err(UnknownField) && forall i :: 0 <= i < |fields| ==> fields[i].name != name
  {
    if fields == [] then Err(UnknownField)
    else if fields[0].name == name then Ok(0)
    else
      var rest := FieldIndex(fields[1..], name);
      if rest.Err? then rest else Ok(rest.value + 1)
  }

  /** Accepts a number or a decimal string; an unquoted integer must be safe for a browser. */
  function DecodeInteger(t: Type, j: Json): Result<Value>
    requires GoodType(t) && (t.IntT? || t.UintT?)
  {
    if !j.Number? && !j.Text? then Err(ExpectedInteger)
    else
      var text := if j.Number? then j.text else j.s;
      if !DecimalInteger(text) then Err(BadInteger)
      else
        var n := ParseInteger(text);
        if j.Number? && (n < -MAX_SAFE || n > MAX_SAFE) then Err(UnsafeInteger)
        else if t.UintT? then (if text[0] != '-' && FitsUint(n, t.bits) then Ok(Int(n)) else Err(IntegerOutOfRange))
        else if FitsInt(n, t.bits) then Ok(Int(n)) else Err(IntegerOutOfRange)
  }

  function Decode(t: Type, j: Json): Result<Value>
    requires GoodType(t)
    decreases j, t, 1, 0
  {
    if t.PointerT? then
      if j.Null? then Ok(Nil) else
        var target := Decode(t.elem, j);
        if target.Err? then target else Ok(Pointer(target.value))
    else if j.Null? then Err(MustNotBeNull)
    else
      match t
      case StructT(fields) =>
        if !j.Object? then Err(ExpectedObject) else
          var values := DecodeMembers(t, j, 0, Zero(t).values, {});
          if values.Err? then Err(values.problem) else Ok(Struct(values.value))
      case SliceT(_) =>
        if !j.Array? then Err(ExpectedArray) else
          var items := DecodeElems(t, j, 0, []);
          if items.Err? then Err(items.problem) else Ok(Slice(false, items.value))
      case IntT(_) => DecodeInteger(t, j)
      case UintT(_) => DecodeInteger(t, j)
      case FloatT => if j.Number? then Ok(Float(Finite(j.text))) else Err(ExpectedNumber)
      case StringT => if j.Text? then Ok(String(j.s)) else Err(ExpectedString)
      case BoolT => if j.Boolean? then Ok(Bool(j.b)) else Err(ExpectedBoolean)
  }

  /** Members from the `k`th on, into the fields decoded so far. */
  function DecodeMembers(t: Type, j: Json, k: nat, values: seq<Value>, seen: set<string>): Result<seq<Value>>
    requires GoodType(t) && t.StructT? && j.Object? && k <= |j.members| && |values| == |t.fields|
    decreases j, t, 0, |j.members| - k
  {
    if k == |j.members| then Ok(values)
    else
      var m := j.members[k];
      if m.name in seen then Err(DuplicateField)
      else
        var i := FieldIndex(t.fields, m.name);
        if i.Err? then Err(i.problem) else
          var v := Decode(t.fields[i.value].ty, m.value);
          if v.Err? then Err(v.problem) else DecodeMembers(t, j, k + 1, values[i.value := v.value], seen + {m.name})
  }

  function DecodeElems(t: Type, j: Json, k: nat, items: seq<Value>): Result<seq<Value>>
    requires GoodType(t) && t.SliceT? && j.Array? && k <= |j.elems|
    decreases j, t, 0, |j.elems| - k
  {
    if k == |j.elems| then Ok(items)
    else
      var v := Decode(t.elem, j.elems[k]);
      if v.Err? then Err(v.problem) else DecodeElems(t, j, k + 1, items + [v.value])
  }

  // ---------- What counts as an encoding ----------

  predicate DistinctNames(members: seq<Member>) {
    forall a, b :: 0 <= a < b < |members| ==> members[a].name != members[b].name
  }

  /** `j` writes `v`, with the members of every object in any order. */
  ghost predicate Encodes(v: Value, t: Type, j: Json)
    requires GoodType(t) && Typed(v, t)
    decreases v, 1
  {
    match t
    case PointerT(e) => if v.Nil? then j.Null? else Encodes(v.target, e, j)
    case StructT(fields) =>
      && j.Object? && DistinctNames(j.members)
      && (forall i: nat :: i < |fields| && Kept(v.values[i], fields[i]) ==> FieldWritten(v, t, i, j.members))
      && (forall a :: 0 <= a < |j.members| ==> KeptName(v, t, 0, j.members[a].name))
    case SliceT(e) =>
      && j.Array? && |j.elems| == |v.items|
      && (forall i :: 0 <= i < |v.items| ==> Encodes(v.items[i], e, j.elems[i]))
    case IntT(_) => j == EncodeInteger(v.n)
    case UintT(_) => j == EncodeInteger(v.n)
    case FloatT => v.f.Finite? && j == Number(v.f.text)
    case StringT => j == Text(v.s)
    case BoolT => j == Boolean(v.b)
  }

  /** Some member bears the field's name and encodes its value. */
  ghost predicate FieldWritten(v: Value, t: Type, i: nat, members: seq<Member>)
    requires GoodType(t) && t.StructT? && Typed(v, t) && i < |t.fields|
    decreases v, 0
  {
    exists a :: 0 <= a < |members| && members[a].name == t.fields[i].name && Encodes(v.values[i], t.fields[i].ty, members[a].value)
  }

  /** The name belongs to a field, from the `k`th on, that is not omitted. */
  ghost predicate KeptName(v: Value, t: Type, k: nat, name: string)
    requires t.StructT? && v.Struct? && |v.values| == |t.fields|
  {
    exists i :: k <= i < |t.fields| && t.fields[i].name == name && Kept(v.values[i], t.fields[i])
  }

  /** Every float is a number. */
  predicate FiniteFloats(v: Value) {
    match v
    case Pointer(x) => FiniteFloats(x)
    case Struct(values) => forall i :: 0 <= i < |values| ==> FiniteFloats(values[i])
    case Slice(_, items) => forall i :: 0 <= i < |items| ==> FiniteFloats(items[i])
    case Float(f) => f.Finite?
    case _ => true
  }

  lemma {:induction false} ZeroIsFinite(v: Value, t: Type)
    requires GoodType(t) && Typed(v, t) && IsZero(v)
    ensures FiniteFloats(v)
    decreases v
  {
    if v.Struct? {
      forall i | 0 <= i < |v.values| ensures FiniteFloats(v.values[i]) {
        ZeroIsFinite(v.values[i], t.fields[i].ty);
      }
    }
  }

  /** Encoding fails for non-finite floats only. */
  lemma {:induction false} EncodeSucceeds(v: Value, t: Type)
    requires GoodType(t) && Typed(v, t)
    ensures Encode(v, t).Ok? <==> FiniteFloats(v)
    decreases v, 1, 0
  {
    match t
    case PointerT(e) =>
      if v.Pointer? {
        EncodeSucceeds(v.target, e);
      }
    case StructT(_) => FieldsSucceed(v, t, 0);
    case SliceT(_) => ItemsSucceed(v, t, 0);
    case _ =>
  }

  lemma {:induction false} FieldsSucceed(v: Value, t: Type, k: nat)
    requires GoodType(t) && t.StructT? && Typed(v, t) && k <= |t.fields|
    ensures EncodeFields(v, t, k).Ok? <==> forall i :: k <= i < |v.values| ==> FiniteFloats(v.values[i])
    decreases v, 0, |t.fields| - k
  {
    if k < |t.fields| {
      FieldsSucceed(v, t, k + 1);
      if Kept(v.values[k], t.fields[k]) {
        EncodeSucceeds(v.values[k], t.fields[k].ty);
      } else {
        EmptyIsFinite(v.values[k], t.fields[k].ty);
      }
    }
  }

  lemma EmptyIsFinite(v: Value, t: Type)
    requires GoodType(t) && Typed(v, t) && Empty(v)
    ensures FiniteFloats(v)
  {
    if IsZero(v) {
      ZeroIsFinite(v, t);
    }
  }

  lemma {:induction false} ItemsSucceed(v: Value, t: Type, k: nat)
    requires GoodType(t) && t.SliceT? && Typed(v, t) && k <= |v.items|
    ensures EncodeItems(v, t, k).Ok? <==> forall i :: k <= i < |v.items| ==> FiniteFloats(v.items[i])
    decreases v, 0, |v.items| - k
  {
    if k < |v.items| {
      ItemsSucceed(v, t, k + 1);
      EncodeSucceeds(v.items[k], t.elem);
    }
  }

  /** The encoder produces an encoding. */
  lemma {:induction false} EncodeMeets(v: Value, t: Type)
    requires GoodType(t) && Typed(v, t) && Encode(v, t).Ok?
    ensures Encodes(v, t, Encode(v, t).value)
    decreases v, 1, 0
  {
    match t
    case PointerT(e) =>
      if v.Pointer? {
        EncodeMeets(v.target, e);
      }
    case StructT(_) => FieldsMeet(v, t, 0);
    case SliceT(_) => ItemsMeet(v, t, 0);
    case _ =>
  }

  lemma {:induction false} FieldsMeet(v: Value, t: Type, k: nat)
    requires GoodType(t) && t.StructT? && Typed(v, t) && k <= |t.fields| && EncodeFields(v, t, k).Ok?
    ensures var members := EncodeFields(v, t, k).value;
      && DistinctNames(members)
      && (forall i: nat :: k <= i < |t.fields| && Kept(v.values[i], t.fields[i]) ==> FieldWritten(v, t, i, members))
      && (forall a :: 0 <= a < |members| ==> KeptName(v, t, k, members[a].name))
    decreases v, 0, |t.fields| - k
  {
    if k < |t.fields| {
      FieldsMeet(v, t, k + 1);
      var rest := EncodeFields(v, t, k + 1).value;
      if Kept(v.values[k], t.fields[k]) {
        EncodeMeets(v.values[k], t.fields[k].ty);
        FieldAdded(v, t, k, Member(t.fields[k].name, Encode(v.values[k], t.fields[k].ty).value), rest);
      }
    }
  }

  lemma FieldAdded(v: Value, t: Type, k: nat, first: Member, rest: seq<Member>)
    requires GoodType(t) && t.StructT? && Typed(v, t) && v.Struct? && |v.values| == |t.fields|
    requires k < |t.fields| && Kept(v.values[k], t.fields[k])
    requires first.name == t.fields[k].name && Encodes(v.values[k], t.fields[k].ty, first.value)
    requires DistinctNames(rest)
    requires forall i: nat :: k < i < |t.fields| && Kept(v.values[i], t.fields[i]) ==> FieldWritten(v, t, i, rest)
    requires forall a :: 0 <= a < |rest| ==> KeptName(v, t, k + 1, rest[a].name)
    ensures DistinctNames([first] + rest)
    ensures forall i: nat :: k <= i < |t.fields| && Kept(v.values[i], t.fields[i]) ==> FieldWritten(v, t, i, [first] + rest)
    ensures forall a :: 0 <= a < |[first] + rest| ==> KeptName(v, t, k, ([first] + rest)[a].name)
  {
    hide Encodes, Kept;
    var members := [first] + rest;
    assert members[0] == first && forall a :: 0 <= a < |rest| ==> members[a + 1] == rest[a];
    forall i: nat | k <= i < |t.fields| && Kept(v.values[i], t.fields[i]) ensures FieldWritten(v, t, i, members) {
      if i > k {
        assert FieldWritten(v, t, i, rest);
        var a :| 0 <= a < |rest| && rest[a].name == t.fields[i].name && Encodes(v.values[i], t.fields[i].ty, rest[a].value);
        assert members[a + 1].name == t.fields[i].name;
      }
    }
    forall a | 0 <= a < |members| ensures KeptName(v, t, k, members[a].name) {
      if a > 0 {
        assert KeptName(v, t, k + 1, rest[a - 1].name);
      }
    }
  }

  lemma {:induction false} ItemsMeet(v: Value, t: Type, k: nat)
    requires GoodType(t) && t.SliceT? && Typed(v, t) && k <= |v.items| && EncodeItems(v, t, k).Ok?
    ensures var elems := EncodeItems(v, t, k).value;
      |elems| == |v.items| - k && forall i :: k <= i < |v.items| ==> Encodes(v.items[i], t.elem, elems[i - k])
    decreases v, 0, |v.items| - k
  {
    if k < |v.items| {
      ItemsMeet(v, t, k + 1);
      EncodeMeets(v.items[k], t.elem);
    }
  }

  // ---------- The round trip ----------

  lemma {:induction false} ZeroSame(v: Value, t: Type)
    requires GoodType(t) && Typed(v, t) && IsZero(v)
    ensures Same(v, Zero(t))
    decreases v
  {
    if v.Struct? {
      forall i | 0 <= i < |v.values| ensures Same(v.values[i], Zero(t).values[i]) {
        ZeroSame(v.values[i], t.fields[i].ty);
      }
    }
  }

  /** An omitted field is restored by its zero value. */
  lemma OmittedSame(v: Value, t: Type)
    requires GoodType(t) && Typed(v, t) && Empty(v)
    ensures Same(v, Zero(t))
  {
    if IsZero(v) {
      ZeroSame(v, t);
    }
  }

  lemma {:induction false} NotNull(v: Value, t: Type, j: Json)
    requires GoodType(t) && Typed(v, t) && Encodes(v, t, j) && !t.PointerT?
    ensures !j.Null?
  {
  }

  lemma IntegerDecodes(v: Value, t: Type)
    requires GoodType(t) && (t.IntT? || t.UintT?) && Typed(v, t)
    ensures DecodeInteger(t, EncodeInteger(v.n)) == Ok(v)
  {
    IntegerRoundTrip(v.n);
  }

  /** Decoding any encoding of a value gives the value back, up to nil versus empty. */
  lemma {:induction false} RoundTrip(v: Value, t: Type, j: Json)
    requires GoodType(t) && Typed(v, t) && Encodes(v, t, j)
    ensures Decode(t, j).Ok? && Same(v, Decode(t, j).value)
    decreases v, 1, 0
  {
    match t
    case PointerT(e) =>
      if v.Pointer? {
        NotNull(v.target, e, j);
        RoundTrip(v.target, e, j);
      }
    case StructT(_) =>
      assert Progress(v, t, j, 0, Zero(t).values);
      hide Same, Progress;
      MembersRoundTrip(v, t, j, 0, Zero(t).values, {});
    case SliceT(_) => ElemsRoundTrip(v, t, j, 0, []);
    case IntT(_) => IntegerDecodes(v, t);
    case UintT(_) => IntegerDecodes(v, t);
    case _ =>
  }

  ghost predicate Named(members: seq<Member>, k: nat, name: string)
    requires k <= |members|
  {
    exists a :: 0 <= a < k && members[a].name == name
  }

  /** Fields named so far hold their values, the others zero. */
  ghost predicate Progress(v: Value, t: Type, j: Json, k: nat, values: seq<Value>)
    requires t.StructT? && v.Struct? && j.Object? && k <= |j.members| && |values| == |t.fields| == |v.values|
  {
    forall i :: 0 <= i < |t.fields| ==>
      if Named(j.members, k, t.fields[i].name) then Same(v.values[i], values[i]) else values[i] == Zero(t.fields[i].ty)
  }

  /** The field a member belongs to, which it encodes. */
  lemma MemberField(v: Value, t: Type, j: Json, k: nat) returns (i: nat)
    requires GoodType(t) && t.StructT? && Typed(v, t) && Encodes(v, t, j) && k < |j.members|
    ensures i < |t.fields| && t.fields[i].name == j.members[k].name
    ensures FieldIndex(t.fields, j.members[k].name) == Ok(i)
    ensures v.Struct? && i < |v.values| && GoodType(t.fields[i].ty) && Typed(v.values[i], t.fields[i].ty)
    ensures Encodes(v.values[i], t.fields[i].ty, j.members[k].value)
  {
    var name := j.members[k].name;
    assert KeptName(v, t, 0, name);
    i :| 0 <= i < |t.fields| && t.fields[i].name == name && Kept(v.values[i], t.fields[i]);
    assert FieldWritten(v, t, i, j.members);
    var a :| 0 <= a < |j.members| && j.members[a].name == name && Encodes(v.values[i], t.fields[i].ty, j.members[a].value);
    assert a == k;
    assert FieldIndex(t.fields, name).value == i;
  }

  lemma ProgressNext(v: Value, t: Type, j: Json, k: nat, values: seq<Value>, i: nat, w: Value)
    requires GoodType(t) && t.StructT? && v.Struct? && j.Object? && k < |j.members| && |values| == |t.fields| == |v.values|
    requires Progress(v, t, j, k, values)
    requires i < |t.fields| && t.fields[i].name == j.members[k].name && Same(v.values[i], w)
    ensures Progress(v, t, j, k + 1, values[i := w])
  {
    hide Same, Zero;
    NamedNext(j.members, k);
    hide Named;
  }

  /** At the end every kept field was named, and the others were empty. */
  lemma ProgressDone(v: Value, t: Type, j: Json, values: seq<Value>)
    requires GoodType(t) && t.StructT? && Typed(v, t) && Encodes(v, t, j) && |values| == |t.fields|
    requires Progress(v, t, j, |j.members|, values)
    ensures Same(v, Struct(values))
  {
    forall i: nat | i < |t.fields| ensures Same(v.values[i], values[i]) {
      if !Named(j.members, |j.members|, t.fields[i].name) {
        assert !FieldWritten(v, t, i, j.members);
        OmittedSame(v.values[i], t.fields[i].ty);
      }
    }
  }

  /** The names seen are those of the members read so far. */
  ghost predicate Seen(seen: set<string>, members: seq<Member>, k: nat)
    requires k <= |members|
  {
    forall name :: name in seen <==> Named(members, k, name)
  }

  lemma SeenNext(seen: set<string>, members: seq<Member>, k: nat)
    requires k < |members| && Seen(seen, members, k)
    ensures Seen(seen + {members[k].name}, members, k + 1)
    ensures Named(members, k, members[k].name) <==> members[k].name in seen
  {
    NamedNext(members, k);
  }

  lemma ObjectShape(v: Value, t: Type, j: Json)
    requires GoodType(t) && t.StructT? && Typed(v, t) && Encodes(v, t, j)
    ensures v.Struct? && |v.values| == |t.fields| && j.Object?
  {
  }

  lemma {:induction false} MembersRoundTrip(v: Value, t: Type, j: Json, k: nat, values: seq<Value>, seen: set<string>)
    requires GoodType(t) && t.StructT? && Typed(v, t) && Encodes(v, t, j) && k <= |j.members| && |values| == |t.fields|
    requires Seen(seen, j.members, k) && Progress(v, t, j, k, values)
    ensures DecodeMembers(t, j, k, values, seen).Ok? && Same(v, Struct(DecodeMembers(t, j, k, values, seen).value))
    decreases v, 0, |j.members| - k
  {
    hide *;
    ObjectShape(v, t, j);
    if k == |j.members| {
      ProgressDone(v, t, j, values);
      AllDecoded(t, j, values, seen);
    } else {
      var m := j.members[k];
      var i := MemberField(v, t, j, k);
      RoundTrip(v.values[i], t.fields[i].ty, m.value);
      var w := Decode(t.fields[i].ty, m.value).value;
      ProgressNext(v, t, j, k, values, i, w);
      SeenNext(seen, j.members, k);
      NotYetNamed(v, t, j, k);
      OneDecoded(t, j, k, values, seen, i, w);
      MembersRoundTrip(v, t, j, k + 1, values[i := w], seen + {m.name});
    }
  }

  lemma AllDecoded(t: Type, j: Json, values: seq<Value>, seen: set<string>)
    requires GoodType(t) && t.StructT? && j.Object? && |values| == |t.fields|
    ensures DecodeMembers(t, j, |j.members|, values, seen) == Ok(values)
  {
  }

  lemma OneDecoded(t: Type, j: Json, k: nat, values: seq<Value>, seen: set<string>, i: nat, w: Value)
    requires GoodType(t) && t.StructT? && j.Object? && k < |j.members| && |values| == |t.fields| && j.members[k].name !in seen
    requires i < |t.fields| && FieldIndex(t.fields, j.members[k].name) == Ok(i) && Decode(t.fields[i].ty, j.members[k].value) == Ok(w)
    ensures DecodeMembers(t, j, k, values, seen) == DecodeMembers(t, j, k + 1, values[i := w], seen + {j.members[k].name})
  {
  }

  lemma NotYetNamed(v: Value, t: Type, j: Json, k: nat)
    requires GoodType(t) && t.StructT? && Typed(v, t) && Encodes(v, t, j) && k < |j.members|
    ensures !Named(j.members, k, j.members[k].name)
  {
  }

  lemma NamedNext(members: seq<Member>, k: nat)
    requires k < |members|
    ensures forall name :: Named(members, k + 1, name) <==> Named(members, k, name) || name == members[k].name
  {
    forall name ensures Named(members, k + 1, name) <==> Named(members, k, name) || name == members[k].name {
      if Named(members, k, name) {
        var a :| 0 <= a < k && members[a].name == name;
        assert members[a].name == name && a < k + 1;
      }
    }
  }

  lemma {:induction false} ElemsRoundTrip(v: Value, t: Type, j: Json, k: nat, items: seq<Value>)
    requires GoodType(t) && t.SliceT? && Typed(v, t) && Encodes(v, t, j) && k == |items| <= |j.elems|
    requires forall i :: 0 <= i < k ==> Same(v.items[i], items[i])
    ensures var r := DecodeElems(t, j, k, items);
      r.Ok? && |r.value| == |v.items| && forall i :: 0 <= i < |v.items| ==> Same(v.items[i], r.value[i])
    decreases v, 0, |j.elems| - k
  {
    if k < |j.elems| {
      RoundTrip(v.items[k], t.elem, j.elems[k]);
      ElemsRoundTrip(v, t, j, k + 1, items + [Decode(t.elem, j.elems[k]).value]);
    }
  }

  /** Encoding then decoding: every finite document comes back, and only those are written. */
  lemma DocumentRoundTrip(v: Value, t: Type)
    requires GoodType(t) && Typed(v, t)
    ensures Encode(v, t).Ok? <==> FiniteFloats(v)
    ensures FiniteFloats(v) ==> Decode(t, Encode(v, t).value).Ok? && Same(v, Decode(t, Encode(v, t).value).value)
  {
    EncodeSucceeds(v, t);
    if FiniteFloats(v) {
      EncodeMeets(v, t);
      RoundTrip(v, t, Encode(v, t).value);
    }
  }

  // ---------- Strictness ----------

  lemma {:induction false} ZeroTyped(t: Type)
    requires GoodType(t)
    ensures Typed(Zero(t), t)
    decreases t
  {
    if t.StructT? {
      forall i | 0 <= i < |t.fields| ensures Typed(Zero(t).values[i], t.fields[i].ty) {
        ZeroTyped(t.fields[i].ty);
      }
    } else if t.IntT? || t.UintT? {
      Pow2Positive(if t.IntT? then t.bits - 1 else t.bits);
    }
  }

  lemma {:induction false} Pow2Positive(n: nat)
    ensures Pow2(n) > 0
  {
    if n > 0 {
      Pow2Positive(n - 1);
    }
  }

  /** Whatever is accepted fits its type, integer ranges included. */
  lemma {:induction false} DecodedTyped(t: Type, j: Json)
    requires GoodType(t) && Decode(t, j).Ok?
    ensures Typed(Decode(t, j).value, t)
    decreases j, t, 1, 0
  {
    match t
    case PointerT(e) =>
      if !j.Null? {
        DecodedTyped(e, j);
      }
    case StructT(_) =>
      ZeroTyped(t);
      MembersTyped(t, j, 0, Zero(t).values, {});
    case SliceT(_) => ElemsTyped(t, j, 0, []);
    case _ =>
  }

  /** And every member of an accepted object bears a field's name, none of them twice. */
  lemma {:induction false} MembersTyped(t: Type, j: Json, k: nat, values: seq<Value>, seen: set<string>)
    requires GoodType(t) && t.StructT? && j.Object? && k <= |j.members| && Typed(Struct(values), t)
    requires DecodeMembers(t, j, k, values, seen).Ok?
    ensures Typed(Struct(DecodeMembers(t, j, k, values, seen).value), t)
    ensures forall a :: k <= a < |j.members| ==> j.members[a].name !in seen && FieldIndex(t.fields, j.members[a].name).Ok?
    ensures forall a, b :: k <= a < b < |j.members| ==> j.members[a].name != j.members[b].name
    decreases j, t, 0, |j.members| - k
  {
    if k < |j.members| {
      var m := j.members[k];
      var i := FieldIndex(t.fields, m.name).value;
      DecodedTyped(t.fields[i].ty, m.value);
      var w := Decode(t.fields[i].ty, m.value).value;
      OneDecoded(t, j, k, values, seen, i, w);
      MembersTyped(t, j, k + 1, values[i := w], seen + {m.name});
    }
  }

  lemma {:induction false} ElemsTyped(t: Type, j: Json, k: nat, items: seq<Value>)
    requires GoodType(t) && t.SliceT? && j.Array? && k <= |j.elems| && DecodeElems(t, j, k, items).Ok?
    requires forall i :: 0 <= i < |items| ==> Typed(items[i], t.elem)
    ensures Typed(Slice(false, DecodeElems(t, j, k, items).value), t)
    decreases j, t, 0, |j.elems| - k
  {
    if k < |j.elems| {
      DecodedTyped(t.elem, j.elems[k]);
      ElemsTyped(t, j, k + 1, items + [Decode(t.elem, j.elems[k]).value]);
    }
  }

  // ---------- The decoder's loops ----------

  /** Reads one token's value into a fresh target. */
  method DecodeToken(t: Type, j: Json) returns (r: Result<Value>)
    requires GoodType(t)
    ensures r == Decode(t, j)
    decreases j, t, 1, 0
  {
    if t.PointerT? {
      if j.Null? {
        return Ok(Nil);
      }
      r := DecodeToken(t.elem, j);
      if r.Ok? {
        r := Ok(Pointer(r.value));
      }
    } else if j.Null? {
      return Err(MustNotBeNull);
    } else if t.StructT? && j.Object? {
      r := DecodeObject(t, j);
    } else if t.SliceT? && j.Array? {
      r := DecodeArray(t, j);
    } else {
      r := Decode(t, j);
    }
  }

  /** Unknown and duplicate keys are rejected before the field is assigned. */
  method DecodeObject(t: Type, j: Json) returns (r: Result<Value>)
    requires GoodType(t) && t.StructT? && j.Object?
    ensures r == Decode(t, j)
    decreases j, t, 0, 0
  {
    var values := Zero(t).values;
    var seen: set<string> := {};
    var k: nat := 0;
    while k < |j.members|
      invariant k <= |j.members| && |values| == |t.fields|
      invariant DecodeMembers(t, j, 0, Zero(t).values, {}) == DecodeMembers(t, j, k, values, seen)
      decreases |j.members| - k
    {
      var m := j.members[k];
      if m.name in seen {
        return Err(DuplicateField);
      }
      var i := FieldIndex(t.fields, m.name);
      if i.Err? {
        return Err(i.problem);
      }
      seen := seen + {m.name};
      var v := DecodeToken(t.fields[i.value].ty, m.value);
      if v.Err? {
        return Err(v.problem);
      }
      values := values[i.value := v.value];
      k := k + 1;
    }
    return Ok(Struct(values));
  }

  method DecodeArray(t: Type, j: Json) returns (r: Result<Value>)
    requires GoodType(t) && t.SliceT? && j.Array?
    ensures r == Decode(t, j)
    decreases j, t, 0, 0
  {
    var items: seq<Value> := [];
    var k: nat := 0;
    while k < |j.elems|
      invariant k <= |j.elems|
      invariant DecodeElems(t, j, 0, []) == DecodeElems(t, j, k, items)
      decreases |j.elems| - k
    {
      var v := DecodeToken(t.elem, j.elems[k]);
      if v.Err? {
        return Err(v.problem);
      }
      items := items + [v.value];
      k := k + 1;
    }
    return Ok(Slice(false, items));
  }
}
