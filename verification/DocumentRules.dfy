/** Which documents are accepted and as what: a grammar of readings, independent of the decoder's
    order, and the texts and omissions of the encoder. */
module DocumentRules {
  import opened Document

  // ---------- Integers ----------

  lemma {:induction false} DigitsCanonical(text: string)
    requires text != [] && AllDigits(text) && (|text| > 1 ==> text[0] != '0')
    ensures Digits(DigitsValue(text)) == text && (text[0] != '0' ==> DigitsValue(text) > 0)
    decreases |text|
  {
    var n := |text| - 1;
    if n == 0 {
      assert DigitsValue(text[..0]) == 0;
    } else {
      DigitsCanonical(text[..n]);
      assert text == text[..n] + [text[n]];
    }
  }

  /** Only the text that the integer is written as is read as it, apart from a negative zero. */
  lemma AcceptedIsCanonical(text: string)
    requires DecimalInteger(text)
    ensures text == FormatInteger(ParseInteger(text)) || (text == "-0" && ParseInteger(text) == 0)
  {
    DigitsCanonical(Unsigned(text));
    if text[0] == '-' {
      assert text == "-" + text[1..];
      if text[1] == '0' {
        assert text == "-0";
      }
    }
  }

  /** The text of `n`, in its type's range, and outside a browser's exact range only as a string. */
  ghost predicate ReadsInteger(t: Type, j: Json, n: int)
    requires GoodType(t) && (t.IntT? || t.UintT?)
  {
    && (j == Number(FormatInteger(n)) || j == Text(FormatInteger(n))
        || (t.IntT? && n == 0 && (j == Number("-0") || j == Text("-0"))))
    && (j.Number? ==> -9007199254740991 <= n <= 9007199254740991)
    && (if t.IntT? then FitsInt(n, t.bits) else FitsUint(n, t.bits))
  }

  /** Which texts are read as `n`, and whether they begin with a minus. */
  lemma TextReads(text: string, n: int)
    ensures DecimalInteger(text) && ParseInteger(text) == n <==> text == FormatInteger(n) || (n == 0 && text == "-0")
    ensures FormatInteger(n) != "-0" && (text == FormatInteger(n) ==> text != [] && (text[0] == '-' <==> n < 0))
  {
    hide DecimalInteger, ParseInteger, FormatInteger;
    IntegerRoundTrip(n);
    NegativeZero();
    if DecimalInteger(text) {
      AcceptedIsCanonical(text);
    }
    NoPlainNegativeZero(n);
  }

  lemma NoPlainNegativeZero(n: int)
    ensures FormatInteger(n) != "-0" && FormatInteger(n) != []
  {
    DigitsParse(if n < 0 then -n else n);
    if n < 0 {
      assert FormatInteger(n)[1..] == Digits(-n);
    }
  }

  lemma IntegerExact(t: Type, j: Json, n: int)
    requires GoodType(t) && (t.IntT? || t.UintT?)
    ensures DecodeInteger(t, j) == Ok(Int(n)) <==> ReadsInteger(t, j, n)
    ensures DecodeInteger(t, j).Ok? ==> DecodeInteger(t, j).value.Int?
  {
    hide DecimalInteger, ParseInteger, FormatInteger, FitsInt, FitsUint;
    if j.Number? || j.Text? {
      var text := if j.Number? then j.text else j.s;
      TextReads(text, n);
      if t.UintT? {
        NonNegative(n, t.bits);
      }
    }
  }

  lemma NonNegative(n: int, bits: nat)
    ensures FitsUint(n, bits) ==> n >= 0
  {
  }

  lemma NegativeZero()
    ensures DecimalInteger("-0") && ParseInteger("-0") == 0
  {
    assert Unsigned("-0") == "0";
    assert DigitsValue("0"[..0]) == 0;
  }

  /** An integer is written as a number exactly when a browser holds it exactly, else as a string. */
  lemma NumberWhenSafe(n: int)
    ensures EncodeInteger(n) ==
      if -9007199254740991 <= n <= 9007199254740991 then Number(FormatInteger(n)) else Text(FormatInteger(n))
  {
  }

  // ---------- Readings ----------

  /** `j` reads as `w`: members name fields, each at most once, and absent fields are zero. */
  ghost predicate Reads(t: Type, j: Json, w: Value)
    requires GoodType(t)
    decreases j, t
  {
    match t
    case PointerT(e) => if j.Null? then w.Nil? else w.Pointer? && Reads(e, j, w.target)
    case StructT(fields) =>
      && j.Object? && w.Struct? && |w.values| == |fields| && DistinctNames(j.members)
      && (forall a :: 0 <= a < |j.members| ==> NamesField(fields, j.members[a].name))
      && (forall i, a :: 0 <= i < |fields| && 0 <= a < |j.members| && j.members[a].name == fields[i].name ==>
            Reads(fields[i].ty, j.members[a].value, w.values[i]))
      && (forall i :: 0 <= i < |fields| && !Named(j.members, |j.members|, fields[i].name) ==> w.values[i] == Zero(fields[i].ty))
    case SliceT(e) =>
      && j.Array? && w.Slice? && !w.isNil && |w.items| == |j.elems|
      && forall i :: 0 <= i < |j.elems| ==> Reads(e, j.elems[i], w.items[i])
    case IntT(_) => w.Int? && ReadsInteger(t, j, w.n)
    case UintT(_) => w.Int? && ReadsInteger(t, j, w.n)
    case FloatT => w.Float? && w.f.Finite? && j == Number(w.f.text)
    case StringT => w.String? && j == Text(w.s)
    case BoolT => w.Bool? && j == Boolean(w.b)
  }

  ghost predicate NamesField(fields: seq<Field>, name: string) {
    exists i :: 0 <= i < |fields| && fields[i].name == name
  }

  /** The fields named by the first `k` members hold what these read as, the others are zero. */
  ghost predicate ReadSoFar(t: Type, j: Json, k: nat, values: seq<Value>)
    requires GoodType(t) && t.StructT? && j.Object? && k <= |j.members| && |values| == |t.fields|
  {
    && (forall i, a :: 0 <= i < |t.fields| && 0 <= a < k && j.members[a].name == t.fields[i].name ==>
          Reads(t.fields[i].ty, j.members[a].value, values[i]))
    && (forall i :: 0 <= i < |t.fields| && !Named(j.members, k, t.fields[i].name) ==> values[i] == Zero(t.fields[i].ty))
  }

  lemma ReadOneMore(t: Type, j: Json, k: nat, values: seq<Value>, i: nat, w: Value)
    requires GoodType(t) && t.StructT? && j.Object? && k < |j.members| && |values| == |t.fields| && ReadSoFar(t, j, k, values)
    requires i < |t.fields| && t.fields[i].name == j.members[k].name && !Named(j.members, k, j.members[k].name)
    requires Reads(t.fields[i].ty, j.members[k].value, w)
    ensures ReadSoFar(t, j, k + 1, values[i := w])
  {
    hide Reads, Zero;
    NamedNext(j.members, k);
  }

  /** Whatever the decoder accepts, the document reads as it. */
  lemma {:induction false} AcceptedReads(t: Type, j: Json)
    requires GoodType(t) && Decode(t, j).Ok?
    ensures Reads(t, j, Decode(t, j).value)
    decreases j, t, 1, 0
  {
    match t
    case PointerT(e) =>
      if !j.Null? {
        AcceptedReads(e, j);
      }
    case StructT(_) => MembersRead(t, j, 0, Zero(t).values, {});
    case SliceT(_) => ElemsRead(t, j, 0, []);
    case IntT(_) => IntegerReads(t, j);
    case UintT(_) => IntegerReads(t, j);
    case _ =>
  }

  lemma IntegerReads(t: Type, j: Json)
    requires GoodType(t) && (t.IntT? || t.UintT?) && DecodeInteger(t, j).Ok?
    ensures DecodeInteger(t, j).value.Int? && ReadsInteger(t, j, DecodeInteger(t, j).value.n)
  {
    IntegerExact(t, j, 0);
    IntegerExact(t, j, DecodeInteger(t, j).value.n);
  }

  lemma {:induction false} MembersRead(t: Type, j: Json, k: nat, values: seq<Value>, seen: set<string>)
    requires GoodType(t) && t.StructT? && j.Object? && k <= |j.members| && |values| == |t.fields|
    requires Seen(seen, j.members, k) && ReadSoFar(t, j, k, values) && DecodeMembers(t, j, k, values, seen).Ok?
    requires forall a, b :: 0 <= a < b < k ==> j.members[a].name != j.members[b].name
    requires forall a :: 0 <= a < k ==> NamesField(t.fields, j.members[a].name)
    ensures Reads(t, j, Struct(DecodeMembers(t, j, k, values, seen).value))
    decreases j, t, 0, |j.members| - k
  {
    hide ReadSoFar, Seen, Named;
    if k == |j.members| {
      AllRead(t, j, values);
    } else {
      var m := j.members[k];
      var i := FieldIndex(t.fields, m.name).value;
      AcceptedReads(t.fields[i].ty, m.value);
      var w := Decode(t.fields[i].ty, m.value).value;
      OneDecoded(t, j, k, values, seen, i, w);
      SeenNext(seen, j.members, k);
      ReadOneMore(t, j, k, values, i, w);
      FreshName(j.members, k);
      MembersRead(t, j, k + 1, values[i := w], seen + {m.name});
    }
  }

  lemma FreshName(members: seq<Member>, k: nat)
    requires k < |members| && !Named(members, k, members[k].name)
    ensures forall a :: 0 <= a < k ==> members[a].name != members[k].name
  {
  }

  lemma AllRead(t: Type, j: Json, values: seq<Value>)
    requires GoodType(t) && t.StructT? && j.Object? && |values| == |t.fields| && ReadSoFar(t, j, |j.members|, values)
    requires DistinctNames(j.members)
    requires forall a :: 0 <= a < |j.members| ==> NamesField(t.fields, j.members[a].name)
    ensures Reads(t, j, Struct(values))
  {
  }

  lemma {:induction false} ElemsRead(t: Type, j: Json, k: nat, items: seq<Value>)
    requires GoodType(t) && t.SliceT? && j.Array? && k == |items| <= |j.elems| && DecodeElems(t, j, k, items).Ok?
    requires forall i :: 0 <= i < k ==> Reads(t.elem, j.elems[i], items[i])
    ensures Reads(t, j, Slice(false, DecodeElems(t, j, k, items).value))
    decreases j, t, 0, |j.elems| - k
  {
    hide Reads;
    if k < |j.elems| {
      AcceptedReads(t.elem, j.elems[k]);
      ElemsRead(t, j, k + 1, items + [Decode(t.elem, j.elems[k]).value]);
    } else {
      AllElemsRead(t, j, items);
    }
  }

  lemma AllElemsRead(t: Type, j: Json, items: seq<Value>)
    requires GoodType(t) && t.SliceT? && j.Array? && |items| == |j.elems|
    requires forall i :: 0 <= i < |items| ==> Reads(t.elem, j.elems[i], items[i])
    ensures Reads(t, j, Slice(false, items))
  {
  }

  /** The fields named by the first `k` members are already those of `w`, the others still zero. */
  ghost predicate Settled(t: Type, j: Json, k: nat, values: seq<Value>, w: Value)
    requires t.StructT? && j.Object? && k <= |j.members| && w.Struct? && |values| == |t.fields| == |w.values|
  {
    forall i :: 0 <= i < |t.fields| ==> values[i] == if Named(j.members, k, t.fields[i].name) then w.values[i] else Zero(t.fields[i].ty)
  }

  /** And whatever a document reads as, the decoder accepts it as exactly that. */
  lemma {:induction false} ReadIsAccepted(t: Type, j: Json, w: Value)
    requires GoodType(t) && Reads(t, j, w)
    ensures Decode(t, j) == Ok(w)
    decreases j, t, 1, 0
  {
    match t
    case PointerT(e) =>
      if !j.Null? {
        ReadIsAccepted(e, j, w.target);
      }
    case StructT(_) => MembersAccepted(t, j, w, 0, Zero(t).values, {});
    case SliceT(_) => ElemsAccepted(t, j, w, 0, []);
    case IntT(_) => IntegerExact(t, j, w.n);
    case UintT(_) => IntegerExact(t, j, w.n);
    case _ =>
  }

  /** The one field a member belongs to. */
  lemma FieldOf(t: Type, j: Json, w: Value, k: nat) returns (i: nat)
    requires GoodType(t) && t.StructT? && j.Object? && k < |j.members| && Reads(t, j, w)
    ensures w.Struct? && |w.values| == |t.fields| && i < |t.fields| && FieldIndex(t.fields, j.members[k].name) == Ok(i)
    ensures t.fields[i].name == j.members[k].name && Reads(t.fields[i].ty, j.members[k].value, w.values[i])
    ensures !Named(j.members, k, j.members[k].name)
  {
    assert NamesField(t.fields, j.members[k].name);
    i := FieldIndex(t.fields, j.members[k].name).value;
  }

  lemma SettledNext(t: Type, j: Json, k: nat, values: seq<Value>, w: Value, i: nat)
    requires GoodType(t) && t.StructT? && j.Object? && k < |j.members| && w.Struct? && |values| == |t.fields| == |w.values|
    requires Settled(t, j, k, values, w) && i < |t.fields| && t.fields[i].name == j.members[k].name
    ensures Settled(t, j, k + 1, values[i := w.values[i]], w)
  {
    hide Zero;
    NamedNext(j.members, k);
    hide Named;
  }

  lemma SettledAll(t: Type, j: Json, values: seq<Value>, w: Value)
    requires GoodType(t) && t.StructT? && Reads(t, j, w) && |values| == |t.fields| == |w.values| && Settled(t, j, |j.members|, values, w)
    ensures values == w.values
  {
    hide Zero;
  }

  lemma {:induction false} MembersAccepted(t: Type, j: Json, w: Value, k: nat, values: seq<Value>, seen: set<string>)
    requires GoodType(t) && t.StructT? && Reads(t, j, w) && k <= |j.members| && |values| == |t.fields| == |w.values|
    requires Seen(seen, j.members, k) && Settled(t, j, k, values, w)
    ensures DecodeMembers(t, j, k, values, seen) == Ok(w.values)
    decreases j, t, 0, |j.members| - k
  {
    hide Settled, Seen, Named;
    if k == |j.members| {
      SettledAll(t, j, values, w);
    } else {
      var i := FieldOf(t, j, w, k);
      ReadIsAccepted(t.fields[i].ty, j.members[k].value, w.values[i]);
      SettledNext(t, j, k, values, w, i);
      SeenNext(seen, j.members, k);
      OneDecoded(t, j, k, values, seen, i, w.values[i]);
      MembersAccepted(t, j, w, k + 1, values[i := w.values[i]], seen + {j.members[k].name});
    }
  }

  lemma {:induction false} ElemsAccepted(t: Type, j: Json, w: Value, k: nat, items: seq<Value>)
    requires GoodType(t) && t.SliceT? && Reads(t, j, w) && k <= |j.elems| && items == w.items[..k]
    ensures DecodeElems(t, j, k, items) == Ok(w.items)
    decreases j, t, 0, |j.elems| - k
  {
    if k < |j.elems| {
      ReadIsAccepted(t.elem, j.elems[k], w.items[k]);
      assert w.items[..k + 1] == items + [w.items[k]];
      ElemsAccepted(t, j, w, k + 1, items + [w.items[k]]);
    } else {
      assert items == w.items;
    }
  }

  /** The decoder accepts a document as `w` exactly if it reads as `w`, in any order of its members;
      so no document reads as two values. */
  lemma DecodeExact(t: Type, j: Json, w: Value)
    requires GoodType(t)
    ensures Decode(t, j) == Ok(w) <==> Reads(t, j, w)
  {
    if Decode(t, j).Ok? {
      AcceptedReads(t, j);
    }
    if Reads(t, j, w) {
      ReadIsAccepted(t, j, w);
    }
  }

  // ---------- Omissions ----------

  lemma {:induction false} ZeroIsUnique(v: Value, t: Type)
    requires GoodType(t) && Typed(v, t)
    ensures IsZero(v) <==> v == Zero(t)
    decreases v
  {
    if v.Struct? {
      forall i | 0 <= i < |v.values| ensures IsZero(v.values[i]) <==> v.values[i] == Zero(t).values[i] {
        ZeroIsUnique(v.values[i], t.fields[i].ty);
      }
      if IsZero(v) {
        assert v.values == Zero(t).values;
      }
    }
  }

  /** The encoder leaves a field out exactly when it may be omitted and is its zero value or an
      empty collection. */
  lemma OmissionRule(v: Value, t: Type, i: nat)
    requires GoodType(t) && t.StructT? && Typed(v, t) && Encode(v, t).Ok? && i < |t.fields|
    ensures var j := Encode(v, t).value;
      && j.Object?
      && var omitted := t.fields[i].omitEmpty
                        && (v.values[i] == Zero(t.fields[i].ty) || (v.values[i].Slice? && v.values[i].items == []));
         Named(j.members, |j.members|, t.fields[i].name) <==> !omitted
  {
    EncodeMeets(v, t);
    var j := Encode(v, t).value;
    ZeroIsUnique(v.values[i], t.fields[i].ty);
    hide Encode, IsZero, Zero;
    if Kept(v.values[i], t.fields[i]) {
      assert FieldWritten(v, t, i, j.members);
    } else {
      forall a | 0 <= a < |j.members| ensures j.members[a].name != t.fields[i].name {
        assert KeptName(v, t, 0, j.members[a].name);
      }
    }
  }
}
