/**
 The type-directed encoder of entry-function arguments, in Binary Canonical Serialization
 (BCS specification, sections "Integers", "ULEB128-Encoded Integers" and "Variable Length
 Sequences"), and a decoder that undoes it.  A Go string is a sequence of bytes; a JSON number
 is a real.  Parsing of addresses and the conversion of numbers from 2^64 on are foreign.
 */
module Bcs {
  import opened Types
  import opened Counting

  type Byte = b: int | 0 <= b < 256

  type GoString = s: string | forall i :: 0 <= i < |s| ==> s[i] < 256 as char

  type Address = a: seq<Byte> | |a| == 32 witness seq(32, _ => 0)

  const ACCOUNT_ONE: Address := seq(31, _ => 0) + [1]

  // A decoded JSON value; Other is null or an object.
  datatype Value = Num(x: real) | Str(s: GoString) | Bool(b: bool) | List(elems: seq<Value>) | Other

  datatype Error =
    | Unsupported                              // the type
    | WrongJson                                // the kind of the value
    | BadNumber
    | OutOfRange
    | BadAddress
    | Element(index: nat, cause: Error)

  datatype Result<+T> = Ok(value: T) | Err(error: Error)

  datatype Foreign = Foreign(parse: GoString -> Option<Address>, wide: real -> nat)

  // ---- Types ----

  datatype Type = AddressType | BoolType | UintType(bytes: nat) | StringType | VectorType(inner: Type) | OtherType

  predicate Occurs(s: string, k: nat, sub: string) {
    k + |sub| <= |s| && s[k..k + |sub|] == sub
  }

  // The first occurrence from an index on.
  function Find(s: string, from: nat, sub: string): (r: Option<nat>)
    ensures r.Some? ==> from <= r.value && Occurs(s, r.value, sub)
    ensures forall k: nat :: from <= k && (r.None? || k < r.value) ==> !Occurs(s, k, sub)
    decreases |s| - from
  {
    if from + |sub| > |s| then None
    else if Occurs(s, from, sub) then Some(from)
    else Find(s, from + 1, sub)
  }

  function Split(s: string): seq<string>
    decreases |s|
  {
    match Find(s, 0, "::")
    case None => [s]
    case Some(i) => [s[..i]] + Split(s[i + 2..])
  }

  function WithoutParameters(s: string): string {
    match Find(s, 0, "<")
    case None => s
    case Some(i) => s[..i]
  }

  // The framework's Object<T>, whatever the spelling of its address.
  predicate IsObjectType(f: Foreign, t: GoString) {
    var parts := Split(WithoutParameters(t));
    && |parts| == 3 && parts[1] == "object" && parts[2] == "Object"
    && IsGoString(parts[0]) && f.parse(parts[0]) == Some(ACCOUNT_ONE)
  }

  predicate IsGoString(s: string) {
    forall i :: 0 <= i < |s| ==> s[i] < 256 as char
  }

  const VECTOR := "vector<"

  // The type that a type string names; whatever else begins like a vector is one.
  function TypeOf(f: Foreign, t: GoString): Type
    decreases |t|
  {
    if !ScalarOf(f, t).OtherType? then ScalarOf(f, t)
    else if VECTOR < t then VectorType(TypeOf(f, t[|VECTOR|..|t| - 1]))
    else OtherType
  }

  function ScalarOf(f: Foreign, t: GoString): Type {
    if t == "address" || IsObjectType(f, t) then AddressType
    else if t == "bool" then BoolType
    else if t == "u8" then UintType(1)
    else if t == "u16" then UintType(2)
    else if t == "u32" then UintType(4)
    else if t == "u64" then UintType(8)
    else if t == "u128" then UintType(16)
    else if t == "u256" then UintType(32)
    else if t == "0x1::string::String" then StringType
    else OtherType
  }

  // ---- Numbers ----

  function Pow256(k: nat): (p: nat)
    ensures p > 0
  {
    if k == 0 then 1 else 256 * Pow256(k - 1)
  }

  predicate IsDigit(c: char) {
    '0' <= c <= '9'
  }

  function DigitValue(c: char): nat
    requires IsDigit(c)
  {
    c as int - '0' as int
  }

  // The value of a run of decimal digits.
  function Digits(s: string): nat
    requires forall i :: 0 <= i < |s| ==> IsDigit(s[i])
  {
    if |s| == 0 then 0 else 10 * Digits(s[..|s| - 1]) + DigitValue(s[|s| - 1])
  }

  // A decimal number with an optional sign.
  function Decimal(s: string): Option<int> {
    var signed := |s| > 0 && (s[0] == '+' || s[0] == '-');
    var digits := if signed then s[1..] else s;
    if |digits| == 0 || exists i :: 0 <= i < |digits| && !IsDigit(digits[i]) then None
    else
      var n: int := Digits(digits);
      Some(if signed && s[0] == '-' then -n else n)
  }

  const U64_LIMIT: nat := 0x1_0000_0000_0000_0000

  // The integer that a JSON number or numeric string stands for.
  function Integer(f: Foreign, v: Value): Result<int> {
    match v
    case Num(x) =>
      if x < 0.0 || x != x.Floor as real then Err(BadNumber)
      else if x.Floor < U64_LIMIT then Ok(x.Floor)
      else Ok(f.wide(x) % U64_LIMIT)
    case Str(s) =>
      var d := Decimal(s);
      if d.None? then Err(BadNumber) else Ok(d.value)
    case _ => Err(WrongJson)
  }

  // ---- The encoding ----

  function LittleEndian(n: nat, k: nat): (b: seq<Byte>)
    ensures |b| == k
  {
    if k == 0 then [] else [n % 256] + LittleEndian(n / 256, k - 1)
  }

  function Uleb128(n: nat): seq<Byte> {
    if n < 128 then [n] else [128 + n % 128] + Uleb128(n / 128)
  }

  const LENGTH_LIMIT: nat := 0x1_0000_0000

  // Lengths are cut to 32 bits.
  function Length32(n: nat): nat {
    n % LENGTH_LIMIT
  }

  lemma ShortLength(n: nat)
    requires n < LENGTH_LIMIT
    ensures Length32(n) == n
  {
  }

  function Bytes(s: GoString): (b: seq<Byte>) {
    seq(|s|, i requires 0 <= i < |s| => s[i] as int)
  }

  // What SerializeArgument computes.
  function Encoded(f: Foreign, t: Type, v: Value): Result<seq<Byte>>
    decreases t, 0, 0
  {
    match t
    case AddressType =>
      if !v.Str? then Err(WrongJson)
      else if f.parse(v.s).None? then Err(BadAddress)
      else Ok(f.parse(v.s).value)
    case BoolType => if v.Bool? then Ok([if v.b then 1 else 0]) else Err(WrongJson)
    case UintType(k) =>
      var n := Integer(f, v);
      if n.Err? then Err(n.error)
      else if 0 <= n.value < Pow256(k) then Ok(LittleEndian(n.value, k))
      else Err(OutOfRange)
    case StringType => if v.Str? then Ok(Uleb128(Length32(|v.s|)) + Bytes(v.s)) else Err(WrongJson)
    case VectorType(inner) =>
      if !v.List? then Err(WrongJson)
      else
        var parts := EncodedElements(f, inner, v.elems, 0);
        if parts.Err? then Err(parts.error) else Ok(Uleb128(Length32(|v.elems|)) + parts.value)
    case OtherType => Err(Unsupported)
  }

  // The elements from i on, one after another, or the first error among them.
  function EncodedElements(f: Foreign, t: Type, elems: seq<Value>, i: nat): Result<seq<Byte>>
    requires i <= |elems|
    decreases t, 1, |elems| - i
  {
    if i == |elems| then Ok([])
    else
      var first := Encoded(f, t, elems[i]);
      if first.Err? then Err(Element(i, first.error))
      else
        var rest := EncodedElements(f, t, elems, i + 1);
        if rest.Err? then rest else Ok(first.value + rest.value)
  }

  // ---- What a value means, and the decoder ----

  datatype Meaning =
    | Number(n: nat)
    | Truth(b: bool)
    | Text(s: GoString)
    | Account(a: Address)
    | Items(items: seq<Meaning>)

  // The value that the caller asked for, independent of its encoding.
  function MeaningOf(f: Foreign, t: Type, v: Value): Option<Meaning>
    decreases t, 0, 0
  {
    match (t, v)
    case (AddressType, Str(s)) => if f.parse(s).Some? then Some(Account(f.parse(s).value)) else None
    case (BoolType, Bool(b)) => Some(Truth(b))
    case (UintType(k), _) =>
      var n := Integer(f, v);
      if n.Ok? && 0 <= n.value < Pow256(k) then Some(Number(n.value)) else None
    case (StringType, Str(s)) => Some(Text(s))
    case (VectorType(inner), List(elems)) =>
      var items := MeaningsOf(f, inner, elems, 0);
      if items.Some? then Some(Items(items.value)) else None
    case _ => None
  }

  function MeaningsOf(f: Foreign, t: Type, elems: seq<Value>, i: nat): Option<seq<Meaning>>
    requires i <= |elems|
    decreases t, 1, |elems| - i
  {
    if i == |elems| then Some([])
    else
      var first, rest := MeaningOf(f, t, elems[i]), MeaningsOf(f, t, elems, i + 1);
      if first.Some? && rest.Some? then Some([first.value] + rest.value) else None
  }

  // A decoded value and the bytes after it.
  datatype Parsed<+T> = Parsed(value: T, rest: seq<Byte>)

  function FromLittleEndian(b: seq<Byte>): nat {
    if |b| == 0 then 0 else b[0] + 256 * FromLittleEndian(b[1..])
  }

  // Only the shortest form is canonical.
  function ReadUleb128(b: seq<Byte>): Option<Parsed<nat>> {
    if |b| == 0 then None
    else if b[0] < 128 then Some(Parsed(b[0], b[1..]))
    else
      var high := ReadUleb128(b[1..]);
      if high.None? || high.value.value == 0 then None
      else Some(Parsed(b[0] - 128 + 128 * high.value.value, high.value.rest))
  }

  function Characters(b: seq<Byte>): GoString {
    seq(|b|, i requires 0 <= i < |b| => b[i] as char)
  }

  function Decode(f: Foreign, t: Type, b: seq<Byte>): Option<Parsed<Meaning>>
    decreases t, 0, 0
  {
    match t
    case AddressType => if |b| >= 32 then Some(Parsed(Account(b[..32]), b[32..])) else None
    case BoolType => if |b| >= 1 && b[0] <= 1 then Some(Parsed(Truth(b[0] == 1), b[1..])) else None
    case UintType(k) => if |b| >= k then Some(Parsed(Number(FromLittleEndian(b[..k])), b[k..])) else None
    case StringType =>
      var len := ReadUleb128(b);
      if len.None? || len.value.value > |len.value.rest| then None
      else Some(Parsed(Text(Characters(len.value.rest[..len.value.value])), len.value.rest[len.value.value..]))
    case VectorType(inner) =>
      var len := ReadUleb128(b);
      if len.None? then None
      else
        var items := DecodeItems(f, inner, len.value.value, len.value.rest);
        if items.None? then None else Some(Parsed(Items(items.value.value), items.value.rest))
    case OtherType => None
  }

  function DecodeItems(f: Foreign, t: Type, n: nat, b: seq<Byte>): Option<Parsed<seq<Meaning>>>
    decreases t, 1, n
  {
    if n == 0 then Some(Parsed([], b))
    else
      var first := Decode(f, t, b);
      if first.None? then None
      else
        var rest := DecodeItems(f, t, n - 1, first.value.rest);
        if rest.None? then None else Some(Parsed([first.value.value] + rest.value.value, rest.value.rest))
  }

  // ---- Round trip ----

  // Lengths that fit the 32-bit prefix, at every depth.
  predicate Fits(v: Value) {
    match v
    case Str(s) => |s| < LENGTH_LIMIT
    case List(elems) => |elems| < LENGTH_LIMIT && forall i :: 0 <= i < |elems| ==> Fits(elems[i])
    case _ => true
  }

  lemma {:induction false} LittleEndianReads(n: nat, k: nat)
    requires n < Pow256(k)
    ensures FromLittleEndian(LittleEndian(n, k)) == n
    decreases k
  {
    if k > 0 {
      LittleEndianReads(n / 256, k - 1);
      assert LittleEndian(n, k)[1..] == LittleEndian(n / 256, k - 1);
    }
  }

  lemma {:induction false} Uleb128Reads(n: nat, rest: seq<Byte>)
    ensures ReadUleb128(Uleb128(n) + rest) == Some(Parsed(n, rest))
    decreases n
  {
    var b := Uleb128(n) + rest;
    if n < 128 {
      assert b[1..] == rest;
    } else {
      Uleb128Reads(n / 128, rest);
      assert b[1..] == Uleb128(n / 128) + rest;
    }
  }

  // The encoding fails exactly when the value has no meaning at the type.
  lemma {:induction false} EncodesIffMeaningful(f: Foreign, t: Type, v: Value)
    ensures Encoded(f, t, v).Ok? <==> MeaningOf(f, t, v).Some?
    decreases t, 0, 0
  {
    if t.VectorType? && v.List? {
      ElementsEncodeIffMeaningful(f, t.inner, v.elems, 0);
    }
  }

  lemma {:induction false} ElementsEncodeIffMeaningful(f: Foreign, t: Type, elems: seq<Value>, i: nat)
    requires i <= |elems|
    ensures EncodedElements(f, t, elems, i).Ok? <==> MeaningsOf(f, t, elems, i).Some?
    decreases t, 1, |elems| - i
  {
    if i < |elems| {
      EncodesIffMeaningful(f, t, elems[i]);
      ElementsEncodeIffMeaningful(f, t, elems, i + 1);
    }
  }

  // Decoding the bytes of a value, followed by anything, gives its meaning and what followed.
  lemma {:induction false} RoundTrip(f: Foreign, t: Type, v: Value, rest: seq<Byte>)
    requires Encoded(f, t, v).Ok? && Fits(v)
    ensures MeaningOf(f, t, v).Some?
    ensures Decode(f, t, Encoded(f, t, v).value + rest) == Some(Parsed(MeaningOf(f, t, v).value, rest))
    decreases t, 0, 0
  {
    EncodesIffMeaningful(f, t, v);
    if t.VectorType? {
      ElementsRoundTrip(f, t.inner, v.elems, 0, rest);
      LengthRoundTrip(|v.elems|, EncodedElements(f, t.inner, v.elems, 0).value, rest);
    } else {
      ScalarRoundTrip(f, t, v, rest);
    }
  }

  lemma ScalarRoundTrip(f: Foreign, t: Type, v: Value, rest: seq<Byte>)
    requires Encoded(f, t, v).Ok? && MeaningOf(f, t, v).Some? && Fits(v) && !t.VectorType?
    ensures Decode(f, t, Encoded(f, t, v).value + rest) == Some(Parsed(MeaningOf(f, t, v).value, rest))
  {
    var bytes := Encoded(f, t, v).value;
    assert (bytes + rest)[..|bytes|] == bytes && (bytes + rest)[|bytes|..] == rest;
    if t.UintType? {
      LittleEndianReads(Integer(f, v).value, t.bytes);
    } else if t.StringType? {
      TextRoundTrip(v.s, rest);
    }
  }

  lemma LengthRoundTrip(n: nat, body: seq<Byte>, rest: seq<Byte>)
    requires n < LENGTH_LIMIT
    ensures ReadUleb128(Uleb128(Length32(n)) + body + rest) == Some(Parsed(n, body + rest))
  {
    ShortLength(n);
    Uleb128Reads(n, body + rest);
    Regroup(Uleb128(n), body, rest);
  }

  lemma TextRoundTrip(s: GoString, rest: seq<Byte>)
    requires |s| < LENGTH_LIMIT
    ensures var len := ReadUleb128(Uleb128(Length32(|s|)) + Bytes(s) + rest);
            && len == Some(Parsed(|s|, Bytes(s) + rest))
            && len.value.rest[..|s|] == Bytes(s) && len.value.rest[|s|..] == rest
            && Characters(len.value.rest[..|s|]) == s
  {
    LengthRoundTrip(|s|, Bytes(s), rest);
    assert (Bytes(s) + rest)[..|s|] == Bytes(s);
  }

  lemma {:induction false} ElementsRoundTrip(f: Foreign, t: Type, elems: seq<Value>, i: nat, rest: seq<Byte>)
    requires i <= |elems| && EncodedElements(f, t, elems, i).Ok?
    requires forall k :: 0 <= k < |elems| ==> Fits(elems[k])
    ensures MeaningsOf(f, t, elems, i).Some?
    ensures DecodeItems(f, t, |elems| - i, EncodedElements(f, t, elems, i).value + rest) ==
            Some(Parsed(MeaningsOf(f, t, elems, i).value, rest))
    decreases t, 1, |elems| - i
  {
    ElementsEncodeIffMeaningful(f, t, elems, i);
    if i == |elems| {
      assert [] + rest == rest;
    } else {
      var first, after := Encoded(f, t, elems[i]).value, EncodedElements(f, t, elems, i + 1).value;
      RoundTrip(f, t, elems[i], after + rest);
      Regroup(first, after, rest);
      ElementsRoundTrip(f, t, elems, i + 1, rest);
    }
  }

  // Two encodings of one type: neither is a proper prefix of the other, and equal encodings
  // have equal meanings.
  lemma PrefixFree(f: Foreign, t: Type, v: Value, w: Value, rest: seq<Byte>)
    requires Encoded(f, t, v).Ok? && Encoded(f, t, w).Ok? && Fits(v) && Fits(w)
    requires Encoded(f, t, v).value + rest == Encoded(f, t, w).value
    ensures rest == [] && MeaningOf(f, t, v) == MeaningOf(f, t, w)
  {
    RoundTrip(f, t, v, rest);
    RoundTrip(f, t, w, []);
    assert Encoded(f, t, w).value + [] == Encoded(f, t, w).value;
  }

  // An integer type takes exactly the numbers of its range, whatever their JSON form, and always
  // fills its width.
  lemma IntegersInRangeOnly(f: Foreign, k: nat, v: Value)
    ensures var r := Encoded(f, UintType(k), v);
            && (r.Ok? <==> Integer(f, v).Ok? && 0 <= Integer(f, v).value < Power(2, 8 * k))
            && (r.Ok? ==> |r.value| == k && FromLittleEndian(r.value) == Integer(f, v).value)
            && (r.Err? && Integer(f, v).Ok? ==> r.error == OutOfRange)
  {
    PowersAgree(k);
    if Encoded(f, UintType(k), v).Ok? {
      LittleEndianReads(Integer(f, v).value, k);
    }
  }

  function Power(b: nat, e: nat): nat {
    if e == 0 then 1 else b * Power(b, e - 1)
  }

  lemma {:induction false} PowersAgree(k: nat)
    ensures Pow256(k) == Power(2, 8 * k)
  {
    if k > 0 {
      PowersAgree(k - 1);
      EightBits(8 * (k - 1));
    }
  }

  lemma EightBits(e: nat)
    ensures Power(2, e + 8) == 256 * Power(2, e)
  {
    assert Power(2, e + 2) == 4 * Power(2, e);
    assert Power(2, e + 4) == 16 * Power(2, e);
    assert Power(2, e + 6) == 64 * Power(2, e);
  }

  // ---- The object type ----

  predicate Without(s: string, c: char) {
    forall i :: 0 <= i < |s| ==> s[i] != c
  }

  lemma FindIs(s: string, sub: string, at: nat)
    requires Occurs(s, at, sub) && forall k: nat :: k < at ==> !Occurs(s, k, sub)
    ensures Find(s, 0, sub) == Some(at)
  {
  }

  lemma SplitCut(head: string, tail: string)
    requires Without(head, ':')
    ensures Split(head + "::" + tail) == [head] + Split(tail)
  {
    var s := head + "::" + tail;
    assert s[|head|..|head| + 2] == "::";
    forall k: nat | k < |head| ensures !Occurs(s, k, "::") {
      assert s[k] == head[k];
    }
    FindIs(s, "::", |head|);
    assert s[..|head|] == head && s[|head| + 2..] == tail;
  }

  lemma OccursStarts(s: string, k: nat, sub: string)
    requires Occurs(s, k, sub) && |sub| > 0
    ensures s[k] == sub[0]
  {
  }

  lemma SplitOne(s: string)
    requires Without(s, ':')
    ensures Split(s) == [s]
  {
    var r := Find(s, 0, "::");
    if r.Some? {
      OccursStarts(s, r.value, "::");
    }
  }

  lemma ParametersCut(base: string, parameters: string)
    requires Without(base, '<')
    requires parameters == "" || parameters[0] == '<'
    ensures WithoutParameters(base + parameters) == base
  {
    var s := base + parameters;
    forall k: nat | k < |base| ensures !Occurs(s, k, "<") {
      assert s[k] == base[k];
    }
    if parameters != "" {
      assert s[|base|..|base| + 1] == "<";
      FindIs(s, "<", |base|);
      assert s[..|base|] == base;
    } else {
      assert s == base;
    }
  }

  lemma PathParts(x: string, y: string, z: string)
    requires Without(x, ':') && Without(y, ':') && Without(z, ':')
    ensures Split(x + "::" + (y + "::" + z)) == [x, y, z]
  {
    SplitCut(x, y + "::" + z);
    SplitCut(y, z);
    SplitOne(z);
    assert [x] + ([y] + [z]) == [x, y, z];
  }

  // A struct path with parameters is an address, whatever the parameters and their spacing,
  // exactly if it names the framework's Object.
  lemma ObjectIsAddress(f: Foreign, t: GoString, account: GoString, name: string, struct: string, parameters: string)
    requires Without(account, ':') && Without(name, ':') && Without(struct, ':')
    requires Without(account, '<') && Without(name, '<') && Without(struct, '<')
    requires parameters == "" || parameters[0] == '<'
    requires t == account + "::" + (name + "::" + struct) + parameters
    ensures IsObjectType(f, t) <==> name == "object" && struct == "Object" && f.parse(account) == Some(ACCOUNT_ONE)
  {
    PathParts(account, name, struct);
    ParametersCut(account + "::" + (name + "::" + struct), parameters);
  }

  lemma CutJoins(s: string, i: nat)
    requires Occurs(s, i, "::")
    ensures s == s[..i] + ("::" + s[i + 2..])
  {
    assert s[i..i + 2] == "::";
  }

  lemma ThreeParts(s: string) returns (x: string, y: string, z: string)
    requires |Split(s)| == 3
    ensures Split(s) == [x, y, z] && s == x + ("::" + (y + ("::" + z)))
  {
    var i := Find(s, 0, "::").value;
    CutJoins(s, i);
    var rest := s[i + 2..];
    assert Split(s) == [s[..i]] + Split(rest) && |Split(rest)| == 2;
    var j := Find(rest, 0, "::").value;
    CutJoins(rest, j);
    var last := rest[j + 2..];
    assert Split(rest) == [rest[..j]] + Split(last) && |Split(last)| == 1;
    assert Find(last, 0, "::").None?;
    x, y, z := s[..i], rest[..j], last;
  }

  // Nothing else is an object type: it is such a path, and its address has 31 zero bytes and a one.
  lemma ObjectIsPath(f: Foreign, t: GoString) returns (account: GoString, parameters: string)
    requires IsObjectType(f, t)
    ensures t == account + ("::" + ("object" + ("::" + "Object"))) + parameters
    ensures parameters == "" || parameters[0] == '<'
    ensures f.parse(account).Some? && f.parse(account).value[31] == 1
    ensures forall i :: 0 <= i < 31 ==> f.parse(account).value[i] == 0
  {
    var base := WithoutParameters(t);
    parameters := t[|base|..];
    assert t == base + parameters;
    var x, y, z := ThreeParts(base);
    assert Split(base)[0] == x && Split(base)[1] == y && Split(base)[2] == z;
    account := x;
  }

  // ---- The names of types ----

  function DigitChar(d: nat): (c: char)
    requires d < 10
    ensures IsDigit(c) && DigitValue(c) == d
  {
    ('0' as int + d) as char
  }

  // The decimal form of a number.
  function Show(n: nat): string {
    if n < 10 then [DigitChar(n)] else Show(n / 10) + [DigitChar(n % 10)]
  }

  lemma {:induction false} ShowIsDigits(n: nat)
    ensures |Show(n)| > 0 && AllDigits(Show(n)) && Digits(Show(n)) == n
    decreases n
  {
    if n < 10 {
      assert "" + [DigitChar(n)] == [DigitChar(n)];
    } else {
      ShowIsDigits(n / 10);
    }
  }

  // A numeric string stands for the number that it shows, with or without a sign.
  lemma DecimalReads(n: nat, sign: char)
    requires sign == '+' || sign == '-'
    ensures Decimal(Show(n)) == Some(n) && Decimal([sign] + Show(n)) == Some(if sign == '-' then 0 - n else n)
  {
    ShowIsDigits(n);
  }

  predicate AllDigits(s: string) {
    forall i :: 0 <= i < |s| ==> IsDigit(s[i])
  }

  lemma NoColonIsNoObject(f: Foreign, t: GoString)
    requires Without(WithoutParameters(t), ':')
    ensures !IsObjectType(f, t)
  {
    SplitOne(WithoutParameters(t));
  }

  predicate IsWidth(k: nat) {
    k == 1 || k == 2 || k == 4 || k == 8 || k == 16 || k == 32
  }

  lemma WidthNames()
    ensures Show(8) == "8" && Show(16) == "16" && Show(32) == "32"
    ensures Show(64) == "64" && Show(128) == "128" && Show(256) == "256"
  {
    assert Show(1) == "1" && Show(2) == "2" && Show(3) == "3" && Show(6) == "6";
    assert Show(12) == "12" && Show(25) == "25";
  }

  function WidthName(k: nat): string {
    match k
    case 1 => "u8"
    case 2 => "u16"
    case 4 => "u32"
    case 8 => "u64"
    case 16 => "u128"
    case _ => "u256"
  }

  lemma WidthIsShown(k: nat)
    requires IsWidth(k)
    ensures "u" + Show(8 * k) == WidthName(k)
  {
    WidthNames();
  }

  lemma WidthNameIsInteger(f: Foreign, t: GoString, k: nat)
    requires IsWidth(k) && t == WidthName(k)
    ensures ScalarOf(f, t) == UintType(k)
  {
    NoColonIsNoObject(f, t);
  }

  // An integer type is named by u and its width in bits; the widths are those of one to 32 bytes.
  lemma IntegerTypeIffNamed(f: Foreign, t: GoString, k: nat)
    ensures TypeOf(f, t) == UintType(k) <==> IsWidth(k) && t == "u" + Show(8 * k)
  {
    if IsWidth(k) {
      WidthIsShown(k);
      if t == WidthName(k) {
        WidthNameIsInteger(f, t, k);
      }
    }
    if ScalarOf(f, t) == UintType(k) {
      IntegerHasWidthName(f, t, k);
    }
  }

  lemma IntegerHasWidthName(f: Foreign, t: GoString, k: nat)
    requires ScalarOf(f, t) == UintType(k)
    ensures IsWidth(k) && t == WidthName(k)
  {
  }

  // The other scalar types have one name each, but for the addresses of objects.
  lemma ScalarTypeIffNamed(f: Foreign, t: GoString)
    ensures TypeOf(f, t) == AddressType <==> t == "address" || IsObjectType(f, t)
    ensures TypeOf(f, t) == BoolType <==> t == "bool"
    ensures TypeOf(f, t) == StringType <==> t == "0x1::string::String"
  {
    if t == "bool" {
      BoolIsNoObject(f, t);
    } else if t == "0x1::string::String" {
      StringIsNoObject(f, t);
    }
  }

  lemma BoolIsNoObject(f: Foreign, t: GoString)
    requires t == "bool"
    ensures !IsObjectType(f, t)
  {
    NoColonIsNoObject(f, t);
  }

  lemma StringPath(account: string, name: string, struct: string)
    requires account == "0x1" && name == "string" && struct == "String"
    ensures "0x1::string::String" == account + "::" + (name + "::" + struct) + ""
  {
  }

  lemma StringIsNoObject(f: Foreign, t: GoString)
    requires t == "0x1::string::String"
    ensures !IsObjectType(f, t)
  {
    StringPath("0x1", "string", "String");
    ObjectIsAddress(f, t, "0x1", "string", "String", "");
  }

  // A vector is named by the name of its elements' type in brackets, at any nesting.
  lemma VectorTypeIsNamed(f: Foreign, t: GoString)
    ensures TypeOf(f, VECTOR + t + ">") == VectorType(TypeOf(f, t))
  {
    VectorIsNoScalar(f, t, VECTOR + t + ">");
  }

  lemma VectorIsNoScalar(f: Foreign, t: GoString, s: GoString)
    requires s == VECTOR + t + ">"
    ensures ScalarOf(f, s).OtherType? && VECTOR < s && s[|VECTOR|..|s| - 1] == t
  {
    VectorIsNoObject(f, t, s);
    assert s[0] == 'v';
  }

  lemma VectorIsNoObject(f: Foreign, t: GoString, s: GoString)
    requires s == VECTOR + t + ">"
    ensures !IsObjectType(f, s)
  {
    assert s == "vector" + ("<" + t + ">");
    ParametersCut("vector", "<" + t + ">");
    NoColonIsNoObject(f, s);
  }

  // ---- The bytes ----

  // A JSON number stands for itself if it is a natural number below 2^64; a negative or a broken one
  // for none.
  lemma NumbersStandForThemselves(f: Foreign, n: nat, x: real)
    ensures n < 0x1_0000_0000_0000_0000 ==> Integer(f, Num(n as real)) == Ok(n)
    ensures x < 0.0 || x != x.Floor as real ==> Integer(f, Num(x)) == Err(BadNumber)
  {
    assert (n as real).Floor == n;
  }

  // The i-th digit of a number in base 256, and in base 128, the least first.
  function ByteAt(n: nat, i: nat): nat {
    if i == 0 then n % 256 else ByteAt(n / 256, i - 1)
  }

  function GroupAt(n: nat, i: nat): nat {
    if i == 0 then n % 128 else GroupAt(n / 128, i - 1)
  }

  lemma {:induction false} LittleEndianAt(n: nat, k: nat, i: nat)
    requires i < k
    ensures LittleEndian(n, k)[i] == ByteAt(n, i)
    decreases i
  {
    if i > 0 {
      LittleEndianAt(n / 256, k - 1, i - 1);
    }
  }

  // A length is its digits in base 128, least first; the high bit says that more follow,
  lemma {:induction false} Uleb128At(n: nat, i: nat)
    requires i < |Uleb128(n)|
    ensures Uleb128(n)[i] == GroupAt(n, i) + (if i < |Uleb128(n)| - 1 then 128 else 0)
    decreases i
  {
    if i > 0 {
      Uleb128At(n / 128, i - 1);
    }
  }

  // and there are no more than needed.
  lemma {:induction false} Uleb128IsShortest(n: nat)
    ensures |Uleb128(n)| > 0 && n < Power(128, |Uleb128(n)|)
    ensures |Uleb128(n)| > 1 ==> Power(128, |Uleb128(n)| - 1) <= n
    decreases n
  {
    if n >= 128 {
      var k := |Uleb128(n / 128)|;
      Uleb128IsShortest(n / 128);
      assert n == 128 * (n / 128) + n % 128;
      assert 128 * (n / 128 + 1) <= 128 * Power(128, k);
      if k > 1 {
        assert 128 * Power(128, k - 1) <= 128 * (n / 128);
      }
    }
  }

  // A truth value is one byte, an address its own bytes; a text is its length and then its bytes.
  lemma ScalarBytes(f: Foreign, s: GoString, i: nat)
    requires i < |s| < 0x1_0000_0000
    ensures Encoded(f, BoolType, Bool(true)) == Ok([1]) && Encoded(f, BoolType, Bool(false)) == Ok([0])
    ensures f.parse(s).Some? ==> Encoded(f, AddressType, Str(s)) == Ok(f.parse(s).value)
    ensures var r, len := Encoded(f, StringType, Str(s)), Uleb128(|s|);
            r.Ok? && |r.value| == |len| + |s| && r.value[..|len|] == len && r.value[|len| + i] == s[i] as int
  {
  }

  lemma {:induction false} LaterElements(f: Foreign, t: Type, elems: seq<Value>, i: nat)
    requires i < |elems|
    ensures EncodedElements(f, t, elems[1..], i).Ok? <==> EncodedElements(f, t, elems, i + 1).Ok?
    ensures EncodedElements(f, t, elems, i + 1).Ok? ==>
              EncodedElements(f, t, elems[1..], i) == EncodedElements(f, t, elems, i + 1)
    decreases |elems| - i
  {
    if i + 1 < |elems| {
      assert elems[1..][i] == elems[i + 1];
      LaterElements(f, t, elems, i + 1);
    }
  }

  lemma FirstElement(f: Foreign, t: Type, elems: seq<Value>)
    requires 0 < |elems| && EncodedElements(f, t, elems, 0).Ok?
    ensures Encoded(f, t, elems[0]).Ok? && EncodedElements(f, t, elems[1..], 0).Ok?
    ensures EncodedElements(f, t, elems, 0).value ==
            Encoded(f, t, elems[0]).value + EncodedElements(f, t, elems[1..], 0).value
  {
    LaterElements(f, t, elems, 0);
  }

  // A vector is its length, then its first element, then the others.
  lemma VectorBytes(f: Foreign, t: Type, elems: seq<Value>)
    requires 0 < |elems| < 0x1_0000_0000 && Encoded(f, VectorType(t), List(elems)).Ok?
    ensures Encoded(f, t, elems[0]).Ok? && EncodedElements(f, t, elems[1..], 0).Ok?
    ensures Encoded(f, VectorType(t), List(elems)).value ==
            Uleb128(|elems|) + (Encoded(f, t, elems[0]).value + EncodedElements(f, t, elems[1..], 0).value)
  {
    ShortLength(|elems|);
    FirstElement(f, t, elems);
  }

  // The error of a vector is that of its first bad element, with its index.
  lemma {:induction false} ElementErrorIsFirst(f: Foreign, t: Type, elems: seq<Value>, from: nat, i: nat)
    requires from <= i < |elems| && Encoded(f, t, elems[i]).Err?
    requires forall j :: from <= j < i ==> Encoded(f, t, elems[j]).Ok?
    ensures EncodedElements(f, t, elems, from) == Err(Element(i, Encoded(f, t, elems[i]).error))
    ensures from == 0 ==> Encoded(f, VectorType(t), List(elems)) == Err(Element(i, Encoded(f, t, elems[i]).error))
    decreases i - from
  {
    if from < i {
      ElementErrorIsFirst(f, t, elems, from + 1, i);
    }
  }

  // What else can be wrong with an argument.
  lemma ErrorsAre(f: Foreign, t: Type, v: Value)
    requires Encoded(f, t, v).Err? && !Encoded(f, t, v).error.Element?
    ensures var e := Encoded(f, t, v).error;
            && (e == Unsupported <==> t.OtherType?)
            && (e == BadAddress <==> t.AddressType? && v.Str?)
            && (e == WrongJson <==>
                  match t
                  case AddressType => !v.Str?
                  case BoolType => !v.Bool?
                  case UintType(_) => !v.Num? && !v.Str?
                  case StringType => !v.Str?
                  case VectorType(_) => !v.List?
                  case OtherType => false)
  {
    if t.VectorType? && v.List? {
      ElementsFailAsElements(f, t.inner, v.elems, 0);
    }
  }

  lemma {:induction false} ElementsFailAsElements(f: Foreign, t: Type, elems: seq<Value>, i: nat)
    requires i <= |elems| && EncodedElements(f, t, elems, i).Err?
    ensures EncodedElements(f, t, elems, i).error.Element?
    decreases |elems| - i
  {
    if Encoded(f, t, elems[i]).Ok? {
      ElementsFailAsElements(f, t, elems, i + 1);
    }
  }

  // ---- The encoder ----

  function Concat(parts: seq<seq<Byte>>): seq<Byte> {
    if |parts| == 0 then [] else Concat(parts[..|parts| - 1]) + parts[|parts| - 1]
  }

  function After(before: seq<Byte>, r: Result<seq<Byte>>): Result<seq<Byte>> {
    if r.Ok? then Ok(before + r.value) else r
  }

  lemma AfterNothing(r: Result<seq<Byte>>)
    ensures After(Concat([]), r) == r
  {
    if r.Ok? {
      assert [] + r.value == r.value;
    }
  }

  lemma ConcatOneMore(f: Foreign, t: Type, elems: seq<Value>, i: nat, parts: seq<seq<Byte>>, part: seq<Byte>)
    requires i < |elems| && Encoded(f, t, elems[i]) == Ok(part)
    ensures After(Concat(parts + [part]), EncodedElements(f, t, elems, i + 1)) ==
            After(Concat(parts), EncodedElements(f, t, elems, i))
  {
    assert (parts + [part])[..|parts|] == parts;
    var rest := EncodedElements(f, t, elems, i + 1);
    if rest.Ok? {
      Regroup(Concat(parts), part, rest.value);
    }
  }

  method SerializeArgument(f: Foreign, typeStr: GoString, value: Value) returns (r: Result<seq<Byte>>)
    ensures r == Encoded(f, TypeOf(f, typeStr), value)
    decreases |typeStr|, 1
  {
    if typeStr == "address" || IsObjectType(f, typeStr) {
      r := SerializeAddress(f, value);
    } else if typeStr == "bool" {
      r := SerializeBool(f, value);
    } else if typeStr == "u8" {
      r := SerializeUint(f, value, 1);
    } else if typeStr == "u16" {
      r := SerializeUint(f, value, 2);
    } else if typeStr == "u32" {
      r := SerializeUint(f, value, 4);
    } else if typeStr == "u64" {
      r := SerializeUint(f, value, 8);
    } else if typeStr == "u128" {
      r := SerializeUint(f, value, 16);
    } else if typeStr == "u256" {
      r := SerializeUint(f, value, 32);
    } else if typeStr == "0x1::string::String" {
      r := SerializeString(f, value);
    } else if VECTOR < typeStr {
      assert TypeOf(f, typeStr) == VectorType(TypeOf(f, typeStr[|VECTOR|..|typeStr| - 1]));
      r := SerializeVector(f, typeStr, value);
    } else {
      return Err(Unsupported);
    }
  }

  method SerializeAddress(f: Foreign, value: Value) returns (r: Result<seq<Byte>>)
    ensures r == Encoded(f, AddressType, value)
  {
    if !value.Str? {
      return Err(WrongJson);
    }
    var account := f.parse(value.s);
    return if account.None? then Err(BadAddress) else Ok(account.value);
  }

  method SerializeBool(f: Foreign, value: Value) returns (r: Result<seq<Byte>>)
    ensures r == Encoded(f, BoolType, value)
  {
    return if value.Bool? then Ok([if value.b then 1 else 0]) else Err(WrongJson);
  }

  method SerializeString(f: Foreign, value: Value) returns (r: Result<seq<Byte>>)
    ensures r == Encoded(f, StringType, value)
  {
    return if value.Str? then Ok(Uleb128(Length32(|value.s|)) + Bytes(value.s)) else Err(WrongJson);
  }

  method SerializeUint(f: Foreign, value: Value, k: nat) returns (r: Result<seq<Byte>>)
    ensures r == Encoded(f, UintType(k), value)
  {
    var n := Integer(f, value);
    if n.Err? {
      return Err(n.error);
    }
    if n.value < 0 || n.value >= Pow256(k) {
      return Err(OutOfRange);
    }
    return Ok(LittleEndian(n.value, k));
  }

  method SerializeVector(f: Foreign, typeStr: GoString, value: Value) returns (r: Result<seq<Byte>>)
    requires VECTOR < typeStr
    ensures r == Encoded(f, VectorType(TypeOf(f, typeStr[|VECTOR|..|typeStr| - 1])), value)
    decreases |typeStr|, 0
  {
    var inner: GoString := typeStr[|VECTOR|..|typeStr| - 1];
    if !value.List? {
      return Err(WrongJson);
    }
    var serialized: seq<seq<Byte>> := [];
    AfterNothing(EncodedElements(f, TypeOf(f, inner), value.elems, 0));
    for i := 0 to |value.elems|
      invariant |serialized| == i
      invariant After(Concat(serialized), EncodedElements(f, TypeOf(f, inner), value.elems, i)) ==
                EncodedElements(f, TypeOf(f, inner), value.elems, 0)
    {
      var b := SerializeArgument(f, inner, value.elems[i]);
      if b.Err? {
        return Err(Element(i, b.error));
      }
      ConcatOneMore(f, TypeOf(f, inner), value.elems, i, serialized, b.value);
      serialized := serialized + [b.value];
    }
    assert Concat(serialized) + [] == Concat(serialized);
    return Ok(Uleb128(Length32(|serialized|)) + Concat(serialized));
  }
}
