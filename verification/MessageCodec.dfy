/** The laws that the round trip of messages asks of its codecs can be kept: whatever the tensors
    are, if they can be saved and loaded again, there are text and JSON codecs to go with them. */
module MessageCodec {
  import opened Wrappers
  import opened Bytes
  import opened MessageWire

  // ----- numbers and texts, such that no code begins another ---------------------------------

  ghost function Nat(n: nat): seq<Byte> { if n == 0 then [0] else [1] + Nat(n - 1) }

  lemma Grouped(c: seq<Byte>, a: seq<Byte>, b: seq<Byte>, x: seq<Byte>)
    requires c == a + b
    ensures c + x == a + (b + x)
  {
  }

  lemma {:induction false} NatApart(n: nat, m: nat, x: seq<Byte>, y: seq<Byte>)
    requires Nat(n) + x == Nat(m) + y
    ensures n == m && x == y
  {
    assert (Nat(n) + x)[0] == Nat(n)[0] && (Nat(m) + y)[0] == Nat(m)[0];
    if n == 0 {
      assert x == (Nat(n) + x)[1..] && y == (Nat(m) + y)[1..];
    } else {
      assert (Nat(n) + x)[1..] == Nat(n - 1) + x && (Nat(m) + y)[1..] == Nat(m - 1) + y;
      NatApart(n - 1, m - 1, x, y);
    }
  }

  ghost function Chars(s: string): seq<Byte> { if s == [] then [] else Nat(s[0] as int) + Chars(s[1..]) }

  ghost function Text(s: string): seq<Byte> { Nat(|s|) + Chars(s) }

  lemma {:induction false} CharsApart(s: string, t: string, x: seq<Byte>, y: seq<Byte>)
    requires |s| == |t| && Chars(s) + x == Chars(t) + y
    ensures s == t && x == y
  {
    if s == [] {
      assert [] + x == x && [] + y == y;
    } else {
      Grouped(Chars(s), Nat(s[0] as int), Chars(s[1..]), x);
      Grouped(Chars(t), Nat(t[0] as int), Chars(t[1..]), y);
      NatApart(s[0] as int, t[0] as int, Chars(s[1..]) + x, Chars(t[1..]) + y);
      CharsApart(s[1..], t[1..], x, y);
      assert s == [s[0]] + s[1..] && t == [t[0]] + t[1..];
    }
  }

  lemma TextApart(s: string, t: string, x: seq<Byte>, y: seq<Byte>)
    requires Text(s) + x == Text(t) + y
    ensures s == t && x == y
  {
    Grouped(Text(s), Nat(|s|), Chars(s), x);
    Grouped(Text(t), Nat(|t|), Chars(t), y);
    NatApart(|s|, |t|, Chars(s) + x, Chars(t) + y);
    CharsApart(s, t, x, y);
  }

  // ----- JSON values ---------------------------------------------------------------------------

  // The keys of an object in some order.
  ghost predicate Lists(ks: seq<string>, keys: set<string>) { forall k :: k in ks <==> k in keys }

  lemma {:induction false} SomeOrder(keys: set<string>)
    ensures exists ks :: Lists(ks, keys)
  {
    if keys == {} {
      assert Lists([], keys);
    } else {
      var k :| k in keys;
      SomeOrder(keys - {k});
      var ks :| Lists(ks, keys - {k});
      assert Lists([k] + ks, keys);
    }
  }

  ghost function Order(keys: set<string>): (ks: seq<string>)
    ensures Lists(ks, keys)
  {
    SomeOrder(keys);
    var ks :| Lists(ks, keys);
    ks
  }

  ghost function Num(n: int): seq<Byte> { Nat(if n < 0 then 1 else 0) + Nat(if n < 0 then -n else n) }

  function Tag(j: Json): nat {
    match j
    case JNull => 0
    case JBool(_) => 1
    case JNum(_) => 2
    case JFloat(_) => 3
    case JStr(_) => 4
    case JArr(_) => 5
    case JObj(_) => 6
  }

  ghost function Code(j: Json): seq<Byte>
    decreases j, 1
  {
    Nat(Tag(j)) + Inner(j)
  }

  ghost function Inner(j: Json): seq<Byte>
    decreases j, 0, 1
  {
    match j
    case JNull => []
    case JBool(b) => Nat(if b then 1 else 0)
    case JNum(n) => Num(n)
    case JFloat(x) => Nat(x)
    case JStr(s) => Text(s)
    case JArr(items) => Nat(|items|) + Items(j, 0)
    case JObj(fields) => Nat(|Order(fields.Keys)|) + Fields(j, Order(fields.Keys))
  }

  ghost function Items(j: Json, i: nat): seq<Byte>
    requires j.JArr? && i <= |j.items|
    decreases j, 0, 0, |j.items| - i
  {
    if i == |j.items| then [] else Code(j.items[i]) + Items(j, i + 1)
  }

  ghost function Fields(j: Json, ks: seq<string>): seq<Byte>
    requires j.JObj? && forall k :: k in ks ==> k in j.fields
    decreases j, 0, 0, |ks|
  {
    if ks == [] then [] else Text(ks[0]) + (Code(j.fields[ks[0]]) + Fields(j, ks[1..]))
  }

  lemma NumApart(n: int, m: int, x: seq<Byte>, y: seq<Byte>)
    requires Num(n) + x == Num(m) + y
    ensures n == m && x == y
  {
    var a, b := if n < 0 then -n else n, if m < 0 then -m else m;
    Grouped(Num(n), Nat(if n < 0 then 1 else 0), Nat(a), x);
    Grouped(Num(m), Nat(if m < 0 then 1 else 0), Nat(b), y);
    NatApart(if n < 0 then 1 else 0, if m < 0 then 1 else 0, Nat(a) + x, Nat(b) + y);
    NatApart(a, b, x, y);
  }

  lemma {:induction false} CodeApart(j: Json, l: Json, x: seq<Byte>, y: seq<Byte>)
    requires Code(j) + x == Code(l) + y
    ensures j == l && x == y
    decreases j, 1
  {
    Grouped(Code(j), Nat(Tag(j)), Inner(j), x);
    Grouped(Code(l), Nat(Tag(l)), Inner(l), y);
    NatApart(Tag(j), Tag(l), Inner(j) + x, Inner(l) + y);
    InnerApart(j, l, x, y);
  }

  lemma InnerApart(j: Json, l: Json, x: seq<Byte>, y: seq<Byte>)
    requires Tag(j) == Tag(l) && Inner(j) + x == Inner(l) + y
    ensures j == l && x == y
    decreases j, 0, 2
  {
    match j
    case JNull => assert [] + x == x && [] + y == y;
    case JBool(b) => NatApart(if b then 1 else 0, if l.b then 1 else 0, x, y);
    case JNum(n) => NumApart(n, l.n, x, y);
    case JFloat(f) => NatApart(f, l.x, x, y);
    case JStr(s) => TextApart(s, l.s, x, y);
    case JArr(_) => ArrApart(j, l, x, y);
    case JObj(_) => ObjApart(j, l, x, y);
  }

  lemma ArrApart(j: Json, l: Json, x: seq<Byte>, y: seq<Byte>)
    requires j.JArr? && l.JArr? && Inner(j) + x == Inner(l) + y
    ensures j == l && x == y
    decreases j, 0, 1
  {
    Grouped(Inner(j), Nat(|j.items|), Items(j, 0), x);
    Grouped(Inner(l), Nat(|l.items|), Items(l, 0), y);
    NatApart(|j.items|, |l.items|, Items(j, 0) + x, Items(l, 0) + y);
    ItemsApart(j, l, 0, x, y);
    assert j.items == l.items;
  }

  lemma {:induction false} ItemsApart(j: Json, l: Json, i: nat, x: seq<Byte>, y: seq<Byte>)
    requires j.JArr? && l.JArr? && i <= |j.items| == |l.items| && Items(j, i) + x == Items(l, i) + y
    ensures x == y && forall k :: i <= k < |j.items| ==> j.items[k] == l.items[k]
    decreases j, 0, 0, |j.items| - i
  {
    if i == |j.items| {
      assert [] + x == x && [] + y == y;
    } else {
      Grouped(Items(j, i), Code(j.items[i]), Items(j, i + 1), x);
      Grouped(Items(l, i), Code(l.items[i]), Items(l, i + 1), y);
      CodeApart(j.items[i], l.items[i], Items(j, i + 1) + x, Items(l, i + 1) + y);
      ItemsApart(j, l, i + 1, x, y);
    }
  }

  lemma ObjApart(j: Json, l: Json, x: seq<Byte>, y: seq<Byte>)
    requires j.JObj? && l.JObj? && Inner(j) + x == Inner(l) + y
    ensures j == l && x == y
    decreases j, 0, 1
  {
    var ks, ms := Order(j.fields.Keys), Order(l.fields.Keys);
    Grouped(Inner(j), Nat(|ks|), Fields(j, ks), x);
    Grouped(Inner(l), Nat(|ms|), Fields(l, ms), y);
    NatApart(|ks|, |ms|, Fields(j, ks) + x, Fields(l, ms) + y);
    FieldsApart(j, l, ks, ms, x, y);
    assert j.fields.Keys == l.fields.Keys;
    assert j.fields == l.fields;
  }

  lemma {:induction false} FieldsApart(j: Json, l: Json, ks: seq<string>, ms: seq<string>, x: seq<Byte>, y: seq<Byte>)
    requires j.JObj? && l.JObj? && |ks| == |ms|
    requires (forall k :: k in ks ==> k in j.fields) && (forall k :: k in ms ==> k in l.fields)
    requires Fields(j, ks) + x == Fields(l, ms) + y
    ensures x == y && ks == ms && forall k :: k in ks ==> j.fields[k] == l.fields[k]
    decreases j, 0, 0, |ks|
  {
    if ks == [] {
      assert [] + x == x && [] + y == y;
    } else {
      var a, b := j.fields[ks[0]], l.fields[ms[0]];
      var more, others := Fields(j, ks[1..]), Fields(l, ms[1..]);
      Grouped(Fields(j, ks), Text(ks[0]), Code(a) + more, x);
      Grouped(Fields(l, ms), Text(ms[0]), Code(b) + others, y);
      TextApart(ks[0], ms[0], Code(a) + more + x, Code(b) + others + y);
      Grouped(Code(a) + more, Code(a), more, x);
      Grouped(Code(b) + others, Code(b), others, y);
      CodeApart(a, b, more + x, others + y);
      FieldsApart(j, l, ks[1..], ms[1..], x, y);
      assert ks == [ks[0]] + ks[1..] && ms == [ms[0]] + ms[1..];
    }
  }

  // ----- the codec --------------------------------------------------------------------------------

  ghost predicate Injective<A(!new)>(code: A -> seq<Byte>) { forall a, b :: code(a) == code(b) ==> a == b }

  ghost function Inverse<A(!new)>(code: A -> seq<Byte>): seq<Byte> -> Option<A> {
    b => if a :| code(a) == b then Some(a) else None
  }

  lemma Inverts<A(!new)>(code: A -> seq<Byte>, a: A)
    requires Injective(code)
    ensures Inverse(code)(code(a)) == Some(a)
  {
  }

  lemma TextInjective()
    ensures Injective(Text)
  {
    forall s, t | Text(s) == Text(t)
      ensures s == t
    {
      TextApart(s, t, [], []);
    }
  }

  lemma CodeInjective()
    ensures Injective(Code)
  {
    forall j, l | Code(j) == Code(l)
      ensures j == l
    {
      CodeApart(j, l, [], []);
    }
  }

  lemma LawfulFrom<T(!new)>(text: string -> seq<Byte>, code: Json -> seq<Byte>, save: T -> seq<Byte>,
                            load: seq<Byte> -> Option<T>, unpack: seq<Byte> -> Option<T>) returns (c: Codec<T>)
    requires Injective(text) && Injective(code) && forall t :: load(save(t)) == Some(t)
    ensures Lawful(c) && c.save == save && c.load == load && c.unpack == unpack
  {
    c := Codec(t => Some(text(t)), Inverse(text), code, Inverse(code),
               (j: Json) => if j.JNum? then Some(j.n) else None, save, load, unpack);
    forall t ensures c.decode(c.encode(t).value) == Some(t) { Inverts(text, t); }
    forall j ensures c.loads(c.dumps(j)) == Some(j) { Inverts(code, j); }
  }

  // Whatever can be saved and loaded can be sent: there is a lawful codec with it.
  lemma LawfulExists<T(!new)>(save: T -> seq<Byte>, load: seq<Byte> -> Option<T>, unpack: seq<Byte> -> Option<T>)
    returns (c: Codec<T>)
    requires forall t :: load(save(t)) == Some(t)
    ensures Lawful(c) && c.save == save && c.load == load && c.unpack == unpack
  {
    TextInjective();
    CodeInjective();
    c := LawfulFrom(Text, Code, save, load, unpack);
  }
}
