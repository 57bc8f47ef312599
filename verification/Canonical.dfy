/**
 The constrained canonical JSON whose digest identifies content: sorted keys, no
 spaces, and the escapes of section 7 of RFC 8259. Encoding is injective.
 */
module Canonical {
  import opened Common
  import opened Decimals

  /** Text read from Go may not be UTF-8; `Utf8` holds its code points. */
  datatype Text = Utf8(chars: string) | Malformed

  /** A value; `Int` stands for any of the Go integer types, which print alike. */
  datatype Json =
    | Null
    | Str(text: Text)
    | Bool(on: bool)
    | Int(n: int)
    | Arr(items: seq<Json>)
    | Obj(fields: map<string, Json>)
    | Unsupported

  predicate Encodable(v: Json) {
    match v
    case Str(text) => text.Utf8?
    case Arr(items) => forall i :: 0 <= i < |items| ==> Encodable(items[i])
    case Obj(fields) => forall k :: k in fields ==> Encodable(fields[k])
    case Unsupported => false
    case _ => true
  }

  // ---- strings ----------------------------------------------------------------

  function Hex(n: nat): char
    requires n < 16
  {
    if n < 10 then ('0' as int + n) as char else ('a' as int + n - 10) as char
  }

  function Escape(c: char): string {
    if c == '\"' || c == '\\' then ['\\', c]
    else if c == '\U{8}' then "\\b"
    else if c == '\t' then "\\t"
    else if c == '\n' then "\\n"
    else if c == '\U{C}' then "\\f"
    else if c == '\r' then "\\r"
    else if c < ' ' then "\\u00" + [Hex(c as nat / 16), Hex(c as nat % 16)]
    else [c]
  }

  function Escaped(s: string): string { if s == "" then "" else Escape(s[0]) + Escaped(s[1..]) }

  function Quoted(s: string): string { "\"" + Escaped(s) + "\"" }

  /** Escapes can be told apart whatever follows. */
  lemma EscapeUnique(c: char, d: char, x: string, y: string)
    requires Escape(c) + x == Escape(d) + y
    ensures c == d && x == y
  {
    var a, b := Escape(c) + x, Escape(d) + y;
    forall i | 0 <= i < |Escape(c)| ensures a[i] == Escape(c)[i] { }
    forall i | 0 <= i < |Escape(d)| ensures b[i] == Escape(d)[i] { }
    EscapePrefixFree(c, d, a);
    assert a[|Escape(c)|..] == x && b[|Escape(d)|..] == y;
  }

  lemma EscapePrefixFree(c: char, d: char, a: string)
    requires |Escape(c)| <= |a| && |Escape(d)| <= |a|
    requires (forall i :: 0 <= i < |Escape(c)| ==> a[i] == Escape(c)[i])
             && (forall i :: 0 <= i < |Escape(d)| ==> a[i] == Escape(d)[i])
    ensures c == d
  {
    assert a[0] == Escape(c)[0] == Escape(d)[0];
    if a[0] == '\\' {
      assert a[1] == Escape(c)[1] == Escape(d)[1];
      if a[1] == 'u' { assert a[4] == Escape(c)[4] == Escape(d)[4] && a[5] == Escape(c)[5] == Escape(d)[5]; }
    }
  }

  /** None begins like the closing quote. */
  lemma EscapeOpens(c: char)
    ensures Escape(c) != "" && Escape(c)[0] != '\"'
  {
  }

  /** A string that is not empty does not open with the closing quote. */
  lemma EscapedOpens(s: string, x: string)
    requires s != ""
    ensures Escaped(s) + "\"" + x == Escape(s[0]) + (Escaped(s[1..]) + "\"" + x)
    ensures (Escaped(s) + "\"" + x)[0] != '\"'
  {
    EscapeOpens(s[0]);
  }

  lemma {:induction false} EscapedUnique(s: string, t: string, x: string, y: string)
    requires Escaped(s) + "\"" + x == Escaped(t) + "\"" + y
    ensures s == t && x == y
  {
    if s != "" { EscapedOpens(s, x); }
    if t != "" { EscapedOpens(t, y); }
    if s != "" && t != "" {
      EscapeUnique(s[0], t[0], Escaped(s[1..]) + "\"" + x, Escaped(t[1..]) + "\"" + y);
      EscapedUnique(s[1..], t[1..], x, y);
      assert s == [s[0]] + s[1..] && t == [t[0]] + t[1..];
    } else {
      assert s == "" ==> Escaped(s) + "\"" + x == ['\"'] + x;
      assert t == "" ==> Escaped(t) + "\"" + y == ['\"'] + y;
      DropFirst('\"', x, y);
    }
  }

  lemma QuotedUnique(s: string, t: string, x: string, y: string)
    requires Quoted(s) + x == Quoted(t) + y
    ensures s == t && x == y
  {
    var a, b := Quoted(s) + x, Quoted(t) + y;
    assert a[1..] == Escaped(s) + "\"" + x && b[1..] == Escaped(t) + "\"" + y;
    EscapedUnique(s, t, x, y);
  }

  // ---- integers ------------------------------------------------------------------

  /** What may follow a value. */
  predicate Ends(s: string) { s == "" || s[0] in {',', ']', '}'} }

  /** The number of leading digits. */
  function Lead(s: string): nat { if s != "" && IsDigit(s[0]) then 1 + Lead(s[1..]) else 0 }

  lemma {:induction false} LeadIs(a: string, x: string)
    requires (forall c :: c in a ==> IsDigit(c)) && Ends(x)
    ensures Lead(a + x) == |a|
  {
    if a != "" {
      LeadIs(a[1..], x);
      assert (a + x)[1..] == a[1..] + x && a[0] in a && (a + x)[0] == a[0];
    } else {
      assert a + x == x;
    }
  }

  lemma DecimalUnique(m: nat, n: nat, x: string, y: string)
    requires Decimal(m) + x == Decimal(n) + y && Ends(x) && Ends(y)
    ensures m == n && x == y
  {
    DecimalDigits(m);
    DecimalDigits(n);
    LeadIs(Decimal(m), x);
    LeadIs(Decimal(n), y);
    var s := Decimal(m) + x;
    assert Decimal(m) == s[..|Decimal(m)|] == Decimal(n);
    assert x == s[|Decimal(m)|..] == y;
  }

  lemma SignOf(n: int)
    ensures Signed(n) != "" && (Signed(n)[0] == '-' <==> n < 0) && (n < 0 || IsDigit(Signed(n)[0]))
  {
    if n >= 0 {
      DecimalDigits(n);
      assert Decimal(n)[0] in Decimal(n);
    }
  }

  lemma DropFirst(c: char, u: string, v: string)
    requires [c] + u == [c] + v
    ensures u == v
  {
    assert ([c] + u)[1..] == u && ([c] + v)[1..] == v;
  }

  function Magnitude(n: int): nat { if n < 0 then -n else n }

  function Minus(n: int): string { if n < 0 then "-" else "" }

  lemma SignedIs(n: int, x: string)
    ensures Signed(n) + x == Minus(n) + (Decimal(Magnitude(n)) + x)
  {
  }

  /** The sign is told by the first character. */
  lemma SameSign(m: int, n: int, x: string, y: string)
    requires Signed(m) + x == Signed(n) + y
    ensures Minus(m) == Minus(n)
  {
    SignOf(m);
    SignOf(n);
    assert (Signed(m) + x)[0] == Signed(m)[0] && (Signed(n) + y)[0] == Signed(n)[0];
  }

  lemma MagnitudeUnique(sign: string, p: nat, q: nat, x: string, y: string)
    requires sign + (Decimal(p) + x) == sign + (Decimal(q) + y) && Ends(x) && Ends(y)
    ensures p == q && x == y
  {
    Dropped(sign, Decimal(p) + x, Decimal(q) + y);
    DecimalUnique(p, q, x, y);
  }

  lemma SameMagnitude(m: int, n: int, x: string, y: string)
    requires Signed(m) + x == Signed(n) + y && Ends(x) && Ends(y) && Minus(m) == Minus(n)
    ensures Magnitude(m) == Magnitude(n) && x == y
  {
    SignedIs(m, x);
    SignedIs(n, y);
    MagnitudeUnique(Minus(m), Magnitude(m), Magnitude(n), x, y);
  }

  lemma SignedUnique(m: int, n: int, x: string, y: string)
    requires Signed(m) + x == Signed(n) + y && Ends(x) && Ends(y)
    ensures m == n && x == y
  {
    SameSign(m, n, x, y);
    SameMagnitude(m, n, x, y);
  }

  // ---- sorted keys -----------------------------------------------------------------

  /** sort.Strings: by code points, which is the order of the UTF-8 bytes. */
  predicate Before(a: string, b: string) {
    b != "" && (a == "" || a[0] < b[0] || (a[0] == b[0] && Before(a[1..], b[1..])))
  }

  lemma {:induction false} BeforeTotal(a: string, b: string)
    ensures a == b || Before(a, b) || Before(b, a)
  {
    if a != "" && b != "" && a[0] == b[0] {
      BeforeTotal(a[1..], b[1..]);
      assert a == [a[0]] + a[1..] && b == [b[0]] + b[1..];
    }
  }

  lemma {:induction false} BeforeTransitive(a: string, b: string, c: string)
    requires Before(a, b) && Before(b, c)
    ensures Before(a, c)
  {
    if a != "" && a[0] == b[0] == c[0] { BeforeTransitive(a[1..], b[1..], c[1..]); }
  }

  predicate Sorted(ks: seq<string>) { forall i, j :: 0 <= i < j < |ks| ==> Before(ks[i], ks[j]) }

  method LeastKey(keys: set<string>) returns (k: string)
    requires keys != {}
    ensures k in keys && forall l :: l in keys && l != k ==> Before(k, l)
  {
    k :| k in keys;
    var todo := keys - {k};
    while todo != {}
      invariant k in keys && todo <= keys
      invariant forall l :: l in keys && l !in todo && l != k ==> Before(k, l)
      decreases |todo|
    {
      var l :| l in todo;
      BeforeTotal(k, l);
      if Before(l, k) {
        forall m | m in keys && m !in todo && m != k ensures Before(l, m) { BeforeTransitive(l, k, m); }
        k := l;
      }
      todo := todo - {l};
    }
  }

  ghost predicate IsLeast(k: string, keys: set<string>) {
    k in keys && forall l :: l in keys && l != k ==> Before(k, l)
  }

  lemma LeastOfTwo(x: string, k: string, rest: set<string>)
    requires IsLeast(k, rest) && x !in rest
    ensures IsLeast(if Before(x, k) then x else k, rest + {x})
  {
    BeforeTotal(x, k);
    if Before(x, k) {
      forall l | l in rest + {x} && l != x ensures Before(x, l) { if l != k { BeforeTransitive(x, k, l); } }
    }
  }

  lemma {:induction false} LeastExists(keys: set<string>) returns (k: string)
    requires keys != {}
    ensures IsLeast(k, keys)
    decreases keys
  {
    var x :| x in keys;
    var rest := keys - {x};
    assert rest + {x} == keys;
    if rest == {} {
      k := x;
    } else {
      k := LeastExists(rest);
      LeastOfTwo(x, k, rest);
      k := if Before(x, k) then x else k;
    }
  }

  lemma LeastIs(keys: set<string>)
    requires keys != {}
    ensures exists k :: IsLeast(k, keys)
  {
    var k := LeastExists(keys);
  }

  ghost function SortedKeys(keys: set<string>): seq<string>
    decreases keys
  {
    if keys == {} then []
    else
      LeastIs(keys);
      var k :| IsLeast(k, keys);
      [k] + SortedKeys(keys - {k})
  }

  lemma {:induction false} SortedKeysHold(keys: set<string>)
    ensures forall k :: k in SortedKeys(keys) <==> k in keys
    ensures Sorted(SortedKeys(keys))
    decreases keys
  {
    if keys != {} {
      var k := SortedKeys(keys)[0];
      SortedKeysHold(keys - {k});
    }
  }

  // ---- values ------------------------------------------------------------------------

  ghost function Encode(v: Json): string
    requires Encodable(v)
    decreases v, 1, 0
  {
    match v
    case Null => "null"
    case Str(text) => Quoted(text.chars)
    case Bool(on) => if on then "true" else "false"
    case Int(n) => Signed(n)
    case Arr(items) => "[" + EncodeItems(v, 0) + "]"
    case Obj(fields) =>
      SortedKeysHold(fields.Keys);
      "{" + EncodeFields(v, SortedKeys(fields.Keys), true) + "}"
  }

  /** The items from place `i` on, with the comma before all but the first. */
  ghost function EncodeItems(v: Json, i: nat): string
    requires Encodable(v) && v.Arr? && i <= |v.items|
    decreases v, 0, |v.items| - i
  {
    if i == |v.items| then ""
    else (if i > 0 then "," else "") + Encode(v.items[i]) + EncodeItems(v, i + 1)
  }

  ghost function EncodeFields(v: Json, keys: seq<string>, first: bool): string
    requires Encodable(v) && v.Obj? && forall k :: k in keys ==> k in v.fields
    decreases v, 0, |keys|
  {
    if keys == [] then ""
    else
      (if first then "" else ",") + Quoted(keys[0]) + ":" + Encode(v.fields[keys[0]])
      + EncodeFields(v, keys[1..], false)
  }

  /** What the first character of a value says of it. */
  function Opening(c: char): nat {
    if c == 'n' then 0 else if c == '\"' then 1 else if c == 't' then 2 else if c == 'f' then 3
    else if c == '-' || IsDigit(c) then 4 else if c == '[' then 5 else if c == '{' then 6 else 7
  }

  function Shape(v: Json): nat {
    match v
    case Null => 0
    case Str(_) => 1
    case Bool(on) => if on then 2 else 3
    case Int(_) => 4
    case Arr(_) => 5
    case Obj(_) => 6
    case Unsupported => 7
  }

  lemma OpeningIs(v: Json)
    requires Encodable(v)
    ensures Encode(v) != "" && Opening(Encode(v)[0]) == Shape(v) < 7
  {
    if v.Int? { SignOf(v.n); }
  }

  /** A value is known from any text it begins, as long as what follows cannot prolong it. */
  lemma {:induction false} EncodeUnique(v: Json, w: Json, x: string, y: string)
    requires Encodable(v) && Encodable(w) && Encode(v) + x == Encode(w) + y && Ends(x) && Ends(y)
    ensures v == w && x == y
    decreases v, 1, 0
  {
    OpeningIs(v);
    OpeningIs(w);
    assert (Encode(v) + x)[0] == Encode(v)[0] && (Encode(w) + y)[0] == Encode(w)[0];
    match v
    case Null => Dropped("null", x, y);
    case Str(text) => QuotedUnique(text.chars, w.text.chars, x, y);
    case Bool(on) => Dropped(Encode(v), x, y);
    case Int(n) => SignedUnique(n, w.n, x, y);
    case Arr(items) => ArraysUnique(v, w, x, y);
    case Obj(fields) => ObjectsUnique(v, w, x, y);
  }

  lemma Dropped(a: string, x: string, y: string)
    requires a + x == a + y
    ensures x == y
  {
    assert (a + x)[|a|..] == x && (a + y)[|a|..] == y;
  }

  lemma ArraysUnique(v: Json, w: Json, x: string, y: string)
    requires v.Arr? && w.Arr? && Encodable(v) && Encodable(w) && Encode(v) + x == Encode(w) + y
    ensures v == w && x == y
    decreases v, 0, |v.items| + 1
  {
    assert Encode(v) + x == ['['] + (EncodeItems(v, 0) + "]" + x);
    assert Encode(w) + y == ['['] + (EncodeItems(w, 0) + "]" + y);
    DropFirst('[', EncodeItems(v, 0) + "]" + x, EncodeItems(w, 0) + "]" + y);
    ItemsUnique(v, w, 0, x, y);
    assert v.items[0..] == v.items && w.items[0..] == w.items;
  }

  lemma RegroupItem(comma: string, value: string, rest: string, x: string)
    ensures comma + value + rest + x == comma + (value + (rest + x))
  {
  }

  /** Splits the items from place `i` on into the separator, the first item and what follows it. */
  lemma ItemsSplit(v: Json, i: nat, x: string)
    requires v.Arr? && Encodable(v) && i < |v.items|
    ensures EncodeItems(v, i) + "]" + x
            == (if i > 0 then "," else "") + (Encode(v.items[i]) + (EncodeItems(v, i + 1) + "]" + x))
    ensures Ends(EncodeItems(v, i + 1) + "]" + x)
    ensures (EncodeItems(v, i) + "]" + x)[0] != ']'
  {
    OpeningIs(v.items[i]);
    var comma := if i > 0 then "," else "";
    RegroupItem(comma, Encode(v.items[i]), EncodeItems(v, i + 1), "]" + x);
    assert EncodeItems(v, i) == comma + Encode(v.items[i]) + EncodeItems(v, i + 1);
    Glue(EncodeItems(v, i), "]", x);
    Glue(EncodeItems(v, i + 1), "]", x);
  }

  lemma {:induction false} ItemsUnique(v: Json, w: Json, i: nat, x: string, y: string)
    requires v.Arr? && w.Arr? && Encodable(v) && Encodable(w) && i <= |v.items| && i <= |w.items|
    requires EncodeItems(v, i) + "]" + x == EncodeItems(w, i) + "]" + y
    ensures v.items[i..] == w.items[i..] && x == y
    decreases v, 0, |v.items| - i
  {
    if i < |v.items| { ItemsSplit(v, i, x); } else { assert EncodeItems(v, i) + "]" + x == [']'] + x; }
    if i < |w.items| { ItemsSplit(w, i, y); } else { assert EncodeItems(w, i) + "]" + y == [']'] + y; }
    if i < |v.items| && i < |w.items| {
      var p, q := EncodeItems(v, i + 1) + "]" + x, EncodeItems(w, i + 1) + "]" + y;
      Dropped(if i > 0 then "," else "", Encode(v.items[i]) + p, Encode(w.items[i]) + q);
      EncodeUnique(v.items[i], w.items[i], p, q);
      ItemsUnique(v, w, i + 1, x, y);
      assert v.items[i..] == [v.items[i]] + v.items[i + 1..] && w.items[i..] == [w.items[i]] + w.items[i + 1..];
    } else {
      DropFirst(']', x, y);
    }
  }

  lemma ObjectText(v: Json, x: string)
    requires v.Obj? && Encodable(v)
    ensures (forall k :: k in SortedKeys(v.fields.Keys) <==> k in v.fields)
    ensures Encode(v) + x == ['{'] + (EncodeFields(v, SortedKeys(v.fields.Keys), true) + "}" + x)
  {
    SortedKeysHold(v.fields.Keys);
  }

  lemma SameFields(f: map<string, Json>, g: map<string, Json>, ks: seq<string>)
    requires (forall k :: k in ks <==> k in f) && (forall k :: k in ks <==> k in g)
    requires forall k :: k in ks ==> k in f && k in g && f[k] == g[k]
    ensures f == g
  {
    assert f.Keys == g.Keys;
  }

  lemma ObjectsUnique(v: Json, w: Json, x: string, y: string)
    requires v.Obj? && w.Obj? && Encodable(v) && Encodable(w) && Encode(v) + x == Encode(w) + y
    ensures v == w && x == y
    decreases v, 0, |SortedKeys(v.fields.Keys)| + 1
  {
    var ks, ls := SortedKeys(v.fields.Keys), SortedKeys(w.fields.Keys);
    ObjectText(v, x);
    ObjectText(w, y);
    DropFirst('{', EncodeFields(v, ks, true) + "}" + x, EncodeFields(w, ls, true) + "}" + y);
    FieldsUnique(v, ks, w, ls, true, x, y);
    SameFields(v.fields, w.fields, ks);
  }

  lemma Regroup(comma: string, key: string, value: string, rest: string, x: string)
    ensures comma + key + ":" + value + rest + "}" + x == comma + (key + ([':'] + (value + (rest + "}" + x))))
  {
  }

  lemma FieldsSplit(v: Json, ks: seq<string>, first: bool, x: string)
    requires v.Obj? && Encodable(v) && ks != [] && forall k :: k in ks ==> k in v.fields
    ensures EncodeFields(v, ks, first) + "}" + x
         == (if first then "" else ",")
           + (Quoted(ks[0]) + ([':'] + (Encode(v.fields[ks[0]]) + (EncodeFields(v, ks[1..], false) + "}" + x))))
    ensures Ends(EncodeFields(v, ks[1..], false) + "}" + x)
    ensures (EncodeFields(v, ks, first) + "}" + x)[0] != '}'
  {
    var comma := if first then "" else ",";
    Regroup(comma, Quoted(ks[0]), Encode(v.fields[ks[0]]), EncodeFields(v, ks[1..], false), x);
    assert EncodeFields(v, ks, first)
      == comma + Quoted(ks[0]) + ":" + Encode(v.fields[ks[0]]) + EncodeFields(v, ks[1..], false);
    assert Quoted(ks[0])[0] == '\"';
  }

  lemma FieldsEnd(v: Json, ks: seq<string>, first: bool, x: string)
    requires v.Obj? && Encodable(v) && ks == []
    ensures EncodeFields(v, ks, first) + "}" + x == ['}'] + x
  {
  }

  lemma {:induction false} FieldsUnique(v: Json, ks: seq<string>, w: Json, ls: seq<string>, first: bool, x: string,
                                        y: string)
    requires v.Obj? && w.Obj? && Encodable(v) && Encodable(w)
    requires (forall k :: k in ks ==> k in v.fields) && (forall k :: k in ls ==> k in w.fields)
    requires EncodeFields(v, ks, first) + "}" + x == EncodeFields(w, ls, first) + "}" + y
    ensures ks == ls && x == y && forall k :: k in ks ==> v.fields[k] == w.fields[k]
    decreases v, 0, |ks|
  {
    if ks != [] { FieldsSplit(v, ks, first, x); } else { FieldsEnd(v, ks, first, x); }
    if ls != [] { FieldsSplit(w, ls, first, y); } else { FieldsEnd(w, ls, first, y); }
    if ks != [] && ls != [] {
      var p, q := EncodeFields(v, ks[1..], false) + "}" + x, EncodeFields(w, ls[1..], false) + "}" + y;
      var e, f := Encode(v.fields[ks[0]]) + p, Encode(w.fields[ls[0]]) + q;
      Dropped(if first then "" else ",", Quoted(ks[0]) + ([':'] + e), Quoted(ls[0]) + ([':'] + f));
      QuotedUnique(ks[0], ls[0], [':'] + e, [':'] + f);
      DropFirst(':', e, f);
      EncodeUnique(v.fields[ks[0]], w.fields[ls[0]], p, q);
      FieldsUnique(v, ks[1..], w, ls[1..], false, x, y);
      assert ks == [ks[0]] + ks[1..] && ls == [ls[0]] + ls[1..];
    } else {
      DropFirst('}', x, y);
    }
  }

  /** Equal text, equal value: what lets a digest of the text stand for the value. */
  lemma EncodingIsInjective(v: Json, w: Json)
    requires Encodable(v) && Encodable(w) && Encode(v) == Encode(w)
    ensures v == w
  {
    assert Encode(v) + "" == Encode(v) && Encode(w) + "" == Encode(w);
    EncodeUnique(v, w, "", "");
  }

  // ---- the encoder --------------------------------------------------------------------

  method AppendString(buf: string, text: Text) returns (ok: bool, out: string)
    ensures ok <==> text.Utf8?
    ensures ok ==> out == buf + Quoted(text.chars)
  {
    if text.Malformed? { return false, buf; }
    out := buf + "\"";
    var s := text.chars;
    for i := 0 to |s|
      invariant out == buf + "\"" + Escaped(s[..i])
    {
      EscapedSnoc(s, i);
      Glue(buf + "\"", Escaped(s[..i]), Escape(s[i]));
      out := out + Escape(s[i]);
    }
    assert s[..|s|] == s;
    Wrap(buf, "\"", Escaped(s), "\"");
    ok, out := true, out + "\"";
  }

  lemma Glue(a: string, b: string, c: string)
    ensures a + b + c == a + (b + c)
  {
  }

  lemma {:induction false} EscapedSnoc(s: string, i: nat)
    requires i < |s|
    ensures Escaped(s[..i + 1]) == Escaped(s[..i]) + Escape(s[i])
    decreases i
  {
    if i > 0 {
      EscapedSnoc(s[1..], i - 1);
      assert s[1..][..i] == s[..i + 1][1..] && s[1..][..i - 1] == s[..i][1..];
    }
  }

  /** appendCanonical: fails exactly on a value that has no canonical text. */
  method AppendCanonical(buf: string, v: Json) returns (ok: bool, out: string)
    ensures ok <==> Encodable(v)
    ensures ok ==> out == buf + Encode(v)
    decreases v, 1, 0
  {
    match v
    case Null => ok, out := true, buf + "null";
    case Str(text) => ok, out := AppendString(buf, text);
    case Bool(on) => ok, out := true, buf + if on then "true" else "false";
    case Int(n) => ok, out := true, buf + Signed(n);
    case Arr(items) => ok, out := AppendItems(buf, v);
    case Obj(fields) => ok, out := AppendFields(buf, v);
    case Unsupported => ok, out := false, buf;
  }

  lemma Chain(start: string, a: string, b: string, rest: string, before: string, after: string)
    requires before + (a + b + rest) == start && after == before + a + b
    ensures after + rest == start
  {
    assert before + (a + b + rest) == before + a + b + rest;
  }

  lemma Wrap(buf: string, open: string, inner: string, close: string)
    ensures buf + open + inner + close == buf + (open + inner + close)
  {
  }

  method AppendItem(buf: string, v: Json, i: nat) returns (ok: bool, out: string)
    requires v.Arr? && i < |v.items|
    ensures ok <==> Encodable(v.items[i])
    ensures Encodable(v) ==> out + EncodeItems(v, i + 1) == buf + EncodeItems(v, i)
    decreases v, 0, 0
  {
    var comma := if i > 0 then "," else "";
    ok, out := AppendCanonical(buf + comma, v.items[i]);
    if Encodable(v) { Chain(buf + EncodeItems(v, i), comma, Encode(v.items[i]), EncodeItems(v, i + 1), buf, out); }
  }

  method AppendField(buf: string, v: Json, keys: seq<string>, first: bool) returns (ok: bool, out: string)
    requires v.Obj? && keys != [] && forall k :: k in keys ==> k in v.fields
    ensures ok <==> Encodable(v.fields[keys[0]])
    ensures Encodable(v) ==> out + EncodeFields(v, keys[1..], false) == buf + EncodeFields(v, keys, first)
    decreases v, 0, 0
  {
    var comma := if first then "" else ",";
    var named, key := AppendString(buf + comma, Utf8(keys[0]));
    ok, out := AppendCanonical(key + ":", v.fields[keys[0]]);
    if Encodable(v) {
      Chain(buf + EncodeFields(v, keys, first), comma + Quoted(keys[0]) + ":", Encode(v.fields[keys[0]]),
            EncodeFields(v, keys[1..], false), buf, out);
    }
  }

  method AppendItems(buf: string, v: Json) returns (ok: bool, out: string)
    requires v.Arr?
    ensures ok <==> Encodable(v)
    ensures ok ==> out == buf + Encode(v)
    decreases v, 0, 1
  {
    out := buf + "[";
    for i := 0 to |v.items|
      invariant forall j :: 0 <= j < i ==> Encodable(v.items[j])
      invariant Encodable(v) ==> out + EncodeItems(v, i) == buf + "[" + EncodeItems(v, 0)
    {
      ok, out := AppendItem(out, v, i);
      if !ok { return false, out; }
    }
    assert out + "" == out;
    Wrap(buf, "[", EncodeItems(v, 0), "]");
    ok, out := true, out + "]";
  }

  method AppendFields(buf: string, v: Json) returns (ok: bool, out: string)
    requires v.Obj?
    ensures ok <==> Encodable(v)
    ensures ok ==> out == buf + Encode(v)
    decreases v, 0, 2
  {
    SortedKeysHold(v.fields.Keys);
    var keys := SortKeys(v.fields.Keys);
    ok, out := AppendMembers(buf + "{", v, keys);
    if ok { Wrap(buf, "{", EncodeFields(v, keys, true), "}"); }
    out := out + "}";
  }

  method AppendMembers(buf: string, v: Json, keys: seq<string>) returns (ok: bool, out: string)
    requires v.Obj? && forall k :: k in keys <==> k in v.fields
    ensures ok <==> Encodable(v)
    ensures ok ==> out == buf + EncodeFields(v, keys, true)
    decreases v, 0, 1
  {
    out := buf;
    ghost var all := if Encodable(v) then buf + EncodeFields(v, keys, true) else "";
    for i := 0 to |keys|
      invariant forall j :: 0 <= j < i ==> Encodable(v.fields[keys[j]])
      invariant Encodable(v) ==> out + EncodeFields(v, keys[i..], i == 0) == all
    {
      ghost var rest := keys[i..];
      assert rest[0] == keys[i] && rest[1..] == keys[i + 1..];
      ok, out := AppendField(out, v, keys[i..], i == 0);
      if !ok { return false, out; }
    }
    assert keys[|keys|..] == [] && out + "" == out;
    ok := true;
  }

  method SortKeys(keys: set<string>) returns (r: seq<string>)
    ensures r == SortedKeys(keys)
  {
    r := [];
    var todo := keys;
    while todo != {}
      invariant r + SortedKeys(todo) == SortedKeys(keys)
      decreases todo
    {
      var k := LeastKey(todo);
      LeastUnique(todo, k);
      r := r + [k];
      todo := todo - {k};
    }
  }

  lemma LeastUnique(keys: set<string>, k: string)
    requires IsLeast(k, keys)
    ensures SortedKeys(keys) == [k] + SortedKeys(keys - {k})
  {
    var l := SortedKeys(keys)[0];
    assert IsLeast(l, keys);
    if l != k { BeforeTransitive(k, l, k); NotBeforeSelf(k); }
  }

  lemma {:induction false} NotBeforeSelf(k: string)
    ensures !Before(k, k)
  {
    if k != "" { NotBeforeSelf(k[1..]); }
  }
}
