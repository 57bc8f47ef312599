/**
 A strict reader of JSON text as RFC 8259 defines it, without white space, with every
 character written in its one canonical way and the names of an object in ascending
 order. The canonical text of a value reads back as that value.
 */
module JsonReader {
  import opened Common
  import opened Decimals
  import opened Canonical

  datatype Reading<T> = Read(value: T, rest: string) | Fail

  // ---- strings (section 7 of RFC 8259) ---------------------------------------------------

  function HexValue(c: char): Option<nat> {
    if '0' <= c <= '9' then Some(c as nat - '0' as nat)
    else if 'a' <= c <= 'f' then Some(c as nat - 'a' as nat + 10)
    else None
  }

  /** The control characters with an escape of their own: backspace, tab, line feed, form feed, carriage return. */
  const Named: map<char, char> := map['b' := 8 as char, 't' := 9 as char, 'n' := 10 as char, 'f' := 12 as char,
                                      'r' := 13 as char]

  /** The character that begins the text inside a string. */
  function ReadChar(s: string): (r: Reading<char>)
    ensures r.Read? ==> |r.rest| < |s|
  {
    if s == "" || s[0] == '\"' || s[0] as nat < 32 then Fail
    else if s[0] != '\\' then Read(s[0], s[1..])
    else if |s| < 2 then Fail
    else if s[1] == '\"' || s[1] == '\\' then Read(s[1], s[2..])
    else if s[1] in Named then Read(Named[s[1]], s[2..])
    else if |s| < 6 || s[..4] != "\\u00" || HexValue(s[4]).None? || HexValue(s[5]).None? then Fail
    else
      var code := 16 * HexValue(s[4]).value + HexValue(s[5]).value;
      if code < 32 && code as char !in Named.Values then Read(code as char, s[6..]) else Fail
  }

  /** What follows the opening quote, up to the closing one. */
  function ReadString(s: string): (r: Reading<string>)
    ensures r.Read? ==> |r.rest| < |s|
    decreases |s|
  {
    if s != "" && s[0] == '\"' then Read("", s[1..])
    else
      match ReadChar(s)
      case Fail => Fail
      case Read(c, rest) =>
        match ReadString(rest)
        case Fail => Fail
        case Read(cs, end) => Read([c] + cs, end)
  }

  lemma HexReadBack(n: nat)
    requires n < 16
    ensures HexValue(Hex(n)) == Some(n)
  {
  }

  lemma CharReadBack(c: char, rest: string)
    ensures ReadChar(Escape(c) + rest) == Read(c, rest)
  {
    var s := Escape(c) + rest;
    assert s[|Escape(c)|..] == rest;
    forall i | 0 <= i < |Escape(c)| ensures s[i] == Escape(c)[i] { }
    if c as nat < 32 {
      HexReadBack(c as nat / 16);
      HexReadBack(c as nat % 16);
      if |Escape(c)| == 6 { assert s[..4] == Escape(c)[..4] == "\\u00"; }
    }
  }

  lemma {:induction false} StringReadBack(cs: string, rest: string)
    ensures ReadString(Escaped(cs) + "\"" + rest) == Read(cs, rest)
  {
    if cs == "" {
      assert Escaped(cs) + "\"" + rest == ['\"'] + rest;
    } else {
      EscapedOpens(cs, rest);
      CharReadBack(cs[0], Escaped(cs[1..]) + "\"" + rest);
      StringReadBack(cs[1..], rest);
      assert [cs[0]] + cs[1..] == cs;
    }
  }

  // ---- integers -------------------------------------------------------------------------

  lemma LeadDigits(s: string)
    ensures Lead(s) <= |s| && forall c :: c in s[..Lead(s)] ==> IsDigit(c)
  {
    if s != "" && IsDigit(s[0]) {
      LeadDigits(s[1..]);
      assert s[..Lead(s)] == [s[0]] + s[1..][..Lead(s[1..])];
    }
  }

  /** Digits without a leading zero, but for zero itself. */
  function ReadNat(s: string): (r: Reading<nat>)
    ensures r.Read? ==> |r.rest| < |s|
  {
    LeadDigits(s);
    var n := Lead(s);
    if n == 0 || (n > 1 && s[0] == '0') then Fail else Read(Value(s[..n]), s[n..])
  }

  function ReadInt(s: string): (r: Reading<int>)
    ensures r.Read? ==> |r.rest| < |s|
  {
    if s != "" && s[0] == '-' then
      match ReadNat(s[1..])
      case Fail => Fail
      case Read(n, rest) =>
        var m: int := 0 - n;
        if m == 0 then Fail else Read(m, rest)
    else
      match ReadNat(s)
      case Fail => Fail
      case Read(n, rest) =>
        var m: int := n;
        Read(m, rest)
  }

  lemma {:induction false} NoLeadingZero(n: nat)
    requires n > 0
    ensures Decimal(n) != "" && Decimal(n)[0] != '0'
  {
    if n >= 10 {
      NoLeadingZero(n / 10);
      assert Decimal(n)[0] == Decimal(n / 10)[0];
    }
  }

  lemma NatReadBack(n: nat, rest: string)
    requires Ends(rest)
    ensures ReadNat(Decimal(n) + rest) == Read(n, rest)
  {
    DecimalDigits(n);
    LeadIs(Decimal(n), rest);
    var s := Decimal(n) + rest;
    assert s[..|Decimal(n)|] == Decimal(n) && s[|Decimal(n)|..] == rest && s[0] == Decimal(n)[0];
    if n > 0 { NoLeadingZero(n); }
  }

  lemma NegativeReadBack(n: nat, rest: string)
    requires Ends(rest) && n > 0
    ensures ReadInt(['-'] + (Decimal(n) + rest)) == Read(0 - n, rest)
  {
    NatReadBack(n, rest);
    var s := ['-'] + (Decimal(n) + rest);
    assert s[0] == '-' && s[1..] == Decimal(n) + rest;
  }

  lemma PositiveReadBack(n: nat, rest: string)
    requires Ends(rest)
    ensures ReadInt(Decimal(n) + rest) == Read(n, rest)
  {
    NatReadBack(n, rest);
    DecimalDigits(n);
    assert (Decimal(n) + rest)[0] == Decimal(n)[0] && Decimal(n)[0] in Decimal(n);
  }

  lemma IntReadBack(n: int, rest: string)
    requires Ends(rest)
    ensures ReadInt(Signed(n) + rest) == Read(n, rest)
  {
    if n < 0 {
      NegativeReadBack(-n, rest);
      Glue("-", Decimal(-n), rest);
    } else {
      PositiveReadBack(n, rest);
    }
  }

  // ---- values ---------------------------------------------------------------------------

  predicate Opens(s: string, word: string) { |word| <= |s| && s[..|word|] == word }

  /** `a` comes before `b`: it is a prefix of it, or smaller where they first differ. */
  predicate Ascends(a: string, b: string) {
    exists i :: 0 <= i <= |a| && i < |b| && a[..i] == b[..i] && (i == |a| || a[i] < b[i])
  }

  predicate Begins(s: string, c: char) { s != "" && s[0] == c }

  function ReadWord(s: string): (r: Reading<Json>)
    ensures r.Read? ==> |r.rest| < |s|
  {
    if Opens(s, "null") then Read(Null, s[4..])
    else if Opens(s, "true") then Read(Bool(true), s[4..])
    else if Opens(s, "false") then Read(Bool(false), s[5..])
    else Fail
  }

  function ReadValue(s: string): (r: Reading<Json>)
    ensures r.Read? ==> |r.rest| < |s|
    decreases |s|, 2
  {
    if Begins(s, '\"') then
      match ReadString(s[1..])
      case Fail => Fail
      case Read(cs, rest) => Read(Str(Utf8(cs)), rest)
    else if Begins(s, '[') then
      if Begins(s[1..], ']') then Read(Arr([]), s[2..])
      else
        match ReadItems(s[1..])
        case Fail => Fail
        case Read(items, rest) => Read(Arr(items), rest)
    else if Begins(s, '{') then
      if Begins(s[1..], '}') then Read(Obj(map[]), s[2..])
      else
        match ReadFields(s[1..], None)
        case Fail => Fail
        case Read(fields, rest) => Read(Obj(fields), rest)
    else if s != "" && (s[0] == '-' || IsDigit(s[0])) then
      match ReadInt(s)
      case Fail => Fail
      case Read(n, rest) => Read(Int(n), rest)
    else ReadWord(s)
  }

  /** One value after another, up to the closing bracket. */
  function ReadItems(s: string): (r: Reading<seq<Json>>)
    ensures r.Read? ==> |r.rest| < |s|
    decreases |s|, 3
  {
    match ReadValue(s)
    case Fail => Fail
    case Read(v, rest) =>
      if Begins(rest, ']') then Read([v], rest[1..])
      else if !Begins(rest, ',') then Fail
      else
        match ReadItems(rest[1..])
        case Fail => Fail
        case Read(vs, end) => Read([v] + vs, end)
  }

  /** One name after another, each after the `last`, with its value, up to the closing brace. */
  function ReadFields(s: string, last: Option<string>): (r: Reading<map<string, Json>>)
    ensures r.Read? ==> |r.rest| < |s|
    decreases |s|, 3
  {
    if !Begins(s, '\"') then Fail
    else
      match ReadString(s[1..])
      case Fail => Fail
      case Read(key, named) =>
        if !Begins(named, ':') || (last.Some? && !Ascends(last.value, key)) then Fail
        else
          match ReadValue(named[1..])
          case Fail => Fail
          case Read(v, rest) =>
            if Begins(rest, '}') then Read(map[key := v], rest[1..])
            else if !Begins(rest, ',') then Fail
            else
              match ReadFields(rest[1..], Some(key))
              case Fail => Fail
              case Read(fields, end) => Read(fields[key := v], end)
  }

  lemma {:induction false} BeforeAscends(a: string, b: string)
    requires Before(a, b)
    ensures Ascends(a, b)
  {
    if a == "" || a[0] < b[0] {
      assert a[..0] == b[..0];
    } else {
      BeforeAscends(a[1..], b[1..]);
      var i :| 0 <= i <= |a[1..]| && i < |b[1..]| && a[1..][..i] == b[1..][..i]
               && (i == |a[1..]| || a[1..][i] < b[1..][i]);
      assert a[..i + 1] == [a[0]] + a[1..][..i] && b[..i + 1] == [b[0]] + b[1..][..i];
    }
  }

  lemma WordReadBack(word: string, rest: string)
    requires word in {"null", "true", "false"}
    ensures ReadValue(word + rest)
         == Read(if word == "null" then Null else Bool(word == "true"), rest)
  {
    var s := word + rest;
    assert s[0] == word[0] && s[..|word|] == word && s[|word|..] == rest;
    assert s[0] in {'n', 't', 'f'};
  }

  lemma NumberReadBack(n: int, rest: string)
    requires Ends(rest)
    ensures ReadValue(Signed(n) + rest) == Read(Int(n), rest)
  {
    SignOf(n);
    IntReadBack(n, rest);
    assert (Signed(n) + rest)[0] == Signed(n)[0];
  }

  lemma TextReadBack(cs: string, rest: string)
    ensures ReadValue(Quoted(cs) + rest) == Read(Str(Utf8(cs)), rest)
  {
    StringReadBack(cs, rest);
    assert (Quoted(cs) + rest)[1..] == Escaped(cs) + "\"" + rest;
  }

  /** Canonical text reads back as the value it was written for, whatever separator follows. */
  lemma {:induction false} ReadBack(v: Json, rest: string)
    requires Encodable(v) && Ends(rest)
    ensures ReadValue(Encode(v) + rest) == Read(v, rest)
    decreases v, 1, 0
  {
    match v
    case Null => WordReadBack("null", rest);
    case Bool(on) => WordReadBack(if on then "true" else "false", rest);
    case Int(n) => NumberReadBack(n, rest);
    case Str(text) => TextReadBack(text.chars, rest);
    case Arr(items) => ArrayReadBack(v, rest);
    case Obj(fields) => ObjectReadBack(v, rest);
  }

  /** The items from place `i` on, without the comma before them, and what follows the array's text. */
  ghost function ItemsText(v: Json, i: nat, rest: string): string
    requires v.Arr? && Encodable(v) && i < |v.items|
  {
    Encode(v.items[i]) + (EncodeItems(v, i + 1) + "]" + rest)
  }

  lemma LastItem(s: string, v: Json, rest: string)
    requires ReadValue(s) == Read(v, [']'] + rest)
    ensures ReadItems(s) == Read([v], rest)
  {
    assert ([']'] + rest)[1..] == rest;
  }

  lemma NextItem(s: string, v: Json, t: string, vs: seq<Json>, rest: string)
    requires ReadValue(s) == Read(v, [','] + t) && ReadItems(t) == Read(vs, rest)
    ensures ReadItems(s) == Read([v] + vs, rest)
  {
    assert ([','] + t)[1..] == t;
  }

  lemma ReadsArray(t: string, vs: seq<Json>, rest: string)
    requires !Begins(t, ']') && ReadItems(t) == Read(vs, rest)
    ensures ReadValue(['['] + t) == Read(Arr(vs), rest)
  {
    assert (['['] + t)[1..] == t;
  }

  lemma ReadsEmpty(rest: string)
    ensures ReadValue(['['] + ([']'] + rest)) == Read(Arr([]), rest)
    ensures ReadValue(['{'] + (['}'] + rest)) == Read(Obj(map[]), rest)
  {
    var s, t := ['['] + ([']'] + rest), ['{'] + (['}'] + rest);
    assert s[1..] == [']'] + rest && s[2..] == rest && t[1..] == ['}'] + rest && t[2..] == rest;
  }

  lemma ArrayReadBack(v: Json, rest: string)
    requires v.Arr? && Encodable(v) && Ends(rest)
    ensures ReadValue(Encode(v) + rest) == Read(v, rest)
    decreases v, 0, |v.items| + 1
  {
    var t := EncodeItems(v, 0) + "]" + rest;
    assert Encode(v) + rest == ['['] + t;
    if v.items == [] {
      assert t == [']'] + rest;
      ReadsEmpty(rest);
    } else {
      ItemsSplit(v, 0, rest);
      ItemsReadBack(v, 0, rest);
      assert t == "" + ItemsText(v, 0, rest) == ItemsText(v, 0, rest);
      ReadsArray(t, v.items[0..], rest);
      assert v.items[0..] == v.items;
    }
  }

  lemma {:induction false} ItemsReadBack(v: Json, i: nat, rest: string)
    requires v.Arr? && Encodable(v) && i < |v.items|
    ensures ReadItems(ItemsText(v, i, rest)) == Read(v.items[i..], rest)
    decreases v, 0, |v.items| - i
  {
    var tail := EncodeItems(v, i + 1) + "]" + rest;
    ItemsSplit(v, i, rest);
    ReadBack(v.items[i], tail);
    if i + 1 == |v.items| {
      assert tail == [']'] + rest;
      LastItem(ItemsText(v, i, rest), v.items[i], rest);
      assert v.items[i..] == [v.items[i]];
    } else {
      ItemsSplit(v, i + 1, rest);
      ItemsReadBack(v, i + 1, rest);
      assert tail == [','] + ItemsText(v, i + 1, rest);
      NextItem(ItemsText(v, i, rest), v.items[i], ItemsText(v, i + 1, rest), v.items[i + 1..], rest);
      assert v.items[i..] == [v.items[i]] + v.items[i + 1..];
    }
  }

  ghost function FieldsText(v: Json, ks: seq<string>, rest: string): string
    requires v.Obj? && Encodable(v) && ks != [] && forall k :: k in ks ==> k in v.fields
  {
    Quoted(ks[0]) + ([':'] + (Encode(v.fields[ks[0]]) + (EncodeFields(v, ks[1..], false) + "}" + rest)))
  }

  lemma LastField(key: string, text: string, last: Option<string>, v: Json, rest: string)
    requires ReadValue(text) == Read(v, ['}'] + rest) && (last.Some? ==> Ascends(last.value, key))
    ensures ReadFields(Quoted(key) + ([':'] + text), last) == Read(map[key := v], rest)
  {
    NameReadBack(key, text);
    assert ([':'] + text)[1..] == text && (['}'] + rest)[1..] == rest;
  }

  lemma NextField(key: string, text: string, last: Option<string>, v: Json, t: string, fields: map<string, Json>,
                  rest: string)
    requires ReadValue(text) == Read(v, [','] + t) && (last.Some? ==> Ascends(last.value, key))
    requires ReadFields(t, Some(key)) == Read(fields, rest)
    ensures ReadFields(Quoted(key) + ([':'] + text), last) == Read(fields[key := v], rest)
  {
    NameReadBack(key, text);
    assert ([':'] + text)[1..] == text && ([','] + t)[1..] == t;
  }

  lemma ReadsObject(t: string, fields: map<string, Json>, rest: string)
    requires !Begins(t, '}') && ReadFields(t, None) == Read(fields, rest)
    ensures ReadValue(['{'] + t) == Read(Obj(fields), rest)
  {
    assert (['{'] + t)[1..] == t;
  }

  lemma ObjectReadBack(v: Json, rest: string)
    requires v.Obj? && Encodable(v)
    ensures ReadValue(Encode(v) + rest) == Read(v, rest)
    decreases v, 0, |SortedKeys(v.fields.Keys)| + 1
  {
    var ks := SortedKeys(v.fields.Keys);
    ObjectText(v, rest);
    SortedKeysHold(v.fields.Keys);
    var t := EncodeFields(v, ks, true) + "}" + rest;
    if ks == [] {
      assert v.fields.Keys == {};
      FieldsEnd(v, ks, true, rest);
      ReadsEmpty(rest);
    } else {
      FieldsSplit(v, ks, true, rest);
      assert t == "" + FieldsText(v, ks, rest) == FieldsText(v, ks, rest);
      FieldsReadBack(v, ks, None, rest);
      ReadsObject(t, FieldsOf(v, ks), rest);
      assert FieldsOf(v, ks) == v.fields;
    }
  }

  /** The name and the colon are read, and what follows is the value. */
  lemma NameReadBack(key: string, tail: string)
    ensures var s := Quoted(key) + ([':'] + tail);
            Begins(s, '\"') && ReadString(s[1..]) == Read(key, [':'] + tail)
  {
    StringReadBack(key, [':'] + tail);
    assert (Quoted(key) + ([':'] + tail))[1..] == Escaped(key) + "\"" + ([':'] + tail);
  }

  function FieldsOf(v: Json, ks: seq<string>): map<string, Json>
    requires v.Obj?
  {
    map k | k in ks && k in v.fields :: v.fields[k]
  }

  lemma FieldsOfCons(v: Json, ks: seq<string>)
    requires v.Obj? && ks != [] && ks[0] in v.fields
    ensures FieldsOf(v, ks) == FieldsOf(v, ks[1..])[ks[0] := v.fields[ks[0]]]
    ensures |ks| == 1 ==> FieldsOf(v, ks) == map[ks[0] := v.fields[ks[0]]]
  {
    assert ks == [ks[0]] + ks[1..];
  }

  lemma {:induction false} FieldsReadBack(v: Json, ks: seq<string>, last: Option<string>, rest: string)
    requires v.Obj? && Encodable(v) && ks != [] && (forall k :: k in ks ==> k in v.fields) && Sorted(ks)
    requires last.Some? ==> Before(last.value, ks[0])
    ensures ReadFields(FieldsText(v, ks, rest), last) == Read(FieldsOf(v, ks), rest)
    decreases v, 0, |ks|
  {
    var value, more := v.fields[ks[0]], EncodeFields(v, ks[1..], false) + "}" + rest;
    FieldsSplit(v, ks, true, rest);
    if last.Some? { BeforeAscends(last.value, ks[0]); }
    ReadBack(value, more);
    FieldsOfCons(v, ks);
    if |ks| == 1 {
      FieldsEnd(v, ks[1..], false, rest);
      LastField(ks[0], Encode(value) + more, last, value, rest);
    } else {
      FieldsSplit(v, ks[1..], false, rest);
      FieldsReadBack(v, ks[1..], Some(ks[0]), rest);
      assert more == [','] + FieldsText(v, ks[1..], rest);
      NextField(ks[0], Encode(value) + more, last, value, FieldsText(v, ks[1..], rest), FieldsOf(v, ks[1..]), rest);
    }
  }

  /** The whole text of a value reads back as the value, and nothing is left. */
  lemma TextReadsBack(v: Json)
    requires Encodable(v)
    ensures ReadValue(Encode(v)) == Read(v, "")
  {
    assert Encode(v) + "" == Encode(v);
    ReadBack(v, "");
  }
}
