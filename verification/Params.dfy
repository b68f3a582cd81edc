/** JSON trees, as far as the drivers look into them. */
module Json {
  import opened Wrappers

  datatype Json =
    | Null
    | Bool(b: bool)
    | Num(text: string)
    | Str(s: string)
    | Arr(items: seq<Json>)
    | Obj(fields: seq<Field>)

  datatype Field = Field(key: string, value: Json)

  /** The value under a key; keys of an object are distinct. */
  function Lookup(fields: seq<Field>, key: string): Option<Json>
  {
    if fields == [] then None
    else if fields[0].key == key then Some(fields[0].value)
    else Lookup(fields[1..], key)
  }

  lemma {:induction false} LookupFinds(fields: seq<Field>, key: string, i: nat)
    requires i < |fields| && fields[i].key == key && forall k :: 0 <= k < i ==> fields[k].key != key
    ensures Lookup(fields, key) == Some(fields[i].value)
  {
    if i > 0 {
      LookupFinds(fields[1..], key, i - 1);
    }
  }

  lemma {:induction false} LookupMisses(fields: seq<Field>, key: string)
    requires forall k :: 0 <= k < |fields| ==> fields[k].key != key
    ensures Lookup(fields, key) == None
  {
    if fields != [] {
      LookupMisses(fields[1..], key);
    }
  }

  /** `get(key)` followed by `as_str()`: None unless a string is there. */
  function GetStr(j: Json, key: string): Option<string>
  {
    if j.Obj? then
      match Lookup(j.fields, key)
      case Some(Str(s)) => Some(s)
      case _ => None
    else None
  }
}

/** Parameter classes (daimon-driver param.rs). */
module Params {
  import opened Wrappers
  import opened Text

  datatype ParamClass = SafeText | Cidr | Identifier | Int | Enum(members: seq<string>)

  datatype ParamError =
    | Empty
    | DisallowedChar(ch: char, class_: ParamClass, value: string)
    | Malformed(value: string, class_: ParamClass)
    | NotInEnum(value: string, allowed: seq<string>)

  predicate IsDigit(c: char) { '0' <= c <= '9' }

  predicate IsAlnum(c: char) { IsDigit(c) || 'a' <= c <= 'z' || 'A' <= c <= 'Z' }

  /** The characters a value of the class may be made of. */
  predicate Allowed(class_: ParamClass, c: char)
  {
    match class_
    case SafeText => IsAlnum(c) || c in {' ', '.', '/', '-', '_', ':', '!', '@'}
    case Cidr => IsDigit(c) || 'a' <= c <= 'f' || 'A' <= c <= 'F' || c in {'.', ':', '/'}
    case Identifier => IsAlnum(c) || c == '_' || c == '-'
    case Int => IsDigit(c) || c == '+' || c == '-'
    case Enum(_) => true
  }

  function DigitsValue(s: string): nat
  {
    if s == "" then 0
    else
      var d := s[|s| - 1];
      10 * DigitsValue(s[..|s| - 1]) + (if IsDigit(d) then d as int - '0' as int else 0)
  }

  predicate AllDigits(s: string)
  {
    s != "" && forall i :: 0 <= i < |s| ==> IsDigit(s[i])
  }

  /** What `parse::<i64>` accepts: an optional sign, digits, in range. */
  predicate ParsesAsI64(s: string)
  {
    if s == "" then false
    else
      var digits := if s[0] == '-' || s[0] == '+' then s[1..] else s;
      && AllDigits(digits)
      && (if s[0] == '-' then DigitsValue(digits) <= 0x8000_0000_0000_0000
          else DigitsValue(digits) < 0x8000_0000_0000_0000)
  }

  /** The first character outside the class, if any. */
  function FirstDisallowed(class_: ParamClass, s: string): (r: Option<char>)
    ensures r.None? <==> AllAllowed(class_, s)
  {
    if s == "" then None
    else if !Allowed(class_, s[0]) then Some(s[0])
    else
      assert forall i :: 0 < i < |s| ==> s[i] == s[1..][i - 1];
      FirstDisallowed(class_, s[1..])
  }

  lemma {:induction false} FirstDisallowedIs(class_: ParamClass, s: string)
    requires FirstDisallowed(class_, s).Some?
    ensures FirstBad(class_, s, FirstDisallowed(class_, s).value)
  {
    if Allowed(class_, s[0]) {
      FirstDisallowedIs(class_, s[1..]);
      FirstBadCons(class_, s, FirstDisallowed(class_, s[1..]).value);
    } else {
      assert AllAllowed(class_, s[..0]);
    }
  }

  lemma FirstBadCons(class_: ParamClass, s: string, ch: char)
    requires s != "" && Allowed(class_, s[0]) && FirstBad(class_, s[1..], ch)
    ensures FirstBad(class_, s, ch)
  {
    var t := s[1..];
    var i :| 0 <= i < |t| && t[i] == ch && !Allowed(class_, ch) && AllAllowed(class_, t[..i]);
    assert s[i + 1] == ch && s[..i + 1] == [s[0]] + t[..i];
    assert AllAllowed(class_, s[..i + 1]);
  }

  /** An address and, behind the first slash, a prefix length up to 128. */
  predicate CidrShape(s: string)
  {
    var k := Find(s, '/');
    k > 0 && (k < |s| ==> AllDigits(s[k + 1..]) && DigitsValue(s[k + 1..]) <= 128)
  }

  predicate AllAllowed(class_: ParamClass, value: string)
  {
    forall i :: 0 <= i < |value| ==> Allowed(class_, value[i])
  }

  /** Which values a class is meant to admit. */
  predicate Admits(class_: ParamClass, value: string)
  {
    match class_
    case SafeText => value != "" && AllAllowed(class_, value)
    case Identifier => value != "" && AllAllowed(class_, value)
    case Cidr => value != "" && AllAllowed(class_, value) && CidrShape(value)
    case Int => ParsesAsI64(value)
    case Enum(members) => value in members
  }

  /** `ch` is the first character of the value outside the class. */
  predicate FirstBad(class_: ParamClass, value: string, ch: char)
  {
    exists i :: 0 <= i < |value| && value[i] == ch && !Allowed(class_, ch) && AllAllowed(class_, value[..i])
  }

  /** Accepts exactly what the class admits; otherwise says what is wrong first. */
  function Validate(value: string, class_: ParamClass): (r: Result<(), ParamError>)
    ensures r.Ok? <==> Admits(class_, value)
    ensures r == Err(Empty) <==> value == "" && !class_.Int? && !class_.Enum?
    ensures r.Err? && r.error.DisallowedChar? <==>
              !class_.Int? && !class_.Enum? && value != "" && !AllAllowed(class_, value)
    ensures r.Err? && r.error.DisallowedChar? ==> r.error.class_ == class_ && r.error.value == value
  {
    match class_
    case Enum(members) => if value in members then Ok(()) else Err(NotInEnum(value, members))
    case Int => if ParsesAsI64(value) then Ok(()) else Err(Malformed(value, class_))
    case _ =>
      if value == "" then Err(Empty)
      else
        var bad := FirstDisallowed(class_, value);
        if bad.Some? then Err(DisallowedChar(bad.value, class_, value))
        else if class_ == Cidr && !CidrShape(value) then Err(Malformed(value, class_))
        else Ok(())
  }

  /** The reported character is the first one outside the class. */
  lemma ReportsFirst(value: string, class_: ParamClass)
    requires Validate(value, class_).Err? && Validate(value, class_).error.DisallowedChar?
    ensures FirstBad(class_, value, Validate(value, class_).error.ch)
  {
    FirstDisallowedIs(class_, value);
  }

  /** An integer is made of digits and a sign. */
  lemma IntCharacters(value: string)
    requires ParsesAsI64(value)
    ensures value != "" && AllAllowed(Int, value)
  {
    assert forall i :: 0 < i < |value| ==> value[i] == value[1..][i - 1];
  }

  /** The characters of each class, one by one. */
  lemma AllowedCharacters(c: char)
    ensures Allowed(Identifier, c) <==>
            '0' <= c <= '9' || 'a' <= c <= 'z' || 'A' <= c <= 'Z' || c == '_' || c == '-'
    ensures Allowed(SafeText, c) <==>
            || '0' <= c <= '9' || 'a' <= c <= 'z' || 'A' <= c <= 'Z' || c == '_' || c == '-'
            || c == ' ' || c == '.' || c == '/' || c == ':' || c == '!' || c == '@'
    ensures Allowed(Cidr, c) <==>
            '0' <= c <= '9' || 'a' <= c <= 'f' || 'A' <= c <= 'F' || c == '.' || c == ':' || c == '/'
  {
  }

  /** An address alone, or in front of a slash and a prefix length. */
  lemma CidrShapeIs(address: string, length: string)
    requires '/' !in address
    ensures CidrShape(address) <==> address != ""
    ensures CidrShape(address + ['/'] + length) <==>
            address != "" && AllDigits(length) && DigitsValue(length) <= 128
  {
    FindAt(address, '/', length);
    var s := address + ['/'] + length;
    assert s[|address| + 1..] == length;
  }

  /** The decimal digits of a number. */
  function Decimal(n: nat): (s: string)
    ensures AllDigits(s)
  {
    var d := ((n % 10) + '0' as int) as char;
    if n < 10 then [d] else Decimal(n / 10) + [d]
  }

  lemma {:induction false} DecimalValue(n: nat)
    ensures DigitsValue(Decimal(n)) == n
  {
    var s := Decimal(n);
    if n < 10 {
      assert s[..|s| - 1] == "";
    } else {
      DecimalValue(n / 10);
      assert s[..|s| - 1] == Decimal(n / 10);
    }
  }

  /** An integer's own text is accepted exactly when the integer fits 64 bits, also with
      a plus sign. */
  lemma IntAcceptedIff(n: nat)
    ensures Validate(Decimal(n), Int).Ok? <==> n < 0x8000_0000_0000_0000
    ensures Validate("+" + Decimal(n), Int).Ok? <==> n < 0x8000_0000_0000_0000
    ensures Validate("-" + Decimal(n), Int).Ok? <==> n <= 0x8000_0000_0000_0000
  {
    DecimalValue(n);
    var s := Decimal(n);
    assert ("+" + s)[1..] == s && ("-" + s)[1..] == s;
  }

  /** Nothing but digits behind an optional sign is accepted as an integer. */
  lemma IntIsDigits(value: string)
    requires Validate(value, Int).Ok?
    ensures AllDigits(value) || ((value[0] == '-' || value[0] == '+') && AllDigits(value[1..]))
  {
  }

  /** Which separators a validated value cannot contain. */
  lemma ClassExcludes(value: string, class_: ParamClass)
    requires Validate(value, class_).Ok? && !class_.Enum?
    ensures value != "" && '{' !in value && '}' !in value && '"' !in value && ']' !in value
    ensures ';' !in value && '\n' !in value
    ensures class_ != SafeText ==> ' ' !in value
    ensures class_ == Identifier || class_ == Int ==> '/' !in value && '.' !in value
  {
    if class_ == Int {
      IntCharacters(value);
    }
  }
}
