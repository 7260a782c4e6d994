/** The part of Ruby and ActiveSupport that the workflow run record relies on:
    nil-able values, the objects `JSON.parse` produces, `dig`, `[]`, string
    interpolation, `blank?`/`present?`, and the inflections kept abstract. */
module Ruby {

  datatype Option<+T> = None | Some(value: T)

  /** The exceptions that `dig` and `[]` on a parsed payload can raise. */
  datatype Raised = NoMethodError | TypeError

  /** The outcome of a Ruby expression that may raise. */
  datatype Outcome<+T> = Ok(value: T) | Raise(error: Raised)

  /** A Ruby object as `JSON.parse` builds it; `Null` is `nil`.
      Hashes have string keys. */
  datatype Value =
    | Null
    | Bool(b: bool)
    | Num(n: int)
    | Str(s: string)
    | Arr(items: seq<Value>)
    | Obj(fields: map<string, Value>)

  /** One argument of `dig`: a string key or an integer index. */
  datatype Seg = Key(name: string) | Index(i: int)

  /** String operations of ActiveSupport and Ruby whose definitions are not
      part of the model: `String#humanize`, `String#downcase` and the
      `to_s` (`inspect`) of an Array or a Hash. */
  datatype Library = Library(
    humanize: string -> string,
    downcase: string -> string,
    inspect: Value -> string)

  /** `nil` and `false` are the only falsy values. */
  predicate Truthy(v: Value) {
    !(v.Null? || (v.Bool? && !v.b))
  }

  predicate IsContainer(v: Value) {
    v.Obj? || v.Arr?
  }

  /** Characters matched by `[[:space:]]` (the Unicode White_Space property),
      the class ActiveSupport's `String#blank?` tests against. */
  predicate IsSpace(c: char) {
    c == ' ' || ('\t' <= c <= '\r') || c == '\U{0085}' || c == '\U{00A0}' || c == '\U{1680}'
    || ('\U{2000}' <= c <= '\U{200A}') || c == '\U{2028}' || c == '\U{2029}' || c == '\U{202F}'
    || c == '\U{205F}' || c == '\U{3000}'
  }

  /** `blank?` on a string attribute: nil, empty or only white space. */
  predicate Blank(s: Option<string>) {
    s.None? || forall i :: 0 <= i < |s.value| ==> IsSpace(s.value[i])
  }

  predicate Present(s: Option<string>) {
    !Blank(s)
  }

  /** `presence`: the value itself when present, nil otherwise. */
  function Presence(s: Option<string>): (r: Option<string>)
    ensures r.Some? <==> Present(s)
    ensures r.Some? ==> r == s
  {
    if Present(s) then s else None
  }

  /** Interpolation of a string attribute: `"#{nil}"` is the empty string. */
  function OptToS(s: Option<string>): string {
    match s
    case None => ""
    case Some(t) => t
  }

  predicate IsDigit(c: char) {
    '0' <= c <= '9'
  }

  function DigitChar(d: nat): (c: char)
    requires d < 10
    ensures IsDigit(c) && c as int - '0' as int == d
  {
    "0123456789"[d]
  }

  function Digits(n: nat): (r: string)
    ensures |r| > 0
    ensures forall i :: 0 <= i < |r| ==> IsDigit(r[i])
    ensures n >= 10 ==> r[0] != '0'
  {
    if n < 10 then [DigitChar(n)] else Digits(n / 10) + [DigitChar(n % 10)]
  }

  /** The number a string of decimal digits spells, read independently of
      how `Digits` writes it: the last digit is the units. */
  function DigitsValue(s: string): nat
    requires forall i :: 0 <= i < |s| ==> IsDigit(s[i])
    decreases |s|
  {
    if |s| == 0 then 0
    else
      assert IsDigit(s[|s| - 1]);
      DigitsValue(s[..|s| - 1]) * 10 + (s[|s| - 1] as int - '0' as int)
  }

  /** The digits written for `n` read back as `n`. */
  lemma {:induction false} DigitsValueOfDigits(n: nat)
    ensures DigitsValue(Digits(n)) == n
    decreases n
  {
    var d := Digits(n);
    if n >= 10 {
      assert d[..|d| - 1] == Digits(n / 10);
      DigitsValueOfDigits(n / 10);
    } else {
      assert d[..|d| - 1] == [];
    }
  }

  /** `Integer#to_s`: an optional `-` and the decimal digits of the magnitude. */
  function Decimal(n: int): (r: string)
    ensures |r| > 0
    ensures r[0] == '-' <==> n < 0
    ensures forall i :: 0 < i < |r| ==> IsDigit(r[i])
    ensures n < 0 ==> |r| > 1 && DigitsValue(r[1..]) == -n
    ensures n >= 0 ==> (forall i :: 0 <= i < |r| ==> IsDigit(r[i])) && DigitsValue(r) == n
  {
    if n < 0 then
      DigitsValueOfDigits(-n);
      assert ("-" + Digits(-n))[1..] == Digits(-n);
      "-" + Digits(-n)
    else
      DigitsValueOfDigits(n);
      Digits(n)
  }

  /** String interpolation `"#{v}"` of a parsed value. */
  function ToS(v: Value, lib: Library): (r: string)
    ensures v.Null? ==> r == ""
    ensures v.Str? ==> r == v.s
    ensures v.Bool? ==> r == (if v.b then "true" else "false")
    ensures v.Num? ==> |r| > 0 && (r[0] == '-' <==> v.n < 0) && forall i :: 0 < i < |r| ==> IsDigit(r[i])
    ensures v.Num? && v.n < 0 ==> |r| > 1 && DigitsValue(r[1..]) == -v.n
    ensures v.Num? && v.n >= 0 ==> (forall i :: 0 <= i < |r| ==> IsDigit(r[i])) && DigitsValue(r) == v.n
  {
    match v
    case Null => ""
    case Bool(b) => if b then "true" else "false"
    case Num(n) => Decimal(n)
    case Str(s) => s
    case Arr(_) => lib.inspect(v)
    case Obj(_) => lib.inspect(v)
  }

  /** `Array#at`: negative indices count from the end; out of range is nil. */
  function At(a: seq<Value>, i: int): (r: Value)
    ensures 0 <= i < |a| ==> r == a[i]
    ensures -|a| <= i < 0 ==> r == a[|a| + i]
    ensures (i >= |a| || i < -|a|) ==> r == Null
  {
    if 0 <= i < |a| then a[i]
    else if -|a| <= i < 0 then a[|a| + i]
    else Null
  }

  /** One level of `dig` on a Hash or an Array. An integer key misses in a
      hash of string keys; a string index into an array raises TypeError
      ("no implicit conversion of String into Integer"). */
  function Fetch(v: Value, seg: Seg): Outcome<Value>
    requires IsContainer(v)
  {
    if v.Obj? then
      match seg
      case Key(k) => Ok(if k in v.fields then v.fields[k] else Null)
      case Index(_) => Ok(Null)
    else
      match seg
      case Index(i) => Ok(At(v.items, i))
      case Key(_) => Raise(TypeError)
  }

  /** `dig` on a Hash or an Array: it stops at nil, descends into a Hash or an
      Array and raises TypeError ("does not have #dig method") on any other
      intermediate value. */
  function DigFrom(v: Value, path: seq<Seg>): (r: Outcome<Value>)
    requires IsContainer(v) && |path| > 0
    ensures |path| == 1 ==> r == Fetch(v, path[0])
    decreases |path|
  {
    match Fetch(v, path[0])
    case Raise(e) => Raise(e)
    case Ok(w) =>
      if |path| == 1 || w.Null? then Ok(w)
      else if IsContainer(w) then DigFrom(w, path[1..])
      else Raise(TypeError)
  }

  /** `v.dig(*path)`. A receiver that is neither a Hash nor an Array has no
      `dig` method at all. Ruby demands at least one argument. */
  function Dig(v: Value, path: seq<Seg>): (r: Outcome<Value>)
    requires |path| > 0
    ensures !IsContainer(v) ==> r == Raise(NoMethodError)
  {
    if IsContainer(v) then DigFrom(v, path) else Raise(NoMethodError)
  }

  /** Continue a `dig` from the value an earlier `dig` found. */
  function DigMore(o: Outcome<Value>, q: seq<Seg>): Outcome<Value>
    requires |q| > 0
  {
    match o
    case Raise(e) => Raise(e)
    case Ok(w) =>
      if w.Null? then Ok(Null)
      else if IsContainer(w) then DigFrom(w, q)
      else Raise(TypeError)
  }

  /** `v.dig(*p, *q)` is `v.dig(*p)` followed by a dig along `q`, stopping at
      nil: digging a long path is digging its parts one after the other. */
  lemma {:induction false} DigCompose(v: Value, p: seq<Seg>, q: seq<Seg>)
    requires |p| > 0 && |q| > 0
    ensures Dig(v, p + q) == DigMore(Dig(v, p), q)
  {
    if IsContainer(v) {
      DigFromCompose(v, p, q);
    }
  }

  lemma {:induction false} DigFromCompose(v: Value, p: seq<Seg>, q: seq<Seg>)
    requires IsContainer(v) && |p| > 0 && |q| > 0
    ensures DigFrom(v, p + q) == DigMore(DigFrom(v, p), q)
    decreases |p|
  {
    assert (p + q)[0] == p[0];
    if |p| > 1 {
      assert (p + q)[1..] == p[1..] + q;
      match Fetch(v, p[0])
      case Raise(e) =>
      case Ok(w) =>
        if IsContainer(w) {
          DigFromCompose(w, p[1..], q);
        }
    } else {
      assert (p + q)[1..] == q;
    }
  }

  /** Whether `k` occurs in `s` as a contiguous substring. */
  predicate Contains(s: string, k: string)
    decreases |s|
  {
    k <= s || (|s| > 0 && Contains(s[1..], k))
  }

  /** `v[key]` for a string key: a Hash looks the key up, a String returns
      the key when it occurs in it, an Array or an Integer raises TypeError,
      and nil, true and false have no `[]` method. */
  function Bracket(v: Value, key: string): (r: Outcome<Value>)
    ensures v.Obj? ==> r == Ok(if key in v.fields then v.fields[key] else Null)
    ensures (v.Null? || v.Bool?) ==> r == Raise(NoMethodError)
    ensures (v.Arr? || v.Num?) ==> r == Raise(TypeError)
  {
    match v
    case Obj(m) => Ok(if key in m then m[key] else Null)
    case Str(s) => Ok(if Contains(s, key) then Str(key) else Null)
    case Arr(_) => Raise(TypeError)
    case Num(_) => Raise(TypeError)
    case Null => Raise(NoMethodError)
    case Bool(_) => Raise(NoMethodError)
  }
}
