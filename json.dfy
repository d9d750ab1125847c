/** JavaScript values as the front end handles them: records typed `any`,
    form values, request arguments and request bodies. An object is a map
    from property names to values; a property that is not in the map reads
    as `undefined`. Numbers are integers (every number the front end handles
    is a record id or a millisecond timestamp). */
module Json {
  import opened Options

  datatype Value =
    | Undefined
    | Null
    | Bool(b: bool)
    | Num(n: int)
    | Str(s: string)
    | Arr(items: seq<Value>)
    | Obj(fields: map<string, Value>)

  /** The own properties of an object. */
  type Fields = map<string, Value>

  /** `o.k` on an object. */
  function Get(o: Fields, k: string): Value
  {
    if k in o then o[k] else Undefined
  }

  /** `null` or `undefined`: what `?.` and `??` test for. */
  predicate Nullish(v: Value)
  {
    v == Undefined || v == Null
  }

  /** JavaScript truthiness: what `if (v)`, `v ? a : b`, `||` and
      `filter(Boolean)` test for. */
  predicate Truthy(v: Value)
  {
    match v
    case Undefined => false
    case Null => false
    case Bool(b) => b
    case Num(n) => n != 0
    case Str(s) => s != ""
    case Arr(_) => true
    case Obj(_) => true
  }

  /** `v.k` on any value: reading a property of `null` or `undefined` throws a
      TypeError (None); a primitive or an array has no such own property. */
  function Member(v: Value, k: string): (r: Option<Value>)
    ensures r.None? <==> Nullish(v)
  {
    match v
    case Undefined => None
    case Null => None
    case Obj(f) => Some(Get(f, k))
    case _ => Some(Undefined)
  }

  /** `v?.k`: optional chaining never throws. */
  function OptionalMember(v: Value, k: string): (r: Value)
    ensures Nullish(v) ==> r == Undefined
    ensures v.Obj? ==> r == Get(v.fields, k)
  {
    if Nullish(v) then Undefined else Member(v, k).value
  }

  /** `a ?? b`. */
  function Coalesce(a: Value, b: Value): Value
  {
    if Nullish(a) then b else a
  }

  /** The properties of `o` whose names are in `names`: what a form hands to
      its submit handler when only the fields named `names` are registered. */
  function Restrict(o: Fields, names: set<string>): (r: Fields)
    ensures r.Keys == o.Keys * names
    ensures forall k :: k in r ==> r[k] == o[k]
  {
    map k | k in o.Keys * names :: o[k]
  }

  /** `xs.join(sep)` over strings. */
  function Join(xs: seq<string>, sep: string): string
  {
    if |xs| == 0 then ""
    else if |xs| == 1 then xs[0]
    else xs[0] + sep + Join(xs[1..], sep)
  }

  /** A joined list is empty exactly when it has no element, or one empty
      element: with a non-empty separator two elements never join to "". */
  lemma {:induction false} JoinEmptyIff(xs: seq<string>, sep: string)
    requires sep != ""
    ensures Join(xs, sep) == "" <==> |xs| == 0 || (|xs| == 1 && xs[0] == "")
  {
    if |xs| >= 2 {
      assert |Join(xs, sep)| >= |sep| > 0;
    }
  }

  /** A joined list is as long as its pieces plus one separator between
      each two of them. */
  lemma {:induction false} JoinLength(xs: seq<string>, sep: string)
    requires |xs| > 0
    ensures |Join(xs, sep)| == SumLengths(xs) + (|xs| - 1) * |sep|
  {
    if |xs| > 1 {
      JoinLength(xs[1..], sep);
      assert SumLengths(xs) == |xs[0]| + SumLengths(xs[1..]);
    }
  }

  /** A joined list starts with its first piece. */
  lemma {:induction false} JoinStartsWithFirst(xs: seq<string>, sep: string)
    ensures |xs| > 0 ==> |Join(xs, sep)| >= |xs[0]| && Join(xs, sep)[..|xs[0]|] == xs[0]
  {
    if |xs| > 1 {
      assert Join(xs, sep) == xs[0] + (sep + Join(xs[1..], sep));
    }
  }

  function SumLengths(xs: seq<string>): nat
  {
    if |xs| == 0 then 0 else |xs[0]| + SumLengths(xs[1..])
  }

  function DigitChar(d: nat): (c: char)
    requires d < 10
    ensures '0' <= c <= '9'
  {
    (d + '0' as int) as char
  }

  /** The decimal digits of `n`, most significant first, as `String(n)`
      writes them. */
  function NatToString(n: nat): string
  {
    if n < 10 then [DigitChar(n)] else NatToString(n / 10) + [DigitChar(n % 10)]
  }

  /** `String(n)` for an integer: a minus sign, then the digits. */
  function IntToString(n: int): string
  {
    if n < 0 then "-" + NatToString(-n) else NatToString(n)
  }

  predicate IsDigit(c: char)
  {
    '0' <= c <= '9'
  }

  lemma {:induction false} NatToStringDigits(n: nat)
    ensures |NatToString(n)| > 0
    ensures forall i :: 0 <= i < |NatToString(n)| ==> IsDigit(NatToString(n)[i])
  {
    if n >= 10 {
      NatToStringDigits(n / 10);
    }
  }

  /** The decimal text of an integer is non-empty and holds digits, after an
      optional leading minus sign; so it never holds a '/'. */
  lemma IntToStringShape(n: int)
    ensures |IntToString(n)| > 0
    ensures '/' !in IntToString(n)
    ensures IntToString(n)[0] == '-' <==> n < 0
  {
    if n < 0 {
      NatToStringDigits(-n);
      assert forall i :: 1 <= i < |IntToString(n)| ==> IntToString(n)[i] == NatToString(-n)[i - 1];
    } else {
      NatToStringDigits(n);
    }
  }

  lemma {:induction false} NatToStringInjective(a: nat, b: nat)
    requires NatToString(a) == NatToString(b)
    ensures a == b
  {
    if a < 10 && b < 10 {
      assert NatToString(a)[0] == NatToString(b)[0];
    } else if a < 10 {
      NatToStringDigits(b / 10);
    } else if b < 10 {
      NatToStringDigits(a / 10);
    } else {
      var sa, sb := NatToString(a), NatToString(b);
      assert sa[|sa| - 1] == DigitChar(a % 10);
      assert sb[|sb| - 1] == DigitChar(b % 10);
      assert NatToString(a / 10) == sa[..|sa| - 1];
      assert NatToString(b / 10) == sb[..|sb| - 1];
      NatToStringInjective(a / 10, b / 10);
    }
  }

  /** Different numbers have different decimal texts, so a URL built from an
      id names that id alone. */
  lemma IntToStringInjective(a: int, b: int)
    requires IntToString(a) == IntToString(b)
    ensures a == b
  {
    IntToStringShape(a);
    IntToStringShape(b);
    if a < 0 && b < 0 {
      assert NatToString(-a) == IntToString(a)[1..];
      assert NatToString(-b) == IntToString(b)[1..];
      NatToStringInjective(-a, -b);
    } else if a >= 0 && b >= 0 {
      NatToStringInjective(a, b);
    }
  }

  /** `String(v)`, as a template literal `${v}` or `Array.prototype.join`
      converts a value to text. */
  function Show(v: Value): string
    decreases v, 1
  {
    match v
    case Undefined => "undefined"
    case Null => "null"
    case Bool(b) => if b then "true" else "false"
    case Num(n) => IntToString(n)
    case Str(s) => s
    case Obj(_) => "[object Object]"
    case Arr(items) => Join(seq(|items|, i requires 0 <= i < |items| => JoinText(items[i])), ",")
  }

  /** How `join` writes one element: `null` and `undefined` become "". */
  function JoinText(v: Value): string
    decreases v, 2
  {
    if Nullish(v) then "" else Show(v)
  }
}
