/** The fragment of JSON that the game puts on the wire: flat arrays whose
    elements are integers or strings of printable ASCII characters other
    than the quote and the backslash, which Python's `json.dumps` prints
    without escapes (elements separated by ", "). `Show` is the printer,
    `Parse` the reader of unescaped strings; `ParseShow` is the round trip. */
module Json {

  datatype Option<+T> = None | Some(value: T)

  datatype Value = Num(n: int) | Str(s: string)

  predicate IsDigit(c: char) { '0' <= c <= '9' }

  function DigitChar(d: nat): (c: char)
    requires d < 10
    ensures IsDigit(c) && DigitValue(c) == d
  {
    ('0' as int + d) as char
  }

  function DigitValue(c: char): nat
    requires IsDigit(c)
  {
    c as int - '0' as int
  }

  predicate AllDigits(s: string) { forall i :: 0 <= i < |s| ==> IsDigit(s[i]) }

  /** Decimal value of a digit string, most significant digit first. */
  function DigitsValue(ds: string): nat
    requires AllDigits(ds)
  {
    if |ds| == 0 then 0 else DigitsValue(ds[..|ds| - 1]) * 10 + DigitValue(ds[|ds| - 1])
  }

  /** Decimal numeral of a natural number, as Python's `str` writes it. */
  function ShowNat(n: nat): (s: string)
    ensures |s| > 0 && AllDigits(s)
    ensures DigitsValue(s) == n
    ensures |s| > 1 ==> s[0] != '0'
  {
    if n < 10 then [DigitChar(n)]
    else
      var s := ShowNat(n / 10) + [DigitChar(n % 10)];
      assert s[..|s| - 1] == ShowNat(n / 10);
      s
  }

  function ShowInt(i: int): (s: string)
    ensures |s| > 0
  {
    if i < 0 then "-" + ShowNat(-i) else ShowNat(i)
  }

  /** A character `json.dumps` writes as itself: printable ASCII, not a quote, not a backslash
      (control characters and, by default, every non-ASCII character are escaped). */
  predicate PlainChar(c: char) { ' ' <= c <= '~' && c != '"' && c != '\\' }

  /** A character `json.loads` takes as itself inside a string: anything but a
      control character, a quote or a backslash. */
  predicate LiteralChar(c: char) { c >= ' ' && c != '"' && c != '\\' }

  /** A string element the printer writes without escapes. */
  predicate PlainString(s: string) { forall i :: 0 <= i < |s| ==> PlainChar(s[i]) }

  predicate LiteralString(s: string) { forall i :: 0 <= i < |s| ==> LiteralChar(s[i]) }

  predicate Printable(v: Value) { v.Str? ==> PlainString(v.s) }

  function ShowValue(v: Value): string
  {
    match v
    case Num(n) => ShowInt(n)
    case Str(s) => "\"" + s + "\""
  }

  /** The elements of an array, separated by ", ". */
  function ShowItems(vs: seq<Value>): string
  {
    if |vs| == 0 then ""
    else if |vs| == 1 then ShowValue(vs[0])
    else ShowValue(vs[0]) + ", " + ShowItems(vs[1..])
  }

  function Show(vs: seq<Value>): string
  {
    "[" + ShowItems(vs) + "]"
  }

  /** Length of the longest prefix of `s` made of digits. */
  function DigitRun(s: string): (k: nat)
    ensures k <= |s| && AllDigits(s[..k])
    ensures k < |s| ==> !IsDigit(s[k])
  {
    if |s| > 0 && IsDigit(s[0]) then
      var k := 1 + DigitRun(s[1..]);
      assert s[..k] == [s[0]] + s[1..][..k - 1];
      k
    else 0
  }

  /** Reads a natural number at the front of `s`; JSON refuses leading zeros. */
  function ParseNat(s: string): (r: Option<(nat, string)>)
    ensures r.Some? ==> |r.value.1| < |s|
  {
    var k := DigitRun(s);
    if k == 0 || (k > 1 && s[0] == '0') then None
    else Some((DigitsValue(s[..k]), s[k..]))
  }

  function ParseInt(s: string): (r: Option<(int, string)>)
    ensures r.Some? ==> |r.value.1| < |s|
  {
    if |s| > 0 && s[0] == '-' then
      match ParseNat(s[1..])
      case None => None
      case Some((n, rest)) => Some((-(n as int), rest))
    else
      match ParseNat(s)
      case None => None
      case Some((n, rest)) => Some((n, rest))
  }

  /** Length of the longest prefix of `s` that a string takes literally. */
  function LiteralRun(s: string): (k: nat)
    ensures k <= |s| && LiteralString(s[..k])
    ensures k < |s| ==> !LiteralChar(s[k])
  {
    if |s| > 0 && LiteralChar(s[0]) then
      var k := 1 + LiteralRun(s[1..]);
      assert s[..k] == [s[0]] + s[1..][..k - 1];
      k
    else 0
  }

  function ParseString(s: string): (r: Option<(string, string)>)
    ensures r.Some? ==> |r.value.1| < |s|
  {
    if |s| > 0 && s[0] == '"' then
      var k := LiteralRun(s[1..]);
      if k < |s| - 1 && s[1 + k] == '"' then Some((s[1..1 + k], s[2 + k..])) else None
    else None
  }

  function ParseValue(s: string): (r: Option<(Value, string)>)
    ensures r.Some? ==> |r.value.1| < |s|
  {
    if |s| > 0 && s[0] == '"' then
      match ParseString(s)
      case None => None
      case Some((t, rest)) => Some((Str(t), rest))
    else
      match ParseInt(s)
      case None => None
      case Some((n, rest)) => Some((Num(n), rest))
  }

  /** Reads one or more elements separated by ", " and returns what follows them. */
  function ParseItems(s: string): (r: Option<(seq<Value>, string)>)
    ensures r.Some? ==> |r.value.0| > 0
    decreases |s|
  {
    match ParseValue(s)
    case None => None
    case Some((v, rest)) =>
      if |rest| >= 2 && rest[..2] == ", " then
        match ParseItems(rest[2..])
        case None => None
        case Some((vs, rest')) => Some(([v] + vs, rest'))
      else Some(([v], rest))
  }

  /** Reads a whole text as one array; anything after the closing bracket
      is an error, as it is for `json.loads` ("Extra data"). */
  function Parse(s: string): Option<seq<Value>>
  {
    if s == "[]" then Some([])
    else if |s| > 0 && s[0] == '[' then
      match ParseItems(s[1..])
      case None => None
      case Some((vs, rest)) => if rest == "]" then Some(vs) else None
    else None
  }

  /** A digit string followed by a non-digit is read back as its value. */
  lemma {:induction false} DigitRunOf(ds: string, rest: string)
    requires AllDigits(ds)
    requires rest == [] || !IsDigit(rest[0])
    ensures DigitRun(ds + rest) == |ds|
  {
    if |ds| > 0 {
      assert (ds + rest)[1..] == ds[1..] + rest;
      DigitRunOf(ds[1..], rest);
    }
  }

  lemma ParseNatShow(n: nat, rest: string)
    requires rest == [] || !IsDigit(rest[0])
    ensures ParseNat(ShowNat(n) + rest) == Some((n, rest))
  {
    var s := ShowNat(n) + rest;
    DigitRunOf(ShowNat(n), rest);
    assert s[..|ShowNat(n)|] == ShowNat(n);
    assert s[|ShowNat(n)|..] == rest;
  }

  lemma ParseIntShow(i: int, rest: string)
    requires rest == [] || !IsDigit(rest[0])
    ensures ParseInt(ShowInt(i) + rest) == Some((i, rest))
  {
    if i < 0 {
      ParseNegativeShow(-i, rest);
    } else {
      ParseNatShow(i, rest);
      assert IsDigit((ShowNat(i) + rest)[0]);
    }
  }

  lemma ParseNegativeShow(n: nat, rest: string)
    requires rest == [] || !IsDigit(rest[0])
    ensures ParseInt("-" + ShowNat(n) + rest) == Some((-(n as int), rest))
  {
    var t := ShowNat(n) + rest;
    ParseNatShow(n, rest);
    assert "-" + ShowNat(n) + rest == "-" + t;
    assert ("-" + t)[1..] == t;
  }

  lemma {:induction false} LiteralRunOf(t: string, rest: string)
    requires PlainString(t)
    requires |rest| > 0 && rest[0] == '"'
    ensures LiteralRun(t + rest) == |t|
  {
    if |t| > 0 {
      assert (t + rest)[1..] == t[1..] + rest;
      LiteralRunOf(t[1..], rest);
    }
  }

  lemma ParseValueShow(v: Value, rest: string)
    requires Printable(v)
    requires rest == [] || (!IsDigit(rest[0]) && rest[0] != '"')
    ensures ParseValue(ShowValue(v) + rest) == Some((v, rest))
  {
    match v
    case Num(n) =>
      ParseIntShow(n, rest);
      assert ShowInt(n)[0] == '-' || IsDigit(ShowInt(n)[0]);
    case Str(t) =>
      var s := ShowValue(v) + rest;
      assert s == "\"" + (t + ("\"" + rest));
      assert s[1..] == t + ("\"" + rest);
      LiteralRunOf(t, "\"" + rest);
      assert s[1..1 + |t|] == t;
      assert s[2 + |t|..] == rest;
  }

  lemma {:induction false} ParseItemsShow(vs: seq<Value>, rest: string)
    requires |vs| > 0
    requires forall i :: 0 <= i < |vs| ==> Printable(vs[i])
    requires |rest| > 0 && rest[0] == ']'
    ensures ParseItems(ShowItems(vs) + rest) == Some((vs, rest))
  {
    if |vs| == 1 {
      assert ShowItems(vs) == ShowValue(vs[0]) && [vs[0]] == vs;
      ParseValueShow(vs[0], rest);
      assert |rest| >= 2 ==> rest[..2][0] == ']';
    } else {
      var tail := ShowItems(vs[1..]) + rest;
      assert ShowItems(vs) + rest == ShowValue(vs[0]) + (", " + tail);
      ParseValueShow(vs[0], ", " + tail);
      assert (", " + tail)[..2] == ", ";
      assert (", " + tail)[2..] == tail;
      ParseItemsShow(vs[1..], rest);
      assert [vs[0]] + vs[1..] == vs;
    }
  }

  /** Round trip: reading what the printer wrote gives back the elements. */
  lemma ParseShow(vs: seq<Value>)
    requires forall i :: 0 <= i < |vs| ==> Printable(vs[i])
    ensures Parse(Show(vs)) == Some(vs)
  {
    if |vs| > 0 {
      var s := Show(vs);
      assert s == "[" + (ShowItems(vs) + "]");
      assert s[1..] == ShowItems(vs) + "]";
      ParseItemsShow(vs, "]");
      ShowItemsNonEmpty(vs);
    }
  }

  lemma ShowItemsNonEmpty(vs: seq<Value>)
    requires |vs| > 0
    ensures |ShowItems(vs)| > 0
  {
    if |vs| > 1 {
      assert ShowItems(vs) == ShowValue(vs[0]) + ", " + ShowItems(vs[1..]);
    }
  }

  /** A character the printer writes only as part of a value or of the
      array punctuation; the wire delimiter is not among them. */
  predicate Punctuation(c: char) { c == '[' || c == ']' || c == ',' || c == ' ' || c == '"' || c == '-' }

  predicate FreeOf(s: string, c: char) { forall i :: 0 <= i < |s| ==> s[i] != c }

  /** A printed array contains character `c` only where one of its strings does. */
  lemma {:induction false} ShowItemsFreeOf(vs: seq<Value>, c: char)
    requires !IsDigit(c) && !Punctuation(c)
    requires forall i :: 0 <= i < |vs| ==> vs[i].Str? ==> FreeOf(vs[i].s, c)
    ensures FreeOf(ShowItems(vs), c)
  {
    if |vs| > 0 {
      assert FreeOf(ShowValue(vs[0]), c) by {
        match vs[0]
        case Num(n) =>
          assert FreeOf(ShowNat(if n < 0 then -n else n), c);
        case Str(t) =>
      }
      if |vs| > 1 {
        ShowItemsFreeOf(vs[1..], c);
      }
    }
  }
}
