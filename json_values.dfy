/** The nested document the crawler builds and the server walks, and
    JavaScript's property access `node[key]` on it. */
module JsonValues {
  import opened Options

  /** A value of the document: objects, arrays and strings are what the crawler
      writes; numbers arise only as the `length` of an array or a string. */
  datatype Json =
    | JObject(fields: map<string, Json>)
    | JArray(items: seq<Json>)
    | JString(str: string)
    | JNumber(num: int)

  predicate IsDigit(c: char) {
    '0' <= c <= '9'
  }

  predicate AllDigits(s: string) {
    forall i | 0 <= i < |s| :: IsDigit(s[i])
  }

  /** The value of a string of decimal digits, most significant first. */
  function DigitsValue(s: string): nat
    requires AllDigits(s)
  {
    if s == [] then 0 else DigitsValue(s[..|s| - 1]) * 10 + (s[|s| - 1] as int - '0' as int)
  }

  /** The decimal spelling of `n`, with no leading zero. */
  function Decimal(n: nat): (s: string)
    ensures |s| > 0 && AllDigits(s)
    ensures s[0] == '0' <==> n == 0
    ensures n == 0 ==> s == "0"
  {
    if n < 10 then [('0' as int + n) as char] else Decimal(n / 10) + [('0' as int + n % 10) as char]
  }

  /** A key names an array or string element exactly when it is the canonical
      decimal spelling of a number ("7", never "07", "+7" or "7.0"). */
  function IndexOf(key: string): (r: Option<nat>)
    ensures r.Some? ==> key == Decimal(r.value)
  {
    if |key| > 0 && AllDigits(key) && (key[0] != '0' || key == "0") then
      CanonicalDigits(key);
      Some(DigitsValue(key))
    else None
  }

  lemma {:induction false} LeadingDigitPositive(s: string)
    requires |s| > 0 && AllDigits(s) && s[0] != '0'
    ensures DigitsValue(s) > 0
  {
    if |s| > 1 {
      LeadingDigitPositive(s[..|s| - 1]);
    }
  }

  lemma {:induction false} CanonicalDigits(s: string)
    requires |s| > 0 && AllDigits(s) && (s[0] != '0' || s == "0")
    ensures Decimal(DigitsValue(s)) == s
  {
    if |s| > 1 {
      var p, d := s[..|s| - 1], s[|s| - 1];
      CanonicalDigits(p);
      LeadingDigitPositive(p);
      var v := DigitsValue(p);
      assert DigitsValue(s) == v * 10 + (d as int - '0' as int);
      assert DigitsValue(s) / 10 == v && DigitsValue(s) % 10 == d as int - '0' as int;
      assert s == p + [d];
    }
  }

  /** Every number's decimal spelling is read back as that number: the
      array element `n` is reached by the key `Decimal(n)`. */
  lemma {:induction false} IndexOfDecimal(n: nat)
    ensures IndexOf(Decimal(n)) == Some(n)
  {
    DigitsOfDecimal(n);
  }

  lemma {:induction false} DigitsOfDecimal(n: nat)
    ensures DigitsValue(Decimal(n)) == n
  {
    if n >= 10 {
      DigitsOfDecimal(n / 10);
      var s := Decimal(n);
      assert s[..|s| - 1] == Decimal(n / 10);
    }
  }

  /** `node[key]` in JavaScript for an own property, `None` standing for
      `undefined`. */
  function Member(node: Json, key: string): Option<Json>
  {
    match node
    case JObject(fields) => if key in fields then Some(fields[key]) else None
    case JArray(items) =>
      if key == "length" then Some(JNumber(|items|))
      else (match IndexOf(key)
            case Some(i) => if i < |items| then Some(items[i]) else None
            case None => None)
    case JString(s) =>
      if key == "length" then Some(JNumber(|s|))
      else (match IndexOf(key)
            case Some(i) => if i < |s| then Some(JString([s[i]])) else None
            case None => None)
    case JNumber(_) => None
  }

  /** Element `n` of an array is found under its decimal key and under no
      other key that JavaScript would turn into an index. */
  lemma ArrayElement(items: seq<Json>, n: nat)
    ensures Member(JArray(items), Decimal(n)) == if n < |items| then Some(items[n]) else None
  {
    IndexOfDecimal(n);
  }
}
