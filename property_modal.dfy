/**
 * The property form: the decimal sanitizer and thousands formatter its
 * amount fields use, the ordered checks of `validate`, and the payload of
 * `submit`. `Number(text)` is a parameter `num`.
 */
module PropertyModal {
  import opened Wrappers
  import opened Strings

  // ---------------------------------------------------------------------------
  // sanitizeDecimal
  // ---------------------------------------------------------------------------

  /** What `/[^\d.]/g` leaves: ASCII digits and '.'. */
  predicate IsDecimalChar(c: char) { IsDigit(c) || c == '.' }

  /** `value.replace(/[^\d.]/g, "")`. */
  function KeepDecimalChars(s: string): (r: string)
    ensures |r| <= |s| && forall k :: 0 <= k < |r| ==> IsDecimalChar(r[k])
  {
    if |s| == 0 then "" else (if IsDecimalChar(s[0]) then [s[0]] else "") + KeepDecimalChars(s[1..])
  }

  /** The ASCII digits of `s`, in order. */
  function OnlyDigits(s: string): (r: string)
    ensures |r| <= |s| && AllDigits(r)
  {
    if |s| == 0 then "" else (if IsDigit(s[0]) then [s[0]] else "") + OnlyDigits(s[1..])
  }

  /** `s` without any `c`. */
  function RemoveChar(s: string, c: char): (r: string)
    ensures c !in r
  {
    if |s| == 0 then "" else (if s[0] == c then "" else [s[0]]) + RemoveChar(s[1..], c)
  }

  /** `s.slice(0, n)`. */
  function Take(s: string, n: nat): (r: string)
    ensures r <= s && |r| == if |s| < n then |s| else n
  {
    if |s| <= n then s else s[..n]
  }

  /**
   * `sanitizeDecimal`: keep digits and dots, split at the dots, and keep the
   * first part, then (when there was a dot) a single dot and the remaining
   * parts run together, cut to ten characters.
   */
  function SanitizeDecimal(value: string): string
  {
    var parts := Split(KeepDecimalChars(value), '.');
    if |parts| == 1 then parts[0] else parts[0] + "." + Take(Join(parts[1..], ""), 10)
  }

  /**
   * Reference reading of the sanitizer on the raw input: the digits before
   * the first '.', and when there is a '.', a dot followed by at most ten of
   * the digits after it.
   */
  function SanitizeSpec(value: string): string
  {
    var head := UpTo(value, '.');
    if |head| == |value| then OnlyDigits(value)
    else OnlyDigits(head) + "." + Take(OnlyDigits(value[|head| + 1..]), 10)
  }

  lemma {:induction false} KeepAppend(a: string, b: string)
    ensures KeepDecimalChars(a + b) == KeepDecimalChars(a) + KeepDecimalChars(b)
    decreases |a|
  {
    if |a| > 0 {
      assert (a + b)[1..] == a[1..] + b;
      KeepAppend(a[1..], b);
    } else {
      assert a + b == b;
    }
  }

  lemma {:induction false} OnlyDigitsAppend(a: string, b: string)
    ensures OnlyDigits(a + b) == OnlyDigits(a) + OnlyDigits(b)
    decreases |a|
  {
    if |a| > 0 {
      assert (a + b)[1..] == a[1..] + b;
      OnlyDigitsAppend(a[1..], b);
    } else {
      assert a + b == b;
    }
  }

  lemma {:induction false} RemoveAppend(a: string, b: string, c: char)
    ensures RemoveChar(a + b, c) == RemoveChar(a, c) + RemoveChar(b, c)
    decreases |a|
  {
    if |a| > 0 {
      assert (a + b)[1..] == a[1..] + b;
      RemoveAppend(a[1..], b, c);
    } else {
      assert a + b == b;
    }
  }

  /** Without a dot, keeping decimal characters is keeping digits. */
  lemma {:induction false} KeepWithoutDot(s: string)
    requires '.' !in s
    ensures KeepDecimalChars(s) == OnlyDigits(s) && '.' !in KeepDecimalChars(s)
    decreases |s|
  {
    if |s| > 0 {
      KeepWithoutDot(s[1..]);
    }
  }

  /** Dropping the dots from the kept characters leaves the digits. */
  lemma {:induction false} RemoveDotsOfKept(s: string)
    ensures RemoveChar(KeepDecimalChars(s), '.') == OnlyDigits(s)
    decreases |s|
  {
    if |s| > 0 {
      RemoveDotsOfKept(s[1..]);
      var h := if IsDecimalChar(s[0]) then [s[0]] else "";
      RemoveAppend(h, KeepDecimalChars(s[1..]), '.');
    }
  }

  /** `split(c).join("")` removes every `c` (the empty separator is the parameter `sep`). */
  lemma {:induction false} JoinSplitRemoves(x: string, c: char, sep: string)
    requires sep == ""
    ensures Join(Split(x, c), sep) == RemoveChar(x, c)
    decreases |x|
  {
    var head := UpTo(x, c);
    if |head| == |x| {
      JoinSplitNoChar(x, c, sep);
    } else {
      var rest := x[|head| + 1..];
      JoinSplitRemoves(rest, c, sep);
      JoinSplitStep(x, c, sep);
      EmptySeparator(head, sep, RemoveChar(rest, c));
    }
  }

  lemma JoinSplitNoChar(x: string, c: char, sep: string)
    requires |UpTo(x, c)| == |x|
    ensures Join(Split(x, c), sep) == RemoveChar(x, c)
  {
    assert UpTo(x, c) == x;
    assert Split(x, c) == [x];
    NoCharRemoved(x, c);
  }

  /** One part of the split: the text before the first `c`, then the rest. */
  lemma JoinSplitStep(x: string, c: char, sep: string)
    requires |UpTo(x, c)| < |x|
    ensures Join(Split(x, c), sep) == UpTo(x, c) + sep + Join(Split(x[|UpTo(x, c)| + 1..], c), sep)
    ensures RemoveChar(x, c) == UpTo(x, c) + RemoveChar(x[|UpTo(x, c)| + 1..], c)
  {
    var head := UpTo(x, c);
    var rest := x[|head| + 1..];
    assert x == head + [c] + rest;
    JoinSplitCons(head, rest, c, sep);
    RemoveCons(head, rest, c);
  }

  lemma EmptySeparator(head: string, sep: string, tail: string)
    requires sep == ""
    ensures head + sep + tail == head + tail
  {
  }

  lemma JoinSplitCons(head: string, rest: string, c: char, sep: string)
    requires c !in head
    ensures Join(Split(head + [c] + rest, c), sep) == head + sep + Join(Split(rest, c), sep)
  {
    var tail := Split(rest, c);
    SplitCons(head, rest, c);
    JoinCons(head, tail, sep);
  }

  lemma JoinCons(h: string, tail: seq<string>, sep: string)
    requires |tail| >= 1
    ensures Join([h] + tail, sep) == h + sep + Join(tail, sep)
  {
    assert ([h] + tail)[1..] == tail;
  }

  lemma RemoveCons(head: string, rest: string, c: char)
    requires c !in head
    ensures RemoveChar(head + [c] + rest, c) == head + RemoveChar(rest, c)
  {
    var tail := [c] + rest;
    assert head + [c] + rest == head + tail;
    RemoveAppend(head, tail, c);
    NoCharRemoved(head, c);
    RemoveLeading(rest, c);
  }

  lemma RemoveLeading(rest: string, c: char)
    ensures RemoveChar([c] + rest, c) == RemoveChar(rest, c)
  {
    assert ([c] + rest)[1..] == rest;
  }

  lemma {:induction false} NoCharRemoved(s: string, c: char)
    requires c !in s
    ensures RemoveChar(s, c) == s
    decreases |s|
  {
    if |s| > 0 {
      NoCharRemoved(s[1..], c);
    }
  }

  lemma {:induction false} DigitsKept(s: string)
    requires AllDigits(s)
    ensures OnlyDigits(s) == s
    decreases |s|
  {
    if |s| > 0 {
      DigitsKept(s[1..]);
    }
  }

  /** The sanitizer agrees with its reference reading on every input. */
  lemma SanitizeMatchesSpec(value: string)
    ensures SanitizeDecimal(value) == SanitizeSpec(value)
  {
    var head := UpTo(value, '.');
    if |head| == |value| {
      assert head == value;
      KeepWithoutDot(value);
      UpToOfPart(KeepDecimalChars(value), [], '.');
    } else {
      var tail := value[|head| + 1..];
      assert value == head + ['.'] + tail;
      KeepAppend(head + ['.'], tail);
      KeepAppend(head, ['.']);
      KeepWithoutDot(head);
      var kh, kt := KeepDecimalChars(head), KeepDecimalChars(tail);
      assert KeepDecimalChars(['.']) == ['.'];
      assert KeepDecimalChars(value) == kh + ['.'] + kt;
      SplitCons(kh, kt, '.');
      var parts := Split(KeepDecimalChars(value), '.');
      assert parts[1..] == Split(kt, '.');
      JoinSplitRemoves(kt, '.', "");
      RemoveDotsOfKept(tail);
    }
  }

  /**
   * The sanitized text holds only digits and at most one '.', and the part
   * before its dot is the digits typed before the first '.', in order.
   */
  lemma SanitizeShape(value: string)
    ensures var r := SanitizeDecimal(value);
      && (forall k :: 0 <= k < |r| ==> IsDecimalChar(r[k]))
      && (forall i, j :: 0 <= i < j < |r| && r[i] == '.' ==> r[j] != '.')
      && UpTo(r, '.') == OnlyDigits(UpTo(value, '.'))
  {
    SanitizeMatchesSpec(value);
    if |UpTo(value, '.')| == |value| {
      SpecShapeWithoutDot(value);
    } else {
      SpecShapeWithDot(value);
    }
  }

  lemma SpecShapeWithoutDot(value: string)
    requires |UpTo(value, '.')| == |value|
    ensures var r := SanitizeSpec(value);
      && (forall k :: 0 <= k < |r| ==> IsDecimalChar(r[k]))
      && (forall i, j :: 0 <= i < j < |r| && r[i] == '.' ==> r[j] != '.')
      && UpTo(r, '.') == OnlyDigits(UpTo(value, '.'))
  {
    assert UpTo(value, '.') == value;
    UpToOfPart(OnlyDigits(value), [], '.');
  }

  lemma SpecShapeWithDot(value: string)
    requires |UpTo(value, '.')| < |value|
    ensures var r := SanitizeSpec(value);
      && (forall k :: 0 <= k < |r| ==> IsDecimalChar(r[k]))
      && (forall i, j :: 0 <= i < j < |r| && r[i] == '.' ==> r[j] != '.')
      && UpTo(r, '.') == OnlyDigits(UpTo(value, '.'))
  {
    var head := UpTo(value, '.');
    var digits := OnlyDigits(value[|head| + 1..]);
    var t := Take(digits, 10);
    assert forall k :: 0 <= k < |t| ==> t[k] == digits[k];
    DotShape(OnlyDigits(head), t);
  }

  /** Digits, one '.', digits: the shape a sanitized amount with a dot has. */
  lemma DotShape(d: string, t: string)
    requires AllDigits(d) && AllDigits(t)
    ensures var r := d + ['.'] + t;
      && (forall k :: 0 <= k < |r| ==> IsDecimalChar(r[k]))
      && (forall i, j :: 0 <= i < j < |r| && r[i] == '.' ==> r[j] != '.')
      && UpTo(r, '.') == d
  {
    var r := d + ['.'] + t;
    UpToOfPart(d, t, '.');
    forall i, j | 0 <= i < j < |r| && r[i] == '.'
      ensures r[j] != '.'
    {
      assert i == |d|;
      assert r[j] == t[j - |d| - 1];
    }
  }

  /** Sanitizing a sanitized text changes nothing. */
  lemma SanitizeIdempotent(value: string)
    ensures SanitizeDecimal(SanitizeDecimal(value)) == SanitizeDecimal(value)
  {
    SanitizeMatchesSpec(value);
    var r := SanitizeDecimal(value);
    SanitizeMatchesSpec(r);
    var head := UpTo(value, '.');
    if |head| == |value| {
      UpToOfPart(r, [], '.');
      DigitsKept(r);
    } else {
      var d, t := OnlyDigits(head), Take(OnlyDigits(value[|head| + 1..]), 10);
      assert r == d + ['.'] + t;
      UpToOfPart(d, t, '.');
      assert r[|d| + 1..] == t;
      DigitsKept(d);
      DigitsKept(t);
    }
  }

  // ---------------------------------------------------------------------------
  // formatWithCommas
  // ---------------------------------------------------------------------------

  /** A word character of regular expressions: [A-Za-z0-9_]. */
  predicate IsWordChar(c: char)
  {
    ('a' <= c <= 'z') || ('A' <= c <= 'Z') || IsDigit(c) || c == '_'
  }

  /** The length of the run of digits starting at `p`. */
  function DigitRun(s: string, p: nat): nat
    decreases |s| - p
  {
    if p >= |s| || !IsDigit(s[p]) then 0 else 1 + DigitRun(s, p + 1)
  }

  /**
   * `/\B(?=(\d{3})+(?!\d))/` matches at `p`: not a word boundary, and the
   * digits from `p` up to the next non-digit come in a whole number of
   * groups of three.
   */
  predicate CommaAt(s: string, p: nat)
    requires p < |s|
  {
    p > 0 && IsWordChar(s[p - 1]) && DigitRun(s, p) >= 3 && DigitRun(s, p) % 3 == 0
  }

  /** The characters from `p` on, with a ',' inserted wherever the pattern matches. */
  function GroupFrom(s: string, p: nat): string
    requires p <= |s|
    decreases |s| - p
  {
    if p == |s| then "" else (if CommaAt(s, p) then "," else "") + [s[p]] + GroupFrom(s, p + 1)
  }

  /** `intPart.replace(/\B(?=(\d{3})+(?!\d))/g, ",")`. */
  function GroupThousands(s: string): string
  {
    GroupFrom(s, 0)
  }

  /** `formatWithCommas`. */
  function FormatWithCommas(raw: string): string
  {
    if raw == "" then ""
    else
      var parts := Split(raw, '.');
      if |parts| >= 2 then GroupThousands(parts[0]) + "." + parts[1] else GroupThousands(parts[0])
  }

  lemma {:induction false} DigitRunOfDigits(s: string, p: nat)
    requires AllDigits(s) && p <= |s|
    ensures DigitRun(s, p) == |s| - p
    decreases |s| - p
  {
    if p < |s| {
      DigitRunOfDigits(s, p + 1);
    }
  }

  /** On a string of digits a ',' goes before every position p with 0 < p < |s| and |s| - p a multiple of 3. */
  lemma CommaPositionsOnDigits(s: string, p: nat)
    requires AllDigits(s) && p < |s|
    ensures CommaAt(s, p) <==> 0 < p && (|s| - p) % 3 == 0
  {
    DigitRunOfDigits(s, p);
  }

  /** Grouping only adds commas: the digits stay the same, and no dot appears. */
  lemma {:induction false} GroupKeepsDigits(s: string, p: nat)
    requires p <= |s|
    ensures OnlyDigits(GroupFrom(s, p)) == OnlyDigits(s[p..])
    ensures '.' !in s[p..] ==> '.' !in GroupFrom(s, p)
    decreases |s| - p
  {
    if p < |s| {
      GroupKeepsDigits(s, p + 1);
      var comma := if CommaAt(s, p) then "," else "";
      OnlyDigitsAppend(comma + [s[p]], GroupFrom(s, p + 1));
      OnlyDigitsAppend(comma, [s[p]]);
      assert s[p..] == [s[p]] + s[p + 1..];
      OnlyDigitsAppend([s[p]], s[p + 1..]);
    }
  }

  /** The text between the first and second '.' is copied; anything after a second '.' is dropped. */
  lemma FormatKeepsFirstDecimalPart(a: string, b: string, c: string)
    requires '.' !in a && '.' !in b
    ensures FormatWithCommas(a + "." + (b + "." + c)) == GroupThousands(a) + "." + b
  {
    SplitCons(a, b + "." + c, '.');
    SplitCons(b, c, '.');
  }

  /**
   * What the amount fields rely on: formatting a sanitized text for display
   * and sanitizing it again gives back the stored text.
   */
  lemma FormatRoundTrip(x: string)
    ensures var s := SanitizeDecimal(x); SanitizeDecimal(FormatWithCommas(s)) == s
  {
    var s := SanitizeDecimal(x);
    SanitizeMatchesSpec(x);
    var head := UpTo(x, '.');
    if s == "" {
      assert SanitizeSpec("") == "";
    } else if |head| == |x| {
      RoundTripWithoutDot(s);
    } else {
      var digits := OnlyDigits(x[|head| + 1..]);
      var t := Take(digits, 10);
      assert forall k :: 0 <= k < |t| ==> t[k] == digits[k];
      RoundTripWithDot(OnlyDigits(head), t);
    }
  }

  /** A non-empty run of digits survives formatting and sanitizing. */
  lemma RoundTripWithoutDot(d: string)
    requires AllDigits(d) && d != ""
    ensures SanitizeDecimal(FormatWithCommas(d)) == d
  {
    assert '.' !in d by {
      assert forall k :: 0 <= k < |d| ==> IsDigit(d[k]);
    }
    UpToOfPart(d, [], '.');
    var g := GroupThousands(d);
    assert FormatWithCommas(d) == g;
    GroupKeepsDigits(d, 0);
    assert d[0..] == d;
    UpToOfPart(g, [], '.');
    SanitizeMatchesSpec(g);
    DigitsKept(d);
  }

  /** Digits, a dot and digits survive formatting and sanitizing. */
  lemma RoundTripWithDot(d: string, t: string)
    requires AllDigits(d) && AllDigits(t) && |t| <= 10
    ensures SanitizeDecimal(FormatWithCommas(d + "." + t)) == d + "." + t
  {
    assert '.' !in d by {
      assert forall k :: 0 <= k < |d| ==> IsDigit(d[k]);
    }
    assert '.' !in t by {
      assert forall k :: 0 <= k < |t| ==> IsDigit(t[k]);
    }
    var s := d + "." + t;
    SplitCons(d, t, '.');
    UpToOfPart(t, [], '.');
    var g := GroupThousands(d);
    assert FormatWithCommas(s) == g + "." + t;
    GroupKeepsDigits(d, 0);
    assert d[0..] == d;
    UpToOfPart(g, t, '.');
    SanitizeMatchesSpec(g + "." + t);
    assert (g + "." + t)[|g| + 1..] == t;
    DigitsKept(d);
    DigitsKept(t);
  }

  // ---------------------------------------------------------------------------
  // validate and submit
  // ---------------------------------------------------------------------------

  /** The form state; every field is the text of its input. */
  datatype PropertyForm = PropertyForm(
    name: string, propertyType: string, currency: string,
    price: string, initialPayment: string, area: string, location: string)

  const MsgNoUser: string := "No se encontró usuario autenticado"
  const MsgNoName: string := "El nombre de la propiedad es obligatorio"
  const MsgNoType: string := "El tipo de propiedad es obligatorio"
  const MsgNoLocation: string := "La ubicación es obligatoria"
  const MsgNoPrice: string := "El precio es obligatorio"
  const MsgBadPrice: string := "El precio debe ser un número > 0"
  const MsgBadInitial: string := "La cuota inicial debe ser un número >= 0"
  const MsgInitialAbovePrice: string := "La cuota inicial no puede ser mayor que el precio"
  const MsgNoArea: string := "El área (m²) es obligatoria"
  const MsgBadArea: string := "El área (m²) debe ser un número > 0"
  const MsgBadCurrency: string := "Moneda inválida"

  /** A user id that is neither null nor empty. */
  predicate HasUser(userId: Option<string>) { userId.Some? && userId.value != "" }

  predicate Positive(x: Option<real>) { x.Some? && x.value > 0.0 }

  /** The initial payment: 0 when its trimmed text is empty, its parse otherwise. */
  function InitialValue(f: PropertyForm, num: string -> Option<real>): Option<real>
  {
    if Trim(f.initialPayment) == "" then Some(0.0) else num(Trim(f.initialPayment))
  }

  predicate InitialOk(f: PropertyForm, num: string -> Option<real>)
  {
    InitialValue(f, num).Some? && InitialValue(f, num).value >= 0.0
  }

  predicate InitialWithinPrice(f: PropertyForm, num: string -> Option<real>)
  {
    var i, p := InitialValue(f, num), num(Trim(f.price));
    i.Some? && p.Some? && i.value <= p.value
  }

  predicate KnownCurrency(c: string) { c == "PEN" || c == "USD" }

  /** `validate`: the message of the first failing check, or None when the form is valid. */
  function Validate(userId: Option<string>, f: PropertyForm, num: string -> Option<real>): (r: Option<string>)
    ensures r == None <==>
      HasUser(userId) && Trim(f.name) != "" && Trim(f.propertyType) != "" && Trim(f.location) != "" &&
      Trim(f.price) != "" && Positive(num(Trim(f.price))) && InitialOk(f, num) && InitialWithinPrice(f, num) &&
      Trim(f.area) != "" && Positive(num(Trim(f.area))) && KnownCurrency(f.currency)
    ensures r == Some(MsgNoUser) <==> !HasUser(userId)
    ensures r == Some(MsgNoName) <==> HasUser(userId) && Trim(f.name) == ""
    ensures r == Some(MsgNoType) <==> HasUser(userId) && Trim(f.name) != "" && Trim(f.propertyType) == ""
    ensures r == Some(MsgNoLocation) <==>
      HasUser(userId) && Trim(f.name) != "" && Trim(f.propertyType) != "" && Trim(f.location) == ""
    ensures r == Some(MsgNoPrice) <==>
      HasUser(userId) && Trim(f.name) != "" && Trim(f.propertyType) != "" && Trim(f.location) != "" &&
      Trim(f.price) == ""
    ensures r == Some(MsgBadPrice) <==>
      HasUser(userId) && Trim(f.name) != "" && Trim(f.propertyType) != "" && Trim(f.location) != "" &&
      Trim(f.price) != "" && !Positive(num(Trim(f.price)))
    ensures r == Some(MsgBadInitial) <==>
      HasUser(userId) && Trim(f.name) != "" && Trim(f.propertyType) != "" && Trim(f.location) != "" &&
      Trim(f.price) != "" && Positive(num(Trim(f.price))) && !InitialOk(f, num)
    ensures r == Some(MsgInitialAbovePrice) <==>
      HasUser(userId) && Trim(f.name) != "" && Trim(f.propertyType) != "" && Trim(f.location) != "" &&
      Trim(f.price) != "" && Positive(num(Trim(f.price))) && InitialOk(f, num) && !InitialWithinPrice(f, num)
    ensures r == Some(MsgNoArea) <==>
      HasUser(userId) && Trim(f.name) != "" && Trim(f.propertyType) != "" && Trim(f.location) != "" &&
      Trim(f.price) != "" && Positive(num(Trim(f.price))) && InitialOk(f, num) && InitialWithinPrice(f, num) &&
      Trim(f.area) == ""
    ensures r == Some(MsgBadArea) <==>
      HasUser(userId) && Trim(f.name) != "" && Trim(f.propertyType) != "" && Trim(f.location) != "" &&
      Trim(f.price) != "" && Positive(num(Trim(f.price))) && InitialOk(f, num) && InitialWithinPrice(f, num) &&
      Trim(f.area) != "" && !Positive(num(Trim(f.area)))
    ensures r == Some(MsgBadCurrency) <==>
      HasUser(userId) && Trim(f.name) != "" && Trim(f.propertyType) != "" && Trim(f.location) != "" &&
      Trim(f.price) != "" && Positive(num(Trim(f.price))) && InitialOk(f, num) && InitialWithinPrice(f, num) &&
      Trim(f.area) != "" && Positive(num(Trim(f.area))) && !KnownCurrency(f.currency)
  {
    if !HasUser(userId) then Some(MsgNoUser)
    else if Trim(f.name) == "" then Some(MsgNoName)
    else if Trim(f.propertyType) == "" then Some(MsgNoType)
    else if Trim(f.location) == "" then Some(MsgNoLocation)
    else if Trim(f.price) == "" then Some(MsgNoPrice)
    else if !Positive(num(Trim(f.price))) then Some(MsgBadPrice)
    else if !InitialOk(f, num) then Some(MsgBadInitial)
    else if !InitialWithinPrice(f, num) then Some(MsgInitialAbovePrice)
    else if Trim(f.area) == "" then Some(MsgNoArea)
    else if !Positive(num(Trim(f.area))) then Some(MsgBadArea)
    else if !KnownCurrency(f.currency) then Some(MsgBadCurrency)
    else None
  }

  /** A blank initial payment counts as 0, and an initial payment equal to the price passes. */
  lemma InitialPaymentBounds(userId: Option<string>, f: PropertyForm, num: string -> Option<real>)
    requires Validate(userId, f, num) == None
    ensures 0.0 <= InitialValue(f, num).value <= num(Trim(f.price)).value
    ensures Trim(f.initialPayment) == "" ==> InitialValue(f, num) == Some(0.0)
  {
  }

  /** The record handed to `onSave`. */
  datatype PropertyPayload = PropertyPayload(
    id: Option<int>, userId: string, clientId: Option<int>, name: string, propertyType: string,
    currency: string, price: Option<real>, initialPayment: Option<real>, area: Option<real>, location: string)

  datatype Submission = ShowError(msg: string) | Save(payload: PropertyPayload)

  /**
   * `submit`: the first failing message, or the payload with trimmed name and
   * location, the initial payment 0 when blank, and no client.
   */
  function Submit(editingId: Option<int>, userId: Option<string>, f: PropertyForm, num: string -> Option<real>)
    : (s: Submission)
    ensures s.Save? <==> Validate(userId, f, num) == None
    ensures s.ShowError? ==> Validate(userId, f, num) == Some(s.msg)
    ensures s.Save? ==>
      && s.payload.name == Trim(f.name) && s.payload.location == Trim(f.location)
      && s.payload.clientId == None && s.payload.id == editingId && s.payload.userId == userId.value
      && s.payload.initialPayment == (if Trim(f.initialPayment) == "" then Some(0.0) else num(f.initialPayment))
      && s.payload.propertyType == f.propertyType && s.payload.currency == f.currency
      && KnownCurrency(s.payload.currency)
      && s.payload.price == num(f.price) && s.payload.area == num(f.area)
  {
    var v := Validate(userId, f, num);
    if v.Some? then ShowError(v.value)
    else
      Save(PropertyPayload(
        editingId, userId.value, None, Trim(f.name), f.propertyType, f.currency,
        num(f.price), if Trim(f.initialPayment) == "" then Some(0.0) else num(f.initialPayment),
        num(f.area), Trim(f.location)))
  }
}
