/**
 The sorted-key JSON text on which the identity directory bases equality, digests and record sizes.
 Strings are sequences of UTF-16 code units, as in the source language, so lone surrogates exist.
 */
module CanonicalText {
  import opened Common

  type CodeUnit = u: int | 0 <= u < 0x10000
  type Text = seq<CodeUnit>

  /** A string literal as code units. */
  function Ascii(s: string): (t: Text)
    ensures |t| == |s|
  {
    seq(|s|, i requires 0 <= i < |s| => (s[i] as int) % 0x10000)
  }

  /*** Values ***/

  // The characters that may occur in a number, section 6 of RFC 8259.
  predicate NumberUnit(u: CodeUnit) {
    48 <= u <= 57 || u == 43 || u == 45 || u == 46 || u == 69 || u == 101
  }

  predicate NumberText(t: Text) {
    |t| > 0 && forall i | 0 <= i < |t| :: NumberUnit(t[i])
  }

  // A finite number is identified with its shortest literal: the literal determines the number.
  type Literal = t: Text | NumberText(t) witness [48]

  datatype Json =
    | Null
    | Bool(b: bool)
    | Num(lit: Literal)
    | Str(text: Text)
    | Arr(items: Items)
    | Obj(members: Members)

  datatype Items = Empty | Item(head: Json, tail: Items)

  // The members of an object in their own (insertion) order.
  datatype Members = Done | Member(key: Text, value: Json, rest: Members)

  function Keys(ms: Members): set<Text> {
    match ms
    case Done => {}
    case Member(k, _, rest) => {k} + Keys(rest)
  }

  /** Every object of the value has distinct keys. */
  predicate Plain(v: Json) {
    match v
    case Arr(items) => PlainItems(items)
    case Obj(ms) => PlainMembers(ms)
    case _ => true
  }

  predicate PlainItems(items: Items) {
    items.Item? ==> Plain(items.head) && PlainItems(items.tail)
  }

  predicate PlainMembers(ms: Members) {
    ms.Member? ==> ms.key !in Keys(ms.rest) && Plain(ms.value) && PlainMembers(ms.rest)
  }

  function Get(ms: Members, k: Text): (v: Json)
    requires k in Keys(ms)
  {
    if ms.key == k then ms.value else Get(ms.rest, k)
  }

  /** Equality of values that ignores the order of object members. */
  predicate Same(a: Json, b: Json) {
    match (a, b)
    case (Arr(x), Arr(y)) => SameItems(x, y)
    case (Obj(x), Obj(y)) => Keys(x) == Keys(y) && SameMembers(x, y)
    case (_, _) => a == b
  }

  predicate SameItems(x: Items, y: Items) {
    match (x, y)
    case (Empty, Empty) => true
    case (Item(a, s), Item(b, t)) => Same(a, b) && SameItems(s, t)
    case (_, _) => false
  }

  predicate SameMembers(x: Members, y: Members) {
    x.Member? ==> x.key in Keys(y) && Same(x.value, Get(y, x.key)) && SameMembers(x.rest, y)
  }

  /*** The order in which the source language enumerates sorted members ***/

  predicate Lex(a: Text, b: Text) {
    b != [] && (a == [] || a[0] < b[0] || (a[0] == b[0] && Lex(a[1..], b[1..])))
  }

  /** Array indices, 0 up to 4294967294, in canonical decimal form. */
  predicate IsIndex(k: Text) {
    && |k| > 0
    && (forall i | 0 <= i < |k| :: 48 <= k[i] <= 57)
    && (|k| == 1 || k[0] != 48)
    && (|k| < 10 || (|k| == 10 && Lex(k, Ascii("4294967295"))))
  }

  /** Index-like names come first, in numeric order; other names follow in code unit order. */
  predicate Before(a: Text, b: Text) {
    if IsIndex(a) != IsIndex(b) then IsIndex(a)
    else if IsIndex(a) && |a| != |b| then |a| < |b|
    else Lex(a, b)
  }

  lemma {:induction false} LexOrder(a: Text, b: Text)
    ensures !(Lex(a, b) && Lex(b, a))
    ensures a != b ==> Lex(a, b) || Lex(b, a)
    ensures !Lex(a, a)
  {
    if a != [] {
      if b != [] {
        LexOrder(a[1..], b[1..]);
        assert a == [a[0]] + a[1..] && b == [b[0]] + b[1..];
      }
      LexOrder(a[1..], a[1..]);
    }
  }

  lemma {:induction false} LexTransitive(a: Text, b: Text, c: Text)
    requires Lex(a, b) && Lex(b, c)
    ensures Lex(a, c)
  {
    if a != [] && a[0] == b[0] == c[0] {
      LexTransitive(a[1..], b[1..], c[1..]);
    }
  }

  /** The enumeration order is a strict total order on names. */
  lemma BeforeOrder(a: Text, b: Text)
    ensures !(Before(a, b) && Before(b, a))
    ensures a != b ==> Before(a, b) || Before(b, a)
    ensures !Before(a, a)
  {
    LexOrder(a, b);
    LexOrder(a, a);
  }

  lemma BeforeTransitive(a: Text, b: Text, c: Text)
    requires Before(a, b) && Before(b, c)
    ensures Before(a, c)
  {
    if Lex(a, b) && Lex(b, c) {
      LexTransitive(a, b, c);
    }
  }

  function Insert(k: Text, v: Json, ms: Members): (r: Members)
    ensures Keys(r) == {k} + Keys(ms)
  {
    if ms.Done? || !Before(ms.key, k) then Member(k, v, ms)
    else Member(ms.key, ms.value, Insert(k, v, ms.rest))
  }

  /** The replacer's effect: every object rebuilt with its members in enumeration order. */
  function Ordered(v: Json): Json {
    match v
    case Arr(items) => Arr(OrderedItems(items))
    case Obj(ms) => Obj(OrderedMembers(ms))
    case _ => v
  }

  function OrderedItems(items: Items): Items {
    match items
    case Empty => Empty
    case Item(h, t) => Item(Ordered(h), OrderedItems(t))
  }

  function OrderedMembers(ms: Members): (r: Members)
    ensures Keys(r) == Keys(ms)
  {
    match ms
    case Done => Done
    case Member(k, v, rest) => Insert(k, Ordered(v), OrderedMembers(rest))
  }

  predicate Ascending(ms: Members) {
    ms.Member? ==> (forall k | k in Keys(ms.rest) :: Before(ms.key, k)) && Ascending(ms.rest)
  }

  lemma {:induction false} InsertKeepsOrder(k: Text, v: Json, ms: Members)
    requires Ascending(ms) && k !in Keys(ms)
    ensures Ascending(Insert(k, v, ms))
    ensures forall j | j in Keys(ms) :: Get(Insert(k, v, ms), j) == Get(ms, j)
    ensures Get(Insert(k, v, ms), k) == v
  {
    if ms.Member? {
      BeforeOrder(ms.key, k);
      if Before(ms.key, k) {
        InsertKeepsOrder(k, v, ms.rest);
      } else {
        forall j | j in Keys(ms.rest) ensures Before(k, j) {
          BeforeTransitive(k, ms.key, j);
        }
      }
    }
  }

  lemma {:induction false} OrderedMembersShape(ms: Members)
    requires PlainMembers(ms)
    ensures Ascending(OrderedMembers(ms))
    ensures forall k | k in Keys(ms) :: Get(OrderedMembers(ms), k) == Ordered(Get(ms, k))
  {
    if ms.Member? {
      OrderedMembersShape(ms.rest);
      InsertKeepsOrder(ms.key, Ordered(ms.value), OrderedMembers(ms.rest));
    }
  }

  /** An ascending member list is determined by its keys and the value under each key. */
  lemma {:induction false} AscendingUnique(x: Members, y: Members)
    requires Ascending(x) && Ascending(y) && Keys(x) == Keys(y)
    requires forall k | k in Keys(x) :: Get(x, k) == Get(y, k)
    ensures x == y
  {
    assert x.Member? ==> x.key in Keys(x);
    assert y.Member? ==> y.key in Keys(y);
    if x.Member? && y.Member? {
      BeforeOrder(x.key, y.key);
      BeforeOrder(x.key, x.key);
      BeforeOrder(y.key, y.key);
      assert x.key == y.key;
      assert Keys(x.rest) == Keys(x) - {x.key} == Keys(y.rest);
      forall k | k in Keys(x.rest) ensures Get(x.rest, k) == Get(y.rest, k) {
        assert Get(x, k) == Get(x.rest, k) && Get(y, k) == Get(y.rest, k);
      }
      AscendingUnique(x.rest, y.rest);
    }
  }

  /*** The order of names, in words ***/

  function Power(n: nat): nat {
    if n == 0 then 1 else 10 * Power(n - 1)
  }

  predicate AllDigits(t: Text) {
    forall i | 0 <= i < |t| :: 48 <= t[i] <= 57
  }

  // The number a row of decimal digits stands for.
  function Numeral(t: Text): int
    requires AllDigits(t)
  {
    if t == [] then 0 else (t[0] - 48) * Power(|t| - 1) + Numeral(t[1..])
  }

  lemma {:induction false} NumeralBounds(t: Text)
    requires AllDigits(t)
    ensures 0 <= Numeral(t) < Power(|t|)
  {
    if t != [] {
      NumeralBounds(t[1..]);
      var d, p := t[0] - 48, Power(|t| - 1);
      hide Power, Numeral;
      NumeralStep(t);
      DigitTimes(0, d, p);
      DigitTimes(d, 9, p);
      PowerStep(|t|);
    }
  }

  lemma NumeralStep(t: Text)
    requires AllDigits(t) && t != []
    ensures Numeral(t) == (t[0] - 48) * Power(|t| - 1) + Numeral(t[1..])
  {
  }

  lemma PowerStep(n: nat)
    requires n > 0
    ensures Power(n) == 10 * Power(n - 1)
  {
  }

  lemma {:induction false} DigitTimes(d: nat, e: nat, p: nat)
    requires d <= e
    ensures d * p <= e * p && (d < e ==> d * p + p <= e * p)
  {
    if d < e {
      DigitTimes(d, e - 1, p);
      assert e * p == (e - 1) * p + p;
    }
  }

  /** Rows of digits of one length are compared as their numbers. */
  lemma {:induction false} NumeralLex(a: Text, b: Text)
    requires AllDigits(a) && AllDigits(b) && |a| == |b|
    ensures Lex(a, b) <==> Numeral(a) < Numeral(b)
  {
    if a != [] {
      NumeralLex(a[1..], b[1..]);
      NumeralBounds(a[1..]);
      NumeralBounds(b[1..]);
      var p := Power(|a| - 1);
      if a[0] < b[0] {
        DigitTimes(a[0] - 48, b[0] - 48, p);
      } else if b[0] < a[0] {
        DigitTimes(b[0] - 48, a[0] - 48, p);
      }
    }
  }

  lemma {:induction false} PowerGrows(m: nat, n: nat)
    requires m <= n
    ensures 1 <= Power(m) <= Power(n)
  {
    if m < n {
      PowerGrows(m, n - 1);
    } else if m > 0 {
      PowerGrows(m - 1, n - 1);
    }
  }

  // Without a leading zero the longer row is the larger number.
  lemma NumeralLength(a: Text, b: Text)
    requires AllDigits(a) && AllDigits(b) && |a| < |b| && b[0] != 48
    ensures Numeral(a) < Numeral(b)
  {
    hide Power, Numeral;
    NumeralBounds(a);
    NumeralBounds(b[1..]);
    NumeralStep(b);
    PowerGrows(|a|, |b| - 1);
    DigitTimes(1, b[0] - 48, Power(|b| - 1));
  }

  predicate CanonicalDigits(k: Text) {
    |k| > 0 && AllDigits(k) && (|k| == 1 || k[0] != 48)
  }

  lemma PowersOfTen()
    ensures Power(0) == 1 && Power(1) == 10 && Power(2) == 100 && Power(3) == 1000 && Power(4) == 10000
    ensures Power(5) == 100000 && Power(6) == 1000000 && Power(7) == 10000000 && Power(8) == 100000000
    ensures Power(9) == 1000000000
  {
    hide Power;
    PowerZero();
    PowerStep(1);
    PowerStep(2);
    PowerStep(3);
    PowerStep(4);
    PowerStep(5);
    PowerStep(6);
    PowerStep(7);
    PowerStep(8);
    PowerStep(9);
  }

  lemma PowerZero()
    ensures Power(0) == 1
  {
  }

  // One digit in front of a row whose number is known.
  lemma DigitInFront(digit: CodeUnit, t: Text, power: nat, value: int)
    requires 48 <= digit <= 57 && AllDigits(t) && Power(|t|) == power && Numeral(t) == value
    ensures AllDigits([digit] + t) && Numeral([digit] + t) == (digit - 48) * power + value
  {
    hide Power, Numeral;
    assert ([digit] + t)[1..] == t;
    NumeralStep([digit] + t);
  }

  lemma NoDigits()
    ensures AllDigits([]) && Numeral([]) == 0
  {
  }

  lemma LastIndexDigits() returns (t: Text)
    ensures t == [52, 50, 57, 52, 57, 54, 55, 50, 57, 53]
    ensures AllDigits(t) && Numeral(t) == 4294967295
  {
    hide Power, Numeral, AllDigits;
    PowersOfTen();
    NoDigits();
    var t0: Text := [];
    DigitInFront(53, t0, 1, 0);
    var t1: Text := [53] + t0;
    DigitInFront(57, t1, 10, 5);
    var t2: Text := [57] + t1;
    DigitInFront(50, t2, 100, 95);
    var t3: Text := [50] + t2;
    DigitInFront(55, t3, 1000, 295);
    var t4: Text := [55] + t3;
    DigitInFront(54, t4, 10000, 7295);
    var t5: Text := [54] + t4;
    DigitInFront(57, t5, 100000, 67295);
    var t6: Text := [57] + t5;
    DigitInFront(52, t6, 1000000, 967295);
    var t7: Text := [52] + t6;
    DigitInFront(57, t7, 10000000, 4967295);
    var t8: Text := [57] + t7;
    DigitInFront(50, t8, 100000000, 94967295);
    var t9: Text := [50] + t8;
    DigitInFront(52, t9, 1000000000, 294967295);
    var t10: Text := [52] + t9;
    t := t10;
  }

  lemma LastIndex()
    ensures AllDigits(Ascii("4294967295")) && |Ascii("4294967295")| == 10
    ensures Numeral(Ascii("4294967295")) == 4294967295 && Power(9) == 1000000000
  {
    assert Ascii("4294967295") == [52, 50, 57, 52, 57, 54, 55, 50, 57, 53];
    hide Power, Numeral, AllDigits, Ascii;
    PowersOfTen();
    var t := LastIndexDigits();
  }

  /** Index-like names are the canonical decimals of the numbers below 2^32 - 1. */
  lemma IndexNames(k: Text)
    ensures IsIndex(k) <==> CanonicalDigits(k) && Numeral(k) < 4294967295
  {
    if CanonicalDigits(k) {
      LastIndex();
      if |k| == 10 {
        NumeralLex(k, Ascii("4294967295"));
      } else if |k| < 10 {
        NumeralBounds(k);
        PowerGrows(|k|, 9);
      } else {
        NumeralLength(Ascii("4294967295"), k);
      }
    }
  }

  // The first difference decides: a smaller unit, or the end of the name.
  ghost predicate FirstDiffers(a: Text, b: Text) {
    exists n: nat | n <= |a| && n < |b| :: a[..n] == b[..n] && (n == |a| || a[n] < b[n])
  }

  lemma {:induction false} LexMeans(a: Text, b: Text)
    ensures Lex(a, b) <==> FirstDiffers(a, b)
  {
    if Lex(a, b) {
      if a == [] || a[0] < b[0] {
        assert a[..0] == b[..0];
      } else {
        LexMeans(a[1..], b[1..]);
        var n: nat :| n <= |a[1..]| && n < |b[1..]| && a[1..][..n] == b[1..][..n]
                      && (n == |a[1..]| || a[1..][n] < b[1..][n]);
        assert a[..n + 1] == [a[0]] + a[1..][..n] && b[..n + 1] == [b[0]] + b[1..][..n];
      }
    }
    if FirstDiffers(a, b) && a != [] {
      var n: nat :| n <= |a| && n < |b| && a[..n] == b[..n] && (n == |a| || a[n] < b[n]);
      if n > 0 {
        assert a[0] == a[..n][0] && b[0] == b[..n][0];
        assert a[1..][..n - 1] == a[..n][1..] && b[1..][..n - 1] == b[..n][1..];
        assert FirstDiffers(a[1..], b[1..]);
        LexMeans(a[1..], b[1..]);
      }
    }
  }

  // A name that the source language takes for an array index.
  predicate IndexLike(k: Text) {
    CanonicalDigits(k) && Numeral(k) < 4294967295
  }

  // The order in which names are printed: indices by their numbers, then the others by their first difference.
  ghost predicate PrintedBefore(a: Text, b: Text) {
    if IndexLike(a) then IndexLike(b) ==> Numeral(a) < Numeral(b) else !IndexLike(b) && FirstDiffers(a, b)
  }

  lemma BeforeMeans(a: Text, b: Text)
    ensures Before(a, b) <==> PrintedBefore(a, b)
  {
    IndexNames(a);
    IndexNames(b);
    LexMeans(a, b);
    hide FirstDiffers;
    if IndexLike(a) && IndexLike(b) {
      if |a| == |b| {
        NumeralLex(a, b);
      } else if |a| < |b| {
        NumeralLength(a, b);
      } else {
        NumeralLength(b, a);
      }
    }
  }

  function NamesOf(ms: Members): seq<Text> {
    if ms.Done? then [] else [ms.key] + NamesOf(ms.rest)
  }

  lemma {:induction false} NamesAreKeys(ms: Members)
    ensures forall k :: k in NamesOf(ms) <==> k in Keys(ms)
  {
    if ms.Member? {
      NamesAreKeys(ms.rest);
    }
  }

  lemma {:induction false} AscendingNames(ms: Members, i: nat, j: nat)
    requires Ascending(ms) && i < j < |NamesOf(ms)|
    ensures Before(NamesOf(ms)[i], NamesOf(ms)[j])
  {
    hide Before;
    if i > 0 {
      AscendingNames(ms.rest, i - 1, j - 1);
    } else {
      NamesAreKeys(ms.rest);
      assert NamesOf(ms)[j] == NamesOf(ms.rest)[j - 1];
      assert NamesOf(ms.rest)[j - 1] in NamesOf(ms.rest);
    }
  }

  /**
   An object is printed with all its names, index-like ones first and by number, the others with the smaller first
   differing unit, or the proper prefix, first.
   */
  lemma NamesInOrder(ms: Members, i: nat, j: nat)
    requires PlainMembers(ms) && i < j < |NamesOf(OrderedMembers(ms))|
    ensures PrintedBefore(NamesOf(OrderedMembers(ms))[i], NamesOf(OrderedMembers(ms))[j])
    ensures forall k :: k in NamesOf(OrderedMembers(ms)) <==> k in NamesOf(ms)
  {
    hide PrintedBefore, Before, Ascending, OrderedMembers;
    OrderedMembersShape(ms);
    AscendingNames(OrderedMembers(ms), i, j);
    BeforeMeans(NamesOf(OrderedMembers(ms))[i], NamesOf(OrderedMembers(ms))[j]);
    NamesAreKeys(ms);
    NamesAreKeys(OrderedMembers(ms));
  }

  /*** Printing ***/

  predicate High(u: CodeUnit) { 0xD800 <= u <= 0xDBFF }

  predicate Low(u: CodeUnit) { 0xDC00 <= u <= 0xDFFF }

  predicate Surrogate(u: CodeUnit) { High(u) || Low(u) }

  function HexDigit(d: int): CodeUnit
    requires 0 <= d < 16
  {
    if d < 10 then 48 + d else 87 + d
  }

  function Hex4(u: CodeUnit): (r: Text)
    ensures |r| == 4
  {
    [HexDigit(u / 16 / 16 / 16), HexDigit(u / 16 / 16 % 16), HexDigit(u / 16 % 16), HexDigit(u % 16)]
  }

  /** Units printed as a backslash and one letter. */
  function Short(u: CodeUnit): (r: CodeUnit)
    ensures r != 117
  {
    if u == 34 then 34
    else if u == 92 then 92
    else if u == 8 then 98
    else if u == 9 then 116
    else if u == 10 then 110
    else if u == 12 then 102
    else if u == 13 then 114
    else 0
  }

  /** One unit that is not part of a surrogate pair, as section 7 of RFC 8259 lets it be written. */
  function EscapeUnit(u: CodeUnit): (r: Text)
    ensures 1 <= |r|
  {
    if Short(u) != 0 then [92, Short(u)]
    else if u < 32 || Surrogate(u) then [92, 117] + Hex4(u)
    else [u]
  }

  /**
   Quotes, backslashes and five control characters take two units, other control characters and lone surrogates six
   with lower-case digits, and every other unit stands for itself. Which unit an escape means, TextReads says.
   */
  lemma EscapedUnit(u: CodeUnit)
    ensures var e := EscapeUnit(u);
            if u in {8, 9, 10, 12, 13, 34, 92} then |e| == 2
            else if u < 32 || 0xD800 <= u <= 0xDFFF
            then |e| == 6 && forall i | 2 <= i < 6 :: 48 <= e[i] <= 57 || 97 <= e[i] <= 102
            else e == [u]
  {
  }

  predicate PairAt(t: Text) {
    |t| > 1 && High(t[0]) && Low(t[1])
  }

  function Escape(t: Text): Text {
    if t == [] then []
    else if PairAt(t) then [t[0], t[1]] + Escape(t[2..])
    else EscapeUnit(t[0]) + Escape(t[1..])
  }

  function Quote(t: Text): Text {
    [34] + Escape(t) + [34]
  }

  function Print(v: Json): (t: Text)
    ensures t != []
  {
    match v
    case Null => Ascii("null")
    case Bool(b) => if b then Ascii("true") else Ascii("false")
    case Num(lit) => lit
    case Str(text) => Quote(text)
    case Arr(items) => [91] + PrintItems(items) + [93]
    case Obj(ms) => [123] + PrintMembers(ms) + [125]
  }

  function PrintItems(items: Items): Text {
    match items
    case Empty => []
    case Item(h, t) => Print(h) + (if t.Empty? then [] else [44] + PrintItems(t))
  }

  function PrintMembers(ms: Members): Text {
    match ms
    case Done => []
    case Member(k, v, rest) =>
      Quote(k) + [58] + Print(v) + (if rest.Done? then [] else [44] + PrintMembers(rest))
  }

  /** The canonical text of a value. */
  function Canonical(v: Json): Text {
    Print(Ordered(v))
  }

  /*** Reading, after the grammar of RFC 8259 sections 4 to 7 ***/

  function HexValue(u: CodeUnit): Option<int> {
    if 48 <= u <= 57 then Some(u - 48)
    else if 97 <= u <= 102 then Some(u - 87)
    else if 65 <= u <= 70 then Some(u - 55)
    else None
  }

  function ReadHex4(t: Text): Option<CodeUnit>
    requires |t| == 4
  {
    var a, b, c, d := HexValue(t[0]), HexValue(t[1]), HexValue(t[2]), HexValue(t[3]);
    if a.None? || b.None? || c.None? || d.None? then None
    else
      var n := ((a.value * 16 + b.value) * 16 + c.value) * 16 + d.value;
      if 0 <= n < 0x10000 then Some(n) else None
  }

  // The unit a backslash and one letter stand for.
  function Long(u: CodeUnit): Option<CodeUnit> {
    if u == 34 || u == 92 || u == 47 then Some(u)
    else if u == 98 then Some(8)
    else if u == 102 then Some(12)
    else if u == 110 then Some(10)
    else if u == 114 then Some(13)
    else if u == 116 then Some(9)
    else None
  }

  function Prepend(u: CodeUnit, r: Option<(Text, Text)>): Option<(Text, Text)> {
    if r.None? then None else Some(([u] + r.value.0, r.value.1))
  }

  /** The text of a string after its opening quote, and what follows the closing one. */
  function ReadText(t: Text): (r: Option<(Text, Text)>)
    ensures r.Some? ==> |r.value.1| < |t|
    decreases |t|
  {
    if t == [] then None
    else if t[0] == 34 then Some(([], t[1..]))
    else if t[0] == 92 then
      if |t| >= 6 && t[1] == 117 then
        var u := ReadHex4(t[2..6]);
        if u.None? then None else Prepend(u.value, ReadText(t[6..]))
      else if |t| >= 2 && Long(t[1]).Some? then Prepend(Long(t[1]).value, ReadText(t[2..]))
      else None
    else if t[0] < 32 then None
    else Prepend(t[0], ReadText(t[1..]))
  }

  function NumberLength(t: Text): (n: nat)
    ensures n <= |t|
    ensures forall i | 0 <= i < n :: NumberUnit(t[i])
    ensures n < |t| ==> !NumberUnit(t[n])
  {
    if t == [] || !NumberUnit(t[0]) then 0 else 1 + NumberLength(t[1..])
  }

  function ReadNumber(t: Text): (r: Option<(Json, Text)>)
    ensures r.Some? ==> |r.value.1| < |t|
  {
    var n := NumberLength(t);
    if n == 0 then None
    else
      var lit: Literal := t[..n];
      Some((Num(lit), t[n..]))
  }

  predicate StartsWith(t: Text, s: string) {
    |t| >= |s| && t[..|s|] == Ascii(s)
  }

  function ReadValue(t: Text): (r: Option<(Json, Text)>)
    ensures r.Some? ==> |r.value.1| < |t|
    decreases |t|, 1
  {
    if t == [] then None
    else if t[0] == 34 then
      var r := ReadText(t[1..]);
      if r.None? then None else Some((Str(r.value.0), r.value.1))
    else if t[0] == 91 then
      if |t| > 1 && t[1] == 93 then Some((Arr(Empty), t[2..]))
      else
        var r := ReadItems(t[1..]);
        if r.None? then None else Some((Arr(r.value.0), r.value.1))
    else if t[0] == 123 then
      if |t| > 1 && t[1] == 125 then Some((Obj(Done), t[2..]))
      else
        var r := ReadMembers(t[1..]);
        if r.None? then None else Some((Obj(r.value.0), r.value.1))
    else if StartsWith(t, "null") then Some((Null, t[4..]))
    else if StartsWith(t, "true") then Some((Bool(true), t[4..]))
    else if StartsWith(t, "false") then Some((Bool(false), t[5..]))
    else ReadNumber(t)
  }

  // At least one item, up to the closing bracket.
  function ReadItems(t: Text): (r: Option<(Items, Text)>)
    ensures r.Some? ==> |r.value.1| < |t|
    decreases |t|, 2
  {
    var head := ReadValue(t);
    if head.None? || head.value.1 == [] then None
    else
      var rest := head.value.1;
      if rest[0] == 93 then Some((Item(head.value.0, Empty), rest[1..]))
      else if rest[0] == 44 then
        var tail := ReadItems(rest[1..]);
        if tail.None? then None else Some((Item(head.value.0, tail.value.0), tail.value.1))
      else None
  }

  // At least one member, up to the closing brace.
  function ReadMembers(t: Text): (r: Option<(Members, Text)>)
    ensures r.Some? ==> |r.value.1| < |t|
    decreases |t|, 2
  {
    if t == [] || t[0] != 34 then None
    else
      var key := ReadText(t[1..]);
      if key.None? || key.value.1 == [] || key.value.1[0] != 58 then None
      else
        var value := ReadValue(key.value.1[1..]);
        if value.None? || value.value.1 == [] then None
        else
          var rest := value.value.1;
          if rest[0] == 125 then Some((Member(key.value.0, value.value.0, Done), rest[1..]))
          else if rest[0] == 44 then
            var tail := ReadMembers(rest[1..]);
            if tail.None? then None else Some((Member(key.value.0, value.value.0, tail.value.0), tail.value.1))
          else None
  }

  /*** Printed values are read back ***/

  lemma DigitReads(d: int)
    requires 0 <= d < 16
    ensures HexValue(HexDigit(d)) == Some(d)
  {
  }

  lemma Digits16(u: int)
    requires 0 <= u < 0x10000
    ensures 0 <= u / 16 / 16 / 16 < 16
    ensures ((u / 16 / 16 / 16 * 16 + u / 16 / 16 % 16) * 16 + u / 16 % 16) * 16 + u % 16 == u
  {
  }

  lemma HexReads(u: CodeUnit)
    ensures ReadHex4(Hex4(u)) == Some(u)
  {
    hide HexDigit, HexValue;
    Digits16(u);
    DigitReads(u / 16 / 16 / 16);
    DigitReads(u / 16 / 16 % 16);
    DigitReads(u / 16 % 16);
    DigitReads(u % 16);
  }

  lemma Assoc(a: Text, b: Text, c: Text)
    ensures (a + b) + c == a + (b + c)
  {
  }

  lemma Bracketed(u: CodeUnit, m: Text, w: CodeUnit, x: Text)
    ensures ([u] + m + [w]) + x == [u] + (m + ([w] + x))
  {
  }

  // One escaped unit in front of a text.
  lemma UnitReads(u: CodeUnit, x: Text)
    ensures ReadText(EscapeUnit(u) + x) == Prepend(u, ReadText(x))
  {
    var t := EscapeUnit(u) + x;
    if Short(u) != 0 {
      assert t[2..] == x && t[0] == 92 && t[1] == Short(u);
    } else if u < 32 || Surrogate(u) {
      assert t[2..6] == Hex4(u) && t[6..] == x;
      HexReads(u);
    } else {
      assert t[1..] == x;
    }
  }

  // One raw unit in front of a text.
  lemma RawReads(u: CodeUnit, x: Text)
    requires u >= 32 && u != 34 && u != 92
    ensures ReadText([u] + x) == Prepend(u, ReadText(x))
  {
    assert ([u] + x)[1..] == x;
  }

  lemma EscapeStarts(t: Text, x: Text)
    ensures t == [] ==> Escape(t) + x == x
    ensures t != [] && !PairAt(t) ==> Escape(t) + x == EscapeUnit(t[0]) + (Escape(t[1..]) + x)
    ensures PairAt(t) ==> Escape(t) + x == [t[0]] + ([t[1]] + (Escape(t[2..]) + x))
  {
    if t != [] && !PairAt(t) {
      Assoc(EscapeUnit(t[0]), Escape(t[1..]), x);
    }
  }

  /** An escaped text reads back up to its closing quote. */
  lemma {:induction false} TextReads(t: Text, x: Text)
    ensures ReadText(Escape(t) + ([34] + x)) == Some((t, x))
    decreases |t|
  {
    hide Escape, EscapeUnit, ReadText;
    EscapeStarts(t, [34] + x);
    if t == [] {
      QuoteReads(x);
    } else if PairAt(t) {
      TextReads(t[2..], x);
      RawReads(t[1], Escape(t[2..]) + ([34] + x));
      RawReads(t[0], [t[1]] + (Escape(t[2..]) + ([34] + x)));
      assert [t[0]] + ([t[1]] + t[2..]) == t;
    } else {
      TextReads(t[1..], x);
      UnitReads(t[0], Escape(t[1..]) + ([34] + x));
      assert [t[0]] + t[1..] == t;
    }
  }

  lemma QuoteReads(x: Text)
    ensures ReadText([34] + x) == Some(([], x))
  {
    assert ([34] + x)[1..] == x;
  }

  /** What may follow a value inside a text: nothing, a comma or a closing bracket. */
  predicate Delimited(x: Text) {
    x == [] || x[0] == 44 || x[0] == 93 || x[0] == 125
  }

  lemma NumberReads(lit: Literal, x: Text)
    requires Delimited(x)
    ensures ReadNumber(lit + x) == Some((Num(lit), x))
  {
    var t := lit + x;
    assert forall i | 0 <= i < |lit| :: NumberUnit(lit[i]) && t[i] == lit[i];
    assert x != [] ==> t[|lit|] == x[0] && !NumberUnit(x[0]);
    assert NumberLength(t) == |lit|;
    assert t[..|lit|] == lit && t[|lit|..] == x;
  }

  lemma WordReads(v: Json, x: Text)
    requires v.Null? || v.Bool?
    ensures ReadValue(Print(v) + x) == Some((v, x))
  {
    var t := Print(v) + x;
    assert t[0] == Print(v)[0];
    assert t[|Print(v)|..] == x;
    if |t| >= 4 {
      assert t[..4][0] == t[0];
      assert Ascii("null")[0] == 110 && Ascii("true")[0] == 116 && Ascii("false")[0] == 102;
    }
    assert t[..|Print(v)|] == Print(v);
  }

  lemma NumberStarts(lit: Literal, x: Text)
    ensures var t := lit + x;
            && t[0] !in {34, 91, 123}
            && !StartsWith(t, "null") && !StartsWith(t, "true") && !StartsWith(t, "false")
  {
    var t := lit + x;
    assert t[0] == lit[0] && NumberUnit(lit[0]);
    assert Ascii("null")[0] == 110 && Ascii("true")[0] == 116 && Ascii("false")[0] == 102;
    assert |t| >= 4 ==> t[..4][0] == t[0];
    assert |t| >= 5 ==> t[..5][0] == t[0];
  }

  lemma FirstUnit(v: Json)
    ensures Print(v)[0] !in {93, 125, 44}
  {
    if v.Num? {
      assert NumberUnit(v.lit[0]);
    }
  }

  // Everything after an opening bracket.
  function Inside(v: Json, x: Text): Text
    requires v.Arr? || v.Obj?
  {
    if v.Arr? then PrintItems(v.items) + ([93] + x) else PrintMembers(v.members) + ([125] + x)
  }

  lemma Unwrap(v: Json, x: Text)
    requires v.Arr? || v.Obj?
    ensures Print(v) + x == [if v.Arr? then 91 else 123] + Inside(v, x)
  {
    if v.Arr? {
      Bracketed(91, PrintItems(v.items), 93, x);
    } else {
      Bracketed(123, PrintMembers(v.members), 125, x);
    }
  }

  // What follows the first item, and what follows the first member.
  function AfterItem(items: Items, x: Text): Text
    requires items.Item?
  {
    if items.tail.Empty? then [93] + x else [44] + (PrintItems(items.tail) + ([93] + x))
  }

  function AfterMember(ms: Members, x: Text): Text
    requires ms.Member?
  {
    if ms.rest.Done? then [125] + x else [44] + (PrintMembers(ms.rest) + ([125] + x))
  }

  lemma SplitItems(items: Items, x: Text)
    ensures items.Empty? ==> PrintItems(items) + ([93] + x) == [93] + x
    ensures items.Item? ==> PrintItems(items) + ([93] + x) == Print(items.head) + AfterItem(items, x)
    ensures (PrintItems(items) + ([93] + x))[0] == 93 <==> items.Empty?
  {
    if items.Item? {
      FirstUnit(items.head);
      var rest := if items.tail.Empty? then [] else [44] + PrintItems(items.tail);
      Assoc([44], PrintItems(items.tail), [93] + x);
      assert rest + ([93] + x) == AfterItem(items, x);
      Assoc(Print(items.head), rest, [93] + x);
    } else {
      assert PrintItems(items) + ([93] + x) == [93] + x;
    }
  }

  lemma SplitMembers(ms: Members, x: Text)
    ensures ms.Done? ==> PrintMembers(ms) + ([125] + x) == [125] + x
    ensures ms.Member? ==>
              PrintMembers(ms) + ([125] + x)
              == [34] + (Escape(ms.key) + ([34] + ([58] + (Print(ms.value) + AfterMember(ms, x)))))
    ensures (PrintMembers(ms) + ([125] + x))[0] == 125 <==> ms.Done?
  {
    hide Print, Escape, PrintMembers;
    if ms.Member? {
      var k, v := Escape(ms.key), Print(ms.value);
      var rest := if ms.rest.Done? then [] else [44] + PrintMembers(ms.rest);
      var tail := [125] + x;
      MembersText(ms);
      Assoc([44], PrintMembers(ms.rest), tail);
      assert rest + tail == AfterMember(ms, x);
      Assoc([34] + k + [34] + [58] + v, rest, tail);
      Assoc([34] + k + [34] + [58], v, rest + tail);
      Assoc([34] + k + [34], [58], v + (rest + tail));
      Assoc([34] + k, [34], [58] + (v + (rest + tail)));
      Assoc([34], k, [34] + ([58] + (v + (rest + tail))));
    } else {
      NoMembersText(x);
    }
  }

  lemma MembersText(ms: Members)
    requires ms.Member?
    ensures PrintMembers(ms)
            == [34] + Escape(ms.key) + [34] + [58] + Print(ms.value)
               + (if ms.rest.Done? then [] else [44] + PrintMembers(ms.rest))
  {
  }

  lemma NoMembersText(x: Text)
    ensures PrintMembers(Done) + ([125] + x) == [125] + x
  {
  }

  /** Every printed value reads back as itself, up to whatever delimiter follows. */
  lemma {:induction false} ValueReads(v: Json, x: Text)
    requires Delimited(x)
    ensures ReadValue(Print(v) + x) == Some((v, x))
    decreases v, 0
  {
    hide Escape, ReadText, ReadNumber, ReadItems, ReadMembers, StartsWith, PrintItems, PrintMembers;
    match v
    case Null => WordReads(v, x);
    case Bool(_) => WordReads(v, x);
    case Num(lit) =>
      NumberStarts(lit, x);
      NumberReads(lit, x);
    case Str(text) =>
      Bracketed(34, Escape(text), 34, x);
      TextReads(text, x);
      After(34, Escape(text) + ([34] + x));
    case Arr(items) =>
      Unwrap(v, x);
      SplitItems(items, x);
      After(91, PrintItems(items) + ([93] + x));
      if items.Item? {
        ItemsRead(items, x);
      } else {
        After(93, x);
        Twice(91, 93, x);
      }
    case Obj(ms) =>
      Unwrap(v, x);
      SplitMembers(ms, x);
      After(123, PrintMembers(ms) + ([125] + x));
      if ms.Member? {
        MembersRead(ms, x);
      } else {
        After(125, x);
        Twice(123, 125, x);
      }
  }

  lemma After(u: CodeUnit, x: Text)
    ensures ([u] + x)[0] == u && ([u] + x)[1..] == x
  {
  }

  lemma Twice(u: CodeUnit, w: CodeUnit, x: Text)
    ensures var t := [u] + ([w] + x); |t| > 1 && t[1] == w && t[2..] == x
  {
  }

  lemma {:induction false} ItemsRead(items: Items, x: Text)
    requires items.Item?
    ensures ReadItems(PrintItems(items) + ([93] + x)) == Some((items, x))
    decreases items, 1
  {
    hide Print, ReadValue, PrintItems;
    SplitItems(items, x);
    ValueReads(items.head, AfterItem(items, x));
    if items.tail.Empty? {
      After(93, x);
    } else {
      After(44, PrintItems(items.tail) + ([93] + x));
      ItemsRead(items.tail, x);
    }
  }

  lemma {:induction false} MembersRead(ms: Members, x: Text)
    requires ms.Member?
    ensures ReadMembers(PrintMembers(ms) + ([125] + x)) == Some((ms, x))
    decreases ms, 1
  {
    hide Print, ReadValue, ReadText, Escape, PrintMembers;
    SplitMembers(ms, x);
    var after := Print(ms.value) + AfterMember(ms, x);
    After(34, Escape(ms.key) + ([34] + ([58] + after)));
    TextReads(ms.key, [58] + after);
    After(58, after);
    ValueReads(ms.value, AfterMember(ms, x));
    if ms.rest.Done? {
      After(125, x);
    } else {
      After(44, PrintMembers(ms.rest) + ([125] + x));
      MembersRead(ms.rest, x);
    }
  }

  /** The canonical text is JSON for the same value with its members in order. */
  lemma CanonicalReads(v: Json)
    ensures ReadValue(Canonical(v)) == Some((Ordered(v), []))
  {
    assert Print(Ordered(v)) + [] == Print(Ordered(v));
    ValueReads(Ordered(v), []);
  }

  /*** Canonical text decides equality ***/

  lemma {:induction false} GetPlain(ms: Members, k: Text)
    requires PlainMembers(ms) && k in Keys(ms)
    ensures Plain(Get(ms, k))
  {
    if ms.key != k {
      GetPlain(ms.rest, k);
    }
  }

  /** Ordering identifies exactly the values that differ only in the order of members. */
  lemma {:induction false} OrderedDecides(a: Json, b: Json)
    requires Plain(a) && Plain(b)
    ensures Ordered(a) == Ordered(b) <==> Same(a, b)
    decreases a, 0
  {
    match (a, b)
    case (Arr(x), Arr(y)) =>
      OrderedItemsDecide(x, y);
    case (Obj(x), Obj(y)) =>
      OrderedMembersShape(x);
      OrderedMembersShape(y);
      SameMembersDecide(x, y);
      if Keys(x) == Keys(y) && SameMembers(x, y) {
        AscendingUnique(OrderedMembers(x), OrderedMembers(y));
      }
    case (_, _) =>
  }

  lemma {:induction false} OrderedItemsDecide(x: Items, y: Items)
    requires PlainItems(x) && PlainItems(y)
    ensures OrderedItems(x) == OrderedItems(y) <==> SameItems(x, y)
    decreases x, 1
  {
    if x.Item? && y.Item? {
      OrderedDecides(x.head, y.head);
      OrderedItemsDecide(x.tail, y.tail);
    }
  }

  lemma {:induction false} SameMembersDecide(x: Members, y: Members)
    requires PlainMembers(x) && PlainMembers(y)
    ensures SameMembers(x, y) <==>
            Keys(x) <= Keys(y) && forall k | k in Keys(x) :: Ordered(Get(x, k)) == Ordered(Get(y, k))
    decreases x, 1
  {
    if x.Member? {
      SameMembersDecide(x.rest, y);
      if x.key in Keys(y) {
        GetPlain(y, x.key);
        OrderedDecides(x.value, Get(y, x.key));
      }
      forall k | k in Keys(x.rest) ensures Get(x, k) == Get(x.rest, k) {
      }
      assert Get(x, x.key) == x.value && x.key in Keys(x);
      if Keys(x) <= Keys(y) && (forall k | k in Keys(x) :: Ordered(Get(x, k)) == Ordered(Get(y, k))) {
        forall k | k in Keys(x.rest) ensures Ordered(Get(x.rest, k)) == Ordered(Get(y, k)) {
          assert k in Keys(x) && Get(x, k) == Get(x.rest, k);
        }
      }
    }
  }

  /** Two canonical texts are equal exactly when the values are equal up to the order of members. */
  lemma CanonicalDecidesEquality(a: Json, b: Json)
    requires Plain(a) && Plain(b)
    ensures Canonical(a) == Canonical(b) <==> Same(a, b)
  {
    OrderedDecides(a, b);
    CanonicalReads(a);
    CanonicalReads(b);
  }

  /*** Size in UTF-8 bytes ***/

  /** Bytes of the UTF-8 form; a lone surrogate is encoded as the three-byte replacement character. */
  function Utf8(t: Text): nat {
    if t == [] then 0
    else if PairAt(t) then 4 + Utf8(t[2..])
    else (if t[0] < 0x80 then 1 else if t[0] < 0x800 then 2 else 3) + Utf8(t[1..])
  }

  type Byte = b: int | 0 <= b < 0x100

  // A byte with the last six bits of a number.
  function Sextet(n: nat): (b: Byte)
    ensures n == n / 64 * 64 + (b - 0x80)
  {
    0x80 + n % 64
  }

  // A unit outside a pair, in one, two or three bytes (section 3 of RFC 3629).
  function UnitBytes(u: CodeUnit): seq<Byte> {
    if u < 0x80 then [u]
    else if u < 0x800 then [0xC0 + u / 64, Sextet(u)]
    else if Surrogate(u) then [0xEF, 0xBF, 0xBD]
    else [0xE0 + u / 64 / 64, Sextet(u / 64), Sextet(u)]
  }

  // The code point of a pair, in four bytes.
  function CodePoint(high: CodeUnit, low: CodeUnit): nat
    requires High(high) && Low(low)
  {
    0x10000 + (high - 0xD800) * 1024 + (low - 0xDC00)
  }

  function PairBytes(high: CodeUnit, low: CodeUnit): seq<Byte>
    requires High(high) && Low(low)
  {
    var c := CodePoint(high, low);
    [0xF0 + c / 64 / 64 / 64, Sextet(c / 64 / 64), Sextet(c / 64), Sextet(c)]
  }

  function Bytes(t: Text): seq<Byte> {
    if t == [] then []
    else if PairAt(t) then PairBytes(t[0], t[1]) + Bytes(t[2..])
    else UnitBytes(t[0]) + Bytes(t[1..])
  }

  function Clip(n: int): CodeUnit {
    if 0 <= n < 0x10000 then n else 0
  }

  // The number a byte adds to what the bytes before it have given.
  function Shifted(n: int, b: Byte): int {
    n * 64 + b as int - 0x80
  }

  // The first byte tells how many bytes make up a character.
  function Decoded(b: seq<Byte>): Text {
    if b == [] then []
    else
      var first := b[0] as int;
      if first < 0x80 then [first] + Decoded(b[1..])
      else if first < 0xE0 && |b| >= 2 then [Clip(Shifted(first - 0xC0, b[1]))] + Decoded(b[2..])
      else if first < 0xF0 && |b| >= 3 then [Clip(Shifted(Shifted(first - 0xE0, b[1]), b[2]))] + Decoded(b[3..])
      else if |b| >= 4 then
        var c := Shifted(Shifted(Shifted(first - 0xF0, b[1]), b[2]), b[3]) - 0x10000;
        [Clip(0xD800 + c / 1024), Clip(0xDC00 + c % 1024)] + Decoded(b[4..])
      else []
  }

  // No surrogate stands outside a pair.
  predicate Paired(t: Text) {
    t == [] || (if PairAt(t) then Paired(t[2..]) else !Surrogate(t[0]) && Paired(t[1..]))
  }

  lemma UnitDecodes(u: CodeUnit, rest: seq<Byte>)
    requires !Surrogate(u)
    ensures Decoded(UnitBytes(u) + rest) == [u] + Decoded(rest)
  {
    var b := UnitBytes(u);
    assert (b + rest)[|b|..] == rest;
    hide Sextet;
  }

  lemma PointParts(high: CodeUnit, low: CodeUnit)
    requires High(high) && Low(low)
    ensures var c := CodePoint(high, low) - 0x10000; c / 1024 == high - 0xD800 && c % 1024 == low - 0xDC00
  {
  }

  lemma PairDecodes(high: CodeUnit, low: CodeUnit, rest: seq<Byte>)
    requires High(high) && Low(low)
    ensures Decoded(PairBytes(high, low) + rest) == [high, low] + Decoded(rest)
  {
    hide Sextet, CodePoint;
    var b := PairBytes(high, low);
    assert (b + rest)[4..] == rest;
    PointParts(high, low);
  }

  /** The size counts the bytes of an encoding from which every text without lone surrogates is read back. */
  lemma {:induction false} Utf8CountsBytes(t: Text)
    ensures Utf8(t) == |Bytes(t)|
    ensures Paired(t) ==> Decoded(Bytes(t)) == t
  {
    if t == [] {
    } else if PairAt(t) {
      Utf8CountsBytes(t[2..]);
      PairDecodes(t[0], t[1], Bytes(t[2..]));
      assert t == [t[0], t[1]] + t[2..];
    } else {
      Utf8CountsBytes(t[1..]);
      if !Surrogate(t[0]) {
        UnitDecodes(t[0], Bytes(t[1..]));
      }
      assert t == [t[0]] + t[1..];
    }
  }

  lemma {:induction false} Utf8Append(a: Text, b: Text)
    requires b == [] || !Low(b[0])
    ensures Utf8(a + b) == Utf8(a) + Utf8(b)
    decreases |a|
  {
    if a == [] {
      assert a + b == b;
    } else if PairAt(a) {
      assert (a + b)[2..] == a[2..] + b;
      Utf8Append(a[2..], b);
    } else {
      assert (a + b)[1..] == a[1..] + b;
      assert |a| == 1 && |a + b| > 1 ==> (a + b)[1] == b[0];
      assert !PairAt(a + b);
      Utf8Append(a[1..], b);
    }
  }

  /** The size of a value's text, computed without the text. */
  function Weight(v: Json): nat {
    match v
    case Null => 4
    case Bool(b) => if b then 4 else 5
    case Num(lit) => Utf8(lit)
    case Str(text) => 2 + Utf8(Escape(text))
    case Arr(items) => 2 + WeightItems(items)
    case Obj(ms) => 2 + WeightMembers(ms)
  }

  function WeightItems(items: Items): nat {
    match items
    case Empty => 0
    case Item(h, t) => Weight(h) + (if t.Empty? then 0 else 1 + WeightItems(t))
  }

  function WeightMembers(ms: Members): nat {
    match ms
    case Done => 0
    case Member(k, v, rest) =>
      3 + Utf8(Escape(k)) + Weight(v) + (if rest.Done? then 0 else 1 + WeightMembers(rest))
  }

  lemma Utf8Unit(u: CodeUnit, t: Text)
    requires u < 0x80
    ensures Utf8([u] + t) == 1 + Utf8(t)
    ensures Utf8([u]) == 1
  {
    assert ([u] + t)[1..] == t;
  }

  lemma QuoteSize(t: Text, x: Text)
    requires x == [] || !Low(x[0])
    ensures Utf8(Quote(t) + x) == 2 + Utf8(Escape(t)) + Utf8(x)
  {
    hide Utf8, Escape;
    assert Quote(t) + x == [34] + (Escape(t) + ([34] + x));
    Utf8Unit(34, Escape(t) + ([34] + x));
    Utf8Append(Escape(t), [34] + x);
    Utf8Unit(34, x);
  }

  lemma {:induction false} PrintSize(v: Json, x: Text)
    requires x == [] || !Low(x[0])
    ensures Utf8(Print(v) + x) == Weight(v) + Utf8(x)
    decreases v, 0
  {
    match v
    case Null => LiteralSize(v, x);
    case Bool(_) => LiteralSize(v, x);
    case Num(lit) =>
      Utf8Append(lit, x);
    case Str(text) =>
      QuoteSize(text, x);
    case Arr(items) =>
      Unwrap(v, x);
      Utf8Unit(91, PrintItems(items) + ([93] + x));
      ItemsSize(items, [93] + x);
      Utf8Unit(93, x);
    case Obj(ms) =>
      Unwrap(v, x);
      Utf8Unit(123, PrintMembers(ms) + ([125] + x));
      MembersSize(ms, [125] + x);
      Utf8Unit(125, x);
  }

  lemma LiteralSize(v: Json, x: Text)
    requires v.Null? || v.Bool?
    requires x == [] || !Low(x[0])
    ensures Utf8(Print(v) + x) == Weight(v) + Utf8(x)
  {
    hide Utf8, Print, Weight;
    LiteralUnits(v);
    Utf8Append(Print(v), x);
    AsciiSize(Print(v));
  }

  lemma LiteralUnits(v: Json)
    requires v.Null? || v.Bool?
    ensures |Print(v)| == Weight(v) && forall i | 0 <= i < |Print(v)| :: Print(v)[i] < 0x80
  {
  }

  /** A text of seven-bit units takes one byte a unit. */
  lemma {:induction false} AsciiSize(t: Text)
    requires forall i | 0 <= i < |t| :: t[i] < 0x80
    ensures Utf8(t) == |t|
  {
    if t != [] {
      AsciiSize(t[1..]);
    }
  }

  lemma {:induction false} ItemsSize(items: Items, x: Text)
    requires x == [] || !Low(x[0])
    ensures Utf8(PrintItems(items) + x) == WeightItems(items) + Utf8(x)
    decreases items, 1
  {
    match items
    case Empty =>
      assert PrintItems(items) + x == x;
    case Item(h, t) =>
      if t.Empty? {
        assert PrintItems(items) + x == Print(h) + x;
        PrintSize(h, x);
      } else {
        assert PrintItems(items) + x == Print(h) + ([44] + (PrintItems(t) + x));
        PrintSize(h, [44] + (PrintItems(t) + x));
        Utf8Unit(44, PrintItems(t) + x);
        ItemsSize(t, x);
      }
  }

  lemma {:induction false} MembersSize(ms: Members, x: Text)
    requires x == [] || !Low(x[0])
    ensures Utf8(PrintMembers(ms) + x) == WeightMembers(ms) + Utf8(x)
    decreases ms, 1
  {
    match ms
    case Done =>
      assert PrintMembers(ms) + x == x;
    case Member(k, v, rest) =>
      var tail := if rest.Done? then x else [44] + (PrintMembers(rest) + x);
      assert PrintMembers(ms) + x == Quote(k) + ([58] + (Print(v) + tail));
      QuoteSize(k, [58] + (Print(v) + tail));
      Utf8Unit(58, Print(v) + tail);
      PrintSize(v, tail);
      if !rest.Done? {
        Utf8Unit(44, PrintMembers(rest) + x);
        MembersSize(rest, x);
      }
  }

  lemma {:induction false} InsertWeight(k: Text, v: Json, ms: Members)
    ensures WeightMembers(Insert(k, v, ms)) == WeightMembers(Member(k, v, ms))
  {
    if ms.Member? && Before(ms.key, k) {
      InsertWeight(k, v, ms.rest);
    }
  }

  lemma {:induction false} OrderedWeight(v: Json)
    ensures Weight(Ordered(v)) == Weight(v)
    decreases v, 0
  {
    match v
    case Arr(items) => OrderedItemsWeight(items);
    case Obj(ms) => OrderedMembersWeight(ms);
    case _ =>
  }

  lemma {:induction false} OrderedItemsWeight(items: Items)
    ensures WeightItems(OrderedItems(items)) == WeightItems(items)
    decreases items, 1
  {
    if items.Item? {
      OrderedWeight(items.head);
      OrderedItemsWeight(items.tail);
    }
  }

  lemma {:induction false} OrderedMembersWeight(ms: Members)
    ensures WeightMembers(OrderedMembers(ms)) == WeightMembers(ms)
    decreases ms, 1
  {
    if ms.Member? {
      OrderedWeight(ms.value);
      OrderedMembersWeight(ms.rest);
      InsertWeight(ms.key, Ordered(ms.value), OrderedMembers(ms.rest));
    }
  }

  /** The size of a canonical text is the weight of the value, whatever the order of its members. */
  lemma CanonicalSize(v: Json)
    ensures Utf8(Canonical(v)) == Weight(v)
  {
    OrderedWeight(v);
    PrintSize(Ordered(v), []);
    assert Print(Ordered(v)) + [] == Print(Ordered(v));
  }
}
