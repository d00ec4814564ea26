/**
The nesting scanner that guards the JSON parser: it reads raw text, respects strings and their escapes,
and turns away whatever nests arrays and objects more than 16 levels deep. Beside it a grammar of JSON
texts, with the string escapes of section 7 of RFC 8259, on which the scanner is exact.
*/
module Nesting {

  const MAX_DEPTH := 16
  const MAX_SIZE := 262144

  // ----- the scanner -----

  datatype Scanner =
    | Scanning(depth: nat, quoted: bool, escaped: bool)
    | TooDeep
    | Unbalanced

  predicate Opens(c: char) { c == '{' || c == '[' }

  predicate Closes(c: char) { c == '}' || c == ']' }

  function Step(s: Scanner, c: char): Scanner {
    match s
    case Scanning(depth, quoted, escaped) =>
      if quoted then
        if escaped then Scanning(depth, true, false)
        else if c == '\\' then Scanning(depth, true, true)
        else if c == '"' then Scanning(depth, false, escaped)
        else s
      else if c == '"' then Scanning(depth, true, escaped)
      else if Opens(c) then if depth + 1 > MAX_DEPTH then TooDeep else Scanning(depth + 1, false, escaped)
      else if Closes(c) then if depth == 0 then Unbalanced else Scanning(depth - 1, false, escaped)
      else s
    case _ => s
  }

  function Scan(s: Scanner, text: string): Scanner
    decreases |text|
  {
    if text == [] then s else Scan(Step(s, text[0]), text[1..])
  }

  lemma {:induction false} ScanAppend(s: Scanner, a: string, b: string)
    ensures Scan(s, a + b) == Scan(Scan(s, a), b)
    decreases |a|
  {
    if a == [] {
      assert a + b == b;
    } else {
      ScanAppend(Step(s, a[0]), a[1..], b);
      assert (a + b)[1..] == a[1..] + b;
    }
  }

  lemma {:induction false} ScanStuck(s: Scanner, text: string)
    requires !s.Scanning?
    ensures Scan(s, text) == s
  {
    if text != [] {
      ScanStuck(s, text[1..]);
    }
  }

  const START := Scanning(0, false, false)

  /** The checks on the text before it is parsed. */
  method Prescan(text: string) returns (r: Scanner, fits: bool)
    ensures fits == (|text| <= MAX_SIZE)
    ensures fits ==> r == Scan(START, text)
  {
    if |text| > MAX_SIZE {
      return START, false;
    }
    var depth: nat, quoted, escaped := 0, false, false;
    var i := 0;
    while i < |text|
      invariant 0 <= i <= |text|
      invariant Scan(START, text) == Scan(Scanning(depth, quoted, escaped), text[i..])
    {
      var c := text[i];
      if quoted {
        if escaped {
          escaped := false;
        } else if c == '\\' {
          escaped := true;
        } else if c == '"' {
          quoted := false;
        }
      } else if c == '"' {
        quoted := true;
      } else if Opens(c) {
        if depth + 1 > MAX_DEPTH {
          ScanStuck(TooDeep, text[i + 1..]);
          return TooDeep, true;
        }
        depth := depth + 1;
      } else if Closes(c) {
        if depth == 0 {
          ScanStuck(Unbalanced, text[i + 1..]);
          return Unbalanced, true;
        }
        depth := depth - 1;
      }
      i := i + 1;
    }
    return Scanning(depth, quoted, escaped), true;
  }

  // ----- JSON texts -----

  /** A unit of a string: an ordinary character, a two-character escape, or a four-digit escape. */
  datatype Unit = Plain(c: char) | Short(c: char) | Hex(digits: string)

  /** Blank is white space; the text of a Scalar is a number, `true`, `false` or `null`. */
  datatype Json =
    | Scalar(text: string)
    | Text(units: seq<Unit>)
    | Array(blank: string, items: Items)
    | Object(blank: string, members: Members)
    | Spaced(before: string, value: Json, after: string)

  datatype Items = NoItems | Item(head: Json, tail: Items)

  datatype Members = NoMembers | Member(before: string, key: seq<Unit>, after: string, value: Json, tail: Members)

  /** Text without quotes and brackets, as all white space, numbers and literal names are. */
  predicate Bare(text: string) {
    forall i | 0 <= i < |text| :: text[i] != '"' && !Opens(text[i]) && !Closes(text[i])
  }

  predicate GoodUnit(u: Unit) {
    match u
    case Plain(c) => c != '"' && c != '\\'
    case Short(c) => c in "\"\\/bfnrt"
    case Hex(digits) => |digits| == 4 && forall i | 0 <= i < 4 :: HexDigit(digits[i])
  }

  predicate HexDigit(c: char) {
    '0' <= c <= '9' || 'a' <= c <= 'f' || 'A' <= c <= 'F'
  }

  predicate GoodText(units: seq<Unit>) {
    forall i | 0 <= i < |units| :: GoodUnit(units[i])
  }

  predicate Good(j: Json) {
    match j
    case Scalar(text) => Bare(text)
    case Text(units) => GoodText(units)
    case Array(blank, items) => Bare(blank) && GoodItems(items)
    case Object(blank, members) => Bare(blank) && GoodMembers(members)
    case Spaced(before, value, after) => Bare(before) && Bare(after) && Good(value)
  }

  predicate GoodItems(items: Items) {
    items.NoItems? || (Good(items.head) && GoodItems(items.tail))
  }

  predicate GoodMembers(ms: Members) {
    ms.NoMembers? || (Bare(ms.before) && GoodText(ms.key) && Bare(ms.after) && Good(ms.value) && GoodMembers(ms.tail))
  }

  function UnitChars(u: Unit): string {
    match u
    case Plain(c) => [c]
    case Short(c) => ['\\', c]
    case Hex(digits) => "\\u" + digits
  }

  function UnitsChars(units: seq<Unit>): string {
    if units == [] then [] else UnitChars(units[0]) + UnitsChars(units[1..])
  }

  function Quoted(units: seq<Unit>): string {
    ['"'] + (UnitsChars(units) + ['"'])
  }

  function Chars(j: Json): string {
    match j
    case Scalar(text) => text
    case Text(units) => Quoted(units)
    case Array(blank, items) => ['['] + (blank + (ItemsChars(items) + [']']))
    case Object(blank, members) => ['{'] + (blank + (MembersChars(members) + ['}']))
    case Spaced(before, value, after) => before + (Chars(value) + after)
  }

  function ItemsChars(items: Items): string {
    if items.NoItems? then [] else Chars(items.head) + (Comma(items.tail.NoItems?) + ItemsChars(items.tail))
  }

  function MembersChars(ms: Members): string {
    if ms.NoMembers? then []
    else
      ms.before + (Quoted(ms.key) +
          (ms.after + ([':'] + (Chars(ms.value) + (Comma(ms.tail.NoMembers?) + MembersChars(ms.tail))))))
  }

  function Comma(last: bool): string {
    if last then [] else [',']
  }

  // ----- how deep a value nests -----

  function Max(a: nat, b: nat): nat {
    if a < b then b else a
  }

  function Depth(j: Json): nat {
    match j
    case Scalar(_) => 0
    case Text(_) => 0
    case Array(_, items) => 1 + ItemsDepth(items)
    case Object(_, members) => 1 + MembersDepth(members)
    case Spaced(_, value, _) => Depth(value)
  }

  function ItemsDepth(items: Items): nat {
    if items.NoItems? then 0 else Max(Depth(items.head), ItemsDepth(items.tail))
  }

  function MembersDepth(ms: Members): nat {
    if ms.NoMembers? then 0 else Max(Depth(ms.value), MembersDepth(ms.tail))
  }

  // ----- the scanner is exact -----

  /** Where the scanner is after a text of the given depth, met outside strings with `d` levels open. */
  function After(d: nat, depth: nat): Scanner {
    if d + depth <= MAX_DEPTH then Scanning(d, false, false) else TooDeep
  }

  lemma {:induction false} ScanBare(s: Scanner, text: string)
    requires Bare(text) && (s.Scanning? ==> !s.quoted)
    ensures Scan(s, text) == s
  {
    if text != [] {
      ScanBare(s, text[1..]);
    }
  }

  lemma ScanChar(s: Scanner, c: char)
    ensures Scan(s, [c]) == Step(s, c)
  {
    assert Scan(s, [c]) == Scan(Step(s, c), []);
  }

  lemma ScanPrefix(s: Scanner, c: char, rest: string)
    ensures Scan(s, [c] + rest) == Scan(Step(s, c), rest)
  {
    ScanAppend(s, [c], rest);
    ScanChar(s, c);
  }

  lemma {:induction false} ScanOrdinary(d: nat, text: string)
    requires forall i | 0 <= i < |text| :: text[i] != '"' && text[i] != '\\'
    ensures Scan(Scanning(d, true, false), text) == Scanning(d, true, false)
  {
    if text != [] {
      ScanOrdinary(d, text[1..]);
    }
  }

  lemma ScanUnit(d: nat, u: Unit)
    requires GoodUnit(u)
    ensures Scan(Scanning(d, true, false), UnitChars(u)) == Scanning(d, true, false)
  {
    var s := Scanning(d, true, false);
    match u
    case Plain(c) => ScanChar(s, c);
    case Short(c) =>
      assert UnitChars(u) == ['\\'] + [c];
      ScanPrefix(s, '\\', [c]);
      ScanChar(Scanning(d, true, true), c);
    case Hex(digits) =>
      assert UnitChars(u) == ['\\'] + (['u'] + digits);
      ScanPrefix(s, '\\', ['u'] + digits);
      ScanPrefix(Scanning(d, true, true), 'u', digits);
      ScanOrdinary(d, digits);
  }

  lemma {:induction false} ScanUnits(d: nat, units: seq<Unit>)
    requires GoodText(units)
    ensures Scan(Scanning(d, true, false), UnitsChars(units)) == Scanning(d, true, false)
  {
    if units != [] {
      ScanAppend(Scanning(d, true, false), UnitChars(units[0]), UnitsChars(units[1..]));
      ScanUnit(d, units[0]);
      ScanUnits(d, units[1..]);
    }
  }

  /** Whatever a string holds, the scanner leaves it as it entered it. */
  lemma ScanQuoted(d: nat, units: seq<Unit>)
    requires GoodText(units)
    ensures Scan(Scanning(d, false, false), Quoted(units)) == Scanning(d, false, false)
  {
    ScanPrefix(Scanning(d, false, false), '"', UnitsChars(units) + ['"']);
    ScanAppend(Scanning(d, true, false), UnitsChars(units), ['"']);
    ScanUnits(d, units);
    ScanChar(Scanning(d, true, false), '"');
  }

  lemma {:induction false} ScanJson(d: nat, j: Json)
    requires Good(j) && d <= MAX_DEPTH
    ensures Scan(Scanning(d, false, false), Chars(j)) == After(d, Depth(j))
    decreases j
  {
    var s := Scanning(d, false, false);
    match j
    case Scalar(text) => ScanBare(s, text);
    case Text(units) => ScanQuoted(d, units);
    case Array(blank, items) =>
      ScanBracket(d, '[', blank, ItemsChars(items), ']');
      if d < MAX_DEPTH {
        ScanItems(d + 1, items);
      }
    case Object(blank, members) =>
      ScanBracket(d, '{', blank, MembersChars(members), '}');
      if d < MAX_DEPTH {
        ScanMembers(d + 1, members);
      }
    case Spaced(before, value, after) =>
      ScanAppend(s, before, Chars(value) + after);
      ScanBare(s, before);
      ScanAppend(s, Chars(value), after);
      ScanJson(d, value);
      ScanBare(After(d, Depth(value)), after);
  }

  lemma ScanBracket(d: nat, opening: char, blank: string, inner: string, closing: char)
    requires Opens(opening) && Closes(closing) && Bare(blank) && d <= MAX_DEPTH
    ensures Scan(Scanning(d, false, false), [opening] + (blank + (inner + [closing])))
         == if d == MAX_DEPTH then TooDeep else Step(Scan(Scanning(d + 1, false, false), inner), closing)
  {
    ScanPrefix(Scanning(d, false, false), opening, blank + (inner + [closing]));
    if d == MAX_DEPTH {
      ScanStuck(TooDeep, blank + (inner + [closing]));
    } else {
      var s := Scanning(d + 1, false, false);
      ScanAppend(s, blank, inner + [closing]);
      ScanBare(s, blank);
      ScanAppend(s, inner, [closing]);
      ScanChar(Scan(s, inner), closing);
    }
  }

  /** Two texts in a row are as deep as the deeper one. */
  lemma ScanBoth(d: nat, a: string, da: nat, b: string, db: nat)
    requires Scan(Scanning(d, false, false), a) == After(d, da)
    requires Scan(Scanning(d, false, false), b) == After(d, db)
    ensures Scan(Scanning(d, false, false), a + b) == After(d, Max(da, db))
  {
    ScanAppend(Scanning(d, false, false), a, b);
    ScanStuck(TooDeep, b);
  }

  lemma ScanComma(d: nat, last: bool, b: string, db: nat)
    requires Scan(Scanning(d, false, false), b) == After(d, db) && d <= MAX_DEPTH
    ensures Scan(Scanning(d, false, false), Comma(last) + b) == After(d, db)
  {
    ScanBare(Scanning(d, false, false), Comma(last));
    ScanBoth(d, Comma(last), 0, b, db);
  }

  lemma {:induction false} ScanItems(d: nat, items: Items)
    requires GoodItems(items) && d <= MAX_DEPTH
    ensures Scan(Scanning(d, false, false), ItemsChars(items)) == After(d, ItemsDepth(items))
    decreases items
  {
    if items.Item? {
      ScanJson(d, items.head);
      ScanItems(d, items.tail);
      ScanComma(d, items.tail.NoItems?, ItemsChars(items.tail), ItemsDepth(items.tail));
      ScanBoth(d, Chars(items.head), Depth(items.head), Comma(items.tail.NoItems?) + ItemsChars(items.tail),
          ItemsDepth(items.tail));
    }
  }

  lemma {:induction false} ScanMembers(d: nat, ms: Members)
    requires GoodMembers(ms) && d <= MAX_DEPTH
    ensures Scan(Scanning(d, false, false), MembersChars(ms)) == After(d, MembersDepth(ms))
    decreases ms
  {
    if ms.Member? {
      var s := Scanning(d, false, false);
      ScanJson(d, ms.value);
      ScanMembers(d, ms.tail);
      var deep := MembersDepth(ms.tail);
      var rest := Comma(ms.tail.NoMembers?) + MembersChars(ms.tail);
      ScanComma(d, ms.tail.NoMembers?, MembersChars(ms.tail), deep);
      ScanBoth(d, Chars(ms.value), Depth(ms.value), rest, deep);
      var value := Chars(ms.value) + rest;
      ScanPrefix(s, ':', value);
      ScanBare(s, ms.after);
      ScanAppend(s, ms.after, [':'] + value);
      ScanQuoted(d, ms.key);
      ScanAppend(s, Quoted(ms.key), ms.after + ([':'] + value));
      ScanBare(s, ms.before);
      ScanAppend(s, ms.before, Quoted(ms.key) + (ms.after + ([':'] + value)));
    }
  }

  /** Of JSON texts, the scanner lets through exactly those that nest at most 16 levels deep. */
  lemma ScannerIsExact(j: Json)
    requires Good(j)
    ensures Scan(START, Chars(j)).Scanning? <==> Depth(j) <= MAX_DEPTH
    ensures Scan(START, Chars(j)) != Unbalanced
  {
    ScanJson(0, j);
  }
}
