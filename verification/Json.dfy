/** JSON values as parsing yields them, `JSON.stringify`, and why its text determines the value. */
module Json {
  import opened Ordering

  /** A number is the text it prints as; members stand in enumeration order. */
  datatype Value = Null | Bool(b: bool) | Number(text: string) | String(s: string) | Array(items: Items) | Object(members: Members)

  datatype Items = Nil | Cons(head: Value, tail: Items)

  datatype Members = Empty | Member(key: string, value: Value, rest: Members)

  function Keys(ms: Members): set<string> {
    if ms.Empty? then {} else {ms.key} + Keys(ms.rest)
  }

  function Lookup(ms: Members, key: string): Value
    requires key in Keys(ms)
  {
    if ms.key == key then ms.value else Lookup(ms.rest, key)
  }

  predicate NumberChar(c: char) {
    '0' <= c <= '9' || c == '-' || c == '+' || c == '.' || c == 'e'
  }

  predicate NumberText(s: string) {
    |s| > 0 && (forall i :: 0 <= i < |s| ==> NumberChar(s[i]))
  }

  /** No object repeats a key. */
  predicate Valid(v: Value) {
    match v
    case Number(text) => NumberText(text)
    case Array(items) => ValidItems(items)
    case Object(members) => ValidMembers(members)
    case _ => true
  }

  predicate ValidItems(items: Items) {
    items.Cons? ==> Valid(items.head) && ValidItems(items.tail)
  }

  predicate ValidMembers(ms: Members) {
    ms.Member? ==> Valid(ms.value) && ms.key !in Keys(ms.rest) && ValidMembers(ms.rest)
  }

  // ---------------------------------------------------------------- JSON.stringify

  function Hex(d: nat): char
    requires d < 16
  {
    "0123456789abcdef"[d]
  }

  function Escape(c: char): (s: string)
    ensures |s| > 0
  {
    if c == '"' then "\\\""
    else if c == '\\' then "\\\\"
    else if c == '\n' then "\\n"
    else if c == '\r' then "\\r"
    else if c == '\t' then "\\t"
    else if c as int == 8 then "\\b"
    else if c as int == 12 then "\\f"
    else if c < ' ' then "\\u00" + [Hex(c as int / 16), Hex(c as int % 16)]
    else [c]
  }

  /** A string's text after its opening quote, followed by `x`. */
  function Body(s: string, x: string): string {
    if |s| == 0 then "\"" + x else Escape(s[0]) + Body(s[1..], x)
  }

  function Quote(s: string, x: string): string {
    "\"" + Body(s, x)
  }

  /** The text of a value, followed by `x`. */
  function Print(v: Value, x: string): string
    decreases v, 1
  {
    match v
    case Null => "null" + x
    case Bool(b) => (if b then "true" else "false") + x
    case Number(text) => text + x
    case String(s) => Quote(s, x)
    case Array(items) => "[" + (if items.Nil? then "]" + x else Print(items.head, PrintTail(items.tail, x)))
    case Object(ms) => "{" + (if ms.Empty? then "}" + x else PrintMember(ms, x))
  }

  function PrintTail(items: Items, x: string): string
    decreases items, 0
  {
    if items.Nil? then "]" + x else "," + Print(items.head, PrintTail(items.tail, x))
  }

  function PrintMember(ms: Members, x: string): string
    requires ms.Member?
    decreases ms, 0
  {
    Quote(ms.key, ":" + Print(ms.value, if ms.rest.Empty? then "}" + x else "," + PrintMember(ms.rest, x)))
  }

  function Stringify(v: Value): string {
    Print(v, "")
  }

  // ---------------------------------------------------------------- reading it back

  predicate IsEscape(c: char) {
    c == '"' || c == '\\' || c < ' '
  }

  lemma ShortEscapeInjective(c: char, d: char)
    requires IsEscape(c) && IsEscape(d) && |Escape(c)| == 2 && |Escape(d)| == 2 && Escape(c)[1] == Escape(d)[1]
    ensures c == d
  {
  }

  lemma LongEscapeInjective(c: char, d: char)
    requires IsEscape(c) && IsEscape(d) && |Escape(c)| == 6 && Escape(c) == Escape(d)
    ensures c == d
  {
    assert Escape(c)[4] == Hex(c as int / 16) && Escape(c)[5] == Hex(c as int % 16);
    assert Escape(d)[4] == Hex(d as int / 16) && Escape(d)[5] == Hex(d as int % 16);
  }

  lemma EscapePrefixFree(c: char, x: string, d: char, y: string)
    requires Escape(c) + x == Escape(d) + y
    ensures c == d && x == y
  {
    var s, t := Escape(c) + x, Escape(d) + y;
    assert s[0] == Escape(c)[0] && t[0] == Escape(d)[0];
    if IsEscape(c) && IsEscape(d) {
      assert s[1] == Escape(c)[1] && t[1] == Escape(d)[1];
      assert |Escape(c)| == |Escape(d)|;
      assert Escape(c) == s[..|Escape(c)|] && Escape(d) == t[..|Escape(d)|];
      if |Escape(c)| == 2 {
        ShortEscapeInjective(c, d);
      } else {
        LongEscapeInjective(c, d);
      }
    }
    assert x == s[|Escape(c)|..] && y == t[|Escape(d)|..];
  }

  lemma BodyStart(s: string, x: string)
    ensures |Body(s, x)| > 0 && (Body(s, x)[0] == '"' <==> |s| == 0)
  {
    if |s| > 0 {
      assert Body(s, x)[0] == Escape(s[0])[0];
    }
  }

  lemma {:induction false} BodyPrefixFree(s: string, x: string, t: string, y: string)
    requires Body(s, x) == Body(t, y)
    ensures s == t && x == y
    decreases |s|
  {
    BodyStart(s, x);
    BodyStart(t, y);
    if |s| > 0 {
      EscapePrefixFree(s[0], Body(s[1..], x), t[0], Body(t[1..], y));
      BodyPrefixFree(s[1..], x, t[1..], y);
      assert s == [s[0]] + s[1..] && t == [t[0]] + t[1..];
    } else {
      assert x == Body(s, x)[1..] && y == Body(t, y)[1..];
    }
  }

  lemma QuotePrefixFree(s: string, x: string, t: string, y: string)
    requires Quote(s, x) == Quote(t, y)
    ensures s == t && x == y
  {
    assert Body(s, x) == Quote(s, x)[1..] && Body(t, y) == Quote(t, y)[1..];
    BodyPrefixFree(s, x, t, y);
  }

  /** What may follow a value: the end, or a character no number has. */
  predicate Ends(x: string) {
    |x| > 0 ==> !NumberChar(x[0])
  }

  lemma NumberPrefixFree(s: string, x: string, t: string, y: string)
    requires NumberText(s) && NumberText(t) && Ends(x) && Ends(y) && s + x == t + y
    ensures s == t && x == y
  {
    var u := s + x;
    NumberStops(s, x, t, y);
    NumberStops(t, y, s, x);
    assert s == u[..|s|] && x == u[|s|..] && t == u[..|t|] && y == u[|t|..];
  }

  lemma NumberStops(s: string, x: string, t: string, y: string)
    requires NumberText(t) && Ends(x) && s + x == t + y
    ensures |t| <= |s|
  {
    assert |x| > 0 ==> (s + x)[|s|] == x[0];
    forall i | 0 <= i < |t| ensures NumberChar((t + y)[i]) {
      assert (t + y)[i] == t[i];
    }
  }

  /** The first character of a value's text tells its kind. */
  function Kind(v: Value): nat {
    match v
    case Null => 0
    case Bool(b) => if b then 1 else 2
    case Number(_) => 3
    case String(_) => 4
    case Array(_) => 5
    case Object(_) => 6
  }

  function KindOf(c: char): nat {
    if c == 'n' then 0 else if c == 't' then 1 else if c == 'f' then 2 else if c == '"' then 4
    else if c == '[' then 5 else if c == '{' then 6 else if NumberChar(c) then 3 else 7
  }

  lemma FirstTellsKind(v: Value, x: string)
    requires Valid(v)
    ensures |Print(v, x)| > 0 && KindOf(Print(v, x)[0]) == Kind(v)
  {
  }

  lemma {:induction false} PrintPrefixFree(v: Value, x: string, w: Value, y: string)
    requires Valid(v) && Valid(w) && Ends(x) && Ends(y) && Print(v, x) == Print(w, y)
    ensures v == w && x == y
    decreases v, 1
  {
    FirstTellsKind(v, x);
    FirstTellsKind(w, y);
    var s, t := Print(v, x)[1..], Print(w, y)[1..];
    match v
    case Null => assert x == s[3..] && y == t[3..];
    case Bool(b) => WordFollowed(if b then "true" else "false", x, y);
    case Number(text) => NumberPrefixFree(text, x, w.text, y);
    case String(text) => QuotePrefixFree(text, x, w.s, y);
    case Array(items) =>
      ArrayPrefixFree(items, x, w.items, y, s);
    case Object(ms) =>
      ObjectPrefixFree(ms, x, w.members, y, s);
  }

  lemma WordFollowed(word: string, x: string, y: string)
    requires word + x == word + y
    ensures x == y
  {
    assert x == (word + x)[|word|..] && y == (word + y)[|word|..];
  }

  lemma {:induction false} ArrayPrefixFree(v: Items, x: string, w: Items, y: string, s: string)
    requires ValidItems(v) && ValidItems(w)
    requires s == if v.Nil? then "]" + x else Print(v.head, PrintTail(v.tail, x))
    requires s == if w.Nil? then "]" + y else Print(w.head, PrintTail(w.tail, y))
    ensures v == w && x == y
    decreases v, 0
  {
    if v.Cons? {
      FirstTellsKind(v.head, PrintTail(v.tail, x));
    }
    if w.Cons? {
      FirstTellsKind(w.head, PrintTail(w.tail, y));
    }
    if v.Nil? {
      WordFollowed("]", x, y);
    } else {
      PrintPrefixFree(v.head, PrintTail(v.tail, x), w.head, PrintTail(w.tail, y));
      TailPrefixFree(v.tail, x, w.tail, y);
    }
  }

  lemma {:induction false} TailPrefixFree(v: Items, x: string, w: Items, y: string)
    requires ValidItems(v) && ValidItems(w) && PrintTail(v, x) == PrintTail(w, y)
    ensures v == w && x == y
    decreases v, 0
  {
    var s := PrintTail(v, x);
    assert (s[0] == ',' <==> v.Cons?) && (PrintTail(w, y)[0] == ',' <==> w.Cons?);
    if v.Nil? {
      WordFollowed("]", x, y);
    } else {
      WordFollowed(",", Print(v.head, PrintTail(v.tail, x)), Print(w.head, PrintTail(w.tail, y)));
      PrintPrefixFree(v.head, PrintTail(v.tail, x), w.head, PrintTail(w.tail, y));
      TailPrefixFree(v.tail, x, w.tail, y);
    }
  }

  lemma {:induction false} ObjectPrefixFree(v: Members, x: string, w: Members, y: string, s: string)
    requires ValidMembers(v) && ValidMembers(w)
    requires s == if v.Empty? then "}" + x else PrintMember(v, x)
    requires s == if w.Empty? then "}" + y else PrintMember(w, y)
    ensures v == w && x == y
    decreases v, 0
  {
    assert (s[0] == '"' <==> v.Member?) && (s[0] == '"' <==> w.Member?);
    if v.Empty? {
      WordFollowed("}", x, y);
    } else {
      var l := if v.rest.Empty? then "}" + x else "," + PrintMember(v.rest, x);
      var r := if w.rest.Empty? then "}" + y else "," + PrintMember(w.rest, y);
      QuotePrefixFree(v.key, ":" + Print(v.value, l), w.key, ":" + Print(w.value, r));
      WordFollowed(":", Print(v.value, l), Print(w.value, r));
      PrintPrefixFree(v.value, l, w.value, r);
      assert (l[0] == ',' <==> v.rest.Member?) && (r[0] == ',' <==> w.rest.Member?);
      if v.rest.Empty? {
        WordFollowed("}", x, y);
      } else {
        WordFollowed(",", PrintMember(v.rest, x), PrintMember(w.rest, y));
        ObjectPrefixFree(v.rest, x, w.rest, y, PrintMember(v.rest, x));
      }
    }
  }

  /** Two values print alike only when they are the same value, keys in the same order. */
  lemma StringifyInjective(v: Value, w: Value)
    requires Valid(v) && Valid(w) && Stringify(v) == Stringify(w)
    ensures v == w
  {
    PrintPrefixFree(v, "", w, "");
  }

  // ---------------------------------------------------------------- lines

  predicate OneLine(s: string) {
    forall i :: 0 <= i < |s| ==> s[i] != '\n'
  }

  lemma {:induction false} BodyOneLine(s: string, x: string)
    requires OneLine(x)
    ensures OneLine(Body(s, x))
  {
    if |s| > 0 {
      BodyOneLine(s[1..], x);
    }
  }

  /** `JSON.stringify` puts no line break into its text. */
  lemma {:induction false} PrintOneLine(v: Value, x: string)
    requires Valid(v) && OneLine(x)
    ensures OneLine(Print(v, x))
    decreases v, 1
  {
    match v
    case String(s) => BodyOneLine(s, x);
    case Array(items) =>
      if items.Cons? {
        TailOneLine(items.tail, x);
        PrintOneLine(items.head, PrintTail(items.tail, x));
      }
    case Object(ms) =>
      if ms.Member? {
        MemberOneLine(ms, x);
      }
    case _ =>
  }

  lemma {:induction false} TailOneLine(items: Items, x: string)
    requires ValidItems(items) && OneLine(x)
    ensures OneLine(PrintTail(items, x))
    decreases items, 0
  {
    if items.Cons? {
      TailOneLine(items.tail, x);
      PrintOneLine(items.head, PrintTail(items.tail, x));
    }
  }

  lemma {:induction false} MemberOneLine(ms: Members, x: string)
    requires ms.Member? && ValidMembers(ms) && OneLine(x)
    ensures OneLine(PrintMember(ms, x))
    decreases ms, 0
  {
    if ms.rest.Member? {
      MemberOneLine(ms.rest, x);
    }
    var y := if ms.rest.Empty? then "}" + x else "," + PrintMember(ms.rest, x);
    PrintOneLine(ms.value, y);
    BodyOneLine(ms.key, ":" + Print(ms.value, y));
  }

  /** `lines.join('\n')`. */
  function JoinLines(lines: seq<string>): string {
    if |lines| == 0 then "" else if |lines| == 1 then lines[0] else lines[0] + "\n" + JoinLines(lines[1..])
  }

  function AfterFirst(lines: seq<string>): string
    requires |lines| > 0
  {
    if |lines| == 1 then "" else "\n" + JoinLines(lines[1..])
  }

  lemma JoinSplits(lines: seq<string>)
    requires |lines| > 0
    ensures JoinLines(lines) == lines[0] + AfterFirst(lines)
    ensures |AfterFirst(lines)| > 0 ==> AfterFirst(lines)[0] == '\n'
  {
    if |lines| > 1 {
      assert lines[0] + "\n" + JoinLines(lines[1..]) == lines[0] + ("\n" + JoinLines(lines[1..]));
    }
  }

  lemma SameFirstLine(s: string, x: string, t: string, y: string)
    requires OneLine(s) && OneLine(t) && s + x == t + y
    requires (|x| > 0 ==> x[0] == '\n') && (|y| > 0 ==> y[0] == '\n')
    ensures s == t && x == y
  {
    FirstLine(s, x, t, y);
    FirstLine(t, y, s, x);
    assert s == (s + x)[..|s|] && x == (s + x)[|s|..];
    assert t == (t + y)[..|t|] && y == (t + y)[|t|..];
  }

  predicate Lines(lines: seq<string>) {
    forall i :: 0 <= i < |lines| ==> OneLine(lines[i]) && |lines[i]| > 0
  }

  /** Non-empty lines can be told apart in their join. */
  lemma {:induction false} JoinLinesInjective(a: seq<string>, b: seq<string>)
    requires Lines(a) && Lines(b) && JoinLines(a) == JoinLines(b)
    ensures a == b
    decreases |a|
  {
    if |a| > 0 {
      JoinSplits(a);
    }
    if |b| > 0 {
      JoinSplits(b);
    }
    if |a| > 0 && |b| > 0 {
      SameFirstLine(a[0], AfterFirst(a), b[0], AfterFirst(b));
      assert a == [a[0]] + a[1..] && b == [b[0]] + b[1..];
      if |a| > 1 {
        WordFollowed("\n", JoinLines(a[1..]), JoinLines(b[1..]));
        JoinLinesInjective(a[1..], b[1..]);
      }
    }
  }

  lemma FirstLine(s: string, x: string, t: string, y: string)
    requires OneLine(s) && OneLine(t) && s + x == t + y && (|x| > 0 ==> x[0] == '\n')
    ensures |t| <= |s|
  {
    assert |x| > 0 ==> (s + x)[|s|] == '\n';
    forall i | 0 <= i < |t| ensures (t + y)[i] != '\n' {
      assert (t + y)[i] == t[i];
    }
  }
}
