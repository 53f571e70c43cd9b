/** Canonical JSON printing for payload digests: independent of key order, and uniquely readable. */
module CanonicalJson {
  import opened Sequences
  import opened StableSort
  import opened StringOrder

  /** A number stands for its printed text; an object lists its fields in insertion order. */
  datatype Json =
    | Null
    | Bool(b: bool)
    | Num(text: string)
    | Str(s: string)
    | Arr(items: seq<Json>)
    | Obj(fields: seq<Field>)

  datatype Field = Field(key: string, value: Json)

  // ---------------------------------------------------------------- the values that are printed

  predicate IsNumberChar(c: char) {
    '0' <= c <= '9' || c == '-' || c == '+' || c == '.' || c == 'e' || c == 'E'
  }

  predicate IsNumberText(t: string) {
    t != "" && ('0' <= t[0] <= '9' || t[0] == '-') && forall k :: 0 <= k < |t| ==> IsNumberChar(t[k])
  }

  predicate DistinctKeys(fs: seq<Field>) {
    forall i, j :: 0 <= i < j < |fs| ==> fs[i].key != fs[j].key
  }

  /** Numbers are number texts, and the keys of an object are distinct. */
  predicate Valid(v: Json) {
    match v
    case Num(t) => IsNumberText(t)
    case Arr(items) => forall x :: x in items ==> Valid(x)
    case Obj(fields) => DistinctKeys(fields) && forall f :: f in fields ==> Valid(f.value)
    case _ => true
  }

  /** Nowhere in the key does a double quote stand before a colon, as it does behind every key that is printed. */
  predicate NoSeparator(key: string) {
    forall k :: 0 <= k < |key| - 1 ==> !(key[k] == '"' && key[k+1] == ':')
  }

  /** No key of any object contains a quote followed by a colon. */
  predicate SeparatorFree(v: Json) {
    match v
    case Arr(items) => forall x :: x in items ==> SeparatorFree(x)
    case Obj(fields) => forall f :: f in fields ==> NoSeparator(f.key) && SeparatorFree(f.value)
    case _ => true
  }

  /** Equal up to the order in which the keys of objects were inserted. */
  predicate Same(v: Json, w: Json) {
    match v
    case Arr(xs) => w.Arr? && |w.items| == |xs| && forall i :: 0 <= i < |xs| ==> Same(xs[i], w.items[i])
    case Obj(fs) =>
      && w.Obj? && (forall f :: f in fs ==> HasKey(w.fields, f.key))
      && (forall g :: g in w.fields ==> HasKey(fs, g.key))
      && forall f, g :: f in fs && g in w.fields && f.key == g.key ==> Same(f.value, g.value)
    case _ => v == w
  }

  predicate HasKey(fs: seq<Field>, key: string) {
    exists f :: f in fs && f.key == key
  }

  // ---------------------------------------------------------------- printing

  function HexDigit(n: int): char
    requires 0 <= n < 16
  {
    "0123456789abcdef"[n]
  }

  /** One character of a string literal, escaped as in section 7 of RFC 8259. */
  function EscapeChar(c: char): (e: string)
    ensures e != "" && e[0] != '"'
  {
    if c == '"' then ['\\', '"']
    else if c == '\\' then ['\\', '\\']
    else if c as int == 8 then ['\\', 'b']
    else if c as int == 12 then ['\\', 'f']
    else if c as int == 10 then ['\\', 'n']
    else if c as int == 13 then ['\\', 'r']
    else if c as int == 9 then ['\\', 't']
    else if c as int < 32 then ['\\', 'u', '0', '0', HexDigit(c as int / 16), HexDigit(c as int % 16)]
    else [c]
  }

  function Escape(s: string): string {
    if s == "" then "" else EscapeChar(s[0]) + Escape(s[1..])
  }

  function Join(ts: seq<string>): string {
    if ts == [] then "" else if |ts| == 1 then ts[0] else ts[0] + "," + Join(ts[1..])
  }

  /** A key with the printed text of its value. */
  datatype Entry = Entry(key: string, text: string)

  function ByKey(): (Entry, Entry) -> bool {
    (a: Entry, b: Entry) => KeyLeq(a.key, b.key)
  }

  function PairText(e: Entry): string {
    "\"" + e.key + "\":" + e.text
  }

  function PairTexts(es: seq<Entry>): (ts: seq<string>)
    ensures |ts| == |es| && forall i :: 0 <= i < |es| ==> ts[i] == PairText(es[i])
  {
    seq(|es|, i requires 0 <= i < |es| => PairText(es[i]))
  }

  function Print(v: Json): string
    decreases v, 1
  {
    match v
    case Null => "null"
    case Bool(b) => if b then "true" else "false"
    case Num(t) => t
    case Str(s) => "\"" + Escape(s) + "\""
    case Arr(items) => "[" + Join(PrintItems(items)) + "]"
    case Obj(fields) => "{" + Join(PairTexts(Sort(PrintFields(fields), ByKey()))) + "}"
  }

  function PrintItems(items: seq<Json>): (ts: seq<string>)
    ensures |ts| == |items| && forall i :: 0 <= i < |items| ==> ts[i] == Print(items[i])
    decreases items, 0
  {
    if items == [] then [] else [Print(items[0])] + PrintItems(items[1..])
  }

  function PrintFields(fields: seq<Field>): (es: seq<Entry>)
    ensures |es| == |fields| && forall i :: 0 <= i < |fields| ==> es[i] == Entry(fields[i].key, Print(fields[i].value))
    decreases fields, 0
  {
    if fields == [] then [] else [Entry(fields[0].key, Print(fields[0].value))] + PrintFields(fields[1..])
  }

  // ---------------------------------------------------------------- the key order

  lemma ByKeyIsTotal()
    ensures TotalPreorder(ByKey())
  {
    forall x: Entry, y: Entry ensures ByKey()(x, y) || ByKey()(y, x) {
      KeyLeqTotal(x.key, y.key);
    }
    forall x: Entry, y: Entry, z: Entry | ByKey()(x, y) && ByKey()(y, z) ensures ByKey()(x, z) {
      KeyLeqTransitive(x.key, y.key, z.key);
    }
  }

  ghost predicate UniqueKeys(es: seq<Entry>) {
    forall e, f :: e in es && f in es && e.key == f.key ==> e == f
  }

  lemma UniqueKeysAreUntied(es: seq<Entry>)
    requires UniqueKeys(es)
    ensures Untied(es, ByKey())
  {
    forall e, f | e in es && f in es && ByKey()(e, f) && ByKey()(f, e) ensures e == f {
      KeyLeqTotal(e.key, f.key);
    }
  }

  // ---------------------------------------------------------------- equal values print alike

  lemma {:induction false} FieldOrderIsFree(v: Json, w: Json)
    requires Valid(v) && Valid(w) && Same(v, w)
    ensures Print(v) == Print(w)
    decreases v
  {
    match v
    case Arr(xs) =>
      forall i | 0 <= i < |xs| ensures Print(xs[i]) == Print(w.items[i]) {
        assert xs[i] in xs && w.items[i] in w.items;
        FieldOrderIsFree(xs[i], w.items[i]);
      }
      assert PrintItems(xs) == PrintItems(w.items);
    case Obj(fs) =>
      forall f, g | f in fs && g in w.fields && f.key == g.key ensures Print(f.value) == Print(g.value) {
        FieldOrderIsFree(f.value, g.value);
      }
      SameEntries(fs, w.fields);
      SortedEntriesAgree(PrintFields(fs), PrintFields(w.fields));
    case _ =>
  }

  lemma SameEntries(fs: seq<Field>, gs: seq<Field>)
    requires DistinctKeys(fs) && DistinctKeys(gs)
    requires forall f :: f in fs ==> HasKey(gs, f.key)
    requires forall g :: g in gs ==> HasKey(fs, g.key)
    requires forall f, g :: f in fs && g in gs && f.key == g.key ==> Print(f.value) == Print(g.value)
    ensures var es, hs := PrintFields(fs), PrintFields(gs);
      Distinct(es) && Distinct(hs) && UniqueKeys(es) && forall e :: e in es <==> e in hs
  {
    hide Print;
    EntriesOf(fs);
    EntriesOf(gs);
    forall e | e in PrintFields(fs) ensures e in PrintFields(gs) { EntryCrosses(fs, gs, e); }
    forall e | e in PrintFields(gs) ensures e in PrintFields(fs) { EntryCrosses(gs, fs, e); }
  }

  lemma EntriesOf(fs: seq<Field>)
    requires DistinctKeys(fs)
    ensures Distinct(PrintFields(fs)) && UniqueKeys(PrintFields(fs))
  {
    hide Print, PrintFields;
    var es := PrintFields(fs);
    assert forall i, j {:trigger es[i], es[j]} :: 0 <= i < j < |es| ==>
      es[i].key == fs[i].key && es[j].key == fs[j].key;
    assert forall i, j {:trigger es[i], es[j]} :: 0 <= i < j < |es| ==> es[i].key != es[j].key;
    forall e, f | e in es && f in es && e.key == f.key ensures e == f {
      var i :| 0 <= i < |es| && es[i] == e;
      var j :| 0 <= j < |es| && es[j] == f;
    }
    forall i, j | 0 <= i < j < |es| ensures es[i] != es[j] { assert fs[i].key != fs[j].key; }
  }

  lemma EntryCrosses(fs: seq<Field>, gs: seq<Field>, e: Entry)
    requires forall f :: f in fs ==> HasKey(gs, f.key)
    requires forall f, g :: f in fs && g in gs && f.key == g.key ==> Print(f.value) == Print(g.value)
    requires e in PrintFields(fs)
    ensures e in PrintFields(gs)
  {
    hide Print, PrintFields;
    var i :| 0 <= i < |fs| && PrintFields(fs)[i] == e;
    assert fs[i] in fs;
    var g :| g in gs && g.key == fs[i].key;
    var j :| 0 <= j < |gs| && gs[j] == g;
    assert PrintFields(gs)[j] == e;
  }

  lemma SortedEntriesAgree(es: seq<Entry>, hs: seq<Entry>)
    requires Distinct(es) && Distinct(hs) && UniqueKeys(es) && forall e :: e in es <==> e in hs
    ensures Sort(es, ByKey()) == Sort(hs, ByKey())
  {
    hide Sort;
    ByKeyIsTotal();
    SortSorts(es, ByKey());
    SortSorts(hs, ByKey());
    SortKeepsDistinct(es, ByKey());
    SortKeepsDistinct(hs, ByKey());
    SortMembers(es, ByKey());
    SortMembers(hs, ByKey());
    UniqueKeysAreUntied(Sort(es, ByKey()));
    SortedListIsUnique(Sort(es, ByKey()), Sort(hs, ByKey()), ByKey());
  }

  // ---------------------------------------------------------------- unique reading: strings and numbers

  lemma EscapeCharReads(c: char, d: char, x: string, y: string)
    requires EscapeChar(c) + x == EscapeChar(d) + y
    ensures c == d && x == y
  {
    var e, f := EscapeChar(c), EscapeChar(d);
    var whole := e + x;
    assert whole[0] == e[0] == f[0];
    if e[0] == '\\' {
      assert |e| >= 2 && |f| >= 2;
      assert whole[1] == e[1] == f[1];
      if e[1] == 'u' {
        assert |e| == |f| == 6;
        assert whole[4] == e[4] == f[4] && whole[5] == e[5] == f[5];
        HexReads(c as int / 16, d as int / 16);
        HexReads(c as int % 16, d as int % 16);
      }
    }
    assert |e| == |f|;
    assert x == whole[|e|..] && y == (f + y)[|f|..];
  }

  lemma HexReads(m: int, n: int)
    requires 0 <= m < 16 && 0 <= n < 16 && HexDigit(m) == HexDigit(n)
    ensures m == n
  {
  }

  lemma EscapeStart(a: string, s: string)
    ensures var whole := Escape(a) + "\"" + s; whole[0] == '"' <==> a == ""
  {
    if a != "" { assert (Escape(a) + "\"" + s)[0] == EscapeChar(a[0])[0]; }
  }

  lemma {:induction false} EscapeReads(a: string, b: string, s: string, t: string)
    requires Escape(a) + "\"" + s == Escape(b) + "\"" + t
    ensures a == b && s == t
  {
    hide EscapeChar;
    var whole := Escape(a) + "\"" + s;
    if a == "" && b == "" {
      assert s == whole[1..] && t == (Escape(b) + "\"" + t)[1..];
    } else if a == "" || b == "" {
      EscapeStart(a, s);
      EscapeStart(b, t);
    } else {
      assert whole == EscapeChar(a[0]) + (Escape(a[1..]) + "\"" + s);
      assert Escape(b) + "\"" + t == EscapeChar(b[0]) + (Escape(b[1..]) + "\"" + t);
      EscapeCharReads(a[0], b[0], Escape(a[1..]) + "\"" + s, Escape(b[1..]) + "\"" + t);
      EscapeReads(a[1..], b[1..], s, t);
      assert a == [a[0]] + a[1..] && b == [b[0]] + b[1..];
    }
  }

  /** What may follow a printed value. */
  predicate Delimited(s: string) {
    s == "" || s[0] == ',' || s[0] == ']' || s[0] == '}'
  }

  lemma NumberReads(a: string, b: string, s: string, t: string)
    requires IsNumberText(a) && IsNumberText(b) && Delimited(s) && Delimited(t) && a + s == b + t
    ensures a == b && s == t
  {
    var whole := a + s;
    var other := b + t;
    assert forall k :: 0 <= k < |b| ==> other[k] == b[k];
    assert forall k :: 0 <= k < |a| ==> whole[k] == a[k];
    assert (s != "" ==> whole[|a|] == s[0]) && (t != "" ==> other[|b|] == t[0]);
    assert a == whole[..|a|] && b == (b + t)[..|b|];
    assert s == whole[|a|..] && t == (b + t)[|b|..];
  }

  /** The first character tells the kind of value. */
  lemma FirstChar(v: Json)
    requires Valid(v)
    ensures Print(v) != ""
    ensures var c := Print(v)[0];
      match v
      case Null => c == 'n'
      case Bool(b) => c == if b then 't' else 'f'
      case Num(_) => '0' <= c <= '9' || c == '-'
      case Str(_) => c == '"'
      case Arr(_) => c == '['
      case Obj(_) => c == '{'
  {
  }

  /** Keys without a separator are read up to the first one. */
  lemma KeyReads(a: string, b: string, s: string, t: string)
    requires NoSeparator(a) && NoSeparator(b) && a + "\":" + s == b + "\":" + t
    ensures a == b && s == t
  {
    NoShorter(a, b, s, t);
    NoShorter(b, a, t, s);
    var whole, other := a + "\":" + s, b + "\":" + t;
    assert a == whole[..|a|] && b == other[..|b|];
    assert s == whole[|a|+2..] && t == other[|b|+2..];
  }

  lemma NoShorter(a: string, b: string, s: string, t: string)
    requires NoSeparator(b) && a + "\":" + s == b + "\":" + t
    ensures |a| >= |b|
  {
    var whole, other := a + "\":" + s, b + "\":" + t;
    assert whole[|a|] == '"' && whole[|a|+1] == ':' && other[|b|] == '"';
    assert forall k :: 0 <= k < |b| ==> other[k] == b[k];
  }

  function SortedEntries(fs: seq<Field>): seq<Entry> {
    Sort(PrintFields(fs), ByKey())
  }

  ghost predicate EntriesFrom(es: seq<Entry>, fs: seq<Field>) {
    forall e :: e in es ==> exists f :: f in fs && f.key == e.key && Print(f.value) == e.text
  }

  lemma SortedEntriesFrom(fs: seq<Field>)
    ensures EntriesFrom(SortedEntries(fs), fs)
    ensures forall f :: f in fs ==> Entry(f.key, Print(f.value)) in SortedEntries(fs)
  {
    hide Print, PrintFields, Sort;
    var es := PrintFields(fs);
    SortMembers(es, ByKey());
    forall e | e in es ensures exists f :: f in fs && f.key == e.key && Print(f.value) == e.text {
      var i :| 0 <= i < |es| && es[i] == e;
      assert fs[i] in fs;
    }
    forall f | f in fs ensures Entry(f.key, Print(f.value)) in es {
      var i :| 0 <= i < |fs| && fs[i] == f;
      assert es[i] == Entry(f.key, Print(f.value));
    }
  }

  /** The text of a list up to its closing bracket, first element split off. */
  lemma JoinHead(ts: seq<string>, end: string)
    requires ts != []
    ensures Join(ts) + end == ts[0] + (if |ts| == 1 then end else "," + (Join(ts[1..]) + end))
  {
  }

  lemma {:induction false} UniqueReading(v: Json, w: Json, s: string, t: string)
    requires Valid(v) && Valid(w) && SeparatorFree(v) && SeparatorFree(w) && Delimited(s) && Delimited(t)
    requires Print(v) + s == Print(w) + t
    ensures Same(v, w) && s == t
    decreases v, 1, 0
  {
    hide Print, Join, PrintItems, SortedEntries, Escape, PairTexts;
    SameKind(v, w, s, t);
    PrintIs(v, s);
    PrintIs(w, t);
    match v
    case Null =>
      Tails("null", s, t);
    case Bool(b) =>
      Tails(Print(v), s, t);
    case Num(a) => NumberReads(a, w.text, s, t);
    case Str(a) =>
      assert Escape(a) + "\"" + s == (Print(v) + s)[1..];
      assert Escape(w.s) + "\"" + t == (Print(w) + t)[1..];
      EscapeReads(a, w.s, s, t);
    case Arr(xs) =>
      assert Join(PrintItems(xs)) + ("]" + s) == (Print(v) + s)[1..];
      assert Join(PrintItems(w.items)) + ("]" + t) == (Print(w) + t)[1..];
      ItemsRead(v, w, xs, w.items, s, t);
    case Obj(fs) =>
      assert Join(PairTexts(SortedEntries(fs))) + ("}" + s) == (Print(v) + s)[1..];
      assert Join(PairTexts(SortedEntries(w.fields))) + ("}" + t) == (Print(w) + t)[1..];
      SortedEntriesFrom(fs);
      SortedEntriesFrom(w.fields);
      FieldsRead(v, w, SortedEntries(fs), SortedEntries(w.fields), s, t);
      SameFields(v, w);
  }

  lemma Tails(p: string, s: string, t: string)
    requires p + s == p + t
    ensures s == t
  {
    assert s == (p + s)[|p|..] && t == (p + t)[|p|..];
  }

  /** A printed value with what follows it, by kind. */
  lemma PrintIs(v: Json, s: string)
    ensures match v
      case Null => Print(v) == "null"
      case Bool(b) => true
      case Num(t) => Print(v) == t
      case Str(a) => Print(v) + s == "\"" + (Escape(a) + "\"" + s)
      case Arr(xs) => Print(v) + s == "[" + (Join(PrintItems(xs)) + ("]" + s))
      case Obj(fs) => Print(v) + s == "{" + (Join(PairTexts(SortedEntries(fs))) + ("}" + s))
  {
    hide Join, PrintItems, PrintFields, Escape, PairTexts, Sort;
  }

  lemma SameKind(v: Json, w: Json, s: string, t: string)
    requires Valid(v) && Valid(w) && Print(v) + s == Print(w) + t
    ensures v.Null? == w.Null? && v.Bool? == w.Bool? && v.Num? == w.Num?
    ensures v.Str? == w.Str? && v.Arr? == w.Arr? && v.Obj? == w.Obj?
    ensures v.Bool? ==> v == w
  {
    FirstChar(v);
    FirstChar(w);
    assert (Print(v) + s)[0] == Print(v)[0] && (Print(w) + t)[0] == Print(w)[0];
  }

  lemma {:induction false} ItemsRead(v: Json, w: Json, xs: seq<Json>, ys: seq<Json>, s: string, t: string)
    requires v.Arr? && w.Arr? && Valid(v) && Valid(w) && SeparatorFree(v) && SeparatorFree(w)
    requires (forall x :: x in xs ==> x in v.items) && (forall y :: y in ys ==> y in w.items)
    requires Join(PrintItems(xs)) + ("]" + s) == Join(PrintItems(ys)) + ("]" + t)
    ensures |xs| == |ys| && s == t && forall i :: 0 <= i < |xs| ==> Same(xs[i], ys[i])
    decreases v, 0, |xs|
  {
    var end, end' := "]" + s, "]" + t;
    hide Print, Join, Same;
    if xs == [] || ys == [] {
      PrintedItemsStart(v, xs);
      PrintedItemsStart(w, ys);
      ListStart(PrintItems(xs), end);
      ListStart(PrintItems(ys), end');
      assert s == end[1..] && t == end'[1..];
    } else {
      assert xs[0] in v.items && ys[0] in w.items;
      JoinHead(PrintItems(xs), end);
      JoinHead(PrintItems(ys), end');
      var rest := if |xs| == 1 then end else "," + (Join(PrintItems(xs)[1..]) + end);
      var rest' := if |ys| == 1 then end' else "," + (Join(PrintItems(ys)[1..]) + end');
      UniqueReading(xs[0], ys[0], rest, rest');
      assert rest[0] == rest'[0];
      if |xs| > 1 {
        assert PrintItems(xs)[1..] == PrintItems(xs[1..]) && PrintItems(ys)[1..] == PrintItems(ys[1..]);
        assert Join(PrintItems(xs[1..])) + end == rest[1..] && Join(PrintItems(ys[1..])) + end' == rest'[1..];
        ItemsRead(v, w, xs[1..], ys[1..], s, t);
      } else {
        assert s == rest[1..] && t == rest'[1..];
      }
    }
  }

  lemma ListStart(ts: seq<string>, end: string)
    requires end != "" && (ts != [] ==> ts[0] != "")
    ensures (Join(ts) + end)[0] == if ts == [] then end[0] else ts[0][0]
    ensures ts == [] ==> Join(ts) + end == end
  {
  }

  lemma PrintedItemsStart(v: Json, xs: seq<Json>)
    requires v.Arr? && Valid(v) && forall x :: x in xs ==> x in v.items
    ensures xs != [] ==> PrintItems(xs)[0] != "" && PrintItems(xs)[0][0] != ']'
  {
    if xs != [] {
      assert xs[0] in v.items;
      FirstChar(xs[0]);
    }
  }

  /** Equal texts of two field lists have the same keys in the same order, with values that are the same. */
  lemma {:induction false} FieldsRead(v: Json, w: Json, es: seq<Entry>, hs: seq<Entry>, s: string, t: string)
    requires v.Obj? && w.Obj? && Valid(v) && Valid(w) && SeparatorFree(v) && SeparatorFree(w)
    requires EntriesFrom(es, v.fields) && EntriesFrom(hs, w.fields)
    requires Join(PairTexts(es)) + ("}" + s) == Join(PairTexts(hs)) + ("}" + t)
    ensures |es| == |hs| && s == t
    ensures forall i :: 0 <= i < |es| ==> es[i].key == hs[i].key && SameTexts(v, w, es[i], hs[i])
    decreases v, 0, |es|
  {
    hide Print, Join, Same, SameTexts, PairText, Valid, SeparatorFree;
    var end, end' := "}" + s, "}" + t;
    PairTextsStart(es);
    PairTextsStart(hs);
    if es == [] || hs == [] {
      ListStart(PairTexts(es), end);
      ListStart(PairTexts(hs), end');
      assert s == end[1..] && t == end'[1..];
    } else {
      JoinHead(PairTexts(es), end);
      JoinHead(PairTexts(hs), end');
      var rest := if |es| == 1 then end else "," + (Join(PairTexts(es)[1..]) + end);
      var rest' := if |hs| == 1 then end' else "," + (Join(PairTexts(hs)[1..]) + end');
      EntriesFromParts(es, v.fields);
      EntriesFromParts(hs, w.fields);
      FieldReads(v, w, es[0], hs[0], rest, rest');
      assert rest[0] == rest'[0];
      if |es| > 1 {
        assert PairTexts(es)[1..] == PairTexts(es[1..]) && PairTexts(hs)[1..] == PairTexts(hs[1..]);
        assert Join(PairTexts(es[1..])) + end == rest[1..] && Join(PairTexts(hs[1..])) + end' == rest'[1..];
        FieldsRead(v, w, es[1..], hs[1..], s, t);
      } else {
        assert s == rest[1..] && t == rest'[1..];
      }
    }
  }

  lemma EntriesFromParts(es: seq<Entry>, fs: seq<Field>)
    requires EntriesFrom(es, fs) && es != []
    ensures EntriesFrom([es[0]], fs) && EntriesFrom(es[1..], fs)
  {
    hide Print;
    assert es[0] in es && forall e :: e in es[1..] ==> e in es;
  }

  lemma PairTextsStart(es: seq<Entry>)
    ensures es != [] ==> PairTexts(es)[0] != "" && PairTexts(es)[0][0] == '"'
  {
  }

  /** Every field of `v` behind one entry is the same as every field of `w` behind the other. */
  ghost predicate SameTexts(v: Json, w: Json, e: Entry, h: Entry)
    requires v.Obj? && w.Obj?
  {
    forall f, g :: f in v.fields && g in w.fields && f.key == e.key && g.key == h.key ==> Same(f.value, g.value)
  }

  lemma FieldReads(v: Json, w: Json, e: Entry, h: Entry, rest: string, rest': string)
    requires v.Obj? && w.Obj? && Valid(v) && Valid(w) && SeparatorFree(v) && SeparatorFree(w)
    requires EntriesFrom([e], v.fields) && EntriesFrom([h], w.fields) && Delimited(rest) && Delimited(rest')
    requires PairText(e) + rest == PairText(h) + rest'
    ensures e.key == h.key && SameTexts(v, w, e, h) && rest == rest'
    decreases v, 0, 0
  {
    hide Print, Same;
    assert e in [e] && h in [h];
    assert NoSeparator(e.key) && NoSeparator(h.key);
    var f :| f in v.fields && f.key == e.key && Print(f.value) == e.text;
    var g :| g in w.fields && g.key == h.key && Print(g.value) == h.text;
    assert e.key + "\":" + (e.text + rest) == (PairText(e) + rest)[1..];
    assert h.key + "\":" + (h.text + rest') == (PairText(h) + rest')[1..];
    KeyReads(e.key, h.key, e.text + rest, h.text + rest');
    UniqueReading(f.value, g.value, rest, rest');
    OneFieldPerKey(v.fields, f);
    OneFieldPerKey(w.fields, g);
  }

  lemma OneFieldPerKey(fs: seq<Field>, f: Field)
    requires DistinctKeys(fs) && f in fs
    ensures forall g :: g in fs && g.key == f.key ==> g == f
  {
    forall g | g in fs && g.key == f.key ensures g == f {
      var i :| 0 <= i < |fs| && fs[i] == f;
      var j :| 0 <= j < |fs| && fs[j] == g;
    }
  }

  lemma EntryHasKey(es: seq<Entry>, fs: seq<Field>, i: nat)
    requires EntriesFrom(es, fs) && i < |es|
    ensures HasKey(fs, es[i].key)
  {
    hide Print;
    assert es[i] in es;
  }

  lemma SameFields(v: Json, w: Json)
    requires v.Obj? && w.Obj? && Valid(v) && Valid(w)
    requires var es, hs := SortedEntries(v.fields), SortedEntries(w.fields);
      |es| == |hs| && forall i :: 0 <= i < |es| ==> es[i].key == hs[i].key && SameTexts(v, w, es[i], hs[i])
    ensures Same(v, w)
  {
    hide Print, SortedEntries, Valid, EntriesFrom;
    var es, hs := SortedEntries(v.fields), SortedEntries(w.fields);
    SortedEntriesFrom(v.fields);
    SortedEntriesFrom(w.fields);
    forall f | f in v.fields
      ensures HasKey(w.fields, f.key) && forall g :: g in w.fields && g.key == f.key ==> Same(f.value, g.value)
    {
      var i :| 0 <= i < |es| && es[i] == Entry(f.key, Print(f.value));
      EntryHasKey(hs, w.fields, i);
    }
    forall g | g in w.fields ensures HasKey(v.fields, g.key) {
      var i :| 0 <= i < |hs| && hs[i] == Entry(g.key, Print(g.value));
      EntryHasKey(es, v.fields, i);
    }
  }

  /** Values whose keys hold no quote before a colon print alike exactly when they are the same up to key order. */
  lemma PrintsAlikeIffSame(v: Json, w: Json)
    requires Valid(v) && Valid(w) && SeparatorFree(v) && SeparatorFree(w)
    ensures Print(v) == Print(w) <==> Same(v, w)
  {
    if Print(v) == Print(w) {
      assert Print(v) + "" == Print(w) + "";
      UniqueReading(v, w, "", "");
    }
    if Same(v, w) {
      FieldOrderIsFree(v, w);
    }
  }

  lemma OneFieldPrint(f: Field)
    ensures Print(Obj([f])) == "{" + PairText(Entry(f.key, Print(f.value))) + "}"
  {
    hide PairText;
    var a := Entry(f.key, Print(f.value));
    assert PrintFields([f]) == [a];
    assert [a][..0] == [];
    assert Sort([a], ByKey()) == [a];
    assert PairTexts([a]) == [PairText(a)];
  }

  lemma TwoFieldsPrint(f: Field, g: Field)
    requires KeyLeq(f.key, g.key)
    ensures Print(Obj([f, g])) == "{"
      + (PairText(Entry(f.key, Print(f.value))) + "," + PairText(Entry(g.key, Print(g.value)))) + "}"
  {
    hide PairText, KeyLeq;
    var a, b := Entry(f.key, Print(f.value)), Entry(g.key, Print(g.value));
    assert PrintFields([f, g]) == [a, b];
    assert [a, b][..1] == [a] && [a][..0] == [];
    assert Sort([a], ByKey()) == [a];
    assert Sort([a, b], ByKey()) == Insert([a], b, ByKey()) == [a, b];
    assert PairTexts([a, b]) == [PairText(a), PairText(b)];
    JoinTwo(PairText(a), PairText(b));
  }

  lemma JoinTwo(x: string, y: string)
    ensures Join([x, y]) == x + "," + y
  {
    assert [x, y][1..] == [y];
  }

  /**
   * Keys are printed without escapes: every two-field object prints like a one-field object whose key runs through
   * the first value, and so holds a quote before a colon.
   */
  lemma SeparatorInKeyCollides(k: string, v: Json, l: string, w: Json)
    requires KeyLeq(k, l) && k != l && Valid(v) && Valid(w)
    ensures var two := Obj([Field(k, v), Field(l, w)]);
      var one := Obj([Field(k + "\":" + Print(v) + ",\"" + l, w)]);
      && Valid(two) && Valid(one) && Print(two) == Print(one) && !Same(two, one)
      && !SeparatorFree(one)
  {
    hide Print, KeyLeq;
    var f, g, h := Field(k, v), Field(l, w), Field(k + "\":" + Print(v) + ",\"" + l, w);
    OneFieldPrint(h);
    TwoFieldsPrint(f, g);
    assert PairText(Entry(k, Print(v))) + "," + PairText(Entry(l, Print(w))) == PairText(Entry(h.key, Print(w)));
    assert h in [h] && |k| < |h.key| && |l| < |h.key|;
    assert h.key[|k|] == '"' && h.key[|k|+1] == ':';
    assert f in [f, g] && !HasKey([h], f.key);
  }
}
