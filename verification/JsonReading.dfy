/** The canonical text read back: string literals as the standard reads them, objects field by field in key order. */
module JsonReading {
  import opened Wrappers
  import opened Sequences
  import opened StringOrder
  import opened StableSort
  import opened CanonicalJson

  // ---------------------------------------------------------------- string literals

  function Hex(c: char): Option<nat> {
    if '0' <= c <= '9' then Some(c as int - '0' as int)
    else if 'a' <= c <= 'f' then Some(c as int - 'a' as int + 10)
    else if 'A' <= c <= 'F' then Some(c as int - 'A' as int + 10)
    else None
  }

  /** The character behind four hexadecimal digits; halves of a surrogate pair are none. */
  function FromHex(a: char, b: char, c: char, d: char): Option<char> {
    if Hex(a).None? || Hex(b).None? || Hex(c).None? || Hex(d).None? then None
    else
      var n := Hex(a).value * 4096 + Hex(b).value * 256 + Hex(c).value * 16 + Hex(d).value;
      if n < 0xD800 || 0xE000 <= n < 0x10000 then Some(n as char) else None
  }

  /** What a backslash and this character stand for, by section 7 of RFC 8259. */
  function Short(c: char): Option<char> {
    match c
    case '"' => Some('"')
    case '\\' => Some('\\')
    case '/' => Some('/')
    case 'b' => Some(8 as char)
    case 'f' => Some(12 as char)
    case 'n' => Some(10 as char)
    case 'r' => Some(13 as char)
    case 't' => Some(9 as char)
    case _ => None
  }

  /** The first character of a literal's text, and the text behind it. */
  function ReadChar(t: string): (r: Option<(char, string)>)
    ensures r.Some? ==> |r.value.1| < |t|
  {
    if t == "" || t[0] == '"' || t[0] as int < 32 then None
    else if t[0] != '\\' then Some((t[0], t[1..]))
    else if |t| >= 2 && Short(t[1]).Some? then Some((Short(t[1]).value, t[2..]))
    else if |t| >= 6 && t[1] == 'u' && FromHex(t[2], t[3], t[4], t[5]).Some? then
      Some((FromHex(t[2], t[3], t[4], t[5]).value, t[6..]))
    else None
  }

  /** A literal's characters up to the closing quote, and the text behind it. */
  function ReadString(t: string): Option<(string, string)>
    decreases |t|
  {
    if t != "" && t[0] == '"' then Some(("", t[1..]))
    else
      var head := ReadChar(t);
      if head.None? then None
      else
        var tail := ReadString(head.value.1);
        if tail.None? then None else Some(([head.value.0] + tail.value.0, tail.value.1))
  }

  lemma HexDigitReads(n: nat)
    requires n < 16
    ensures Hex(HexDigit(n)) == Some(n)
  {
  }

  lemma EscapedCharReads(c: char, rest: string)
    ensures ReadChar(EscapeChar(c) + rest) == Some((c, rest))
  {
    var e := EscapeChar(c);
    var t := e + rest;
    assert t[|e|..] == rest && t[0] == e[0];
    if |e| >= 2 { assert t[1] == e[1]; }
    if |e| == 6 {
      assert t[2] == '0' && t[3] == '0' && t[4] == e[4] && t[5] == e[5];
      HexDigitReads(c as int / 16);
      HexDigitReads(c as int % 16);
      assert Hex('0') == Some(0);
      hide Hex, HexDigit;
    }
  }

  /** Reading an escaped string up to its closing quote gives the string back, whatever follows. */
  lemma {:induction false} EscapedReadsBack(s: string, rest: string)
    ensures ReadString(Escape(s) + "\"" + rest) == Some((s, rest))
  {
    var t := Escape(s) + "\"" + rest;
    if s == "" {
      assert t[1..] == rest;
    } else {
      var more := Escape(s[1..]) + "\"" + rest;
      assert t == EscapeChar(s[0]) + more;
      EscapedCharReads(s[0], more);
      EscapedReadsBack(s[1..], rest);
      assert t[0] == EscapeChar(s[0])[0];
      hide EscapeChar, ReadChar;
      assert s == [s[0]] + s[1..];
    }
  }

  /** The text of a string value is a quoted literal that reads back as the string. */
  lemma StringReadsBack(s: string, rest: string)
    ensures var t := Print(Str(s)) + rest;
      t[0] == '"' && ReadString(t[1..]) == Some((s, rest))
  {
    assert (Print(Str(s)) + rest)[1..] == Escape(s) + "\"" + rest;
    EscapedReadsBack(s, rest);
  }

  /** The escapes one by one: short where there is a short one, hexadecimal for the other control characters. */
  lemma EscapesAre(c: char)
    ensures EscapeChar('"') == "\\\"" && EscapeChar('\\') == "\\\\"
    ensures EscapeChar('\n') == "\\n" && EscapeChar('\r') == "\\r" && EscapeChar('\t') == "\\t"
    ensures EscapeChar(8 as char) == "\\b" && EscapeChar(12 as char) == "\\f"
    ensures 32 <= c as int && c != '"' && c != '\\' ==> EscapeChar(c) == [c]
    ensures c as int < 32 && c as int !in {8, 9, 10, 12, 13} ==> |EscapeChar(c)| == 6 && "\\u00" <= EscapeChar(c)
  {
  }

  // ---------------------------------------------------------------- the other values

  /** Values without keys are covered by the theorems as they are, and lists and objects through their parts. */
  lemma Covered(b: bool, s: string, items: seq<Json>)
    ensures Valid(Null) && Valid(Bool(b)) && Valid(Str(s)) && Valid(Num("0")) && Valid(Num("-1.5e+300"))
    ensures SeparatorFree(Null) && SeparatorFree(Bool(b)) && SeparatorFree(Str(s)) && SeparatorFree(Num(s))
    ensures (forall x :: x in items ==> Valid(x)) <==> Valid(Arr(items))
    ensures (forall x :: x in items ==> SeparatorFree(x)) <==> SeparatorFree(Arr(items))
  {
  }

  lemma LiteralsPrint(text: string)
    ensures Print(Null) == "null" && Print(Bool(true)) == "true" && Print(Bool(false)) == "false"
    ensures Print(Num(text)) == text
  {
  }

  /** The texts of values in brackets, separated by commas, in their order. */
  function ItemsText(items: seq<Json>): string {
    if items == [] then "]"
    else Print(items[0]) + (if |items| == 1 then "]" else "," + ItemsText(items[1..]))
  }

  function EntriesText(es: seq<Entry>): string {
    if es == [] then "}"
    else "\"" + es[0].key + "\":" + es[0].text + (if |es| == 1 then "}" else "," + EntriesText(es[1..]))
  }

  lemma ListPrints(items: seq<Json>)
    ensures Print(Arr(items)) == "[" + ItemsText(items)
  {
    ItemsJoin(items);
  }

  lemma {:induction false} ItemsJoin(items: seq<Json>)
    ensures Join(PrintItems(items)) + "]" == ItemsText(items)
  {
    hide Print;
    if |items| > 1 {
      ItemsJoin(items[1..]);
      assert PrintItems(items)[1..] == PrintItems(items[1..]);
    }
  }

  /** `a` comes before `b`: they differ first at `n`, where `a` ends or has the smaller character. */
  predicate DifferAt(a: string, b: string, n: nat) {
    n <= |a| && n < |b| && a[..n] == b[..n] && (n == |a| || a[n] < b[n])
  }

  lemma {:induction false} SmallerDiffers(a: string, b: string) returns (n: nat)
    requires KeyLeq(a, b) && a != b
    ensures DifferAt(a, b, n)
  {
    if a == [] || a[0] != b[0] {
      n := 0;
    } else {
      assert a == [a[0]] + a[1..] && b == [b[0]] + b[1..];
      var m := SmallerDiffers(a[1..], b[1..]);
      n := m + 1;
      assert a[..n] == [a[0]] + a[1..][..m] && b[..n] == [b[0]] + b[1..][..m];
    }
  }

  ghost predicate Before(a: string, b: string) {
    exists n :: DifferAt(a, b, n)
  }

  ghost predicate KeysAscend(es: seq<Entry>) {
    forall i, j :: 0 <= i < j < |es| ==> Before(es[i].key, es[j].key)
  }

  lemma {:induction false} EntriesJoin(es: seq<Entry>)
    ensures Join(PairTexts(es)) + "}" == EntriesText(es)
  {
    if |es| > 1 {
      EntriesJoin(es[1..]);
      assert PairTexts(es)[1..] == PairTexts(es[1..]);
    }
  }

  /** An object prints its own fields, each once, in ascending order of their keys. */
  lemma ObjectPrints(fields: seq<Field>) returns (es: seq<Entry>)
    requires DistinctKeys(fields)
    ensures |es| == |fields| && KeysAscend(es)
    ensures forall f :: f in fields ==> Entry(f.key, Print(f.value)) in es
    ensures Print(Obj(fields)) == "{" + EntriesText(es)
  {
    es := SortedEntries(fields);
    PrintIs(Obj(fields), "");
    EntriesJoin(es);
    SortedEntriesFrom(fields);
    EntriesAscend(fields);
    hide Print, EntriesText, Join, PairTexts;
    assert Print(Obj(fields)) + "" == Print(Obj(fields));
    assert Join(PairTexts(es)) + ("}" + "") == Join(PairTexts(es)) + "}";
  }

  lemma EntriesAscend(fields: seq<Field>)
    requires DistinctKeys(fields)
    ensures |SortedEntries(fields)| == |fields| && KeysAscend(SortedEntries(fields))
  {
    var all, es := PrintFields(fields), SortedEntries(fields);
    assert SortedBy(es, ByKey()) by { ByKeyIsTotal(); SortSorts(all, ByKey()); }
    assert UniqueKeys(all) && Distinct(all) by { EntriesOf(fields); }
    assert Distinct(es) && forall e :: e in es ==> e in all by {
      SortMembers(all, ByKey());
      SortKeepsDistinct(all, ByKey());
    }
    hide Print, PrintFields, Sort, SortedEntries, KeyLeq;
    SortedAscend(all, es);
  }

  lemma SortedAscend(all: seq<Entry>, es: seq<Entry>)
    requires UniqueKeys(all) && Distinct(es) && SortedBy(es, ByKey()) && forall e :: e in es ==> e in all
    ensures KeysAscend(es)
  {
    hide KeyLeq;
    forall i, j | 0 <= i < j < |es| ensures Before(es[i].key, es[j].key) {
      assert ByKey()(es[i], es[j]) && es[i] in all && es[j] in all && es[i] != es[j];
      var n := SmallerDiffers(es[i].key, es[j].key);
    }
  }
}
